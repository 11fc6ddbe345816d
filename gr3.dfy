/**
  The hgrid.gr3 mesh reader of Util/gr3_2_esmf.py: the `gr3` object, its
  connectivity helpers, and `parse_gr3_file` over the lines of a file.

  A file is the sequence of its lines without terminators; reading past the
  last line yields the empty string, as `readline()` does at end of file.
  Coordinates are kept as the text `float()` is given; whether `float()`
  accepts a text is the parameter `isFloat`.
 */
module Gr3Esmf {
  import opened Wrappers
  import opened PyText
  import opened Lists

  /** A stored coordinate: the -9999.0 a new `gr3` holds, or `float(text)`. */
  datatype Coord = Fill | Num(text: string)

  /** The `ValueError` that ends a parse, and where it is raised. */
  datatype Gr3Error =
    | BadHeader          // line 2 is not two integers
    | BadNodeLine(node: nat)   // the line of this node (0-based) is malformed
    | BadElemLine(elem: nat)   // the line of this element (0-based) is malformed

  /** One node line without its node number. */
  datatype Node = Node(lon: Coord, lat: Coord, elev: Coord)

  /** Everything a parsed `gr3` object holds. */
  datatype Mesh = Mesh(
    filename: string,
    numElem: int,
    numNodes: int,
    lons: seq<Coord>,
    lats: seq<Coord>,
    elevs: seq<Coord>,
    elems: seq<seq<int>>)

  /** `len([x] * n)`: a negative count gives an empty list. */
  function Count(n: int): nat {
    if n < 0 then 0 else n
  }

  /** The k-th line (0-based) as `readline()` yields it, "" past the end. */
  function Line(lines: seq<string>, k: nat): string {
    if k < |lines| then lines[k] else ""
  }

  /** Row i (0-based) of the section that starts at line `first`. */
  function Row(lines: seq<string>, first: nat, i: nat): string {
    Line(lines, first + i)
  }

  // ---------------------------------------------------------------------
  // Parsing, as values
  // ---------------------------------------------------------------------

  /** Lines 1 and 2: the name, then the element count and the node count. */
  function ParseHeader(nameLine: string, countLine: string): (r: Option<(string, int, int)>)
    ensures r.Some? <==>
      && |Words(countLine)| == 2
      && ParseInt(Words(countLine)[0]).Some?
      && ParseInt(Words(countLine)[1]).Some?
    ensures r.Some? ==> r.value.0 == RStrip(nameLine)
  {
    var ws := Words(countLine);
    if |ws| != 2 then None
    else
      match (ParseInt(ws[0]), ParseInt(ws[1]))
      case (Some(numElem), Some(numNodes)) => Some((RStrip(nameLine), numElem, numNodes))
      case _ => None
  }

  /** A node line: exactly four words, the last three accepted by `float()`;
      the first, the node number, is not looked at. */
  function ParseNode(line: string, isFloat: string -> bool): (r: Option<Node>)
    ensures r.Some? <==>
      |Words(line)| == 4 && isFloat(Words(line)[1]) && isFloat(Words(line)[2]) && isFloat(Words(line)[3])
    ensures r.Some? ==>
      && r.value.lon == Num(Words(line)[1]) && r.value.lat == Num(Words(line)[2])
      && r.value.elev == Num(Words(line)[3])
      && IsWord(r.value.lon.text) && IsWord(r.value.lat.text) && IsWord(r.value.elev.text)
  {
    var ws := Words(line);
    if |ws| != 4 || !isFloat(ws[1]) || !isFloat(ws[2]) || !isFloat(ws[3]) then None
    else Some(Node(Num(ws[1]), Num(ws[2]), Num(ws[3])))
  }

  /** `int(x) - 1` for every listed node id, in order. */
  function ParseIds(ts: seq<string>): (r: Option<seq<int>>)
    ensures r.Some? <==> forall k :: 0 <= k < |ts| ==> ParseInt(ts[k]).Some?
    ensures r.Some? ==>
      && |r.value| == |ts|
      && forall k :: 0 <= k < |ts| ==> r.value[k] == ParseInt(ts[k]).value - 1
  {
    if ts == [] then Some([])
    else
      match (ParseInt(ts[0]), ParseIds(ts[1..]))
      case (Some(v), Some(rest)) => Some([v - 1] + rest)
      case _ => None
  }

  /** An element line: the element number, the node count, then the node ids.
      Neither of the first two words is looked at. */
  function ParseElem(line: string): (r: Option<seq<int>>)
    ensures r.Some? <==>
      |Words(line)| >= 2 && forall k :: 2 <= k < |Words(line)| ==> ParseInt(Words(line)[k]).Some?
    ensures r.Some? ==> |r.value| == |Words(line)| - 2
  {
    var ws := Words(line);
    if |ws| < 2 then None else ParseIds(ws[2..])
  }

  /** `ParseNode` with its `float()` fixed, as a function of the line alone. */
  function NodeParser(isFloat: string -> bool): string -> Option<Node> {
    line => ParseNode(line, isFloat)
  }

  /** The n lines from line `first` on, each read by `parse`; the failure is the
      (0-based) row of the first line `parse` rejects. */
  function ParseRows<T>(parse: string -> Option<T>, lines: seq<string>, first: nat, n: nat): (r: Result<seq<T>, nat>)
    ensures r.Success? ==> |r.value| == n
    ensures r.Failure? ==> r.error < n
  {
    if n == 0 then Success([])
    else
      var prev :- ParseRows(parse, lines, first, n - 1);
      match parse(Row(lines, first, n - 1))
      case None => Failure(n - 1)
      case Some(row) => Success(prev + [row])
  }

  function Lons(nodes: seq<Node>): seq<Coord> {
    seq(|nodes|, k requires 0 <= k < |nodes| => nodes[k].lon)
  }

  function Lats(nodes: seq<Node>): seq<Coord> {
    seq(|nodes|, k requires 0 <= k < |nodes| => nodes[k].lat)
  }

  function Elevs(nodes: seq<Node>): seq<Coord> {
    seq(|nodes|, k requires 0 <= k < |nodes| => nodes[k].elev)
  }

  /** The object built from a parsed header, the node lines read by
      `nodeParse` and the element lines read by `elemParse`, or the error of
      the first line that fails. */
  function MeshFrom(header: Option<(string, int, int)>, lines: seq<string>,
                    nodeParse: string -> Option<Node>, elemParse: string -> Option<seq<int>>)
    : (r: Result<Mesh, Gr3Error>)
    ensures r.Success? ==>
      && |r.value.lons| == |r.value.lats| == |r.value.elevs| == Count(r.value.numNodes)
      && |r.value.elems| == Count(r.value.numElem)
    ensures r.Failure? && r.error.BadNodeLine? ==> header.Some? && r.error.node < Count(header.value.2)
    ensures r.Failure? && r.error.BadElemLine? ==> header.Some? && r.error.elem < Count(header.value.1)
  {
    match header
    case None => Failure(BadHeader)
    case Some((filename, numElem, numNodes)) =>
      match ParseRows(nodeParse, lines, 2, Count(numNodes))
      case Failure(i) => Failure(BadNodeLine(i))
      case Success(nodes) =>
        match ParseRows(elemParse, lines, 2 + Count(numNodes), Count(numElem))
        case Failure(i) => Failure(BadElemLine(i))
        case Success(elems) =>
          Success(Mesh(filename, numElem, numNodes, Lons(nodes), Lats(nodes), Elevs(nodes), elems))
  }

  /** What `parse_gr3_file` returns, or the error it stops with. */
  function ParseMesh(lines: seq<string>, isFloat: string -> bool): (r: Result<Mesh, Gr3Error>)
    ensures r == Failure(BadHeader) <==> ParseHeader(Line(lines, 0), Line(lines, 1)).None?
    ensures r.Success? ==>
      && r.value.filename == RStrip(Line(lines, 0))
      && |r.value.lons| == |r.value.lats| == |r.value.elevs| == Count(r.value.numNodes)
      && |r.value.elems| == Count(r.value.numElem)
  {
    MeshFrom(ParseHeader(Line(lines, 0), Line(lines, 1)), lines, NodeParser(isFloat), ParseElem)
  }

  /** What ParseRows means row by row: it succeeds exactly when every row
      parses, then holding the rows in order, and otherwise fails at the first
      row that does not parse. */
  lemma {:induction false} RowsMeaning<T>(parse: string -> Option<T>, lines: seq<string>, first: nat, n: nat)
    ensures ParseRows(parse, lines, first, n).Success? <==>
      forall i :: 0 <= i < n ==> parse(Row(lines, first, i)).Some?
    ensures ParseRows(parse, lines, first, n).Success? ==>
      forall i :: 0 <= i < n ==>
        ParseRows(parse, lines, first, n).value[i] == parse(Row(lines, first, i)).value
    ensures ParseRows(parse, lines, first, n).Failure? ==>
      var bad := ParseRows(parse, lines, first, n).error;
      && parse(Row(lines, first, bad)).None?
      && forall i :: 0 <= i < bad ==> parse(Row(lines, first, i)).Some?
  {
    if n > 0 {
      RowsMeaning(parse, lines, first, n - 1);
    }
  }

  /** ParseRows reads only its own n lines. */
  lemma {:induction false} RowsLocal<T>(parse: string -> Option<T>, lines: seq<string>, other: seq<string>, first: nat, n: nat)
    requires forall i :: 0 <= i < n ==> Row(lines, first, i) == Row(other, first, i)
    ensures ParseRows(parse, lines, first, n) == ParseRows(parse, other, first, n)
  {
    if n > 0 {
      RowsLocal(parse, lines, other, first, n - 1);
    }
  }

  /** Lines after the last element line (the boundary section of the format)
      are never read. */
  lemma TrailingLinesIgnored(lines: seq<string>, tail: seq<string>, isFloat: string -> bool)
    requires |lines| >= 2
    requires
      var h := ParseHeader(lines[0], lines[1]);
      h.Some? ==> |lines| >= 2 + Count(h.value.2) + Count(h.value.1)
    ensures ParseMesh(lines + tail, isFloat) == ParseMesh(lines, isFloat)
  {
    var all := lines + tail;
    assert Line(all, 0) == Line(lines, 0) == lines[0] && Line(all, 1) == Line(lines, 1) == lines[1];
    var h := ParseHeader(lines[0], lines[1]);
    if h.Some? {
      var nn := Count(h.value.2);
      RowsPrefix(NodeParser(isFloat), lines, tail, 2, nn);
      RowsPrefix(ParseElem, lines, tail, 2 + nn, Count(h.value.1));
    }
  }

  /** A section that ends within `lines` reads the same whatever follows. */
  lemma RowsPrefix<T>(parse: string -> Option<T>, lines: seq<string>, tail: seq<string>, first: nat, n: nat)
    requires first + n <= |lines|
    ensures ParseRows(parse, lines + tail, first, n) == ParseRows(parse, lines, first, n)
  {
    forall i | 0 <= i < n
      ensures Row(lines + tail, first, i) == Row(lines, first, i)
    {
    }
    RowsLocal(parse, lines + tail, lines, first, n);
  }

  // ---------------------------------------------------------------------
  // Writing a mesh back in gr3 form
  // ---------------------------------------------------------------------

  /** The node ids of an element as the file lists them, counted from 1. */
  function ShowIds(ids: seq<int>): (ts: seq<string>)
    ensures |ts| == |ids|
  {
    seq(|ids|, k requires 0 <= k < |ids| => ShowInt(ids[k] + 1))
  }

  /** Node line `num`: its number and its three coordinates. */
  function NodeLine(num: int, lon: string, lat: string, elev: string): string {
    Unwords([ShowInt(num), lon, lat, elev])
  }

  /** Element line `num`: its number, its node count and its node ids. */
  function ElemLine(num: int, ids: seq<int>): string {
    Unwords([ShowInt(num), ShowInt(|ids|)] + ShowIds(ids))
  }

  /** A coordinate that can be written as one word that `float()` accepts. */
  predicate Writable(c: Coord, isFloat: string -> bool) {
    c.Num? && IsWord(c.text) && isFloat(c.text)
  }

  /** A mesh that a gr3 file can describe: a name without trailing whitespace,
      lists as long as the counts say, and writable coordinates. */
  predicate WellFormed(m: Mesh, isFloat: string -> bool) {
    && RStrip(m.filename) == m.filename
    && |m.lons| == |m.lats| == |m.elevs| == Count(m.numNodes)
    && |m.elems| == Count(m.numElem)
    && forall i :: 0 <= i < |m.lons| ==>
         Writable(m.lons[i], isFloat) && Writable(m.lats[i], isFloat) && Writable(m.elevs[i], isFloat)
  }

  /** The lines of a gr3 file holding m: name, counts, node lines, element lines. */
  function Render(m: Mesh): (lines: seq<string>)
    requires |m.lons| == |m.lats| == |m.elevs|
    requires forall i :: 0 <= i < |m.lons| ==> m.lons[i].Num? && m.lats[i].Num? && m.elevs[i].Num?
    ensures |lines| == 2 + |m.lons| + |m.elems|
  {
    [m.filename, Unwords([ShowInt(m.numElem), ShowInt(m.numNodes)])]
    + seq(|m.lons|, i requires 0 <= i < |m.lons| =>
        NodeLine(i + 1, m.lons[i].text, m.lats[i].text, m.elevs[i].text))
    + seq(|m.elems|, i requires 0 <= i < |m.elems| => ElemLine(i + 1, m.elems[i]))
  }

  lemma ParseIdsShow(ids: seq<int>)
    ensures ParseIds(ShowIds(ids)) == Some(ids)
  {
    var ts := ShowIds(ids);
    forall k | 0 <= k < |ids|
      ensures ParseInt(ts[k]) == Some(ids[k] + 1)
    {
      ParseShowInt(ids[k] + 1);
    }
    var r := ParseIds(ts);
    assert forall k :: 0 <= k < |ids| ==> r.value[k] == ids[k];
    assert r.value == ids;
  }

  /** A node line reads back as its coordinates, whatever its number. */
  lemma NodeLineParses(num: int, lon: string, lat: string, elev: string, isFloat: string -> bool)
    requires IsWord(lon) && IsWord(lat) && IsWord(elev)
    requires isFloat(lon) && isFloat(lat) && isFloat(elev)
    ensures ParseNode(NodeLine(num, lon, lat, elev), isFloat) == Some(Node(Num(lon), Num(lat), Num(elev)))
  {
    var ws := [ShowInt(num), lon, lat, elev];
    ShowIntIsWord(num);
    WordsUnwords(ws);
  }

  /** An element line reads back as its ids, whatever its number: the node
      count it lists is not checked against the ids. */
  lemma ElemLineParses(num: int, count: int, ids: seq<int>)
    ensures ParseElem(Unwords([ShowInt(num), ShowInt(count)] + ShowIds(ids))) == Some(ids)
  {
    var ws := [ShowInt(num), ShowInt(count)] + ShowIds(ids);
    ShowIntIsWord(num);
    ShowIntIsWord(count);
    forall k | 0 <= k < |ids|
      ensures IsWord(ShowIds(ids)[k])
    {
      ShowIntIsWord(ids[k] + 1);
    }
    WordsUnwords(ws);
    assert ws[2..] == ShowIds(ids);
    ParseIdsShow(ids);
  }

  /** Writing a well-formed mesh and reading it back gives the same mesh,
      whatever follows the element lines. */
  lemma RenderParses(m: Mesh, isFloat: string -> bool, tail: seq<string>)
    requires WellFormed(m, isFloat)
    ensures ParseMesh(Render(m) + tail, isFloat) == Success(m)
  {
    var all := Render(m) + tail;
    HeaderParses(m);
    assert Line(all, 0) == m.filename;
    assert Line(all, 1) == Unwords([ShowInt(m.numElem), ShowInt(m.numNodes)]);
    var nodes := RenderedNodes(m, isFloat, tail);
    RenderedElems(m, isFloat, tail);
    MeshFromParts(ParseHeader(Line(all, 0), Line(all, 1)), all, NodeParser(isFloat), ParseElem, m, nodes);
  }

  /** MeshFrom assembles the parsed header, nodes and elements. */
  lemma MeshFromParts(header: Option<(string, int, int)>, lines: seq<string>,
                      nodeParse: string -> Option<Node>, elemParse: string -> Option<seq<int>>,
                      m: Mesh, nodes: seq<Node>)
    requires header == Some((m.filename, m.numElem, m.numNodes))
    requires ParseRows(nodeParse, lines, 2, Count(m.numNodes)) == Success(nodes)
    requires Lons(nodes) == m.lons && Lats(nodes) == m.lats && Elevs(nodes) == m.elevs
    requires ParseRows(elemParse, lines, 2 + Count(m.numNodes), Count(m.numElem)) == Success(m.elems)
    ensures MeshFrom(header, lines, nodeParse, elemParse) == Success(m)
  {
  }

  /** The node lines of a rendered mesh read back as its coordinates. */
  lemma RenderedNodes(m: Mesh, isFloat: string -> bool, tail: seq<string>) returns (nodes: seq<Node>)
    requires WellFormed(m, isFloat)
    ensures Lons(nodes) == m.lons && Lats(nodes) == m.lats && Elevs(nodes) == m.elevs
    ensures ParseRows(NodeParser(isFloat), Render(m) + tail, 2, Count(m.numNodes)) == Success(nodes)
  {
    var all := Render(m) + tail;
    var nn := Count(m.numNodes);
    nodes := seq(nn, i requires 0 <= i < nn => Node(m.lons[i], m.lats[i], m.elevs[i]));
    forall i | 0 <= i < nn
      ensures NodeParser(isFloat)(Row(all, 2, i)) == Some(nodes[i])
    {
      assert Row(all, 2, i) == NodeLine(i + 1, m.lons[i].text, m.lats[i].text, m.elevs[i].text);
      NodeLineParses(i + 1, m.lons[i].text, m.lats[i].text, m.elevs[i].text, isFloat);
    }
    RowsAllParse(NodeParser(isFloat), all, 2, nodes);
    assert Lons(nodes) == m.lons && Lats(nodes) == m.lats && Elevs(nodes) == m.elevs;
  }

  /** The element lines of a rendered mesh read back as its elements. */
  lemma RenderedElems(m: Mesh, isFloat: string -> bool, tail: seq<string>)
    requires WellFormed(m, isFloat)
    ensures ParseRows(ParseElem, Render(m) + tail, 2 + Count(m.numNodes), Count(m.numElem)) == Success(m.elems)
  {
    var all := Render(m) + tail;
    var start := 2 + Count(m.numNodes);
    forall i | 0 <= i < |m.elems|
      ensures ParseElem(Row(all, start, i)) == Some(m.elems[i])
    {
      assert Row(all, start, i) == ElemLine(i + 1, m.elems[i]);
      ElemLineParses(i + 1, |m.elems[i]|, m.elems[i]);
    }
    RowsAllParse(ParseElem, all, start, m.elems);
  }

  lemma HeaderParses(m: Mesh)
    requires RStrip(m.filename) == m.filename
    ensures ParseHeader(m.filename, Unwords([ShowInt(m.numElem), ShowInt(m.numNodes)])) ==
      Some((m.filename, m.numElem, m.numNodes))
  {
    ShowIntIsWord(m.numElem);
    ShowIntIsWord(m.numNodes);
    WordsUnwords([ShowInt(m.numElem), ShowInt(m.numNodes)]);
    ParseShowInt(m.numElem);
    ParseShowInt(m.numNodes);
  }

  /** Rows that all parse give their values, in order. */
  lemma {:induction false} RowsAllParse<T>(parse: string -> Option<T>, lines: seq<string>, first: nat, rows: seq<T>)
    requires forall i :: 0 <= i < |rows| ==> parse(Row(lines, first, i)) == Some(rows[i])
    ensures ParseRows(parse, lines, first, |rows|) == Success(rows)
    decreases |rows|
  {
    if rows != [] {
      var init := rows[..|rows| - 1];
      RowsAllParse(parse, lines, first, init);
      assert init + [rows[|rows| - 1]] == rows;
    }
  }

  // ---------------------------------------------------------------------
  // The connectivity helpers, as values
  // ---------------------------------------------------------------------

  /** `[len(elem) for elem in elems]`. */
  function Lengths(rows: seq<seq<int>>): (r: seq<int>)
    ensures |r| == |rows|
    ensures forall i :: 0 <= i < |rows| ==> r[i] == |rows[i]|
  {
    if rows == [] then [] else [|rows[0]|] + Lengths(rows[1..])
  }

  /** `[x] * n`. */
  function Repeat(x: int, n: nat): (r: seq<int>)
    ensures |r| == n && forall k :: 0 <= k < n ==> r[k] == x
  {
    if n == 0 then [] else [x] + Repeat(x, n - 1)
  }

  /** Every row completed with `pad` up to width w. */
  function Pad(rows: seq<seq<int>>, w: int, pad: int): seq<seq<int>>
    requires forall i :: 0 <= i < |rows| ==> |rows[i]| <= w
  {
    seq(|rows|, i requires 0 <= i < |rows| => rows[i] + Repeat(pad, w - |rows[i]|))
  }

  /** Reading a padded table back with the row lengths beside it, as a reader of
      `elementConn` and `numElementConn` does. */
  function Unpad(rows: seq<seq<int>>, lens: seq<int>): seq<seq<int>>
    requires |lens| == |rows|
    requires forall i :: 0 <= i < |rows| ==> 0 <= lens[i] <= |rows[i]|
  {
    seq(|rows|, i requires 0 <= i < |rows| => rows[i][..lens[i]])
  }

  /** Padding loses nothing: each padded row cut back to its own length is the row. */
  lemma PadUnpad(rows: seq<seq<int>>, w: int, pad: int)
    requires forall i :: 0 <= i < |rows| ==> |rows[i]| <= w
    ensures forall i :: 0 <= i < |rows| ==> |Pad(rows, w, pad)[i]| == w
    ensures Unpad(Pad(rows, w, pad), Lengths(rows)) == rows
  {
    var padded := Pad(rows, w, pad);
    forall i | 0 <= i < |rows|
      ensures padded[i][..|rows[i]|] == rows[i]
    {
      assert padded[i] == rows[i] + Repeat(pad, w - |rows[i]|);
    }
  }

  // ---------------------------------------------------------------------
  // The gr3 object
  // ---------------------------------------------------------------------

  class Gr3 {
    const filename: string
    const numElem: int
    const numNodes: int
    const lons: array<Coord>
    const lats: array<Coord>
    const elevs: array<Coord>
    const elems: array<seq<int>>

    /** The lists have the lengths `__init__` gives them, and are three lists. */
    predicate Valid()
      reads this
    {
      && lons.Length == lats.Length == elevs.Length == Count(numNodes)
      && elems.Length == Count(numElem)
      && lons != lats && lats != elevs && lons != elevs
    }

    /** The object as a value. */
    function Model(): Mesh
      reads this, lons, lats, elevs, elems
    {
      Mesh(filename, numElem, numNodes, lons[..], lats[..], elevs[..], elems[..])
    }

    /** `__init__`, given the counts after `int()`: every coordinate the fill
        value and every element empty. */
    constructor(filename: string, numElem: int, numNodes: int)
      ensures Valid()
      ensures fresh(lons) && fresh(lats) && fresh(elevs) && fresh(elems)
      ensures this.filename == filename && this.numElem == numElem && this.numNodes == numNodes
      ensures forall i :: 0 <= i < lons.Length ==> lons[i] == Fill && lats[i] == Fill && elevs[i] == Fill
      ensures forall i :: 0 <= i < elems.Length ==> elems[i] == []
    {
      this.filename := filename;
      this.numElem := numElem;
      this.numNodes := numNodes;
      lons := new Coord[Count(numNodes)](_ => Fill);
      lats := new Coord[Count(numNodes)](_ => Fill);
      elevs := new Coord[Count(numNodes)](_ => Fill);
      elems := new seq<int>[Count(numElem)](_ => []);
    }

    /** `elem_lens`: one length per element, in element order. */
    function ElemLens(): (r: seq<int>)
      reads this, elems
      ensures |r| == elems.Length
      ensures forall i :: 0 <= i < elems.Length ==> r[i] == |elems[i]|
    {
      Lengths(elems[..])
    }

    /** `max_elem_len`: the longest element; `max` of an empty list raises,
        which is None here. */
    function MaxElemLen(): (r: Option<int>)
      reads this, elems
      ensures r.None? <==> elems.Length == 0
      ensures r.Some? ==> exists i :: 0 <= i < elems.Length && r.value == |elems[i]|
      ensures r.Some? ==> forall i :: 0 <= i < elems.Length ==> |elems[i]| <= r.value
    {
      if elems.Length == 0 then None else Some(Max(ElemLens()))
    }

    /** `padded_elems`: every element completed with padVal up to the longest
        element's length; None where `max_elem_len` raises. */
    function PaddedElems(padVal: int := -1): (r: Option<seq<seq<int>>>)
      reads this, elems
      ensures r.None? <==> elems.Length == 0
      ensures r.Some? ==> |r.value| == elems.Length
      ensures r.Some? ==> forall i :: 0 <= i < elems.Length ==>
        && |r.value[i]| == MaxElemLen().value
        && r.value[i][..|elems[i]|] == elems[i]
        && forall k :: |elems[i]| <= k < |r.value[i]| ==> r.value[i][k] == padVal
    {
      match MaxElemLen()
      case None => None
      case Some(w) => Some(Pad(elems[..], w, padVal))
    }

    /** The padded table and the element lengths together give back the elements. */
    lemma PaddedUnpad(padVal: int)
      requires elems.Length > 0
      ensures Unpad(PaddedElems(padVal).value, ElemLens()) == elems[..]
    {
      PadUnpad(elems[..], MaxElemLen().value, padVal);
    }
  }

  // ---------------------------------------------------------------------
  // parse_gr3_file
  // ---------------------------------------------------------------------

  /** Once a row fails, reading more rows fails the same way. */
  lemma {:induction false} RowsFailureStays<T>(parse: string -> Option<T>, lines: seq<string>, first: nat, i: nat, n: nat)
    requires i <= n && ParseRows(parse, lines, first, i).Failure?
    ensures ParseRows(parse, lines, first, n) == ParseRows(parse, lines, first, i)
    decreases n - i
  {
    if i < n {
      RowsFailureStays(parse, lines, first, i, n - 1);
    }
  }

  /** The loop over the node lines: position i of the three coordinate lists
      from the i-th node line as `parse` reads it; the error is the row that
      does not parse. */
  method ReadNodes(g: Gr3, lines: seq<string>, parse: string -> Option<Node>) returns (err: Option<nat>)
    requires g.Valid()
    modifies g.lons, g.lats, g.elevs
    ensures err.Some? <==> ParseRows(parse, lines, 2, g.lons.Length).Failure?
    ensures err.Some? ==> err.value == ParseRows(parse, lines, 2, g.lons.Length).error
    ensures err.None? ==>
      var nodes := ParseRows(parse, lines, 2, g.lons.Length).value;
      g.lons[..] == Lons(nodes) && g.lats[..] == Lats(nodes) && g.elevs[..] == Elevs(nodes)
  {
    ghost var nodes: seq<Node> := [];
    for i := 0 to g.lons.Length
      invariant ParseRows(parse, lines, 2, i) == Success(nodes)
      invariant forall k :: 0 <= k < i ==>
        g.lons[k] == nodes[k].lon && g.lats[k] == nodes[k].lat && g.elevs[k] == nodes[k].elev
    {
      var node := parse(Row(lines, 2, i));
      if node.None? {
        RowsFailureStays(parse, lines, 2, i + 1, g.lons.Length);
        return Some(i);
      }
      g.lons[i] := node.value.lon;
      g.lats[i] := node.value.lat;
      g.elevs[i] := node.value.elev;
      nodes := nodes + [node.value];
    }
    assert g.lons[..] == Lons(nodes) && g.lats[..] == Lats(nodes) && g.elevs[..] == Elevs(nodes);
    return None;
  }

  /** The loop over the element lines: element i from the i-th element line as
      `parse` reads it; the error is the row that does not parse. */
  method ReadElems(g: Gr3, lines: seq<string>, parse: string -> Option<seq<int>>) returns (err: Option<nat>)
    requires g.Valid()
    modifies g.elems
    ensures err.Some? <==> ParseRows(parse, lines, 2 + g.lons.Length, g.elems.Length).Failure?
    ensures err.Some? ==> err.value == ParseRows(parse, lines, 2 + g.lons.Length, g.elems.Length).error
    ensures err.None? ==> g.elems[..] == ParseRows(parse, lines, 2 + g.lons.Length, g.elems.Length).value
  {
    ghost var elems: seq<seq<int>> := [];
    for i := 0 to g.elems.Length
      invariant ParseRows(parse, lines, 2 + g.lons.Length, i) == Success(elems)
      invariant forall k :: 0 <= k < i ==> g.elems[k] == elems[k]
    {
      var ids := parse(Row(lines, 2 + g.lons.Length, i));
      if ids.None? {
        RowsFailureStays(parse, lines, 2 + g.lons.Length, i + 1, g.elems.Length);
        return Some(i);
      }
      g.elems[i] := ids.value;
      elems := elems + [ids.value];
    }
    assert g.elems[..] == elems;
    return None;
  }

  /** The body of `parse_gr3_file` after the header: a new object filled line
      by line, or the error. */
  method ReadMesh(header: Option<(string, int, int)>, lines: seq<string>,
                  nodeParse: string -> Option<Node>, elemParse: string -> Option<seq<int>>)
    returns (r: Result<Gr3, Gr3Error>)
    ensures r.Success? <==> MeshFrom(header, lines, nodeParse, elemParse).Success?
    ensures r.Failure? ==> r.error == MeshFrom(header, lines, nodeParse, elemParse).error
    ensures r.Success? ==> fresh(r.value) && r.value.Valid()
    ensures r.Success? ==> r.value.Model() == MeshFrom(header, lines, nodeParse, elemParse).value
  {
    if header.None? {
      return Failure(BadHeader);
    }
    var g := new Gr3(header.value.0, header.value.1, header.value.2);
    var err := ReadNodes(g, lines, nodeParse);
    if err.Some? {
      return Failure(BadNodeLine(err.value));
    }
    err := ReadElems(g, lines, elemParse);
    if err.Some? {
      return Failure(BadElemLine(err.value));
    }
    return Success(g);
  }

  /** `parse_gr3_file`: a new object filled line by line, or the error. */
  method ParseGr3File(lines: seq<string>, isFloat: string -> bool) returns (r: Result<Gr3, Gr3Error>)
    ensures r.Success? <==> ParseMesh(lines, isFloat).Success?
    ensures r.Failure? ==> r.error == ParseMesh(lines, isFloat).error
    ensures r.Success? ==> fresh(r.value) && r.value.Valid()
    ensures r.Success? ==> r.value.Model() == ParseMesh(lines, isFloat).value
  {
    var header := ParseHeader(Line(lines, 0), Line(lines, 1));
    r := ReadMesh(header, lines, NodeParser(isFloat), ParseElem);
  }
}
