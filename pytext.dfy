/**
  The pieces of Python's text handling that the configuration reader and the
  mesh reader rely on: `str.isspace`, `str.strip`, `str.split(sep)`,
  `str.split()`, `int(str)` and `json.loads` of an array of integers.
  Characters are Unicode scalar values; digits are the ASCII digits.
 */
module PyText {
  import opened Wrappers

  // ---------------------------------------------------------------------
  // Characters
  // ---------------------------------------------------------------------

  /** The code-point ranges above U+0084 of the characters for which Python's
      `str.isspace` holds: those of bidirectional class WS, B or S and those of
      general category Zs. */
  const SpaceRanges: seq<(char, char)> := [
    ('\U{85}', '\U{85}'), ('\U{A0}', '\U{A0}'),
    ('\U{1680}', '\U{1680}'), ('\U{2000}', '\U{200A}'), ('\U{2028}', '\U{2029}'),
    ('\U{202F}', '\U{202F}'), ('\U{205F}', '\U{205F}'), ('\U{3000}', '\U{3000}')]

  /** c lies in one of the ranges. */
  predicate InRanges(c: char, ranges: seq<(char, char)>) {
    ranges != [] && ((ranges[0].0 <= c <= ranges[0].1) || InRanges(c, ranges[1..]))
  }

  /** Python's `str.isspace` for one character: tab to carriage return, the
      four separators U+001C to U+001F and the blank, then the ranges above. */
  predicate IsSpace(c: char) {
    if c <= ' ' then '\t' <= c <= '\r' || '\U{1C}' <= c
    else '\U{85}' <= c && InRanges(c, SpaceRanges)
  }

  /** No printable ASCII character is whitespace. */
  lemma PrintableNotSpace(c: char)
    requires '!' <= c <= '~'
    ensures !IsSpace(c)
  {
  }

  predicate IsDigit(c: char) {
    '0' <= c <= '9'
  }

  function DigitValue(c: char): (d: nat)
    requires IsDigit(c)
    ensures d < 10
  {
    (c as int) - ('0' as int)
  }

  function DigitChar(d: nat): (c: char)
    requires d < 10
    ensures IsDigit(c) && DigitValue(c) == d
  {
    (('0' as int) + d) as char
  }

  // ---------------------------------------------------------------------
  // str.strip()
  // ---------------------------------------------------------------------

  /** `s.lstrip()`: s without its leading whitespace. */
  function LStrip(s: string): (r: string)
    ensures |r| <= |s|
    ensures r == [] || !IsSpace(r[0])
  {
    if s != [] && IsSpace(s[0]) then LStrip(s[1..]) else s
  }

  /** `s.rstrip()`: s without its trailing whitespace. */
  function RStrip(s: string): (r: string)
    ensures |r| <= |s|
    ensures r == [] || !IsSpace(r[|r| - 1])
    ensures r != [] ==> r[0] == s[0]
  {
    if s != [] && IsSpace(s[|s| - 1]) then RStrip(s[..|s| - 1]) else s
  }

  /** lstrip removes a prefix of s, and only whitespace. */
  lemma {:induction false} LStripRemovesSpace(s: string)
    ensures LStrip(s) == s[|s| - |LStrip(s)|..]
    ensures forall i :: 0 <= i < |s| - |LStrip(s)| ==> IsSpace(s[i])
    decreases |s|
  {
    if s != [] && IsSpace(s[0]) {
      LStripRemovesSpace(s[1..]);
    }
  }

  /** rstrip removes a suffix of s, and only whitespace. */
  lemma {:induction false} RStripRemovesSpace(s: string)
    ensures RStrip(s) == s[..|RStrip(s)|]
    ensures forall i :: |RStrip(s)| <= i < |s| ==> IsSpace(s[i])
    decreases |s|
  {
    if s != [] && IsSpace(s[|s| - 1]) {
      RStripRemovesSpace(s[..|s| - 1]);
    }
  }

  /** A string that neither begins nor ends with whitespace. */
  predicate IsStripped(s: string) {
    s == [] || (!IsSpace(s[0]) && !IsSpace(s[|s| - 1]))
  }

  predicate AllSpace(s: string) {
    forall i :: 0 <= i < |s| ==> IsSpace(s[i])
  }

  /** `s.strip()`: s without its leading and trailing whitespace. */
  function Strip(s: string): (r: string)
    ensures |r| <= |s|
    ensures IsStripped(r)
  {
    RStrip(LStrip(s))
  }

  lemma {:induction false} LStripPadded(pre: string, core: string)
    requires AllSpace(pre)
    requires core == [] || !IsSpace(core[0])
    ensures LStrip(pre + core) == core
    decreases |pre|
  {
    if pre != [] {
      assert (pre + core)[1..] == pre[1..] + core;
      LStripPadded(pre[1..], core);
    } else {
      assert pre + core == core;
    }
  }

  lemma {:induction false} RStripPadded(core: string, post: string)
    requires AllSpace(post)
    requires core == [] || !IsSpace(core[|core| - 1])
    ensures RStrip(core + post) == core
    decreases |post|
  {
    if post != [] {
      var n := |core + post|;
      assert (core + post)[..n - 1] == core + post[..|post| - 1];
      RStripPadded(core, post[..|post| - 1]);
    } else {
      assert core + post == core;
    }
  }

  /** Stripping recovers exactly the text between surrounding whitespace:
      Strip is the inverse of padding a stripped string with whitespace. */
  lemma StripPadded(pre: string, core: string, post: string)
    requires AllSpace(pre) && AllSpace(post) && IsStripped(core)
    ensures Strip(pre + core + post) == core
  {
    assert pre + core + post == pre + (core + post);
    if core == [] {
      assert AllSpace(core + post);
      assert pre + core + post == pre + post;
      LStripPadded(pre + post, []);
      assert pre + post + [] == pre + post;
    } else {
      assert (core + post)[0] == core[0];
      LStripPadded(pre, core + post);
      RStripPadded(core, post);
    }
  }

  /** Stripping a stripped string changes nothing. */
  lemma StripStripped(s: string)
    requires IsStripped(s)
    ensures Strip(s) == s
  {
    StripPadded([], s, []);
    assert [] + s + [] == s;
  }

  // ---------------------------------------------------------------------
  // str.split(sep) for a one-character separator, and its inverse sep.join
  // ---------------------------------------------------------------------

  /** `sep.join(parts)`. */
  function Join(parts: seq<string>, sep: char): string
    requires |parts| > 0
  {
    if |parts| == 1 then parts[0] else parts[0] + [sep] + Join(parts[1..], sep)
  }

  /** `s.split(sep)`: the pieces of s between occurrences of sep, in order.
      There is always at least one piece (`"".split(",") == [""]`). */
  function Split(s: string, sep: char): (parts: seq<string>)
    ensures |parts| > 0
    ensures Join(parts, sep) == s
    ensures forall i :: 0 <= i < |parts| ==> sep !in parts[i]
  {
    if s == [] then [[]]
    else
      var rest := Split(s[1..], sep);
      if s[0] == sep then
        assert ([[]] + rest)[1..] == rest;
        [[]] + rest
      else
        var parts := [[s[0]] + rest[0]] + rest[1..];
        assert parts[1..] == rest[1..];
        assert |rest| > 1 ==> Join(rest, sep) == rest[0] + [sep] + Join(rest[1..], sep);
        parts
  }

  /** Splitting text that begins with a separator-free piece and a separator. */
  lemma {:induction false} SplitAfterPiece(x: string, sep: char, y: string)
    requires sep !in x
    ensures Split(x + [sep] + y, sep) == [x] + Split(y, sep)
    decreases |x|
  {
    if x == [] {
      assert x + [sep] + y == [sep] + y;
      assert ([sep] + y)[1..] == y;
    } else {
      var s := x + [sep] + y;
      assert s[0] == x[0] && s[1..] == x[1..] + [sep] + y;
      SplitAfterPiece(x[1..], sep, y);
      assert [x[0]] + x[1..] == x;
    }
  }

  /** A separator-free string is a single piece. */
  lemma {:induction false} SplitSinglePiece(x: string, sep: char)
    requires sep !in x
    ensures Split(x, sep) == [x]
    decreases |x|
  {
    if x != [] {
      SplitSinglePiece(x[1..], sep);
      assert [x[0]] + x[1..] == x;
    }
  }

  /** Split inverts Join: the pieces joined by sep are recovered by splitting on sep. */
  lemma {:induction false} SplitJoin(parts: seq<string>, sep: char)
    requires |parts| > 0
    requires forall i :: 0 <= i < |parts| ==> sep !in parts[i]
    ensures Split(Join(parts, sep), sep) == parts
    decreases |parts|
  {
    if |parts| == 1 {
      SplitSinglePiece(parts[0], sep);
    } else {
      SplitJoin(parts[1..], sep);
      SplitAfterPiece(parts[0], sep, Join(parts[1..], sep));
      assert [parts[0]] + parts[1..] == parts;
    }
  }

  /** The number of pieces is one more than the number of separators. */
  lemma {:induction false} SplitCount(s: string, sep: char)
    ensures |Split(s, sep)| == multiset(s)[sep] + 1
  {
    if s != [] {
      SplitCount(s[1..], sep);
      assert s == [s[0]] + s[1..];
      assert multiset(s) == multiset([s[0]]) + multiset(s[1..]);
    }
  }

  // ---------------------------------------------------------------------
  // str.split() with no argument, and its inverse " ".join
  // ---------------------------------------------------------------------

  /** A word: a non-empty string without whitespace. */
  predicate IsWord(w: string) {
    w != [] && forall i :: 0 <= i < |w| ==> !IsSpace(w[i])
  }

  /** The length of the longest whitespace-free prefix of s. */
  function WordEnd(s: string): (k: nat)
    ensures k <= |s|
    ensures forall i :: 0 <= i < k ==> !IsSpace(s[i])
    ensures k == |s| || IsSpace(s[k])
  {
    if s == [] || IsSpace(s[0]) then 0 else 1 + WordEnd(s[1..])
  }

  /** `s.split()`: the maximal runs of non-whitespace characters of s, in order. */
  function Words(s: string): (ws: seq<string>)
    ensures forall i :: 0 <= i < |ws| ==> IsWord(ws[i])
    ensures ws == [] <==> AllSpace(s)
    decreases |s|
  {
    var t := LStrip(s);
    LStripRemovesSpace(s);
    if t == [] then []
    else
      var k := WordEnd(t);
      [t[..k]] + Words(t[k..])
  }

  /** `" ".join(ws)`. */
  function Unwords(ws: seq<string>): string {
    if ws == [] then [] else if |ws| == 1 then ws[0] else ws[0] + " " + Unwords(ws[1..])
  }

  /** Words inverts Unwords: words joined by single spaces split back into the same words. */
  lemma {:induction false} WordsUnwords(ws: seq<string>)
    requires forall i :: 0 <= i < |ws| ==> IsWord(ws[i])
    ensures Words(Unwords(ws)) == ws
    decreases |ws|
  {
    if |ws| == 1 {
      WordsSingle(ws[0]);
    } else if |ws| > 1 {
      WordsUnwords(ws[1..]);
      WordsUnwordsStep(ws);
    }
  }

  lemma WordsSingle(w: string)
    requires IsWord(w)
    ensures Words(Unwords([w])) == [w]
  {
    WordsCons(w, []);
    assert w + [] == w;
  }

  /** One more word in front of words that already split back. */
  lemma WordsUnwordsStep(ws: seq<string>)
    requires |ws| > 1 && IsWord(ws[0]) && IsWord(ws[1])
    requires Words(Unwords(ws[1..])) == ws[1..]
    ensures Words(Unwords(ws)) == ws
  {
    var u := Unwords(ws[1..]);
    UnwordsCons(ws);
    UnwordsHead(ws[1..]);
    WordsSpaceCons(ws[0], u);
    ConsTail(ws);
  }

  lemma ConsTail<T>(xs: seq<T>)
    requires xs != []
    ensures [xs[0]] + xs[1..] == xs
  {
  }

  lemma UnwordsCons(ws: seq<string>)
    requires |ws| > 1
    ensures Unwords(ws) == ws[0] + (" " + Unwords(ws[1..]))
  {
  }

  /** A word, a single space, and the rest. */
  lemma WordsSpaceCons(w: string, u: string)
    requires IsWord(w)
    requires u == [] || !IsSpace(u[0])
    ensures Words(w + (" " + u)) == [w] + Words(u)
  {
    WordsCons(w, " " + u);
    WordsAfterSpace(" ", u);
  }

  /** A word followed by whitespace (or nothing) is the first word. */
  lemma WordsCons(w: string, tail: string)
    requires IsWord(w)
    requires tail == [] || IsSpace(tail[0])
    ensures Words(w + tail) == [w] + Words(tail)
  {
    var s := w + tail;
    LStripPadded([], s);
    assert [] + s == s;
    WordEndOf(w, tail);
    assert s[..|w|] == w && s[|w|..] == tail;
  }

  /** Leading whitespace does not change the words. */
  lemma WordsAfterSpace(pre: string, u: string)
    requires AllSpace(pre)
    requires u == [] || !IsSpace(u[0])
    ensures Words(pre + u) == Words(u)
  {
    LStripPadded(pre, u);
    LStripPadded([], u);
    assert [] + u == u;
  }

  lemma {:induction false} WordEndOf(w: string, tail: string)
    requires IsWord(w)
    requires tail == [] || IsSpace(tail[0])
    ensures WordEnd(w + tail) == |w|
    decreases |w|
  {
    if |w| == 1 {
      assert (w + tail)[1..] == tail;
    } else {
      assert (w + tail)[1..] == w[1..] + tail;
      WordEndOf(w[1..], tail);
    }
  }

  lemma UnwordsHead(ws: seq<string>)
    requires |ws| > 0 && IsWord(ws[0])
    ensures Unwords(ws) != [] && !IsSpace(Unwords(ws)[0])
  {
  }

  // ---------------------------------------------------------------------
  // int(str) in base 10
  // ---------------------------------------------------------------------

  /** ASCII digits with single underscores between digits, as `int()` accepts them:
      digits and underscores, a digit at each end and no two underscores in a row. */
  predicate IsDigitRun(s: string) {
    && |s| > 0
    && IsDigit(s[0])
    && IsDigit(s[|s| - 1])
    && DigitsOrUnderscores(s)
    && forall i, j :: 0 <= i < |s| && 0 <= j < |s| && j == i + 1 ==> !(s[i] == '_' && s[j] == '_')
  }

  predicate DigitsOrUnderscores(s: string) {
    forall i :: 0 <= i < |s| ==> IsDigit(s[i]) || s[i] == '_'
  }

  /** The number that the digits of s spell, underscores ignored. */
  function RunValue(s: string): nat
    requires DigitsOrUnderscores(s)
  {
    if s == [] then 0
    else if s[|s| - 1] == '_' then RunValue(s[..|s| - 1])
    else RunValue(s[..|s| - 1]) * 10 + DigitValue(s[|s| - 1])
  }

  /** `int(s)`: surrounding whitespace is ignored, an optional sign is allowed. */
  function ParseInt(s: string): (r: Option<int>)
    ensures IsDigitRun(Strip(s)) ==> r == Some(RunValue(Strip(s)))
    ensures r.Some? ==>
      var t := Strip(s);
      && t != [] && IsDigit(t[|t| - 1])
      && (forall i :: 1 <= i < |t| ==> IsDigit(t[i]) || t[i] == '_')
      && (r.value < 0 ==> t[0] == '-')
  {
    var t := Strip(s);
    if t != [] && (t[0] == '-' || t[0] == '+') then
      if IsDigitRun(t[1..]) then
        var v: int := RunValue(t[1..]);
        Some(if t[0] == '-' then -v else v)
      else None
    else if IsDigitRun(t) then Some(RunValue(t))
    else None
  }

  /** `str(n)` for a natural number. */
  function ShowNat(n: nat): (s: string)
    ensures |s| > 0 && forall i :: 0 <= i < |s| ==> IsDigit(s[i])
  {
    if n < 10 then [DigitChar(n)] else ShowNat(n / 10) + [DigitChar(n % 10)]
  }

  /** `str(n)`. */
  function ShowInt(n: int): string {
    if n < 0 then "-" + ShowNat(-n) else ShowNat(n)
  }

  lemma {:induction false} ShowNatValue(n: nat)
    ensures IsDigitRun(ShowNat(n)) && RunValue(ShowNat(n)) == n
  {
    if n >= 10 {
      ShowNatValue(n / 10);
      var s := ShowNat(n);
      assert s[..|s| - 1] == ShowNat(n / 10);
    }
  }

  lemma ParseIntRun(d: string)
    requires IsDigitRun(d)
    ensures ParseInt(d) == Some(RunValue(d))
  {
    PrintableNotSpace(d[0]);
    PrintableNotSpace(d[|d| - 1]);
    StripStripped(d);
  }

  lemma ParseIntNegativeRun(d: string)
    requires IsDigitRun(d)
    ensures ParseInt("-" + d) == Some(-(RunValue(d) as int))
  {
    var s := "-" + d;
    NegativeStripped(d);
    TailOfCons('-', d);
    var t := Strip(s);
    assert t[0] == '-' && t[1..] == d;
    assert IsDigitRun(t[1..]);
  }

  lemma NegativeStripped(d: string)
    requires IsDigitRun(d)
    ensures Strip("-" + d) == "-" + d
  {
    var s := "-" + d;
    assert s[0] == '-' && s[|s| - 1] == d[|d| - 1];
    PrintableNotSpace('-');
    PrintableNotSpace(d[|d| - 1]);
    StripStripped(s);
  }

  lemma TailOfCons(c: char, d: string)
    ensures ([c] + d)[1..] == d
  {
  }

  /** int() reads back what str() writes. */
  lemma ParseShowInt(n: int)
    ensures ParseInt(ShowInt(n)) == Some(n)
  {
    var m := if n < 0 then -n else n;
    ShowNatValue(m);
    if n < 0 {
      ParseIntNegativeRun(ShowNat(m));
    } else {
      ParseIntRun(ShowNat(m));
    }
  }

  /** `str(n)` is one word of `split()`. */
  lemma ShowIntIsWord(n: int)
    ensures IsWord(ShowInt(n))
  {
    var s := ShowInt(n);
    forall i | 0 <= i < |s|
      ensures !IsSpace(s[i])
    {
      if n < 0 {
        assert s[i] == '-' || s[i] == ShowNat(-n)[i - 1];
      }
      PrintableNotSpace(s[i]);
    }
  }

  // ---------------------------------------------------------------------
  // json.loads of an array of integers, and json.dumps of one
  // ---------------------------------------------------------------------

  /** The whitespace of JSON. */
  predicate IsJsonSpace(c: char) {
    c == ' ' || c == '\t' || c == '\n' || c == '\r'
  }

  function SkipJsonSpace(s: string): (r: string)
    ensures |r| <= |s|
    ensures r == [] || !IsJsonSpace(r[0])
  {
    if s != [] && IsJsonSpace(s[0]) then SkipJsonSpace(s[1..]) else s
  }

  /** The length of the longest all-digit prefix of s. */
  function DigitPrefix(s: string): (k: nat)
    ensures k <= |s|
    ensures forall i :: 0 <= i < k ==> IsDigit(s[i])
    ensures k == |s| || !IsDigit(s[k])
  {
    if s == [] || !IsDigit(s[0]) then 0 else 1 + DigitPrefix(s[1..])
  }

  /** A JSON integer without its sign, `0|[1-9][0-9]*` not followed by a fraction
      or an exponent, at the front of s: its value and the text after it. */
  function LexJsonNat(s: string): (r: Option<(nat, string)>)
    ensures r.Some? ==> |r.value.1| < |s|
  {
    if s == [] || !IsDigit(s[0]) then None
    else
      var k := if s[0] == '0' then 1 else DigitPrefix(s);
      var rest := s[k..];
      if rest != [] && (rest[0] == '.' || rest[0] == 'e' || rest[0] == 'E') then None
      else Some((RunValue(s[..k]), rest))
  }

  /** A JSON number that denotes an integer, `-?(0|[1-9][0-9]*)` not followed by a
      fraction or an exponent, at the front of s: its value and the text after it. */
  function LexJsonInt(s: string): (r: Option<(int, string)>)
    ensures r.Some? ==> |r.value.1| < |s|
  {
    if s != [] && s[0] == '-' then
      match LexJsonNat(s[1..])
      case None => None
      case Some((v, rest)) => Some((-(v as int), rest))
    else
      match LexJsonNat(s)
      case None => None
      case Some((v, rest)) => Some((v as int, rest))
  }

  /** The rest of an array after one of its elements: more `, element` items, then `]`. */
  function ParseArrayRest(s: string): (r: Option<(seq<int>, string)>)
    ensures r.Some? ==> |r.value.1| < |s|
    decreases |s|
  {
    var t := SkipJsonSpace(s);
    if t == [] then None
    else if t[0] == ']' then Some(([], t[1..]))
    else if t[0] == ',' then
      match LexJsonInt(SkipJsonSpace(t[1..]))
      case None => None
      case Some((v, rest)) =>
        match ParseArrayRest(rest)
        case None => None
        case Some((vs, after)) => Some(([v] + vs, after))
    else None
  }

  /** `json.loads(s)` where the document is an array of integers; None for every
      other document. */
  function ParseIntList(s: string): (r: Option<seq<int>>)
    ensures r.Some? ==> SkipJsonSpace(s) != [] && SkipJsonSpace(s)[0] == '['
  {
    var t := SkipJsonSpace(s);
    if t == [] || t[0] != '[' then None
    else
      var u := SkipJsonSpace(t[1..]);
      var items: Option<(seq<int>, string)> :=
        if u != [] && u[0] == ']' then Some(([], u[1..]))
        else
          match LexJsonInt(u)
          case None => None
          case Some((v, rest)) =>
            match ParseArrayRest(rest)
            case None => None
            case Some((vs, after)) => Some(([v] + vs, after));
      match items
      case None => None
      case Some((xs, after)) => if SkipJsonSpace(after) == [] then Some(xs) else None
  }

  /** The items after the first of a list, as `json.dumps` writes them: `, x` each. */
  function ShowItemsAfter(xs: seq<int>): string {
    if xs == [] then [] else ", " + ShowInt(xs[0]) + ShowItemsAfter(xs[1..])
  }

  /** `json.dumps(xs)` for a list of integers, e.g. `[180, 360]`. */
  function ShowIntList(xs: seq<int>): string {
    if xs == [] then "[]" else "[" + ShowInt(xs[0]) + ShowItemsAfter(xs[1..]) + "]"
  }

  /** An integer written as digits (with an optional minus sign) lexes back to its value. */
  lemma LexDigits(digits: string, rest: string)
    requires |digits| > 0 && forall i :: 0 <= i < |digits| ==> IsDigit(digits[i])
    requires |digits| == 1 || digits[0] != '0'
    requires rest == [] || rest[0] == ',' || rest[0] == ']'
    ensures DigitsOrUnderscores(digits)
    ensures LexJsonNat(digits + rest) == Some((RunValue(digits), rest))
  {
    var body := digits + rest;
    assert body[0] == digits[0];
    DigitPrefixOf(digits, rest);
    assert body[..|digits|] == digits && body[|digits|..] == rest;
  }

  lemma ConcatAssoc<T>(a: seq<T>, b: seq<T>, c: seq<T>)
    ensures a + b + c == a + (b + c)
  {
  }

  lemma LexShowInt(n: int, rest: string)
    requires rest == [] || rest[0] == ',' || rest[0] == ']'
    ensures LexJsonInt(ShowInt(n) + rest) == Some((n, rest))
  {
    var m := if n < 0 then -n else n;
    ShowNatValue(m);
    if m >= 10 {
      ShowNatLeading(m);
    }
    LexDigits(ShowNat(m), rest);
    var body := ShowNat(m) + rest;
    if n < 0 {
      LexJsonIntNeg(body, m, rest);
      ConcatAssoc("-", ShowNat(m), rest);
    } else {
      assert body[0] == ShowNat(m)[0];
      LexJsonIntPos(body, m, rest);
    }
  }

  /** A minus sign in front of an unsigned number negates it. */
  lemma LexJsonIntNeg(body: string, v: nat, rest: string)
    requires LexJsonNat(body) == Some((v, rest))
    ensures LexJsonInt("-" + body) == Some((-(v as int), rest))
  {
    TailOfCons('-', body);
  }

  lemma LexJsonIntPos(body: string, v: nat, rest: string)
    requires body != [] && body[0] != '-'
    requires LexJsonNat(body) == Some((v, rest))
    ensures LexJsonInt(body) == Some((v as int, rest))
  {
  }

  lemma {:induction false} ShowNatLeading(n: nat)
    requires n >= 10
    ensures ShowNat(n)[0] != '0'
  {
    if n / 10 >= 10 {
      ShowNatLeading(n / 10);
    }
  }

  lemma {:induction false} DigitPrefixOf(digits: string, rest: string)
    requires forall i :: 0 <= i < |digits| ==> IsDigit(digits[i])
    requires rest == [] || !IsDigit(rest[0])
    ensures DigitPrefix(digits + rest) == |digits|
    decreases |digits|
  {
    if digits == [] {
      assert digits + rest == rest;
    } else {
      assert (digits + rest)[1..] == digits[1..] + rest;
      DigitPrefixOf(digits[1..], rest);
    }
  }

  lemma ShowIntHead(n: int, rest: string)
    ensures ShowInt(n) != [] && (ShowInt(n)[0] == '-' || IsDigit(ShowInt(n)[0]))
    ensures (ShowInt(n) + rest)[0] == ShowInt(n)[0]
  {
  }

  /** One `, x` item of an array, where x is lexed from the front of v. */
  lemma ParseArrayRestComma(v: string, x: int, t: string, vs: seq<int>)
    requires v == [] || !IsJsonSpace(v[0])
    requires LexJsonInt(v) == Some((x, t))
    requires ParseArrayRest(t) == Some((vs, []))
    ensures ParseArrayRest(", " + v) == Some(([x] + vs, []))
  {
    CommaSpace(v);
    SkipFront(v);
  }

  lemma CommaSpace(v: string)
    ensures SkipJsonSpace(", " + v) == ", " + v
    ensures (", " + v)[1..] == " " + v
    ensures SkipJsonSpace(" " + v) == SkipJsonSpace(v)
  {
    TailOfCons(' ', v);
  }

  /** The closing bracket of an array. */
  lemma ParseArrayRestClose(after: string)
    ensures ParseArrayRest("]" + after) == Some(([], after))
  {
    TailOfCons(']', after);
    SkipFront("]" + after);
  }

  lemma AppendEmpty<T>(s: seq<T>)
    ensures s + [] == s
  {
  }

  lemma ShowItemsAfterCons(xs: seq<int>)
    requires xs != []
    ensures ShowItemsAfter(xs) + "]" == ", " + (ShowInt(xs[0]) + (ShowItemsAfter(xs[1..]) + "]"))
  {
  }

  lemma ShowItemsAfterHead(xs: seq<int>)
    ensures ShowItemsAfter(xs) + "]" != []
    ensures (ShowItemsAfter(xs) + "]")[0] == ',' || (ShowItemsAfter(xs) + "]")[0] == ']'
  {
  }

  /** The items `, x` after the first one, then the closing bracket, read back. */
  lemma {:induction false} ParseItemsAfter(xs: seq<int>)
    ensures ParseArrayRest(ShowItemsAfter(xs) + "]") == Some((xs, []))
    decreases |xs|
  {
    if xs == [] {
      assert ShowItemsAfter(xs) == [];
      ParseArrayRestClose([]);
      AppendEmpty("]");
    } else {
      var t := ShowItemsAfter(xs[1..]) + "]";
      ParseItemsAfter(xs[1..]);
      ShowItemsAfterCons(xs);
      ShowItemsAfterHead(xs[1..]);
      ShowIntHead(xs[0], t);
      LexShowInt(xs[0], t);
      ParseArrayRestComma(ShowInt(xs[0]) + t, xs[0], t, xs[1..]);
      ConsTail(xs);
    }
  }

  /** An array whose first item is lexed from the front of v. */
  lemma ParseIntListOpen(v: string, x: int, t: string, vs: seq<int>)
    requires v != [] && !IsJsonSpace(v[0]) && v[0] != ']'
    requires LexJsonInt(v) == Some((x, t))
    requires ParseArrayRest(t) == Some((vs, []))
    ensures ParseIntList("[" + v) == Some([x] + vs)
  {
    OpenBracket(v);
    SkipFront(v);
    SkipFront([]);
  }

  lemma OpenBracket(v: string)
    ensures SkipJsonSpace("[" + v) == "[" + v && ("[" + v)[1..] == v
  {
    TailOfCons('[', v);
  }

  lemma SkipFront(s: string)
    ensures s == [] || !IsJsonSpace(s[0]) ==> SkipJsonSpace(s) == s
  {
  }

  lemma ParseEmptyList()
    ensures ParseIntList("[]") == Some([])
  {
    assert "[]" == "[" + "]";
    OpenBracket("]");
    SkipFront("]");
    SkipFront([]);
  }

  lemma ShowIntListCons(xs: seq<int>)
    requires xs != []
    ensures ShowIntList(xs) == "[" + (ShowInt(xs[0]) + (ShowItemsAfter(xs[1..]) + "]"))
  {
  }

  /** json.loads reads back what json.dumps writes for a list of integers. */
  lemma ParseShowIntList(xs: seq<int>)
    ensures ParseIntList(ShowIntList(xs)) == Some(xs)
  {
    if xs == [] {
      ParseEmptyList();
    } else {
      var t := ShowItemsAfter(xs[1..]) + "]";
      ParseItemsAfter(xs[1..]);
      ShowIntListCons(xs);
      ShowItemsAfterHead(xs[1..]);
      ShowIntHead(xs[0], t);
      LexShowInt(xs[0], t);
      ParseIntListOpen(ShowInt(xs[0]) + t, xs[0], t, xs[1..]);
      ConsTail(xs);
    }
  }
}
