/** The parts of Go's `strings`, `strconv` and `fmt` packages that
    port-checker.go relies on, over strings taken as sequences of Unicode
    code points. */
module GoText {

  datatype Option<T> = None | Some(value: T)

  // ---------------------------------------------------------------------
  // Whitespace, as `unicode.IsSpace` defines it (the Unicode White_Space
  // property); `strings.Fields` and `strings.TrimSpace` both use it.
  // ---------------------------------------------------------------------

  const SpaceChars: set<char> := {
    '\t', '\n', '\U{000B}', '\U{000C}', '\r', ' ', '\U{0085}', '\U{00A0}',
    '\U{1680}', '\U{2000}', '\U{2001}', '\U{2002}', '\U{2003}', '\U{2004}',
    '\U{2005}', '\U{2006}', '\U{2007}', '\U{2008}', '\U{2009}', '\U{200A}',
    '\U{2028}', '\U{2029}', '\U{202F}', '\U{205F}', '\U{3000}'
  }

  predicate IsSpace(c: char) {
    c in SpaceChars
  }

  /** Every character of `s` is in `cut`. */
  predicate AllIn(s: string, cut: set<char>) {
    forall k :: 0 <= k < |s| ==> s[k] in cut
  }

  // ---------------------------------------------------------------------
  // strings.Index and strings.Contains
  // ---------------------------------------------------------------------

  /** `sub` occurs in `s` starting at position `i`. */
  predicate OccursAt(s: string, sub: string, i: nat) {
    i + |sub| <= |s| && s[i..i + |sub|] == sub
  }

  lemma OccursShift(s: string, sub: string, j: nat)
    requires |s| > 0
    ensures OccursAt(s, sub, j + 1) <==> OccursAt(s[1..], sub, j)
  {
    if j + 1 + |sub| <= |s| {
      assert s[1..][j..j + |sub|] == s[j + 1..j + 1 + |sub|];
    }
  }

  /** An occurrence inside a slice of `s` is an occurrence in `s`. */
  lemma OccursInSlice(s: string, sub: string, a: nat, b: nat, j: nat)
    requires a <= b <= |s|
    requires OccursAt(s[a..b], sub, j)
    ensures OccursAt(s, sub, a + j)
  {
    var piece := s[a..b][j..j + |sub|];
    assert forall k :: 0 <= k < |sub| ==> piece[k] == s[a + j + k];
    assert piece == s[a + j..a + j + |sub|];
  }

  /** strings.Index: the position of the first occurrence of `sub` in `s`,
      or None where Go returns -1. */
  function Index(s: string, sub: string): (r: Option<nat>)
    ensures r.Some? ==> OccursAt(s, sub, r.value)
    ensures r.Some? ==> forall j: nat :: j < r.value ==> !OccursAt(s, sub, j)
    ensures r.None? ==> forall j: nat :: !OccursAt(s, sub, j)
    decreases |s|
  {
    if |sub| <= |s| && s[..|sub|] == sub then Some(0)
    else if |s| <= |sub| then None
    else
      var rest := Index(s[1..], sub);
      assert forall j: nat :: 0 < j ==> (OccursAt(s, sub, j) <==> OccursAt(s[1..], sub, j - 1)) by {
        forall j: nat | 0 < j ensures OccursAt(s, sub, j) <==> OccursAt(s[1..], sub, j - 1) {
          OccursShift(s, sub, j - 1);
        }
      }
      assert !OccursAt(s, sub, 0);
      match rest
      case None => None
      case Some(k) => Some(k + 1)
  }

  /** strings.Contains. */
  predicate Contains(s: string, sub: string) {
    Index(s, sub).Some?
  }

  /** A slice of a string that does not contain `sub` does not contain it. */
  lemma AbsentFromSlice(s: string, sub: string, a: nat, b: nat)
    requires a <= b <= |s|
    requires !Contains(s, sub)
    ensures !Contains(s[a..b], sub)
  {
    if Contains(s[a..b], sub) {
      OccursInSlice(s, sub, a, b, Index(s[a..b], sub).value);
    }
  }

  /** An occurrence in either half of a concatenation is an occurrence in it. */
  lemma ContainsInConcat(x: string, y: string, sub: string)
    requires Contains(x, sub) || Contains(y, sub)
    ensures Contains(x + y, sub)
  {
    var s := x + y;
    if Contains(x, sub) {
      assert x == s[0..|x|];
      OccursInSlice(s, sub, 0, |x|, Index(x, sub).value);
    } else {
      assert y == s[|x|..|s|];
      OccursInSlice(s, sub, |x|, |s|, Index(y, sub).value);
    }
  }

  /** A string that contains `sub` contains every prefix of it. */
  lemma ContainsPrefix(s: string, sub: string, pre: string)
    requires Contains(s, sub) && |pre| <= |sub| && sub[..|pre|] == pre
    ensures Contains(s, pre)
  {
    var i := Index(s, sub).value;
    assert s[i..i + |pre|] == s[i..i + |sub|][..|pre|];
    assert OccursAt(s, pre, i);
  }

  // ---------------------------------------------------------------------
  // strings.Split (with a non-empty separator) and its inverse, Join
  // ---------------------------------------------------------------------

  /** strings.Join. */
  function Join(parts: seq<string>, sep: string): string
    decreases |parts|
  {
    if |parts| == 0 then []
    else if |parts| == 1 then parts[0]
    else parts[0] + sep + Join(parts[1..], sep)
  }

  /** strings.Split(s, sep) for a non-empty `sep`: the pieces of `s` between
      successive leftmost occurrences of `sep`. */
  function Split(s: string, sep: string): (r: seq<string>)
    requires sep != []
    ensures |r| >= 1
    ensures Join(r, sep) == s
    ensures forall k :: 0 <= k < |r| ==> !Contains(r[k], sep)
    ensures |r| == 1 <==> !Contains(s, sep)
    decreases |s|
  {
    match Index(s, sep)
    case None => [s]
    case Some(i) =>
      var rest := Split(s[i + |sep|..], sep);
      FirstPieceAbsent(s, sep, i);
      JoinAround(s, sep, i, rest);
      ConsAbsent(s[..i], rest, sep);
      [s[..i]] + rest
  }

  /** Joining the text before an occurrence of `sep` with the pieces of the
      text after it gives back the whole text. */
  lemma JoinAround(s: string, sep: string, i: nat, rest: seq<string>)
    requires OccursAt(s, sep, i) && |rest| >= 1
    requires Join(rest, sep) == s[i + |sep|..]
    ensures Join([s[..i]] + rest, sep) == s
  {
    JoinCons(s[..i], rest, sep);
    AroundOccurrence(s, sep, i);
  }

  lemma JoinCons(x: string, rest: seq<string>, sep: string)
    requires |rest| >= 1
    ensures Join([x] + rest, sep) == x + sep + Join(rest, sep)
  {
    assert ([x] + rest)[1..] == rest;
  }

  /** A string is the text before an occurrence, the occurrence, and the
      text after it. */
  lemma AroundOccurrence(s: string, sub: string, i: nat)
    requires OccursAt(s, sub, i)
    ensures s == s[..i] + sub + s[i + |sub|..]
  {
    assert s == s[..i] + s[i..i + |sub|] + s[i + |sub|..];
  }

  lemma ConsAbsent(x: string, rest: seq<string>, sep: string)
    requires !Contains(x, sep)
    requires forall k :: 0 <= k < |rest| ==> !Contains(rest[k], sep)
    ensures forall k :: 0 <= k < |[x] + rest| ==> !Contains(([x] + rest)[k], sep)
  {
    forall k | 0 <= k < |[x] + rest| ensures !Contains(([x] + rest)[k], sep) {
      if k > 0 {
        assert ([x] + rest)[k] == rest[k - 1];
      }
    }
  }

  /** The text before the first occurrence of `sep` does not contain it. */
  lemma FirstPieceAbsent(s: string, sep: string, i: nat)
    requires sep != [] && Index(s, sep) == Some(i)
    ensures !Contains(s[..i], sep)
  {
    if Contains(s[..i], sep) {
      OccursInSlice(s, sep, 0, i, Index(s[..i], sep).value);
    }
  }

  /** When the first occurrence of `sep` is at `i`, the first piece of the
      split is the text before it and at least one more piece follows. */
  lemma SplitAtFirst(s: string, sep: string, i: nat)
    requires sep != [] && OccursAt(s, sep, i)
    requires forall j: nat :: j < i ==> !OccursAt(s, sep, j)
    ensures |Split(s, sep)| >= 2 && Split(s, sep)[0] == s[..i]
  {
    var r := Index(s, sep);
    assert r.Some?;
    assert !(r.value < i) && !(i < r.value);
  }

  /** When `sep` occurs, the first piece of the split is the text before
      its first occurrence. */
  lemma SplitFirstPiece(s: string, sep: string)
    requires sep != [] && Contains(s, sep)
    ensures Index(s, sep).Some? && Split(s, sep)[0] == s[..Index(s, sep).value]
  {
  }

  /** Splitting lines joined by a one-character separator that none of them
      contains gives the lines back. */
  lemma {:induction false} SplitJoin(parts: seq<string>, sep: string)
    requires |sep| == 1 && |parts| >= 1
    requires forall k :: 0 <= k < |parts| ==> sep[0] !in parts[k]
    ensures Split(Join(parts, sep), sep) == parts
    decreases |parts|
  {
    var x := parts[0];
    NoCharNoOccurrence(x, sep);
    if |parts| == 1 {
    } else {
      var rest := Join(parts[1..], sep);
      var s := x + sep + rest;
      assert OccursAt(s, sep, |x|) by {
        assert s[|x|..|x| + 1] == sep;
      }
      forall j: nat | j < |x| ensures !OccursAt(s, sep, j) {
        assert s[j] == x[j];
      }
      assert Index(s, sep) == Some(|x|);
      assert s[..|x|] == x;
      assert s[|x| + 1..] == rest;
      SplitJoin(parts[1..], sep);
    }
  }

  /** A string without the character of a one-character `sep` does not
      contain `sep`. */
  lemma NoCharNoOccurrence(x: string, sep: string)
    requires |sep| == 1 && sep[0] !in x
    ensures !Contains(x, sep)
  {
    forall j: nat ensures !OccursAt(x, sep, j) {
      if j + 1 <= |x| {
        assert x[j..j + 1][0] == x[j];
      }
    }
  }

  /** Every piece of a join, at any position, is contained in the joined text. */
  lemma {:induction false} PieceInJoin(parts: seq<string>, sep: string, k: nat, sub: string)
    requires k < |parts| && Contains(parts[k], sub)
    ensures Contains(Join(parts, sep), sub)
    decreases |parts|
  {
    if |parts| > 1 {
      if k == 0 {
        ContainsInConcat(parts[0], sep + Join(parts[1..], sep), sub);
        assert parts[0] + (sep + Join(parts[1..], sep)) == Join(parts, sep);
      } else {
        PieceInJoin(parts[1..], sep, k - 1, sub);
        ContainsInConcat(parts[0] + sep, Join(parts[1..], sep), sub);
      }
    }
  }

  // ---------------------------------------------------------------------
  // strings.Fields
  // ---------------------------------------------------------------------

  /** A field: non-empty and free of whitespace. */
  predicate IsWord(w: string) {
    w != [] && forall k :: 0 <= k < |w| ==> !IsSpace(w[k])
  }

  /** strings.Fields: the maximal runs of non-space characters of `s`. */
  function Fields(s: string): seq<string> {
    FieldsAfter(s, [])
  }

  /** The fields of `cur + s`, where `cur` holds the characters of the field
      being read when the scan reaches `s`. */
  function FieldsAfter(s: string, cur: string): seq<string>
    decreases |s|
  {
    if s == [] then (if cur == [] then [] else [cur])
    else if IsSpace(s[0]) then
      (if cur == [] then [] else [cur]) + FieldsAfter(s[1..], [])
    else FieldsAfter(s[1..], cur + [s[0]])
  }

  /** Every field is non-empty and free of whitespace. */
  lemma FieldsAreWords(s: string)
    ensures forall k :: 0 <= k < |Fields(s)| ==> IsWord(Fields(s)[k])
  {
    FieldsAfterAreWords(s, []);
  }

  lemma {:induction false} FieldsAfterAreWords(s: string, cur: string)
    requires cur == [] || IsWord(cur)
    ensures forall k :: 0 <= k < |FieldsAfter(s, cur)| ==> IsWord(FieldsAfter(s, cur)[k])
    decreases |s|
  {
    if s != [] {
      if IsSpace(s[0]) {
        FieldsAfterAreWords(s[1..], []);
      } else {
        assert IsWord(cur + [s[0]]);
        FieldsAfterAreWords(s[1..], cur + [s[0]]);
      }
    }
  }

  /** Reading a run of non-space characters extends the current field. */
  lemma {:induction false} FieldsAfterWord(w: string, t: string, cur: string)
    requires forall k :: 0 <= k < |w| ==> !IsSpace(w[k])
    ensures FieldsAfter(w + t, cur) == FieldsAfter(t, cur + w)
    decreases |w|
  {
    if w == [] {
      assert w + t == t && cur + w == cur;
    } else {
      assert (w + t)[0] == w[0] && (w + t)[1..] == w[1..] + t;
      FieldsAfterWord(w[1..], t, cur + [w[0]]);
      assert cur + [w[0]] + w[1..] == cur + w;
    }
  }

  /** Fields inverts Join with a single space: joining fields and splitting
      the result into fields gives them back. */
  lemma {:induction false} FieldsOfJoin(words: seq<string>)
    requires forall k :: 0 <= k < |words| ==> IsWord(words[k])
    ensures Fields(Join(words, " ")) == words
    decreases |words|
  {
    if |words| == 1 {
      FieldsAfterWord(words[0], [], []);
      assert words[0] + [] == words[0] && [] + words[0] == words[0];
    } else if |words| > 1 {
      var rest := Join(words[1..], " ");
      FieldsAfterWord(words[0], " " + rest, []);
      assert [] + words[0] == words[0];
      assert (" " + rest)[1..] == rest;
      FieldsOfJoin(words[1..]);
      assert words[0] + " " + rest == words[0] + (" " + rest);
      assert words == [words[0]] + words[1..];
    }
  }

  /** A run of white space, possibly empty. */
  predicate IsBlank(g: string) {
    forall k :: 0 <= k < |g| ==> IsSpace(g[k])
  }

  /** The words separated by the given gaps: words[0] + gaps[0] + words[1] + ... */
  function Spaced(words: seq<string>, gaps: seq<string>): string
    requires |words| >= 1 && |gaps| == |words| - 1
    decreases |words|
  {
    if |words| == 1 then words[0]
    else words[0] + gaps[0] + Spaced(words[1..], gaps[1..])
  }

  /** White space between fields produces no field. */
  lemma {:induction false} FieldsAfterBlank(g: string, t: string)
    requires IsBlank(g)
    ensures FieldsAfter(g + t, []) == FieldsAfter(t, [])
    decreases |g|
  {
    if g != [] {
      assert (g + t)[0] == g[0] && (g + t)[1..] == g[1..] + t;
      assert IsSpace((g + t)[0]);
      FieldsAfterBlank(g[1..], t);
      assert FieldsAfter(g + t, []) == [] + FieldsAfter(g[1..] + t, []);
    } else {
      assert g + t == t;
    }
  }

  /** White space after a field ends it and produces nothing more. */
  lemma {:induction false} FieldsAfterTrailing(g: string, cur: string)
    requires IsBlank(g) && cur != []
    ensures FieldsAfter(g, cur) == [cur]
  {
    if g != [] {
      FieldsAfterBlank(g[1..], []);
      assert g[1..] + [] == g[1..];
    }
  }

  /** Words separated by gaps: every word is non-empty and free of white
      space, and every gap is a non-empty run of white space. */
  predicate WellSpaced(words: seq<string>, gaps: seq<string>)
    decreases |words|
  {
    |words| >= 1 && |gaps| == |words| - 1 && IsWord(words[0]) &&
    (|words| > 1 ==> gaps[0] != [] && IsBlank(gaps[0]) && WellSpaced(words[1..], gaps[1..]))
  }

  lemma {:induction false} FieldsAfterSpaced(words: seq<string>, gaps: seq<string>, trail: string)
    requires WellSpaced(words, gaps) && IsBlank(trail)
    ensures FieldsAfter(Spaced(words, gaps) + trail, []) == words
    decreases |words|
  {
    var w := words[0];
    assert [] + w == w;
    if |words| == 1 {
      FieldsAfterWord(w, trail, []);
      FieldsAfterTrailing(trail, w);
    } else {
      var g := gaps[0];
      var t := Spaced(words[1..], gaps[1..]) + trail;
      assert Spaced(words, gaps) + trail == w + (g + t);
      FieldsAfterWord(w, g + t, []);
      assert (g + t)[0] == g[0] && (g + t)[1..] == g[1..] + t;
      FieldsAfterBlank(g[1..], t);
      FieldsAfterSpaced(words[1..], gaps[1..], trail);
      assert words == [w] + words[1..];
    }
  }

  /** Fields inverts any spacing: words separated by non-empty runs of
      white space, with white space before and after, give the words back,
      as the padded columns of a listing and a trailing carriage return do. */
  lemma FieldsOfSpaced(lead: string, words: seq<string>, gaps: seq<string>, trail: string)
    requires WellSpaced(words, gaps) && IsBlank(lead) && IsBlank(trail)
    ensures Fields(lead + Spaced(words, gaps) + trail) == words
  {
    assert lead + Spaced(words, gaps) + trail == lead + (Spaced(words, gaps) + trail);
    FieldsAfterBlank(lead, Spaced(words, gaps) + trail);
    FieldsAfterSpaced(words, gaps, trail);
  }

  // ---------------------------------------------------------------------
  // strings.Trim, strings.TrimSpace
  // ---------------------------------------------------------------------

  function TrimLeft(s: string, cut: set<char>): (r: string)
    ensures |r| <= |s| && r == s[|s| - |r|..]
    ensures AllIn(s[..|s| - |r|], cut)
    ensures r != [] ==> r[0] !in cut
    decreases |s|
  {
    if s != [] && s[0] in cut then
      var r := TrimLeft(s[1..], cut);
      assert s[..|s| - |r|] == [s[0]] + s[1..][..|s| - 1 - |r|];
      r
    else s
  }

  function TrimRight(s: string, cut: set<char>): (r: string)
    ensures |r| <= |s| && r == s[..|r|]
    ensures AllIn(s[|r|..], cut)
    ensures r != [] ==> r[|r| - 1] !in cut
    decreases |s|
  {
    if s != [] && s[|s| - 1] in cut then
      var r := TrimRight(s[..|s| - 1], cut);
      assert s[|r|..] == s[..|s| - 1][|r|..] + [s[|s| - 1]];
      r
    else s
  }

  /** strings.Trim(s, cutset): `s` without its leading and trailing
      characters from `cut`. */
  function Trim(s: string, cut: set<char>): (r: string)
    ensures |r| <= |s|
    ensures r != [] ==> r[0] !in cut && r[|r| - 1] !in cut
  {
    TrimRight(TrimLeft(s, cut), cut)
  }

  /** strings.TrimSpace. */
  function TrimSpace(s: string): string {
    Trim(s, SpaceChars)
  }

  lemma {:induction false} TrimLeftPadded(p: string, core: string, cut: set<char>)
    requires AllIn(p, cut) && (core == [] || core[0] !in cut)
    ensures TrimLeft(p + core, cut) == (if AllIn(core, cut) then [] else core)
    decreases |p|
  {
    if p == [] {
      assert p + core == core;
      if core != [] {
        assert !AllIn(core, cut);
      }
    } else {
      assert (p + core)[1..] == p[1..] + core;
      TrimLeftPadded(p[1..], core, cut);
    }
  }

  lemma {:induction false} TrimRightPadded(core: string, q: string, cut: set<char>)
    requires AllIn(q, cut) && (core == [] || core[|core| - 1] !in cut)
    ensures TrimRight(core + q, cut) == core
    decreases |q|
  {
    if q == [] {
      assert core + q == core;
    } else {
      assert (core + q)[..|core + q| - 1] == core + q[..|q| - 1];
      TrimRightPadded(core, q[..|q| - 1], cut);
    }
  }

  /** Trim removes exactly the padding: a core that neither starts nor ends
      with a cut character comes back unchanged from any padding. */
  lemma TrimPadded(p: string, core: string, q: string, cut: set<char>)
    requires AllIn(p, cut) && AllIn(q, cut)
    requires core == [] || (core[0] !in cut && core[|core| - 1] !in cut)
    ensures Trim(p + core + q, cut) == core
  {
    assert p + core + q == p + (core + q);
    if core == [] {
      assert p + core + q == (p + q) + [];
      TrimLeftPadded(p + q, [], cut);
    } else {
      assert (core + q)[0] == core[0];
      TrimLeftPadded(p, core + q, cut);
      TrimRightPadded(core, q, cut);
    }
  }

  /** A trimmed string is a slice, so it contains nothing the original lacks. */
  lemma TrimKeepsAbsence(s: string, cut: set<char>, sub: string)
    requires !Contains(s, sub)
    ensures !Contains(Trim(s, cut), sub)
  {
    var l := TrimLeft(s, cut);
    AbsentFromSlice(s, sub, |s| - |l|, |s|);
    assert l == s[|s| - |l|..|s|];
    var r := TrimRight(l, cut);
    AbsentFromSlice(l, sub, 0, |r|);
  }

  // ---------------------------------------------------------------------
  // strconv.Atoi (64-bit `int`) and decimal formatting (fmt's %d)
  // ---------------------------------------------------------------------

  const MinInt64: int := -0x8000_0000_0000_0000
  const MaxInt64: int := 0x7FFF_FFFF_FFFF_FFFF

  predicate IsDigit(c: char) {
    '0' <= c <= '9'
  }

  predicate AllDigits(s: string) {
    forall k :: 0 <= k < |s| ==> IsDigit(s[k])
  }

  function DigitValue(c: char): nat
    requires IsDigit(c)
  {
    c as int - '0' as int
  }

  /** The value of a string of decimal digits, most significant first. */
  function DigitsValue(ds: string): nat
    requires AllDigits(ds)
    decreases |ds|
  {
    if ds == [] then 0
    else 10 * DigitsValue(ds[..|ds| - 1]) + DigitValue(ds[|ds| - 1])
  }

  /** The digits of `ds` read one at a time from the right: None as soon
      as a character is not a decimal digit. */
  function DecimalValue(ds: string): (r: Option<nat>)
    decreases |ds|
  {
    if ds == [] then Some(0)
    else if !IsDigit(ds[|ds| - 1]) then None
    else match DecimalValue(ds[..|ds| - 1])
      case None => None
      case Some(m) => Some(10 * m + DigitValue(ds[|ds| - 1]))
  }

  /** DecimalValue accepts exactly the all-digit strings, with their value. */
  lemma {:induction false} DecimalValueOfDigits(ds: string)
    ensures DecimalValue(ds).Some? <==> AllDigits(ds)
    ensures AllDigits(ds) ==> DecimalValue(ds) == Some(DigitsValue(ds))
    decreases |ds|
  {
    if ds != [] {
      var init := ds[..|ds| - 1];
      DecimalValueOfDigits(init);
      assert AllDigits(ds) <==> AllDigits(init) && IsDigit(ds[|ds| - 1]) by {
        assert forall k :: 0 <= k < |init| ==> init[k] == ds[k];
      }
    }
  }

  /** strconv.Atoi: an optional sign followed by one or more decimal digits
      whose value fits in a 64-bit signed integer; anything else is an error. */
  function Atoi(s: string): (r: Option<int>)
    ensures r.Some? ==> MinInt64 <= r.value <= MaxInt64
  {
    var signed := |s| > 0 && (s[0] == '+' || s[0] == '-');
    var digits := if signed then s[1..] else s;
    if digits == [] then None
    else match DecimalValue(digits)
      case None => None
      case Some(magnitude) =>
        var v: int := if signed && s[0] == '-' then -(magnitude as int) else magnitude;
        if MinInt64 <= v <= MaxInt64 then Some(v) else None
  }

  /** What Atoi accepts, stated on the digits after an optional sign. */
  lemma AtoiAccepts(s: string)
    ensures var signed := |s| > 0 && (s[0] == '+' || s[0] == '-');
      var digits := if signed then s[1..] else s;
      var negative := signed && s[0] == '-';
      && (Atoi(s).Some? <==>
            digits != [] && AllDigits(digits) &&
            DigitsValue(digits) <= (if negative then -MinInt64 else MaxInt64))
      && (Atoi(s).Some? ==>
            Atoi(s).value == (if negative then -(DigitsValue(digits) as int) else DigitsValue(digits)))
  {
    var signed := |s| > 0 && (s[0] == '+' || s[0] == '-');
    var digits := if signed then s[1..] else s;
    DecimalValueOfDigits(digits);
  }

  function DigitChar(d: nat): (c: char)
    requires d < 10
    ensures IsDigit(c) && DigitValue(c) == d
  {
    ('0' as int + d) as char
  }

  /** The decimal digits of `n` with no leading zero. */
  function NatToDecimal(n: nat): (s: string)
    ensures s != [] && AllDigits(s)
    ensures DigitsValue(s) == n
    ensures s[0] == '0' ==> n == 0
    decreases n
  {
    if n < 10 then [DigitChar(n)]
    else
      var hi := NatToDecimal(n / 10);
      var s := hi + [DigitChar(n % 10)];
      assert s[..|s| - 1] == hi;
      s
  }

  /** fmt's %d of an int: a '-' for negative values, then the digits. */
  function Itoa(n: int): string {
    if n < 0 then "-" + NatToDecimal(-n) else NatToDecimal(n)
  }

  /** Atoi inverts %d formatting on every 64-bit integer. */
  lemma AtoiItoa(n: int)
    requires MinInt64 <= n <= MaxInt64
    ensures Atoi(Itoa(n)) == Some(n)
  {
    var s := Itoa(n);
    AtoiAccepts(s);
    if n < 0 {
      assert s[1..] == NatToDecimal(-n);
    } else {
      assert s[0] != '+' && s[0] != '-';
    }
  }
}
