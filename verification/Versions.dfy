/** Release version strings: the accepted grammar, the comparison the planner uses, and SemVer 2.0.0 precedence. */
module Versions {

  // ---- Strings ----

  /** The text before and after the first separator, as strings.Cut. */
  function Cut(s: string, sep: char): (string, string) {
    if s == [] then ("", "")
    else if s[0] == sep then ("", s[1..])
    else var rest := Cut(s[1..], sep); ([s[0]] + rest.0, rest.1)
  }

  /** The pieces between separators, as strings.Split. */
  function Split(s: string, sep: char): (r: seq<string>)
    ensures |r| > 0
  {
    if s == [] then [""]
    else
      var rest := Split(s[1..], sep);
      if s[0] == sep then [""] + rest else [[s[0]] + rest[0]] + rest[1..]
  }

  function Join(parts: seq<string>, sep: char): string
    requires |parts| > 0
  {
    if |parts| == 1 then parts[0] else parts[0] + [sep] + Join(parts[1..], sep)
  }

  /** Three-way comparison, as strings.Compare. */
  function Lex(a: string, b: string): int {
    if a == [] || b == [] then Cmp(|a|, |b|)
    else if a[0] != b[0] then (if a[0] < b[0] then -1 else 1)
    else Lex(a[1..], b[1..])
  }

  function Cmp(x: int, y: int): int {
    if x < y then -1 else if x > y then 1 else 0
  }

  predicate IsDigit(c: char) {
    '0' <= c <= '9'
  }

  predicate IsAlnum(c: char) {
    IsDigit(c) || 'a' <= c <= 'z' || 'A' <= c <= 'Z'
  }

  predicate Digits(s: string) {
    |s| > 0 && forall i | 0 <= i < |s| :: IsDigit(s[i])
  }

  function Pow10(n: nat): (r: nat)
    ensures r > 0
  {
    if n == 0 then 1 else 10 * Pow10(n - 1)
  }

  function DigitValue(c: char): (d: nat)
    requires IsDigit(c)
    ensures d < 10
  {
    c as int - '0' as int
  }

  /** The number a string of decimal digits denotes. */
  function Value(s: string): nat
    requires forall i | 0 <= i < |s| :: IsDigit(s[i])
  {
    if s == [] then 0 else DigitValue(s[0]) * Pow10(|s| - 1) + Value(s[1..])
  }

  // ---- The comparison ----

  const MAX_UINT64 := 0xFFFF_FFFF_FFFF_FFFF

  datatype Parsed = Number(value: nat) | NotANumber

  /** strconv.ParseUint in base 10 with 64 bits. */
  function ParseUint(s: string): Parsed {
    if Digits(s) && Value(s) <= MAX_UINT64 then Number(Value(s)) else NotANumber
  }

  /** Decimal strings of any length: the longer one is larger, equal lengths compare as text. */
  function CompareNumeric(a: string, b: string): int {
    if |a| != |b| then Cmp(|a|, |b|) else Lex(a, b)
  }

  function CompareIdentifier(x: string, y: string): int {
    match (ParseUint(x), ParseUint(y))
    case (Number(n), Number(m)) => Cmp(n, m)
    case (Number(_), NotANumber) => -1
    case (NotANumber, Number(_)) => 1
    case (NotANumber, NotANumber) => Lex(x, y)
  }

  function CompareIdentifiers(xs: seq<string>, ys: seq<string>): int {
    if xs == [] || ys == [] then Cmp(|xs|, |ys|)
    else
      var c := CompareIdentifier(xs[0], ys[0]);
      if c != 0 then c else CompareIdentifiers(xs[1..], ys[1..])
  }

  /** Core components from the i-th on; at most three are looked at. */
  function CompareCores(pa: seq<string>, pb: seq<string>, i: nat): int
    decreases 3 - i
  {
    if i >= 3 || i >= |pa| || i >= |pb| then 0
    else
      var c := CompareNumeric(pa[i], pb[i]);
      if c != 0 then c else CompareCores(pa, pb, i + 1)
  }

  function CompareVersions(a: string, b: string): int {
    var (coreA, preA) := Cut(a, '-');
    var (coreB, preB) := Cut(b, '-');
    var c := CompareCores(Split(coreA, '.'), Split(coreB, '.'), 0);
    if c != 0 then c
    else if preA == preB then 0
    else if preA == "" then 1
    else if preB == "" then -1
    else CompareIdentifiers(Split(preA, '.'), Split(preB, '.'))
  }

  // ---- The accepted grammar ----

  datatype Version = Version(major: string, minor: string, patch: string, pre: seq<string>)

  /** A decimal without leading zeros. */
  predicate Plain(s: string) {
    Digits(s) && (s[0] == '0' ==> |s| == 1)
  }

  predicate Identifier(s: string) {
    |s| > 0 && forall i | 0 <= i < |s| :: IsAlnum(s[i])
  }

  predicate Valid(v: Version) {
    && Plain(v.major) && Plain(v.minor) && Plain(v.patch)
    && forall i | 0 <= i < |v.pre| :: Identifier(v.pre[i])
  }

  function Core(v: Version): string {
    Join([v.major, v.minor, v.patch], '.')
  }

  function Render(v: Version): string {
    if v.pre == [] then Core(v) else Core(v) + "-" + Join(v.pre, '.')
  }

  /** The version pattern: three plain decimals, then optionally a hyphen and dotted alphanumeric identifiers. */
  ghost predicate Accepted(s: string) {
    exists v :: Valid(v) && Render(v) == s
  }

  predicate Without(s: string, sep: char) {
    forall i | 0 <= i < |s| :: s[i] != sep
  }

  lemma {:induction false} CutAt(s: string, t: string, sep: char)
    requires Without(s, sep)
    ensures Cut(s + [sep] + t, sep) == (s, t)
    ensures Cut(s, sep) == (s, "")
  {
    if s == [] {
      assert s + [sep] + t == [sep] + t;
    } else {
      CutAt(s[1..], t, sep);
      var whole := s + [sep] + t;
      assert whole[0] == s[0] && whole[1..] == s[1..] + [sep] + t;
      assert [s[0]] + s[1..] == s;
    }
  }

  lemma {:induction false} SplitAt(s: string, t: string, sep: char)
    requires Without(s, sep)
    ensures Split(s + [sep] + t, sep) == [s] + Split(t, sep)
    ensures Split(s, sep) == [s]
  {
    if s == [] {
      assert s + [sep] + t == [sep] + t;
    } else {
      SplitAt(s[1..], t, sep);
      var whole := s + [sep] + t;
      assert whole[0] == s[0] && whole[1..] == s[1..] + [sep] + t;
      assert [s[0]] + s[1..] == s;
    }
  }

  /** Splitting undoes joining. */
  lemma {:induction false} SplitJoin(parts: seq<string>, sep: char)
    requires |parts| > 0 && forall i | 0 <= i < |parts| :: Without(parts[i], sep)
    ensures Split(Join(parts, sep), sep) == parts
  {
    if |parts| == 1 {
      SplitAt(parts[0], [], sep);
    } else {
      SplitJoin(parts[1..], sep);
      SplitAt(parts[0], Join(parts[1..], sep), sep);
    }
  }

  lemma JoinCore(v: Version)
    ensures Core(v) == v.major + "." + (v.minor + "." + v.patch)
  {
    assert [v.major, v.minor, v.patch][1..] == [v.minor, v.patch];
    assert [v.minor, v.patch][1..] == [v.patch];
    assert Join([v.patch], '.') == v.patch;
    assert Join([v.minor, v.patch], '.') == v.minor + "." + v.patch;
    assert Join([v.major, v.minor, v.patch], '.') == v.major + "." + Join([v.minor, v.patch], '.');
  }

  /** The comparison's cutting and splitting recovers the parts of an accepted version. */
  lemma PartsOf(v: Version)
    requires Valid(v)
    ensures Cut(Render(v), '-') == (Core(v), if v.pre == [] then "" else Join(v.pre, '.'))
    ensures Split(Core(v), '.') == [v.major, v.minor, v.patch]
    ensures v.pre != [] ==> Split(Join(v.pre, '.'), '.') == v.pre && Join(v.pre, '.') != ""
  {
    var core := Core(v);
    SplitJoin([v.major, v.minor, v.patch], '.');
    JoinCore(v);
    assert Without(core, '-');
    CutAt(core, if v.pre == [] then "" else Join(v.pre, '.'), '-');
    if v.pre != [] {
      SplitJoin(v.pre, '.');
      assert Join(v.pre, '.')[0] == v.pre[0][0];
    }
  }

  lemma {:induction false} JoinSplit(s: string, sep: char)
    ensures Join(Split(s, sep), sep) == s
    ensures forall i | 0 <= i < |Split(s, sep)| :: Without(Split(s, sep)[i], sep)
  {
    if s != [] {
      JoinSplit(s[1..], sep);
      var rest := Split(s[1..], sep);
      assert [s[0]] + s[1..] == s;
      if s[0] == sep {
        assert ([""] + rest)[1..] == rest;
      } else {
        var parts := [[s[0]] + rest[0]] + rest[1..];
        assert parts[1..] == rest[1..];
      }
    }
  }

  lemma {:induction false} CutJoin(s: string, sep: char)
    ensures Without(Cut(s, sep).0, sep)
    ensures s == if sep in s then Cut(s, sep).0 + [sep] + Cut(s, sep).1 else Cut(s, sep).0
  {
    if s != [] {
      assert [s[0]] + s[1..] == s;
      if s[0] != sep {
        CutJoin(s[1..], sep);
      }
    }
  }

  /** The test the packaging code applies to a version string. */
  predicate Matches(s: string) {
    var (core, pre) := Cut(s, '-');
    var parts := Split(core, '.');
    && |parts| == 3 && Plain(parts[0]) && Plain(parts[1]) && Plain(parts[2])
    && ('-' in s ==> forall i | 0 <= i < |Split(pre, '.')| :: Identifier(Split(pre, '.')[i]))
  }

  /** The version a matching string stands for. */
  function Parse(s: string): Version
    requires Matches(s)
  {
    var (core, pre) := Cut(s, '-');
    var parts := Split(core, '.');
    Version(parts[0], parts[1], parts[2], if '-' in s then Split(pre, '.') else [])
  }

  lemma RenderParse(s: string)
    requires Matches(s)
    ensures Valid(Parse(s)) && Render(Parse(s)) == s
  {
    var (core, pre) := Cut(s, '-');
    var v := Parse(s);
    CutJoin(s, '-');
    JoinSplit(core, '.');
    JoinSplit(pre, '.');
    assert [v.major, v.minor, v.patch] == Split(core, '.');
  }

  lemma RenderMatches(v: Version)
    requires Valid(v)
    ensures Matches(Render(v))
  {
    PartsOf(v);
    if v.pre == [] {
      JoinCore(v);
    }
  }

  lemma MatchesIsAccepted(s: string)
    ensures Matches(s) <==> Accepted(s)
  {
    if Matches(s) {
      RenderParse(s);
    }
    if Accepted(s) {
      var v :| Valid(v) && Render(v) == s;
      RenderMatches(v);
    }
  }
}
