/** The version comparison is a total preorder on accepted versions and, within 64 bits, SemVer precedence. */
module VersionOrder {
  import opened Versions

  // ---- Text order ----

  /** Independent reading of text order: a proper prefix, or a smaller character at the first difference. */
  ghost predicate TextBefore(a: string, b: string) {
    exists k: nat :: DiffersAt(a, b, k)
  }

  predicate DiffersAt(a: string, b: string, k: nat) {
    k <= |a| && k < |b| && (forall i | 0 <= i < k :: a[i] == b[i]) && (k < |a| ==> a[k] < b[k])
  }

  lemma {:induction false} LexEqual(a: string, b: string)
    ensures Lex(a, b) == 0 <==> a == b
  {
    if a != [] && b != [] {
      LexEqual(a[1..], b[1..]);
      assert a == [a[0]] + a[1..] && b == [b[0]] + b[1..];
    }
  }

  lemma {:induction false} LexFlip(a: string, b: string)
    ensures Lex(b, a) == -Lex(a, b) && -1 <= Lex(a, b) <= 1
  {
    if a != [] && b != [] && a[0] == b[0] {
      LexFlip(a[1..], b[1..]);
    }
  }

  lemma {:induction false} LexTransitive(a: string, b: string, c: string)
    requires Lex(a, b) <= 0 && Lex(b, c) <= 0
    ensures Lex(a, c) <= 0 && (Lex(a, c) == 0 ==> Lex(a, b) == 0 && Lex(b, c) == 0)
  {
    if a != [] && b != [] && c != [] && a[0] == b[0] == c[0] {
      LexTransitive(a[1..], b[1..], c[1..]);
    }
  }

  lemma {:induction false} LexIsTextOrder(a: string, b: string)
    ensures Lex(a, b) < 0 <==> TextBefore(a, b)
  {
    if a == [] || b == [] || a[0] != b[0] {
      if Lex(a, b) < 0 {
        assert DiffersAt(a, b, 0);
      }
    } else {
      LexIsTextOrder(a[1..], b[1..]);
      if k: nat :| DiffersAt(a, b, k) {
        assert k > 0;
        assert DiffersAt(a[1..], b[1..], k - 1);
      }
      if k: nat :| DiffersAt(a[1..], b[1..], k) {
        forall i | 0 <= i < k + 1 ensures a[i] == b[i] {
          assert i > 0 ==> a[i] == a[1..][i - 1] && b[i] == b[1..][i - 1];
        }
        assert DiffersAt(a, b, k + 1);
      }
    }
  }

  // ---- Numbers ----

  lemma LeadDecides(d: nat, e: nat, p: nat, x: nat, y: nat)
    requires x < p && y < p
    ensures d < e ==> d * p + x < e * p + y
    ensures d > e ==> d * p + x > e * p + y
  {
    if d < e {
      assert d * p + p == (d + 1) * p <= e * p;
    }
    if d > e {
      assert e * p + p == (e + 1) * p <= d * p;
    }
  }

  lemma {:induction false} ValueBelow(s: string)
    requires forall i | 0 <= i < |s| :: IsDigit(s[i])
    ensures Value(s) < Pow10(|s|)
  {
    if s != [] {
      ValueBelow(s[1..]);
      LeadDecides(DigitValue(s[0]), 10, Pow10(|s| - 1), Value(s[1..]), 0);
    }
  }

  /** Equally long digit strings compare as text exactly as their values do. */
  lemma {:induction false} LexIsValue(a: string, b: string)
    requires |a| == |b|
    requires (forall i | 0 <= i < |a| :: IsDigit(a[i])) && (forall i | 0 <= i < |b| :: IsDigit(b[i]))
    ensures Lex(a, b) == Cmp(Value(a), Value(b))
  {
    if a != [] {
      ValueBelow(a[1..]);
      ValueBelow(b[1..]);
      LeadDecides(DigitValue(a[0]), DigitValue(b[0]), Pow10(|a| - 1), Value(a[1..]), Value(b[1..]));
      LexIsValue(a[1..], b[1..]);
    }
  }

  lemma {:induction false} Pow10Grows(m: nat, n: nat)
    requires m <= n
    ensures Pow10(m) <= Pow10(n)
  {
    if m < n {
      Pow10Grows(m, n - 1);
    }
  }

  lemma ShorterIsSmaller(a: string, b: string)
    requires Plain(a) && Plain(b) && |a| < |b|
    ensures Value(a) < Value(b)
  {
    ValueBelow(a);
    ValueBelow(b[1..]);
    Pow10Grows(|a|, |b| - 1);
    LeadDecides(0, DigitValue(b[0]), Pow10(|b| - 1), Value(a), Value(b[1..]));
  }

  /** Core components of any length compare as numbers. */
  lemma CompareNumericIsValue(a: string, b: string)
    requires Plain(a) && Plain(b)
    ensures CompareNumeric(a, b) == Cmp(Value(a), Value(b))
    ensures CompareNumeric(a, b) == 0 <==> a == b
  {
    if |a| < |b| {
      ShorterIsSmaller(a, b);
    } else if |b| < |a| {
      ShorterIsSmaller(b, a);
    } else {
      LexIsValue(a, b);
      LexEqual(a, b);
    }
  }

  // ---- Prerelease identifiers ----

  /** Two identifiers tie exactly when they are the same text or the same 64-bit number up to leading zeros. */
  predicate SameRank(x: string, y: string) {
    x == y || (ParseUint(x).Number? && ParseUint(x) == ParseUint(y))
  }

  lemma IdentifierTies(x: string, y: string)
    ensures CompareIdentifier(x, y) == 0 <==> SameRank(x, y)
    ensures CompareIdentifier(y, x) == -CompareIdentifier(x, y)
  {
    LexEqual(x, y);
    LexFlip(x, y);
  }

  lemma IdentifierTransitive(x: string, y: string, z: string)
    requires CompareIdentifier(x, y) <= 0 && CompareIdentifier(y, z) <= 0
    ensures CompareIdentifier(x, z) <= 0
    ensures CompareIdentifier(x, z) == 0 ==> CompareIdentifier(x, y) == 0 && CompareIdentifier(y, z) == 0
  {
    if Lex(x, y) <= 0 && Lex(y, z) <= 0 {
      LexTransitive(x, y, z);
    }
  }

  predicate SameRanks(xs: seq<string>, ys: seq<string>) {
    |xs| == |ys| && forall i | 0 <= i < |xs| :: SameRank(xs[i], ys[i])
  }

  lemma {:induction false} IdentifiersTies(xs: seq<string>, ys: seq<string>)
    ensures CompareIdentifiers(xs, ys) == 0 <==> SameRanks(xs, ys)
    ensures CompareIdentifiers(ys, xs) == -CompareIdentifiers(xs, ys)
  {
    if xs != [] && ys != [] {
      IdentifierTies(xs[0], ys[0]);
      IdentifiersTies(xs[1..], ys[1..]);
      if SameRank(xs[0], ys[0]) && SameRanks(xs[1..], ys[1..]) {
        forall i | 0 <= i < |xs| ensures SameRank(xs[i], ys[i]) {
          assert i > 0 ==> xs[i] == xs[1..][i - 1] && ys[i] == ys[1..][i - 1];
        }
      }
    }
  }

  lemma {:induction false} IdentifiersTransitive(xs: seq<string>, ys: seq<string>, zs: seq<string>)
    requires CompareIdentifiers(xs, ys) <= 0 && CompareIdentifiers(ys, zs) <= 0
    ensures CompareIdentifiers(xs, zs) <= 0
    ensures CompareIdentifiers(xs, zs) == 0 ==> CompareIdentifiers(xs, ys) == 0 && CompareIdentifiers(ys, zs) == 0
  {
    if xs != [] && ys != [] && zs != [] {
      IdentifierTransitive(xs[0], ys[0], zs[0]);
      if CompareIdentifier(xs[0], zs[0]) == 0 {
        IdentifiersTransitive(xs[1..], ys[1..], zs[1..]);
      }
    }
  }

  // ---- Versions ----

  /** Prerelease lists, the empty one ranking above all others. */
  function ComparePre(p: seq<string>, q: seq<string>): int {
    if p == [] then (if q == [] then 0 else 1)
    else if q == [] then -1
    else CompareIdentifiers(p, q)
  }

  function First(c: int, d: int): int {
    if c != 0 then c else d
  }

  /** The order the comparison computes, on the parts. */
  function Order(v: Version, w: Version): int
    requires Valid(v) && Valid(w)
  {
    First(Cmp(Value(v.major), Value(w.major)),
          First(Cmp(Value(v.minor), Value(w.minor)),
                First(Cmp(Value(v.patch), Value(w.patch)), ComparePre(v.pre, w.pre))))
  }

  lemma CoresByValue(v: Version, w: Version)
    requires Valid(v) && Valid(w)
    ensures CompareCores([v.major, v.minor, v.patch], [w.major, w.minor, w.patch], 0) ==
            First(Cmp(Value(v.major), Value(w.major)),
                  First(Cmp(Value(v.minor), Value(w.minor)), Cmp(Value(v.patch), Value(w.patch))))
  {
    var pa, pb := [v.major, v.minor, v.patch], [w.major, w.minor, w.patch];
    CompareNumericIsValue(v.major, w.major);
    CompareNumericIsValue(v.minor, w.minor);
    CompareNumericIsValue(v.patch, w.patch);
    assert CompareCores(pa, pb, 3) == 0;
    assert CompareCores(pa, pb, 2) == First(CompareNumeric(pa[2], pb[2]), 0);
    assert CompareCores(pa, pb, 1) == First(CompareNumeric(pa[1], pb[1]), CompareCores(pa, pb, 2));
  }

  lemma PreByParts(p: seq<string>, q: seq<string>)
    requires p != [] && q != [] && Join(p, '.') == Join(q, '.')
    requires Split(Join(p, '.'), '.') == p && Split(Join(q, '.'), '.') == q
    ensures CompareIdentifiers(p, q) == 0
  {
    IdentifiersTies(p, p);
  }

  lemma ComparesParts(v: Version, w: Version)
    requires Valid(v) && Valid(w)
    ensures CompareVersions(Render(v), Render(w)) == Order(v, w)
  {
    PartsOf(v);
    PartsOf(w);
    CoresByValue(v, w);
    if v.pre != [] && w.pre != [] && Join(v.pre, '.') == Join(w.pre, '.') {
      PreByParts(v.pre, w.pre);
    }
  }

  lemma PreFlips(p: seq<string>, q: seq<string>)
    ensures ComparePre(q, p) == -ComparePre(p, q)
    ensures ComparePre(p, q) == 0 <==> SameRanks(p, q)
  {
    IdentifiersTies(p, q);
  }

  lemma PreTransitive(p: seq<string>, q: seq<string>, r: seq<string>)
    requires ComparePre(p, q) <= 0 && ComparePre(q, r) <= 0
    ensures ComparePre(p, r) <= 0
    ensures ComparePre(p, r) == 0 ==> ComparePre(p, q) == 0 && ComparePre(q, r) == 0
  {
    if p != [] && q != [] && r != [] {
      IdentifiersTransitive(p, q, r);
    }
  }

  lemma OrderTransitive(u: Version, v: Version, w: Version)
    requires Valid(u) && Valid(v) && Valid(w) && Order(u, v) <= 0 && Order(v, w) <= 0
    ensures Order(u, w) <= 0
    ensures Order(u, w) == 0 ==> Order(u, v) == 0 && Order(v, w) == 0
  {
    if ComparePre(u.pre, v.pre) <= 0 && ComparePre(v.pre, w.pre) <= 0 {
      PreTransitive(u.pre, v.pre, w.pre);
    }
  }

  /**
   * Comparing the other way round gives the opposite answer, so any two versions are comparable and a version ties with
   * itself.
   */
  lemma CompareTotal(a: string, b: string)
    requires Matches(a) && Matches(b)
    ensures CompareVersions(b, a) == -CompareVersions(a, b)
    ensures CompareVersions(a, a) == 0
  {
    RenderParse(a);
    RenderParse(b);
    var v, w := Parse(a), Parse(b);
    ComparesParts(v, w);
    ComparesParts(w, v);
    ComparesParts(v, v);
    PreFlips(v.pre, w.pre);
    PreFlips(v.pre, v.pre);
  }

  lemma CompareTransitive(a: string, b: string, c: string)
    requires Matches(a) && Matches(b) && Matches(c)
    requires CompareVersions(a, b) <= 0 && CompareVersions(b, c) <= 0
    ensures CompareVersions(a, c) <= 0
    ensures CompareVersions(a, c) == 0 ==> CompareVersions(a, b) == 0 && CompareVersions(b, c) == 0
  {
    RenderParse(a);
    RenderParse(b);
    RenderParse(c);
    var u, v, w := Parse(a), Parse(b), Parse(c);
    ComparesParts(u, v);
    ComparesParts(v, w);
    ComparesParts(u, w);
    OrderTransitive(u, v, w);
  }

  lemma SameValueSameText(a: string, b: string)
    requires Plain(a) && Plain(b)
    ensures Value(a) == Value(b) <==> a == b
  {
    CompareNumericIsValue(a, b);
  }

  /** Two accepted versions tie exactly when they differ in nothing but leading zeros of 64-bit prerelease numbers. */
  lemma CompareTies(a: string, b: string)
    requires Matches(a) && Matches(b)
    ensures CompareVersions(a, b) == 0 <==>
            && Parse(a).major == Parse(b).major && Parse(a).minor == Parse(b).minor && Parse(a).patch == Parse(b).patch
            && SameRanks(Parse(a).pre, Parse(b).pre)
  {
    RenderParse(a);
    RenderParse(b);
    var v, w := Parse(a), Parse(b);
    ComparesParts(v, w);
    PreFlips(v.pre, w.pre);
    SameValueSameText(v.major, w.major);
    SameValueSameText(v.minor, w.minor);
    SameValueSameText(v.patch, w.patch);
  }

  // ---- SemVer 2.0.0, section 11 ----

  /** Numeric identifiers compare as numbers and rank below alphanumeric ones, which compare as text. */
  ghost predicate IdentifierBelow(x: string, y: string) {
    if Digits(x) then !Digits(y) || Value(x) < Value(y)
    else !Digits(y) && TextBefore(x, y)
  }

  /** The first identifiers that do not tie decide; a proper prefix ranks below the longer list. */
  ghost predicate IdentifiersBelow(p: seq<string>, q: seq<string>) {
    exists k: nat :: DecidedAt(p, q, k)
  }

  ghost predicate DecidedAt(p: seq<string>, q: seq<string>, k: nat) {
    && k <= |p| && k < |q|
    && (forall i | 0 <= i < k :: !IdentifierBelow(p[i], q[i]) && !IdentifierBelow(q[i], p[i]))
    && (k < |p| ==> IdentifierBelow(p[k], q[k]))
  }

  ghost predicate PrecedenceBelow(v: Version, w: Version)
    requires Valid(v) && Valid(w)
  {
    if Value(v.major) != Value(w.major) then Value(v.major) < Value(w.major)
    else if Value(v.minor) != Value(w.minor) then Value(v.minor) < Value(w.minor)
    else if Value(v.patch) != Value(w.patch) then Value(v.patch) < Value(w.patch)
    else v.pre != [] && (w.pre == [] || IdentifiersBelow(v.pre, w.pre))
  }

  predicate Oversized(x: string) {
    Digits(x) && Value(x) > MAX_UINT64
  }

  /** Every numeric prerelease identifier fits 64 bits. */
  predicate Fits(p: seq<string>) {
    forall i | 0 <= i < |p| :: !Oversized(p[i])
  }

  /**
   * Pairs the comparison ranks against SemVer: an oversized number sorts as text among words and other oversized
   * numbers.
   */
  ghost predicate Misranked(x: string, y: string) {
    || (Oversized(x) && !Digits(y) && TextBefore(y, x))
    || (Oversized(y) && !Digits(x) && TextBefore(x, y))
    || (Oversized(x) && Oversized(y) && Lex(x, y) != Cmp(Value(x), Value(y)))
  }

  ghost predicate RankedAlike(x: string, y: string) {
    (CompareIdentifier(x, y) < 0 <==> IdentifierBelow(x, y)) && (CompareIdentifier(x, y) > 0 <==> IdentifierBelow(y, x))
  }

  /** On single identifiers the comparison is SemVer precedence exactly where no oversized number is misranked. */
  lemma IdentifierPrecedence(x: string, y: string)
    requires Identifier(x) && Identifier(y)
    ensures RankedAlike(x, y) <==> !Misranked(x, y)
  {
    LexIsTextOrder(x, y);
    LexIsTextOrder(y, x);
    LexFlip(x, y);
    LexEqual(x, y);
  }

  // ---- Whole lists ----

  /** SemVer precedence of two identifiers as a sign. */
  ghost function PairOrder(x: string, y: string): int {
    if IdentifierBelow(x, y) then -1 else if IdentifierBelow(y, x) then 1 else 0
  }

  ghost function ListOrder(p: seq<string>, q: seq<string>): int {
    if p == [] || q == [] then Cmp(|p|, |q|) else First(PairOrder(p[0], q[0]), ListOrder(p[1..], q[1..]))
  }

  lemma {:induction false} ListOrderMeaning(p: seq<string>, q: seq<string>)
    ensures ListOrder(p, q) < 0 <==> IdentifiersBelow(p, q)
    ensures ListOrder(p, q) > 0 <==> IdentifiersBelow(q, p)
  {
    if p != [] && q != [] {
      ListOrderMeaning(p[1..], q[1..]);
      BelowAsymmetric(p[0], q[0]);
      if PairOrder(p[0], q[0]) == 0 {
        TailDecides(p, q);
        TailDecides(q, p);
      } else if PairOrder(p[0], q[0]) < 0 {
        HeadDecides(p, q);
      } else {
        HeadDecides(q, p);
      }
    } else if |p| < |q| {
      assert DecidedAt(p, q, 0);
    } else if |q| < |p| {
      assert DecidedAt(q, p, 0);
    }
  }

  lemma BelowAsymmetric(x: string, y: string)
    ensures !(IdentifierBelow(x, y) && IdentifierBelow(y, x))
  {
    LexIsTextOrder(x, y);
    LexIsTextOrder(y, x);
    LexFlip(x, y);
  }

  lemma HeadDecides(p: seq<string>, q: seq<string>)
    requires p != [] && q != [] && IdentifierBelow(p[0], q[0])
    ensures IdentifiersBelow(p, q) && !IdentifiersBelow(q, p)
  {
    BelowAsymmetric(p[0], q[0]);
    assert DecidedAt(p, q, 0);
    forall k: nat ensures !DecidedAt(q, p, k) {
    }
  }

  lemma PairRange(x: string, y: string)
    ensures -1 <= CompareIdentifier(x, y) <= 1
    ensures RankedAlike(x, y) <==> CompareIdentifier(x, y) == PairOrder(x, y)
  {
    LexFlip(x, y);
    BelowAsymmetric(x, y);
  }

  /**
   * The first identifiers the comparison tells apart are a misranked pair, and what follows does not make up for it:
   * SemVer tells such a pair apart too, unless they are one oversized number written with different leading zeros.
   */
  ghost predicate Misordered(p: seq<string>, q: seq<string>) {
    && p != [] && q != []
    && if CompareIdentifier(p[0], q[0]) == 0 then Misordered(p[1..], q[1..])
       else
         && Misranked(p[0], q[0])
         && (PairOrder(p[0], q[0]) == 0 ==> ListOrder(p[1..], q[1..]) != CompareIdentifier(p[0], q[0]))
  }

  /** On lists of identifiers the comparison is SemVer precedence exactly where they are not misordered. */
  lemma {:induction false} ListPrecedence(p: seq<string>, q: seq<string>)
    requires forall i | 0 <= i < |p| :: Identifier(p[i])
    requires forall i | 0 <= i < |q| :: Identifier(q[i])
    ensures CompareIdentifiers(p, q) == ListOrder(p, q) <==> !Misordered(p, q)
  {
    if p != [] && q != [] {
      ListPrecedence(p[1..], q[1..]);
      IdentifierPrecedence(p[0], q[0]);
      PairRange(p[0], q[0]);
      if CompareIdentifier(p[0], q[0]) == 0 {
        TieIsRanked(p[0], q[0]);
      }
    }
  }

  lemma TieIsRanked(x: string, y: string)
    requires CompareIdentifier(x, y) == 0
    ensures PairOrder(x, y) == 0
  {
    LexEqual(x, y);
    LexIsTextOrder(x, y);
    LexIsTextOrder(y, x);
    LexFlip(x, y);
  }

  lemma {:induction false} FitsIsOrdered(p: seq<string>, q: seq<string>)
    requires Fits(p) && Fits(q)
    ensures !Misordered(p, q)
  {
    if p != [] && q != [] {
      FitsIsOrdered(p[1..], q[1..]);
    }
  }

  lemma TailDecides(p: seq<string>, q: seq<string>)
    requires p != [] && q != [] && !IdentifierBelow(p[0], q[0]) && !IdentifierBelow(q[0], p[0])
    ensures IdentifiersBelow(p, q) <==> IdentifiersBelow(p[1..], q[1..])
  {
    if k: nat :| DecidedAt(p, q, k) {
      assert k > 0;
      assert DecidedAt(p[1..], q[1..], k - 1) by {
        forall i | 0 <= i < k - 1 ensures !IdentifierBelow(p[1..][i], q[1..][i])
          && !IdentifierBelow(q[1..][i], p[1..][i]) {
          assert !IdentifierBelow(p[i + 1], q[i + 1]);
        }
      }
    }
    if t: nat :| DecidedAt(p[1..], q[1..], t) {
      assert DecidedAt(p, q, t + 1) by {
        forall i | 0 <= i < t + 1 ensures !IdentifierBelow(p[i], q[i]) && !IdentifierBelow(q[i], p[i]) {
          assert i > 0 ==> p[i] == p[1..][i - 1] && q[i] == q[1..][i - 1];
        }
      }
    }
  }

  ghost predicate SameCore(v: Version, w: Version) {
    v.major == w.major && v.minor == w.minor && v.patch == w.patch
  }

  /** The comparison is SemVer precedence exactly where the cores differ or the prereleases are not misordered. */
  lemma SemVerExactly(a: string, b: string)
    requires Matches(a) && Matches(b)
    ensures Valid(Parse(a)) && Valid(Parse(b))
    ensures (CompareVersions(a, b) < 0 <==> PrecedenceBelow(Parse(a), Parse(b)))
            && (CompareVersions(a, b) > 0 <==> PrecedenceBelow(Parse(b), Parse(a)))
            <==> !(SameCore(Parse(a), Parse(b)) && Misordered(Parse(a).pre, Parse(b).pre))
  {
    RenderParse(a);
    RenderParse(b);
    PartsExactly(Parse(a), Parse(b));
  }

  lemma PartsExactly(v: Version, w: Version)
    requires Valid(v) && Valid(w)
    ensures (CompareVersions(Render(v), Render(w)) < 0 <==> PrecedenceBelow(v, w))
            && (CompareVersions(Render(v), Render(w)) > 0 <==> PrecedenceBelow(w, v))
            <==> !(SameCore(v, w) && Misordered(v.pre, w.pre))
  {
    ComparesParts(v, w);
    ListPrecedence(v.pre, w.pre);
    ListOrderMeaning(v.pre, w.pre);
    ListRanges(v.pre, w.pre);
    SameValueSameText(v.major, w.major);
    SameValueSameText(v.minor, w.minor);
    SameValueSameText(v.patch, w.patch);
  }

  lemma {:induction false} ListRanges(p: seq<string>, q: seq<string>)
    ensures -1 <= CompareIdentifiers(p, q) <= 1 && -1 <= ListOrder(p, q) <= 1
  {
    if p != [] && q != [] {
      PairRange(p[0], q[0]);
      ListRanges(p[1..], q[1..]);
    }
  }

  /** Where prerelease numbers fit 64 bits, the comparison is SemVer precedence. */
  lemma FollowsSemVer(a: string, b: string)
    requires Matches(a) && Matches(b) && Fits(Parse(a).pre) && Fits(Parse(b).pre)
    ensures Valid(Parse(a)) && Valid(Parse(b))
    ensures CompareVersions(a, b) < 0 <==> PrecedenceBelow(Parse(a), Parse(b))
  {
    SemVerExactly(a, b);
    FitsIsOrdered(Parse(a).pre, Parse(b).pre);
  }

  lemma LongIsOversized(x: string)
    requires Plain(x) && |x| > 20
    ensures Oversized(x)
  {
    ValueBelow(x[1..]);
    Pow10Grows(20, |x| - 1);
    assert Pow10(20) > MAX_UINT64 by {
      assert Pow10(4) == 10_000;
      assert Pow10(8) == 100_000_000;
      assert Pow10(12) == 1_000_000_000_000;
      assert Pow10(16) == 10_000_000_000_000_000;
    }
    LeadDecides(0, DigitValue(x[0]), Pow10(|x| - 1), Pow10(|x| - 1) - 1, Value(x[1..]));
  }

  /**
   * The comparison misorders every pair of versions whose prereleases first differ in an oversized number against an
   * earlier word, whatever follows.
   */
  lemma OversizedMisorders(v: Version, w: Version, common: seq<string>, x: string, y: string, xs: seq<string>,
                           ys: seq<string>)
    requires Valid(v) && Valid(w) && SameCore(v, w) && v.pre == common + [x] + xs && w.pre == common + [y] + ys
    requires Oversized(x) && !Digits(y) && TextBefore(y, x)
    ensures PrecedenceBelow(v, w) && CompareVersions(Render(v), Render(w)) > 0
  {
    assert v.pre[|common|] == x && w.pre[|common|] == y;
    IdentifierPrecedence(x, y);
    IdentifierTies(x, y);
    LexIsTextOrder(y, x);
    ComparesParts(v, w);
    CommonPrefix(common, [x] + xs, [y] + ys);
    assert common + ([x] + xs) == v.pre && common + ([y] + ys) == w.pre;
    ListOrderMeaning(v.pre, w.pre);
    SameValueSameText(v.major, w.major);
  }

  lemma {:induction false} CommonPrefix(common: seq<string>, p: seq<string>, q: seq<string>)
    ensures CompareIdentifiers(common + p, common + q) == CompareIdentifiers(p, q)
    ensures ListOrder(common + p, common + q) == ListOrder(p, q)
  {
    if common == [] {
      assert common + p == p && common + q == q;
    } else {
      CommonPrefix(common[1..], p, q);
      assert (common + p)[1..] == common[1..] + p && (common + q)[1..] == common[1..] + q;
      assert (common + p)[0] == (common + q)[0] == common[0];
      IdentifierTies(common[0], common[0]);
      TieIsRanked(common[0], common[0]);
    }
  }

  /**
   * A hundred quintillion does not fit 64 bits and so outranks the word "0a", which SemVer ranks above every number.
   */
  lemma OversizedCounterexample(x: string, y: string)
    requires x == "100000000000000000000" && y == "0a"
    ensures var v, w := Version("1", "0", "0", [x]), Version("1", "0", "0", [y]);
            Valid(v) && Valid(w) && PrecedenceBelow(v, w) && CompareVersions(Render(v), Render(w)) > 0
  {
    LongIsOversized(x);
    assert !IsDigit(y[1]);
    assert DiffersAt(y, x, 0);
    OversizedOnly(x, y);
  }

  lemma OversizedOnly(x: string, y: string)
    requires Identifier(x) && Identifier(y) && Oversized(x) && !Digits(y) && TextBefore(y, x)
    ensures var v, w := Version("1", "0", "0", [x]), Version("1", "0", "0", [y]);
            Valid(v) && Valid(w) && PrecedenceBelow(v, w) && CompareVersions(Render(v), Render(w)) > 0
  {
    var v, w := Version("1", "0", "0", [x]), Version("1", "0", "0", [y]);
    assert [] + [x] + [] == [x] && [] + [y] + [] == [y];
    OversizedMisorders(v, w, [], x, y, [], []);
  }

  /** The comparison as the planner runs it, component by component. */
  method Compare(a: string, b: string) returns (c: int)
    ensures c == CompareVersions(a, b)
  {
    var (coreA, preA) := Cut(a, '-');
    var (coreB, preB) := Cut(b, '-');
    var pa, pb := Split(coreA, '.'), Split(coreB, '.');
    var i := 0;
    while i < 3 && i < |pa| && i < |pb|
      invariant 0 <= i <= 3
      invariant CompareCores(pa, pb, 0) == CompareCores(pa, pb, i)
    {
      c := CompareNumeric(pa[i], pb[i]);
      if c != 0 {
        return;
      }
      i := i + 1;
    }
    if preA == preB {
      return 0;
    } else if preA == "" {
      return 1;
    } else if preB == "" {
      return -1;
    }
    var ia, ib := Split(preA, '.'), Split(preB, '.');
    i := 0;
    while i < |ia| && i < |ib|
      invariant 0 <= i <= |ia| && i <= |ib|
      invariant CompareIdentifiers(ia, ib) == CompareIdentifiers(ia[i..], ib[i..])
    {
      c := CompareIdentifier(ia[i], ib[i]);
      if c != 0 {
        return;
      }
      assert ia[i..][1..] == ia[i + 1..] && ib[i..][1..] == ib[i + 1..];
      i := i + 1;
    }
    return Cmp(|ia|, |ib|);
  }
}
