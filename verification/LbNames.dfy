/** Names of load balancers that the spec leaves unnamed, as the webhook and the controller derive
    them. A character stands for a byte of the source's strings. */
module LbNames {
  import opened Common
  import opened ApiShared
  import V3 = V1beta3

  const MAX_LEN := 63

  /** The first value that a 64-bit `int` index cannot have. */
  const INT_LIMIT := 0x8000_0000_0000_0000

  // ---- Decimal numbers ----

  const DIGITS := "0123456789"

  function Itoa(n: nat): string {
    if n < 10 then [DIGITS[n]] else Itoa(n / 10) + [DIGITS[n % 10]]
  }

  predicate IsDigit(c: char) { '0' <= c <= '9' }

  function Atoi(s: string): nat
    requires forall c :: c in s ==> IsDigit(c)
  {
    if s == [] then 0
    else
      assert IsDigit(s[|s| - 1]);
      10 * Atoi(s[..|s| - 1]) + (s[|s| - 1] as int - '0' as int)
  }

  lemma {:induction false} ItoaDigits(n: nat)
    ensures Itoa(n) != [] && forall c :: c in Itoa(n) ==> IsDigit(c)
  {
    if n >= 10 {
      ItoaDigits(n / 10);
    }
  }

  /** The decimal form determines the number. */
  lemma {:induction false} AtoiOfItoa(n: nat)
    ensures (forall c :: c in Itoa(n) ==> IsDigit(c)) && Atoi(Itoa(n)) == n
  {
    ItoaDigits(n);
    if n >= 10 {
      AtoiOfItoa(n / 10);
      assert Itoa(n)[..|Itoa(n)| - 1] == Itoa(n / 10);
      assert DIGITS[n % 10] as int - '0' as int == n % 10;
    } else {
      assert Itoa(n)[..0] == [];
      assert DIGITS[n] as int - '0' as int == n;
    }
  }

  function Pow10(k: nat): nat {
    if k == 0 then 1 else 10 * Pow10(k - 1)
  }

  lemma {:induction false} ItoaLength(n: nat, k: nat)
    requires k >= 1 && n < Pow10(k)
    ensures |Itoa(n)| <= k
    decreases k
  {
    if n >= 10 {
      assert Pow10(1) == 10;
      ItoaLength(n / 10, k - 1);
    }
  }

  // ---- Name construction ----

  /** `strings.TrimRight(s, "-")`. */
  function TrimHyphens(s: string): (r: string)
    ensures r <= s
    ensures r == [] || r[|r| - 1] != '-'
    ensures forall k :: |r| <= k < |s| ==> s[k] == '-'
  {
    if s != [] && s[|s| - 1] == '-' then TrimHyphens(s[..|s| - 1]) else s
  }

  /** The part of the cluster name that is kept when `max` characters are left for it. */
  function Base(clusterName: string, max: nat): string {
    if |clusterName| > max then TrimHyphens(clusterName[..max]) else clusterName
  }

  function Qualified(suffix: string, qualifier: string): string {
    if qualifier != "" then suffix + "-" + qualifier else suffix
  }

  /** None when `base[:maxBase]` would be out of range. */
  function ResourceName(clusterName: string, suffix: string, qualifier: string): Option<string> {
    var full := Qualified(suffix, qualifier);
    var maxBase := MAX_LEN - |full| - 1;
    if maxBase < 0 then None else Some(Base(clusterName, maxBase) + "-" + full)
  }

  function Kind(lb: V3.LoadBalancerSource): string {
    if lb.provision.kind == Private then "private" else "public"
  }

  /** Type and, from the second entry on, position. */
  function Suffix(lb: V3.LoadBalancerSource, i: nat): string {
    Qualified("loadbalancer-" + Kind(lb), if i > 0 then Itoa(i) else "")
  }

  /** The name the webhook compares by, and the controller provisions under: the first entry has no
      number. */
  function ResolvedName(clusterName: string, lb: V3.LoadBalancerSource, i: nat): Option<string> {
    if lb.provision.name != "" then Some(lb.provision.name)
    else ResourceName(clusterName, "loadbalancer-" + Kind(lb), if i > 0 then Itoa(i) else "")
  }

  // ---- Laws ----

  /** Construction slices out of range exactly when the suffix leaves no room for the separator, and
      otherwise yields at most 63 characters that end in the whole suffix. */
  lemma ResourceNameBounded(clusterName: string, suffix: string, qualifier: string)
    ensures var full := Qualified(suffix, qualifier);
            var r := ResourceName(clusterName, suffix, qualifier);
            && (r.None? <==> |full| > 62)
            && (r.Some? ==> |r.value| <= MAX_LEN && |full| < |r.value| && r.value[|r.value| - |full| - 1..] == "-" + full)
            && (r.Some? && |clusterName| + 1 + |full| <= MAX_LEN ==> r.value == clusterName + "-" + full)
  {
    var full := Qualified(suffix, qualifier);
    if |full| <= 62 {
      var base := Base(clusterName, MAX_LEN - |full| - 1);
      assert base + "-" + full == base + ("-" + full);
    }
  }

  lemma ItoaFits(i: nat)
    requires i < INT_LIMIT
    ensures |Itoa(i)| <= 19
  {
    assert Pow10(4) == 10_000;
    assert Pow10(8) == 100_000_000;
    assert Pow10(12) == 1_000_000_000_000;
    assert Pow10(16) == 10_000_000_000_000_000;
    assert Pow10(19) == 10_000_000_000_000_000_000;
    ItoaLength(i, 19);
  }

  lemma SuffixFits(lb: V3.LoadBalancerSource, i: nat)
    requires i < INT_LIMIT
    ensures |Suffix(lb, i)| <= 40
  {
    ItoaFits(i);
  }

  /** The part of the cluster name that a derived name keeps. */
  function Kept(clusterName: string, lb: V3.LoadBalancerSource, i: nat): string
    requires |Suffix(lb, i)| <= 40
  {
    Base(clusterName, MAX_LEN - |Suffix(lb, i)| - 1)
  }

  lemma DerivedShape(clusterName: string, lb: V3.LoadBalancerSource, i: nat)
    requires i < INT_LIMIT && lb.provision.name == ""
    ensures |Suffix(lb, i)| <= 40
    ensures ResolvedName(clusterName, lb, i) == Some(Kept(clusterName, lb, i) + "-" + Suffix(lb, i))
  {
    SuffixFits(lb, i);
  }

  /** A cluster name with a tail, cut so that the whole has at most 63 characters. */
  function CutTo(clusterName: string, tail: string): string
    requires |tail| <= 63
  {
    (if |clusterName| + |tail| <= 63 then clusterName else TrimHyphens(clusterName[..63 - |tail|])) + tail
  }

  lemma NameInFull(clusterName: string, suffix: string, qualifier: string, tail: string)
    requires tail == "-" + Qualified(suffix, qualifier) && |tail| <= 63
    ensures ResourceName(clusterName, suffix, qualifier) == Some(CutTo(clusterName, tail))
  {
    var full := Qualified(suffix, qualifier);
    var base := Base(clusterName, MAX_LEN - |full| - 1);
    assert base + "-" + full == base + tail;
  }

  /** What follows the cluster name. */
  function Tail(lb: V3.LoadBalancerSource, i: nat): string {
    "-loadbalancer-" + (if lb.provision.kind == Private then "private" else "public") + (if i == 0 then "" else "-" + Itoa(i))
  }

  lemma JoinWithHyphens(first: string, kind: string, q: string)
    ensures "-" + (first + kind + "-" + q) == "-" + first + kind + ("-" + q)
    ensures "-" + (first + kind) == "-" + first + kind
  {
  }

  lemma TailIsSuffix(lb: V3.LoadBalancerSource, i: nat)
    ensures Tail(lb, i) == "-" + Suffix(lb, i)
  {
    ItoaDigits(i);
    JoinWithHyphens("loadbalancer-", Kind(lb), Itoa(i));
    assert "-loadbalancer-" == "-" + "loadbalancer-";
    if i == 0 {
      assert Tail(lb, i) == "-loadbalancer-" + Kind(lb) + "";
    }
  }

  /** The derived name in full: the cluster name, cut where the whole would exceed 63 characters, and then
      the type and, except for the first entry, the position. */
  lemma DerivedNameExactly(clusterName: string, lb: V3.LoadBalancerSource, i: nat)
    requires i < INT_LIMIT && lb.provision.name == ""
    ensures |Tail(lb, i)| <= 41 && ResolvedName(clusterName, lb, i) == Some(CutTo(clusterName, Tail(lb, i)))
  {
    SuffixFits(lb, i);
    TailIsSuffix(lb, i);
    NameInFull(clusterName, "loadbalancer-" + Kind(lb), if i > 0 then Itoa(i) else "", Tail(lb, i));
  }

  /** The name of the load balancer that an empty list stands for. */
  lemma DefaultNameExactly(clusterName: string)
    ensures ResourceName(clusterName, "loadbalancer-public", "") == Some(CutTo(clusterName, "-loadbalancer-public"))
  {
    NameInFull(clusterName, "loadbalancer-public", "", "-loadbalancer-public");
  }

  /** An explicit name is taken as it is. */
  lemma ExplicitNameExactly(clusterName: string, lb: V3.LoadBalancerSource, i: nat)
    requires lb.provision.name != ""
    ensures ResolvedName(clusterName, lb, i) == LookupName(clusterName, lb, i) == Some(lb.provision.name)
  {
  }

  /** For every cluster name and every index, the name exists and has at most 63 characters. */
  lemma DerivedNameFits(clusterName: string, lb: V3.LoadBalancerSource, i: nat)
    requires i < INT_LIMIT && lb.provision.name == ""
    ensures var r := ResolvedName(clusterName, lb, i); r.Some? && 20 <= |r.value| <= MAX_LEN
  {
    SuffixFits(lb, i);
    ResourceNameBounded(clusterName, "loadbalancer-" + Kind(lb), if i > 0 then Itoa(i) else "");
  }

  /** What follows the last hyphen. */
  function LastPart(s: string): string {
    if s == [] || s[|s| - 1] == '-' then [] else LastPart(s[..|s| - 1]) + [s[|s| - 1]]
  }

  lemma {:induction false} LastPartOf(a: string, b: string)
    requires '-' !in b
    ensures LastPart(a + "-" + b) == b
  {
    var s := a + "-" + b;
    if b != [] {
      var n := |b| - 1;
      assert s[..|s| - 1] == a + "-" + b[..n];
      assert b == b[..n] + [b[n]];
      LastPartOf(a, b[..n]);
    }
  }

  lemma LastPartOfNumbered(base: string, stem: string, i: nat)
    requires i > 0
    ensures LastPart(base + "-" + Qualified(stem, Itoa(i))) == Itoa(i)
  {
    ItoaDigits(i);
    LastPartOf(base + "-" + stem, Itoa(i));
    assert base + "-" + Qualified(stem, Itoa(i)) == base + "-" + stem + "-" + Itoa(i);
  }

  lemma LastPartOfKind(base: string, lb: V3.LoadBalancerSource)
    ensures LastPart(base + "-" + Qualified("loadbalancer-" + Kind(lb), "")) == Kind(lb)
  {
    LastPartOf(base + "-" + "loadbalancer", Kind(lb));
    assert base + "-" + ("loadbalancer-" + Kind(lb)) == base + "-" + "loadbalancer" + "-" + Kind(lb);
  }

  /** The part that tells the entries of one list apart survives every truncation. */
  lemma DerivedLastPart(clusterName: string, lb: V3.LoadBalancerSource, i: nat)
    requires i < INT_LIMIT && lb.provision.name == ""
    ensures var r := ResolvedName(clusterName, lb, i);
            r.Some? && LastPart(r.value) == if i > 0 then Itoa(i) else Kind(lb)
  {
    DerivedShape(clusterName, lb, i);
    var base := Kept(clusterName, lb, i);
    if i > 0 {
      LastPartOfNumbered(base, "loadbalancer-" + Kind(lb), i);
    } else {
      LastPartOfKind(base, lb);
    }
  }

  /** Nameless entries at different indices never collide, whatever their types and however much of
      the cluster name is cut. */
  lemma DerivedNamesDistinct(clusterName: string, a: V3.LoadBalancerSource, i: nat, b: V3.LoadBalancerSource, j: nat)
    requires i < j < INT_LIMIT && a.provision.name == "" && b.provision.name == ""
    ensures ResolvedName(clusterName, a, i) != ResolvedName(clusterName, b, j)
  {
    DerivedLastPart(clusterName, a, i);
    DerivedLastPart(clusterName, b, j);
    AtoiOfItoa(i);
    AtoiOfItoa(j);
    ItoaDigits(j);
    if i == 0 {
      assert Kind(a)[0] == 'p' && !IsDigit('p');
      assert Kind(a)[0] in Kind(a);
    }
  }

  // ---- The pattern for provision names ----

  predicate IsLower(c: char) { 'a' <= c <= 'z' }

  predicate IsAllowed(c: char) { c == '-' || IsLower(c) || IsDigit(c) }

  /** `^([a-z]|[a-z][-a-z0-9]*[a-z0-9])$` */
  predicate MatchesPattern(s: string) {
    || (|s| == 1 && IsLower(s[0]))
    || (|s| >= 2 && IsLower(s[0]) && (forall k :: 0 < k < |s| - 1 ==> IsAllowed(s[k])) && (IsLower(s[|s| - 1]) || IsDigit(s[|s| - 1])))
  }

  /** A cluster name whose beginning is usable. */
  predicate GoodStart(s: string) {
    s != [] && IsLower(s[0]) && forall c :: c in s ==> IsAllowed(c)
  }

  lemma GoodSuffix(lb: V3.LoadBalancerSource, i: nat)
    ensures var full := Suffix(lb, i);
            && |full| >= 2 && (forall c :: c in full ==> IsAllowed(c))
            && (IsLower(full[|full| - 1]) || IsDigit(full[|full| - 1]))
  {
    ItoaDigits(i);
    var stem := "loadbalancer-" + Kind(lb);
    var full := Qualified(stem, if i > 0 then Itoa(i) else "");
    forall c | c in full ensures IsAllowed(c) {
      if c !in stem && c != '-' {
        assert c in Itoa(i);
      }
    }
    if i > 0 {
      assert full[|full| - 1] == Itoa(i)[|Itoa(i)| - 1];
      assert Itoa(i)[|Itoa(i)| - 1] in Itoa(i);
    }
  }

  /** A derived name matches the pattern exactly when the kept part of the cluster name is a good start. */
  lemma PatternExactly(clusterName: string, lb: V3.LoadBalancerSource, i: nat)
    requires i < INT_LIMIT && lb.provision.name == ""
    ensures var r := ResolvedName(clusterName, lb, i);
            && r.Some? && |Suffix(lb, i)| <= 40
            && (MatchesPattern(r.value) <==> GoodStart(Kept(clusterName, lb, i)))
  {
    DerivedShape(clusterName, lb, i);
    GoodSuffix(lb, i);
    PatternOfJoin(Kept(clusterName, lb, i), Suffix(lb, i));
  }

  lemma PatternOfJoin(base: string, full: string)
    requires |full| >= 2 && (forall c :: c in full ==> IsAllowed(c))
    requires IsLower(full[|full| - 1]) || IsDigit(full[|full| - 1])
    ensures MatchesPattern(base + "-" + full) <==> GoodStart(base)
  {
    var s := base + "-" + full;
    var n := |base|;
    assert s[|s| - 1] == full[|full| - 1];
    assert forall k :: 0 <= k < n ==> s[k] == base[k];
    if base == [] {
      assert s[0] == '-';
    } else if MatchesPattern(s) {
      forall c | c in base ensures IsAllowed(c) {
        var k :| 0 <= k < n && base[k] == c;
        assert s[k] == c;
      }
    }
    if GoodStart(base) {
      forall k | 0 < k < |s| - 1 ensures IsAllowed(s[k]) {
        if k < n {
          assert base[k] in base;
        } else if k > n {
          assert s[k] == full[k - n - 1] && full[k - n - 1] in full;
        }
      }
    }
  }

  /** Truncation keeps a good start, because its first letter is not a hyphen. */
  lemma GoodBase(clusterName: string, max: nat)
    requires GoodStart(clusterName) && max >= 1
    ensures GoodStart(Base(clusterName, max))
  {
    var base := Base(clusterName, max);
    assert base <= clusterName;
    assert clusterName[0] != '-' && (|clusterName| > max ==> clusterName[..max][0] == clusterName[0]);
    forall c | c in base ensures IsAllowed(c) {
      var k :| 0 <= k < |base| && base[k] == c;
      assert clusterName[k] == c;
    }
  }

  /** So every cluster name over the allowed characters that starts with a letter gives a valid name. */
  lemma GoodClusterNamesMatch(clusterName: string, lb: V3.LoadBalancerSource, i: nat)
    requires i < INT_LIMIT && lb.provision.name == "" && GoodStart(clusterName)
    ensures ResolvedName(clusterName, lb, i).Some? && MatchesPattern(ResolvedName(clusterName, lb, i).value)
  {
    PatternExactly(clusterName, lb, i);
    GoodBase(clusterName, MAX_LEN - |Suffix(lb, i)| - 1);
  }

  // ---- The controller's lookup ----

  /** The name under which the controller looks for the host of a public entry: here the number is
      never left out. */
  function LookupName(clusterName: string, lb: V3.LoadBalancerSource, i: nat): Option<string> {
    if lb.provision.name != "" then Some(lb.provision.name)
    else ResourceName(clusterName, "loadbalancer-public", Itoa(i))
  }

  /** The lookup name in full: always with the position, also for the first entry. */
  lemma LookupNameExactly(clusterName: string, lb: V3.LoadBalancerSource, i: nat)
    requires i < INT_LIMIT && lb.provision.name == ""
    ensures var tail := "-loadbalancer-public-" + Itoa(i);
            |tail| <= 40 && LookupName(clusterName, lb, i) == Some(CutTo(clusterName, tail))
  {
    ItoaFits(i);
    ItoaDigits(i);
    var tail := "-loadbalancer-public-" + Itoa(i);
    assert tail == "-" + Qualified("loadbalancer-public", Itoa(i));
    NameInFull(clusterName, "loadbalancer-public", Itoa(i), tail);
  }

  /** The lookup finds the entry's own name exactly when it is named or not the first. */
  lemma LookupFindsExactly(clusterName: string, lb: V3.LoadBalancerSource, i: nat)
    requires i < INT_LIMIT && lb.provision.kind != Private
    ensures LookupName(clusterName, lb, i) == ResolvedName(clusterName, lb, i) <==> lb.provision.name != "" || i > 0
  {
    if lb.provision.name == "" {
      assert "loadbalancer-" + Kind(lb) == "loadbalancer-public";
    }
    if lb.provision.name == "" && i == 0 {
      DerivedLastPart(clusterName, lb, 0);
      assert Kind(lb)[0] == 'p';
      LookupOfFirst(clusterName);
    }
  }

  lemma LookupFits(clusterName: string, i: nat)
    requires i < INT_LIMIT
    ensures var r := ResourceName(clusterName, "loadbalancer-public", Itoa(i)); r.Some? && r.value != ""
  {
    ItoaFits(i);
    ItoaDigits(i);
    ResourceNameBounded(clusterName, "loadbalancer-public", Itoa(i));
  }

  lemma LookupOfFirst(clusterName: string)
    ensures var r := ResourceName(clusterName, "loadbalancer-public", Itoa(0));
            r.Some? && LastPart(r.value) == "0"
  {
    var stem := "loadbalancer-public";
    assert Itoa(0) == "0";
    var full := Qualified(stem, Itoa(0));
    assert full == stem + "-" + "0" && |full| == 21;
    var base := Base(clusterName, MAX_LEN - |full| - 1);
    assert base + "-" + full == base + "-" + stem + "-" + "0";
    LastPartOf(base + "-" + stem, "0");
  }
}
