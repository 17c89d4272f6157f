/** Go's sort.Strings: the byte-wise order of strings, and sorting by it. */
module StringOrder {

  /** Byte-wise order of strings. */
  predicate AtMost(s: string, t: string) {
    s == "" || (t != "" && (s[0] < t[0] || (s[0] == t[0] && AtMost(s[1..], t[1..]))))
  }

  /** At `k` the strings differ for the first time, and there `s` has the lower byte. */
  predicate LowerAt(s: string, t: string, k: nat) {
    k < |s| && k < |t| && s[..k] == t[..k] && s[k] < t[k]
  }

  lemma LowerShifts(s: string, t: string, k: nat)
    requires s != "" && t != "" && s[0] == t[0]
    ensures LowerAt(s, t, k + 1) <==> LowerAt(s[1..], t[1..], k)
    ensures !LowerAt(s, t, 0)
  {
    if k < |s| - 1 && k < |t| - 1 {
      assert s[..k + 1] == [s[0]] + s[1..][..k] && t[..k + 1] == [t[0]] + t[1..][..k];
      assert s[..k + 1][1..] == s[1..][..k] && t[..k + 1][1..] == t[1..][..k];
    }
  }

  /** Prefixes come first; otherwise the first difference decides. */
  lemma {:induction false} AtMostIff(s: string, t: string)
    ensures AtMost(s, t) <==> s <= t || exists k: nat :: LowerAt(s, t, k)
    decreases |s|
  {
    if s != "" && t != "" {
      if s[0] == t[0] {
        AtMostIff(s[1..], t[1..]);
        assert s == [s[0]] + s[1..] && t == [t[0]] + t[1..];
        if k: nat :| LowerAt(s[1..], t[1..], k) {
          LowerShifts(s, t, k);
        }
        if k: nat :| LowerAt(s, t, k) {
          LowerShifts(s, t, if k > 0 then k - 1 else 0);
        }
      } else {
        assert s[0] < t[0] <==> LowerAt(s, t, 0);
        assert forall k: nat :: LowerAt(s, t, k) ==> k == 0;
      }
    }
  }

  lemma {:induction false} AtMostTotal(s: string, t: string)
    ensures AtMost(s, t) || AtMost(t, s)
    decreases |s|
  {
    if s != "" && t != "" && s[0] == t[0] {
      AtMostTotal(s[1..], t[1..]);
    }
  }

  lemma {:induction false} AtMostAntisymmetric(s: string, t: string)
    requires AtMost(s, t) && AtMost(t, s)
    ensures s == t
    decreases |s|
  {
    if s != "" && t != "" {
      AtMostAntisymmetric(s[1..], t[1..]);
      assert s == [s[0]] + s[1..] && t == [t[0]] + t[1..];
    }
  }

  lemma {:induction false} AtMostTransitive(s: string, t: string, u: string)
    requires AtMost(s, t) && AtMost(t, u)
    ensures AtMost(s, u)
    decreases |s|
  {
    if s != "" && s[0] == t[0] && t[0] == u[0] {
      AtMostTransitive(s[1..], t[1..], u[1..]);
    }
  }

  ghost predicate Sorted(ss: seq<string>) {
    forall i, j | 0 <= i < j < |ss| :: AtMost(ss[i], ss[j])
  }

  /** A multiset of strings has one sorted listing. */
  lemma {:induction false} SortedUnique(ss: seq<string>, ts: seq<string>)
    requires Sorted(ss) && Sorted(ts) && multiset(ss) == multiset(ts)
    ensures ss == ts
    decreases |ss|
  {
    assert |ss| == |multiset(ss)| == |multiset(ts)| == |ts|;
    if ss != [] {
      SortedHeads(ss, ts);
      SortedTails(ss, ts);
      SortedUnique(ss[1..], ts[1..]);
      assert ss == [ss[0]] + ss[1..] && ts == [ts[0]] + ts[1..];
    }
  }

  lemma SortedHeads(ss: seq<string>, ts: seq<string>)
    requires Sorted(ss) && Sorted(ts) && multiset(ss) == multiset(ts) && ss != [] && ts != []
    ensures ss[0] == ts[0]
  {
    assert ss[0] in multiset(ts) && ts[0] in multiset(ss);
    var i :| 0 <= i < |ts| && ts[i] == ss[0];
    var j :| 0 <= j < |ss| && ss[j] == ts[0];
    if i > 0 && j > 0 {
      AtMostAntisymmetric(ss[0], ts[0]);
    }
  }

  lemma SortedTails(ss: seq<string>, ts: seq<string>)
    requires Sorted(ss) && Sorted(ts) && multiset(ss) == multiset(ts) && ss != [] && ts != [] && ss[0] == ts[0]
    ensures Sorted(ss[1..]) && Sorted(ts[1..]) && multiset(ss[1..]) == multiset(ts[1..])
  {
    TailMultiset(ss);
    TailMultiset(ts);
  }

  lemma TailMultiset(ss: seq<string>)
    requires ss != []
    ensures multiset(ss[1..]) == multiset(ss) - multiset{ss[0]}
  {
    assert ss == [ss[0]] + ss[1..];
  }

  lemma InsertedSorted(ss: seq<string>, k: nat, s: string)
    requires Sorted(ss) && k <= |ss|
    requires forall j | 0 <= j < k :: AtMost(ss[j], s)
    requires forall j | k <= j < |ss| :: AtMost(s, ss[j])
    ensures Sorted(ss[..k] + [s] + ss[k..])
    ensures multiset(ss[..k] + [s] + ss[k..]) == multiset(ss) + multiset{s}
  {
    assert ss == ss[..k] + ss[k..];
  }

  /** Puts `s` where it belongs in a sorted list. */
  method InsertSorted(ss: seq<string>, s: string) returns (r: seq<string>)
    requires Sorted(ss)
    ensures Sorted(r) && multiset(r) == multiset(ss) + multiset{s}
  {
    var k := |ss|;
    while k > 0 && !AtMost(ss[k - 1], s)
      invariant 0 <= k <= |ss|
      invariant forall j | k <= j < |ss| :: AtMost(s, ss[j])
    {
      AtMostTotal(ss[k - 1], s);
      k := k - 1;
    }
    forall j | 0 <= j < k ensures AtMost(ss[j], s) {
      if j < k - 1 {
        AtMostTransitive(ss[j], ss[k - 1], s);
      }
    }
    InsertedSorted(ss, k, s);
    r := ss[..k] + [s] + ss[k..];
  }

  method SortStrings(ss: seq<string>) returns (r: seq<string>)
    ensures Sorted(r) && multiset(r) == multiset(ss)
  {
    r := [];
    for i := 0 to |ss|
      invariant Sorted(r) && multiset(r) == multiset(ss[..i])
    {
      r := InsertSorted(r, ss[i]);
      assert ss[..i + 1] == ss[..i] + [ss[i]];
    }
    assert ss[..|ss|] == ss;
  }

  /** A string comes before everything it is a proper prefix of. */
  lemma {:induction false} PrefixFirst(p: string, q: string)
    requires p <= q
    ensures AtMost(p, q)
    ensures p != q ==> !AtMost(q, p)
    decreases |p|
  {
    if p != "" {
      assert p[1..] <= q[1..];
      PrefixFirst(p[1..], q[1..]);
      assert p == [p[0]] + p[1..] && q == [q[0]] + q[1..];
    }
  }
}
