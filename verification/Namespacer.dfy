/** groot/store_namespacer.go: the store remembers its ID mappings in a canonical form. */
module Namespacer {
  import opened Options
  import opened IdMappings
  import opened Numbers
  import opened Strings
  import opened StringOrder

  function Printed(m: Mapping): string {
    IntToString(m.namespaceID) + ":" + IntToString(m.hostID) + ":" + IntToString(m.size)
  }

  /** fmt.Sscanf(s, "%d:%d:%d", ...); what follows the third number is ignored. */
  function Parsed(s: string): Option<Mapping> {
    match ScanInt(s)
    case None => None
    case Some((namespaceID, s1)) =>
      if s1 == "" || s1[0] != ':' then None
      else
        match ScanInt(s1[1..])
        case None => None
        case Some((hostID, s2)) =>
          if s2 == "" || s2[0] != ':' then None
          else
            match ScanInt(s2[1..])
            case None => None
            case Some((size, _)) => Some(Mapping(hostID, namespaceID, size))
  }

  lemma PrintParse(m: Mapping)
    ensures Parsed(Printed(m)) == Some(m)
  {
    var a, b, c := IntToString(m.namespaceID), IntToString(m.hostID), IntToString(m.size);
    var afterA, afterB := ":" + (b + (":" + c)), ":" + c;
    assert Printed(m) == a + afterA;
    ScanField(Printed(m), m.namespaceID, afterA);
    ScanField(afterA[1..], m.hostID, afterB);
    ScanField(afterB[1..], m.size, "");
  }

  lemma ScanField(s: string, n: Int64, rest: string)
    requires s == IntToString(n) + rest && (rest == "" || rest[0] == ':')
    ensures ScanInt(s) == Some((n, rest))
  {
    ScanPrinted(n, rest);
  }

  lemma NoColonPrinted(n: int)
    ensures ':' !in IntToString(n)
  {
    assert AllDigits(NatToString(if n < 0 then -n else n));
  }

  /** Split at its colons, a printed mapping is its namespace ID, its host ID and its size, in decimal. */
  lemma PrintedFields(m: Mapping)
    ensures Split(Printed(m), ':') == [IntToString(m.namespaceID), IntToString(m.hostID), IntToString(m.size)]
  {
    var a, b, c := IntToString(m.namespaceID), IntToString(m.hostID), IntToString(m.size);
    NoColonPrinted(m.namespaceID);
    NoColonPrinted(m.hostID);
    NoColonPrinted(m.size);
    assert Printed(m) == a + ":" + (b + ":" + c);
    SplitWord(a, ':', b + ":" + c);
    SplitWord(b, ':', c);
    SplitOnce(c, ':');
  }

  /** The three scans that parsing makes, a colon after the first and after the second. */
  predicate ParsesBy(s: string, m: Mapping, s1: string, s2: string, s3: string) {
    && ScanInt(s) == Some((m.namespaceID, ":" + s1))
    && ScanInt(s1) == Some((m.hostID, ":" + s2))
    && ScanInt(s2) == Some((m.size, s3))
  }

  /** What parses: three numbers with a colon after each of the first two, and then anything. */
  lemma ParsedIff(s: string, m: Mapping)
    ensures Parsed(s) == Some(m) <==> exists s1, s2, s3 :: ParsesBy(s, m, s1, s2, s3)
  {
    if Parsed(s) == Some(m) {
      var after1 := ScanInt(s).value.1;
      var s1 := after1[1..];
      var after2 := ScanInt(s1).value.1;
      var s2 := after2[1..];
      assert after1 == ":" + s1 && after2 == ":" + s2;
      assert ParsesBy(s, m, s1, s2, ScanInt(s2).value.1);
    }
    if s1, s2, s3 :| ParsesBy(s, m, s1, s2, s3) {
      assert (":" + s1)[1..] == s1 && (":" + s2)[1..] == s2;
    }
  }

  // ----- the namespacer

  function PrintedAll(ms: seq<Mapping>): (ss: seq<string>)
    ensures |ss| == |ms| && forall i | 0 <= i < |ms| :: ss[i] == Printed(ms[i])
  {
    seq(|ms|, i requires 0 <= i < |ms| => Printed(ms[i]))
  }

  lemma PrintedExtends(ms: seq<Mapping>, i: nat)
    requires i < |ms|
    ensures PrintedAll(ms[..i + 1]) == PrintedAll(ms[..i]) + [Printed(ms[i])]
  {
  }

  /** What the file holds for a list of mappings: their printed forms in order. */
  ghost predicate Normal(ms: seq<Mapping>, ss: seq<string>) {
    Sorted(ss) && multiset(ss) == multiset(PrintedAll(ms))
  }

  /** namespace.json. */
  datatype Namespace = Namespace(uidMappings: seq<string>, gidMappings: seq<string>)

  datatype IDMappings = IDMappings(uidMappings: seq<Mapping>, gidMappings: seq<Mapping>)

  class StoreNamespacer {
    var file: Option<Namespace>

    constructor ()
      ensures file == None
    {
      file := None;
    }

    method NormalizeMappings(ms: seq<Mapping>) returns (ss: seq<string>)
      ensures Normal(ms, ss)
    {
      var strings := [];
      for i := 0 to |ms|
        invariant strings == PrintedAll(ms[..i])
      {
        PrintedExtends(ms, i);
        strings := strings + [Printed(ms[i])];
      }
      assert ms[..|ms|] == ms;
      ss := SortStrings(strings);
    }

    method Write(uids: seq<Mapping>, gids: seq<Mapping>)
      modifies this
      ensures file.Some? && Normal(uids, file.value.uidMappings) && Normal(gids, file.value.gidMappings)
    {
      var u := NormalizeMappings(uids);
      var g := NormalizeMappings(gids);
      file := Some(Namespace(u, g));
    }

    method ValidateNamespace(uids: seq<Mapping>, gids: seq<Mapping>) returns (ok: bool)
      requires file.Some?
      ensures ok <==> Normal(uids, file.value.uidMappings) && Normal(gids, file.value.gidMappings)
    {
      var u := NormalizeMappings(uids);
      if u != file.value.uidMappings {
        assert !Normal(uids, file.value.uidMappings) by {
          if Normal(uids, file.value.uidMappings) { SortedUnique(u, file.value.uidMappings); }
        }
        return false;
      }
      var g := NormalizeMappings(gids);
      if g != file.value.gidMappings {
        assert !Normal(gids, file.value.gidMappings) by {
          if Normal(gids, file.value.gidMappings) { SortedUnique(g, file.value.gidMappings); }
        }
        return false;
      }
      return true;
    }

    /** The first call writes; a later one succeeds exactly when it names the same mappings, in any order,
        and never changes the file. */
    method ApplyMappings(uids: seq<Mapping>, gids: seq<Mapping>) returns (ok: bool)
      modifies this
      ensures old(file).None? ==>
        ok && file.Some? && Normal(uids, file.value.uidMappings) && Normal(gids, file.value.gidMappings)
      ensures old(file).Some? ==>
        && file == old(file)
        && (ok <==> Normal(uids, file.value.uidMappings) && Normal(gids, file.value.gidMappings))
    {
      if file.None? {
        Write(uids, gids);
        return true;
      }
      ok := ValidateNamespace(uids, gids);
    }

    method ParseIDMappings(args: seq<string>) returns (r: Option<seq<Mapping>>)
      ensures r.Some? <==> forall i | 0 <= i < |args| :: Parsed(args[i]).Some?
      ensures r.Some? ==> |r.value| == |args| && forall i | 0 <= i < |args| :: Parsed(args[i]) == Some(r.value[i])
    {
      var ms := [];
      for i := 0 to |args|
        invariant |ms| == i
        invariant forall j | 0 <= j < i :: Parsed(args[j]) == Some(ms[j])
      {
        var m := Parsed(args[i]);
        if m.None? {
          return None;
        }
        ms := ms + [m.value];
      }
      return Some(ms);
    }

    method Read() returns (r: Option<IDMappings>)
      ensures r.Some? ==> file.Some? && ReadsAs(file.value.uidMappings, r.value.uidMappings) && ReadsAs(file.value.gidMappings, r.value.gidMappings)
      ensures r.None? ==> file.None? || !Readable(file.value.uidMappings) || !Readable(file.value.gidMappings)
    {
      if file.None? {
        return None;
      }
      var u := ParseIDMappings(file.value.uidMappings);
      if u.None? {
        return None;
      }
      var g := ParseIDMappings(file.value.gidMappings);
      if g.None? {
        return None;
      }
      return Some(IDMappings(u.value, g.value));
    }
  }

  predicate Readable(ss: seq<string>) {
    forall i | 0 <= i < |ss| :: Parsed(ss[i]).Some?
  }

  predicate ReadsAs(ss: seq<string>, ms: seq<Mapping>) {
    |ss| == |ms| && forall i | 0 <= i < |ss| :: Parsed(ss[i]) == Some(ms[i])
  }

  // ----- canonical form and round trip

  lemma PrintedInjective(m: Mapping, n: Mapping)
    ensures Printed(m) == Printed(n) <==> m == n
  {
    PrintParse(m);
    PrintParse(n);
  }

  lemma LastCounts<T>(xs: seq<T>, last: T, x: T)
    ensures multiset(xs + [last])[x] == multiset(xs)[x] + if last == x then 1 else 0
  {
  }

  /** The printed forms count the mappings. */
  lemma {:induction false} PrintedCounts(ms: seq<Mapping>, m: Mapping)
    ensures multiset(PrintedAll(ms))[Printed(m)] == multiset(ms)[m]
    decreases |ms|
  {
    if ms != [] {
      var init, last := ms[..|ms| - 1], ms[|ms| - 1];
      assert ms == init + [last] && ms[..|ms|] == ms;
      LastCounts(init, last, m);
      PrintedExtends(ms, |ms| - 1);
      LastCounts(PrintedAll(init), Printed(last), Printed(m));
      PrintedInjective(last, m);
      PrintedCounts(init, m);
    }
  }

  lemma PrintedOnlyMappings(ms: seq<Mapping>, s: string)
    requires s in multiset(PrintedAll(ms))
    ensures exists m :: m in ms && Printed(m) == s
  {
  }

  /** Two lists of mappings have the same canonical form exactly when one is a permutation of the other. */
  lemma CanonicalIff(ms: seq<Mapping>, ns: seq<Mapping>, ss: seq<string>)
    requires Normal(ms, ss)
    ensures Normal(ns, ss) <==> multiset(ns) == multiset(ms)
  {
    if Normal(ns, ss) {
      forall m ensures multiset(ns)[m] == multiset(ms)[m] {
        PrintedCounts(ms, m);
        PrintedCounts(ns, m);
      }
    }
    if multiset(ns) == multiset(ms) {
      forall s ensures multiset(PrintedAll(ns))[s] == multiset(PrintedAll(ms))[s] {
        if m :| Printed(m) == s {
          PrintedCounts(ms, m);
          PrintedCounts(ns, m);
        } else {
          assert s !in multiset(PrintedAll(ms)) && s !in multiset(PrintedAll(ns)) by {
            if s in multiset(PrintedAll(ms)) { PrintedOnlyMappings(ms, s); }
            if s in multiset(PrintedAll(ns)) { PrintedOnlyMappings(ns, s); }
          }
        }
      }
      assert multiset(PrintedAll(ns)) == multiset(PrintedAll(ms));
    }
  }

  /** Reading what was written always succeeds, and gives back the same mappings in the order of their
      printed forms. */
  lemma ReadAfterWrite(ms: seq<Mapping>, ss: seq<string>, rs: seq<Mapping>)
    requires Normal(ms, ss)
    ensures Readable(ss)
    ensures ReadsAs(ss, rs) ==> multiset(rs) == multiset(ms) && PrintedAll(rs) == ss
  {
    forall i | 0 <= i < |ss| ensures Parsed(ss[i]).Some? && Printed(Parsed(ss[i]).value) == ss[i] {
      assert ss[i] in multiset(ss);
      PrintedOnlyMappings(ms, ss[i]);
      var m :| m in ms && Printed(m) == ss[i];
      PrintParse(m);
    }
    if ReadsAs(ss, rs) {
      assert PrintedAll(rs) == ss;
      CanonicalIff(ms, rs, ss);
    }
  }
}
