/** Translation of the IDs found in a layer, and the kernel's own interval map beside it. */
module IdMappings {
  import opened Numbers

  /** The range NamespaceID .. NamespaceID + Size - 1 is mapped to HostID .. HostID + Size - 1. */
  datatype Mapping = Mapping(hostID: Int64, namespaceID: Int64, size: Int64) {
    predicate Covers(id: int) {
      namespaceID <= id < namespaceID + size
    }
  }

  function TranslateRootID(mappings: seq<Mapping>): int {
    if mappings == [] then 0
    else if mappings[0].size == 1 then mappings[0].hostID
    else TranslateRootID(mappings[1..])
  }

  function TranslateRange(id: int, mappings: seq<Mapping>): int {
    if mappings == [] then id
    else if mappings[0].size != 1 && mappings[0].Covers(id) then mappings[0].hostID + id - 1
    else TranslateRange(id, mappings[1..])
  }

  function TranslateID(id: int, mappings: seq<Mapping>): int {
    if id == 0 then TranslateRootID(mappings) else TranslateRange(id, mappings)
  }

  /** user_namespaces(7): the unique range that covers an ID decides where it goes. */
  ghost predicate KernelMaps(mappings: seq<Mapping>, id: int, host: int) {
    exists k | 0 <= k < |mappings| :: mappings[k].Covers(id) && host == mappings[k].hostID + (id - mappings[k].namespaceID)
  }

  /** user_namespaces(7): ranges are non-empty and no two of them overlap. */
  ghost predicate KernelAccepts(mappings: seq<Mapping>) {
    && (forall k | 0 <= k < |mappings| :: mappings[k].size >= 1)
    && (forall j, k, id | 0 <= j < |mappings| && 0 <= k < |mappings| && mappings[j].Covers(id) && mappings[k].Covers(id) :: j == k)
  }

  lemma {:induction false} RangeAt(id: int, mappings: seq<Mapping>, k: nat)
    requires KernelAccepts(mappings)
    requires k < |mappings| && mappings[k].Covers(id)
    ensures TranslateRange(id, mappings) == if mappings[k].size == 1 then id else mappings[k].hostID + id - 1
    decreases |mappings|
  {
    var rest := mappings[1..];
    assert forall j | 0 <= j < |rest| :: rest[j] == mappings[j + 1];
    if k == 0 {
      if mappings[0].size == 1 {
        RangeUncovered(id, rest);
      }
    } else {
      assert !mappings[0].Covers(id);
      RangeAt(id, rest, k - 1);
    }
  }

  lemma {:induction false} RangeUncovered(id: int, mappings: seq<Mapping>)
    requires forall k | 0 <= k < |mappings| :: !mappings[k].Covers(id)
    ensures TranslateRange(id, mappings) == id
    decreases |mappings|
  {
    if mappings != [] {
      assert forall j | 0 <= j < |mappings| - 1 :: mappings[1..][j] == mappings[j + 1];
      RangeUncovered(id, mappings[1..]);
    }
  }

  /** For every ID but root, exactly when translation follows the kernel's map. */
  lemma TranslationAgreesIff(mappings: seq<Mapping>, id: int, k: nat)
    requires KernelAccepts(mappings) && id != 0
    requires k < |mappings| && mappings[k].Covers(id)
    ensures KernelMaps(mappings, id, TranslateID(id, mappings))
       <==> if mappings[k].size == 1 then mappings[k].hostID == id else mappings[k].namespaceID == 1
  {
    RangeAt(id, mappings, k);
    var host := TranslateID(id, mappings);
    assert KernelMaps(mappings, id, host) ==> host == mappings[k].hostID + (id - mappings[k].namespaceID);
  }

  /** user_namespaces(7): no host ID is mapped twice either. */
  ghost predicate HostsDisjoint(mappings: seq<Mapping>) {
    forall j, k, id, other | 0 <= j < |mappings| && 0 <= k < |mappings| && mappings[j].Covers(id) && mappings[k].Covers(other) ::
      mappings[j].hostID + (id - mappings[j].namespaceID) == mappings[k].hostID + (other - mappings[k].namespaceID) ==> j == k
  }

  /** The position of the first mapping of size 1, or the number of mappings. */
  function FirstSingle(mappings: seq<Mapping>): (r: nat)
    ensures r <= |mappings|
    ensures r < |mappings| ==> mappings[r].size == 1
    ensures forall k | 0 <= k < r :: mappings[k].size != 1
    ensures TranslateRootID(mappings) == if r < |mappings| then mappings[r].hostID else 0
  {
    if mappings == [] then 0
    else if mappings[0].size == 1 then 0
    else
      var rest := FirstSingle(mappings[1..]);
      assert forall k | 0 < k <= rest :: mappings[k] == mappings[1..][k - 1] || k == |mappings|;
      1 + rest
  }

  /** For root, which translation sends to the first single mapping's host whatever that maps, exactly when it
      follows the kernel's map: that single mapping is the one that covers root; or there is none and root is
      mapped to itself. */
  lemma RootAgreesIff(mappings: seq<Mapping>, k: nat)
    requires KernelAccepts(mappings) && HostsDisjoint(mappings)
    requires k < |mappings| && mappings[k].Covers(0)
    ensures KernelMaps(mappings, 0, TranslateID(0, mappings))
       <==> FirstSingle(mappings) == k || (FirstSingle(mappings) == |mappings| && mappings[k].hostID == mappings[k].namespaceID)
  {
    var r, host := FirstSingle(mappings), TranslateID(0, mappings);
    assert KernelMaps(mappings, 0, host) <==> host == mappings[k].hostID - mappings[k].namespaceID by {
      if KernelMaps(mappings, 0, host) {
        var j :| 0 <= j < |mappings| && mappings[j].Covers(0) && host == mappings[j].hostID + (0 - mappings[j].namespaceID);
        assert j == k;
      }
      if host == mappings[k].hostID - mappings[k].namespaceID {
        assert host == mappings[k].hostID + (0 - mappings[k].namespaceID);
      }
    }
    if r < |mappings| {
      var id: int := mappings[r].namespaceID;
      assert mappings[r].Covers(id) && mappings[k].Covers(0);
      assert r == k ==> mappings[k].namespaceID == 0;
    }
  }

  /** The one shape the store is configured with: root on its own, and one range from 1 up. */
  ghost predicate RootAndRange(mappings: seq<Mapping>) {
    && |mappings| == 2
    && exists r | 0 <= r < 2 :: mappings[r].size == 1 && mappings[r].namespaceID == 0
                            && mappings[1 - r].size > 1 && mappings[1 - r].namespaceID == 1
  }

  lemma RootAndRangeAgrees(mappings: seq<Mapping>, id: int)
    requires RootAndRange(mappings)
    requires exists k | 0 <= k < 2 :: mappings[k].Covers(id)
    ensures KernelMaps(mappings, id, TranslateID(id, mappings))
  {
    var r :| 0 <= r < 2 && mappings[r].size == 1 && mappings[r].namespaceID == 0
          && mappings[1 - r].size > 1 && mappings[1 - r].namespaceID == 1;
    if id == 0 {
      assert mappings[r].Covers(0);
      assert TranslateRootID(mappings) == mappings[r].hostID by {
        if r == 1 { assert mappings[1..][0] == mappings[1]; }
      }
    } else {
      assert mappings[1 - r].Covers(id);
      TranslationAgreesIff(mappings, id, 1 - r);
    }
  }

  /** Distinct mapped IDs get distinct owners exactly when root's host ID lies outside the host range. */
  lemma RootAndRangeInjectiveIff(mappings: seq<Mapping>, r: nat)
    requires RootAndRange(mappings) && r < 2 && mappings[r].size == 1
    ensures (forall x, y | 0 <= x < y <= mappings[1 - r].size :: TranslateID(x, mappings) != TranslateID(y, mappings))
       <==> !(mappings[1 - r].hostID <= mappings[r].hostID < mappings[1 - r].hostID + mappings[1 - r].size)
  {
    var root, span := mappings[r], mappings[1 - r];
    forall x | 0 <= x <= span.size
      ensures TranslateID(x, mappings) == if x == 0 then root.hostID else span.hostID + x - 1
    {
      assert (if x == 0 then root else span).Covers(x);
      if x == 0 {
        assert TranslateRootID(mappings) == root.hostID by {
          if r == 1 { assert mappings[1..][0] == mappings[1]; }
        }
      } else {
        RangeAt(x, mappings, 1 - r);
      }
    }
    if span.hostID <= root.hostID < span.hostID + span.size {
      var clash := root.hostID - span.hostID + 1;
      assert TranslateID(0, mappings) == TranslateID(clash, mappings);
    }
  }
}
