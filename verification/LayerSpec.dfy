/** The stream loop against the layer rules of the OCI Image Format Specification 1.0.1. */
module LayerSpec {
  import opened Trees
  import opened Layers

  // ----- the reference: lower tree minus what is whited out, overridden by the layer's own entries

  /** The layer's own last entry for `p`, wherever it stands among the markers. */
  function LastPut(es: seq<Action>, p: Path): (found: seq<Node>)
    ensures |found| <= 1
  {
    if es == [] then []
    else
      var e := es[|es| - 1];
      if e.Put? && e.path == p then [e.node] else LastPut(es[..|es| - 1], p)
  }

  predicate Erases(e: Action, p: Path) {
    (e.Opaque? && e.dir < p) || (e.Whiteout? && e.target <= p)
  }

  predicate Erased(es: seq<Action>, p: Path) {
    exists k | 0 <= k < |es| :: Erases(es[k], p)
  }

  ghost predicate Survives(lower: Tree, es: seq<Action>, p: Path) {
    p in lower && !Erased(es, p)
  }

  ghost predicate IsOverlay(t: Tree, lower: Tree, es: seq<Action>) {
    forall p ::
      && (p in t <==> LastPut(es, p) != [] || Survives(lower, es, p))
      && (p in t ==> t[p] == if LastPut(es, p) != [] then LastPut(es, p)[0] else lower[p])
  }

  /** There is at most one overlay, so it does not depend on the order of the entries. */
  lemma OverlayUnique(t: Tree, u: Tree, lower: Tree, es: seq<Action>)
    requires IsOverlay(t, lower, es) && IsOverlay(u, lower, es)
    ensures t == u
  {
  }

  // ----- when the loop meets it

  /** The last entry for `p` that no later marker erases. */
  function Standing(es: seq<Action>, p: Path): (found: seq<Node>)
    ensures |found| <= 1
    ensures found != [] ==> found == LastPut(es, p)
  {
    if es == [] then []
    else
      var e := es[|es| - 1];
      if e.Put? && e.path == p then [e.node]
      else if Erases(e, p) then []
      else Standing(es[..|es| - 1], p)
  }

  /** No marker erases an entry of its own layer that the layer does not put back. */
  ghost predicate NoLateMarker(es: seq<Action>) {
    forall p :: LastPut(es, p) != [] ==> Standing(es, p) != []
  }

  /** Since the last marker that erases `p`, the layer has put only directories there. */
  predicate OnlyDirs(es: seq<Action>, p: Path): (b: bool)
    ensures b && Standing(es, p) != [] ==> Standing(es, p)[0].Dir?
  {
    if es == [] then true
    else
      var e := es[|es| - 1];
      Erases(e, p) || ((e.Put? && e.path == p ==> e.node.Dir?) && OnlyDirs(es[..|es| - 1], p))
  }

  /** Where a directory has the last word at `p`, it lands on nothing but directories. */
  ghost predicate NoSwapAt(lower: Tree, es: seq<Action>, p: Path) {
    Standing(es, p) != [] && Standing(es, p)[0].Dir? ==>
      OnlyDirs(es, p) && (Survives(lower, es, p) ==> lower[p].Dir?)
  }

  ghost predicate NoSwap(lower: Tree, es: seq<Action>) {
    forall p :: NoSwapAt(lower, es, p)
  }

  /** What the loop leaves at `p`, for every stream. */
  ghost predicate SettledAt(t: Tree, lower: Tree, es: seq<Action>, p: Path) {
    && (p in t <==> Standing(es, p) != [] || Survives(lower, es, p))
    && (Standing(es, p) == [] ==> OnlyDirs(es, p))
    && (Standing(es, p) == [] && p in t ==> t[p] == lower[p])
    && (Standing(es, p) != [] ==>
          if NoSwapAt(lower, es, p) then t[p] == Standing(es, p)[0] else t[p].File?)
  }

  lemma ErasedSnoc(es: seq<Action>, e: Action, p: Path)
    ensures Erased(es + [e], p) <==> Erased(es, p) || Erases(e, p)
  {
    var all := es + [e];
    if Erased(es, p) {
      var k :| 0 <= k < |es| && Erases(es[k], p);
      assert Erases(all[k], p);
    }
    if Erases(e, p) {
      assert Erases(all[|es|], p);
    }
  }

  lemma SettleStep(t: Tree, lower: Tree, es: seq<Action>, e: Action, p: Path)
    requires SettledAt(t, lower, es, p)
    requires Apply(t, e).Unpacked?
    ensures SettledAt(Apply(t, e).tree, lower, es + [e], p)
  {
    var all := es + [e];
    assert all[..|all| - 1] == es;
    ErasedSnoc(es, e, p);
    if Erases(e, p) {
      assert Standing(all, p) == [];
    } else if e.Put? && e.path == p {
      assert Standing(all, p) == [e.node];
    }
  }

  lemma {:induction false} Settled(lower: Tree, es: seq<Action>, p: Path)
    requires ApplyAll(lower, es).Unpacked?
    ensures SettledAt(ApplyAll(lower, es).tree, lower, es, p)
    decreases |es|
  {
    if es != [] {
      var init, e := es[..|es| - 1], es[|es| - 1];
      assert es == init + [e];
      Settled(lower, init, p);
      SettleStep(ApplyAll(lower, init).tree, lower, init, e, p);
    }
  }

  /** A successful unpack is the overlay the specification describes exactly when no marker comes
      too late and no directory entry has the last word over a file. */
  lemma UnpackIsOverlayIff(lower: Tree, es: seq<Action>)
    requires ApplyAll(lower, es).Unpacked?
    ensures IsOverlay(ApplyAll(lower, es).tree, lower, es) <==> NoLateMarker(es) && NoSwap(lower, es)
  {
    var t := ApplyAll(lower, es).tree;
    forall p ensures SettledAt(t, lower, es, p) {
      Settled(lower, es, p);
    }
    if IsOverlay(t, lower, es) {
      forall p
        ensures LastPut(es, p) != [] ==> Standing(es, p) != []
        ensures NoSwapAt(lower, es, p)
      {
        assert SettledAt(t, lower, es, p);
        assert p in t <==> LastPut(es, p) != [] || Survives(lower, es, p);
        if LastPut(es, p) != [] && Standing(es, p) == [] {
          StandingOrErased(es, p);
        }
      }
    }
    if NoLateMarker(es) && NoSwap(lower, es) {
      forall p
        ensures p in t <==> LastPut(es, p) != [] || Survives(lower, es, p)
        ensures p in t ==> t[p] == if LastPut(es, p) != [] then LastPut(es, p)[0] else lower[p]
      {
        assert SettledAt(t, lower, es, p) && NoSwapAt(lower, es, p);
      }
    }
  }

  lemma {:induction false} StandingOrErased(es: seq<Action>, p: Path)
    requires LastPut(es, p) != [] && Standing(es, p) == []
    ensures Erased(es, p)
    decreases |es|
  {
    var init, e := es[..|es| - 1], es[|es| - 1];
    assert es == init + [e];
    ErasedSnoc(init, e, p);
    if !Erases(e, p) {
      StandingOrErased(init, p);
    }
  }

  /** The order image builders use: every marker before the entries it would erase. */
  ghost predicate MarkersFirst(es: seq<Action>) {
    forall i, j | 0 <= i < j < |es| && es[i].Put? :: !Erases(es[j], es[i].path)
  }

  lemma {:induction false} MarkersFirstIsInTime(es: seq<Action>, p: Path)
    requires MarkersFirst(es)
    ensures LastPut(es, p) == Standing(es, p)
    decreases |es|
  {
    if es != [] {
      var init, e := es[..|es| - 1], es[|es| - 1];
      assert forall i | 0 <= i < |init| :: init[i] == es[i];
      MarkersFirstIsInTime(init, p);
      if LastPut(init, p) != [] && Erases(e, p) {
        LastPutIsAnEntry(init, p);
      }
    }
  }

  lemma {:induction false} LastPutIsAnEntry(es: seq<Action>, p: Path)
    requires LastPut(es, p) != []
    ensures exists i | 0 <= i < |es| :: es[i].Put? && es[i].path == p
    decreases |es|
  {
    var init, e := es[..|es| - 1], es[|es| - 1];
    if !(e.Put? && e.path == p) {
      LastPutIsAnEntry(init, p);
      var i :| 0 <= i < |init| && init[i].Put? && init[i].path == p;
      assert es[i] == init[i];
    }
  }

  // ----- what every unpack keeps

  lemma ApplyWellFormed(t: Tree, e: Action)
    requires WellFormed(t) && Apply(t, e).Unpacked?
    ensures WellFormed(Apply(t, e).tree)
  {
    match e {
      case Ignore =>
      case Opaque(dir) => HollowWellFormed(t, dir);
      case Whiteout(target) => PruneWellFormed(t, target);
      case Put(p, node) =>
        var t' := Apply(t, e).tree;
        forall q | q in t' && q != [] ensures IsDir(t', Parent(q)) {
          if q in t {
            assert IsDir(t, Parent(q));
            assert Parent(q) < q;
          }
        }
    }
  }

  /** Unpacking keeps every node inside a directory, and counts the bytes of the regular files it wrote. */
  lemma {:induction false} UnpackWellFormed(t: Tree, es: seq<Action>)
    requires WellFormed(t) && ApplyAll(t, es).Unpacked?
    ensures WellFormed(ApplyAll(t, es).tree)
    ensures ApplyAll(t, es).bytes == FileBytes(es)
    decreases |es|
  {
    if es != [] {
      UnpackWellFormed(t, es[..|es| - 1]);
      ApplyWellFormed(ApplyAll(t, es[..|es| - 1]).tree, es[|es| - 1]);
    }
  }

  function FileBytes(es: seq<Action>): nat {
    if es == [] then 0
    else
      var e := es[|es| - 1];
      FileBytes(es[..|es| - 1]) + if e.Put? && e.node.File? then |e.node.data| else 0
  }
}
