/**
 A structural replacement sends the records tree by tree. Records that are
 ancestor-closed give a well-formed prefix in presentation order, so the live
 suffix may follow it as it follows a replay.
 */
module ObservationTree {
  import opened Common
  import opened ObservationSpec
  import Records = ClientSpec
  import Order = ClientTree

  function EventOf(e: Records.Event): Event
    requires Records.Structural(e)
  {
    match e
    case RunBegin(run, parent, _, _) => RunBegin(run, parent)
    case RunEnd(run, _) => RunEnd(run)
    case StepBegin(step, _) => StepBegin(step)
    case StepEnd(step, _) => StepEnd(step)
  }

  function Structure(rs: seq<Records.Event>): seq<Sent>
    requires Records.AllStructural(rs)
  {
    if rs == [] then [] else Structure(rs[..|rs| - 1]) + [Context(EventOf(rs[|rs| - 1]))]
  }

  /** Run records agree with the known parents. */
  ghost predicate Agrees(rs: seq<Records.Event>, parents: Parents) {
    forall i :: 0 <= i < |rs| && rs[i].RunBegin? ==> rs[i].run in parents && parents[rs[i].run] == rs[i].parent
  }

  /** Every begun key has its whole line begun. */
  ghost predicate Complete(parents: Parents, rank: map<string, nat>, out: seq<Sent>)
    requires Ranked(parents, rank)
  {
    forall k :: k in Begun(out) ==> Whole(parents, rank, Begun(out), k)
  }

  lemma {:induction false} StructureBegins(rs: seq<Records.Event>, key: Key)
    requires Records.Closed(rs) && Records.AllStructural(rs)
    ensures key in Begun(Structure(rs)) <==> Records.Has(rs, Records.Slot(true, key))
  {
    hide Records.Closed, Records.Has;
    if rs == [] {
      NothingHeld(Records.Slot(true, key));
    } else {
      var init, e := rs[..|rs| - 1], rs[|rs| - 1];
      assert rs == init + [e];
      Records.ClosedSnoc(init, e);
      StructureBegins(init, key);
      Records.HasConcat(init, [e], Records.Slot(true, key));
      Records.HasOne(e, Records.Slot(true, key));
      OutSnoc(Structure(init), Context(EventOf(e)));
    }
  }

  lemma NothingHeld(slot: Records.Slot)
    ensures !Records.Has([], slot)
  {
  }

  /** A whole line is all that a frame with its nearest key on it needs. */
  lemma WholeFits(parents: Parents, rank: map<string, nat>, out: seq<Sent>, s: Sent)
    requires Ranked(parents, rank) && !s.event.Part?
    requires Nearest(s.event).Some? ==> Whole(parents, rank, Begun(out), Nearest(s.event).value)
    ensures Fits(parents, rank, out, s)
  {
    hide Ranked, Begun, Line;
  }

  /** What a record needs is begun in any table it fits. */
  lemma NearestHeld(init: seq<Records.Event>, e: Records.Event)
    requires Records.Fits(init, e)
    ensures Records.Structural(e)
    ensures Nearest(EventOf(e)).Some? ==> Records.Has(init, Records.Slot(true, Nearest(EventOf(e)).value))
    ensures Begins(EventOf(e)) == if Records.IsBegin(e) then Some(Records.KeyOf(e)) else None
    ensures Records.IsBegin(e) ==> Records.ParentOf(e) == Nearest(EventOf(e))
    ensures e.StepBegin? ==> e.step.StepKey?
  {
    hide Records.Has;
  }

  /** A key just begun has its whole line begun. */
  lemma BeginWhole(parents: Parents, rank: map<string, nat>, e: Records.Event, begun: set<Key>)
    requires Ranked(parents, rank) && Records.IsBegin(e) && Records.KeyOf(e) in begun
    requires e.RunBegin? ==> e.run in parents && parents[e.run] == e.parent
    requires e.StepBegin? ==> e.step.StepKey?
    requires Records.ParentOf(e).Some? ==> Whole(parents, rank, begun, Records.ParentOf(e).value)
    ensures Whole(parents, rank, begun, Records.KeyOf(e))
  {
    hide Ranked, Whole;
    if e.RunBegin? {
      WholeRun(parents, rank, begun, e.run);
    } else {
      WholeStep(parents, rank, begun, e.step);
    }
  }

  lemma StepFits(
    parents: Parents, rank: map<string, nat>, init: seq<Records.Event>, e: Records.Event, out: seq<Sent>)
    requires Ranked(parents, rank) && Complete(parents, rank, out) && Records.Fits(init, e)
    requires forall key :: key in Begun(out) <==> Records.Has(init, Records.Slot(true, key))
    requires e.RunBegin? ==> e.run in parents && parents[e.run] == e.parent
    ensures Fits(parents, rank, out, Context(EventOf(e)))
    ensures Complete(parents, rank, out + [Context(EventOf(e))])
  {
    hide Ranked, Begun, Line, Whole, Fits, Records.Fits, Records.Has, Begins, Nearest;
    NearestHeld(init, e);
    var s := Context(EventOf(e));
    var next := out + [s];
    WholeFits(parents, rank, out, s);
    OutSnoc(out, s);
    forall k | k in Begun(out) ensures Whole(parents, rank, Begun(next), k) {
      WholeGrows(parents, rank, Begun(out), Begun(next), k);
    }
    if Records.IsBegin(e) {
      BeginWhole(parents, rank, e, Begun(next));
    }
  }

  lemma {:induction false} ClosedWellFormed(parents: Parents, rank: map<string, nat>, rs: seq<Records.Event>)
    requires Ranked(parents, rank) && Records.Closed(rs) && Records.AllStructural(rs) && Agrees(rs, parents)
    ensures WellFormed(parents, rank, Structure(rs)) && Complete(parents, rank, Structure(rs))
  {
    hide Ranked, Records.Closed, Records.Has, Fits, Records.Fits;
    if rs != [] {
      var init, e := rs[..|rs| - 1], rs[|rs| - 1];
      assert rs == init + [e];
      Records.ClosedSnoc(init, e);
      ClosedWellFormed(parents, rank, init);
      forall key ensures key in Begun(Structure(init)) <==> Records.Has(init, Records.Slot(true, key)) {
        StructureBegins(init, key);
      }
      StepFits(parents, rank, init, e, Structure(init));
      WellFormedSnoc(parents, rank, Structure(init), Context(EventOf(e)));
    }
  }

  /** The records hold what is going on in scope at the boundary, and nothing that was never recorded. */
  ghost predicate Holds(
    rs: seq<Records.Event>, log: seq<Entry>, roots: map<string, string>, scope: string -> bool, suppressed: set<Key>)
  {
    && (forall k :: k in Open(log) && InScope(roots, scope, k.run) ==>
          Records.Has(rs, Records.Slot(true, k)) && (k.StepKey? ==> k in suppressed))
    && (forall run :: run in Pending(log) && InScope(roots, scope, run) ==>
          Records.Has(rs, Records.Slot(true, RunKey(run))))
    && forall k :: Records.Has(rs, Records.Slot(true, k)) ==> k in Recorded(log)
  }

  /** The tree-by-tree replacement is well formed and introduces what is going on. */
  lemma ReplacementIntroduces(
    parents: Parents, rank: map<string, nat>, roots: map<string, string>, scope: string -> bool,
    log: seq<Entry>, rs: seq<Records.Event>, suppressed: set<Key>)
    requires Ranked(parents, rank) && Records.Closed(rs) && Agrees(rs, parents)
    requires Holds(rs, log, roots, scope, suppressed)
    ensures Records.AllStructural(Order.Presented(rs))
    ensures WellFormed(parents, rank, Structure(Order.Presented(rs)))
    ensures Introduced(
              parents, rank, log, roots, scope, Pending(log), Structure(Order.Presented(rs)), suppressed)
  {
    hide Ranked, Records.Closed, Records.Has, Order.Presented, WellFormed, Begun, SourceSteps, Open, Pending, Recorded,
      Whole;
    var shown := Order.Presented(rs);
    Order.PresentedClosed(rs);
    PresentedStructural(rs);
    PresentedAgrees(rs, parents);
    ClosedWellFormed(parents, rank, shown);
    forall k ensures k in Begun(Structure(shown)) <==> Records.Has(rs, Records.Slot(true, k)) {
      PresentedHas(rs, Records.Slot(true, k));
      StructureBegins(shown, k);
    }
    forall run | run in Pending(log) && InScope(roots, scope, run)
      ensures WholeAbove(parents, rank, Begun(Structure(shown)), run)
    {
      WholeRun(parents, rank, Begun(Structure(shown)), run);
    }
  }

  /**
   The tree-by-tree replacement, with all running Steps silenced, may precede any
   live suffix: what is sent is well formed if and only if no watched Run accepted
   after the boundary ends without having begun.
   */
  lemma ReplacementWellFormed(
    parents: Parents, rank: map<string, nat>, roots: map<string, string>, scope: string -> bool,
    log: seq<Entry>, n: nat, rs: seq<Records.Event>, suppressed: set<Key>)
    requires Ranked(parents, rank) && Rooted(parents, roots) && Bracketed(parents, roots, log) && n <= |log|
    requires Records.Closed(rs) && Agrees(rs, parents) && Holds(rs, log[..n], roots, scope, suppressed)
    ensures Records.AllStructural(Order.Presented(rs))
    ensures WellFormed(parents, rank,
                       Structure(Order.Presented(rs)) + Live(suppressed, Watched(log[n..], scope)))
            <==> Headed(log, n, scope)
  {
    hide Ranked, Rooted, Bracketed, Records.Closed, Order.Presented, WellFormed, Live, Watched, Holds, Introduced,
      Pending, Headed;
    ReplacementIntroduces(parents, rank, roots, scope, log[..n], rs, suppressed);
    LiveWellFormed(parents, rank, roots, log, n, scope, Structure(Order.Presented(rs)), suppressed);
  }

  lemma PresentedStructural(rs: seq<Records.Event>)
    requires Records.Closed(rs)
    ensures Records.AllStructural(Order.Presented(rs))
  {
    hide Order.Presented;
    forall i | 0 <= i < |Order.Presented(rs)| ensures Records.Structural(Order.Presented(rs)[i]) {
      var e := Order.Presented(rs)[i];
      Order.PresentedSame(rs, e);
      var j :| 0 <= j < |rs| && rs[j] == e;
      Order.RecordFits(rs, j);
    }
  }

  lemma PresentedAgrees(rs: seq<Records.Event>, parents: Parents)
    requires Records.Closed(rs) && Agrees(rs, parents)
    ensures Agrees(Order.Presented(rs), parents)
  {
    hide Order.Presented, Records.Closed;
    forall i | 0 <= i < |Order.Presented(rs)| && Order.Presented(rs)[i].RunBegin?
      ensures Order.Presented(rs)[i].run in parents
      ensures parents[Order.Presented(rs)[i].run] == Order.Presented(rs)[i].parent
    {
      Order.PresentedSame(rs, Order.Presented(rs)[i]);
      var j :| 0 <= j < |rs| && rs[j] == Order.Presented(rs)[i];
    }
  }

  lemma PresentedHas(rs: seq<Records.Event>, slot: Records.Slot)
    requires Records.Closed(rs)
    ensures Records.Has(Order.Presented(rs), slot) <==> Records.Has(rs, slot)
  {
    hide Order.Presented, Records.Closed;
    if Records.Has(rs, slot) {
      var i: nat :| Records.At(rs, i, slot);
      Order.PresentedSame(rs, rs[i]);
      var j: nat :| j < |Order.Presented(rs)| && Order.Presented(rs)[j] == rs[i];
      assert Records.At(Order.Presented(rs), j, slot);
    }
    if Records.Has(Order.Presented(rs), slot) {
      var i: nat :| Records.At(Order.Presented(rs), i, slot);
      Order.PresentedSame(rs, Order.Presented(rs)[i]);
      var j: nat :| j < |rs| && rs[j] == Order.Presented(rs)[i];
      assert Records.At(rs, j, slot);
    }
  }
}
