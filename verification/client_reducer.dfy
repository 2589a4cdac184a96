/**
 What one event, one replacement and one replay do to a client table, as
 functions; and the laws the reducer is for: closure is kept, an event is
 absorbed once, and a snapshot replayed from nothing rebuilds its table exactly
 when no ended Run still has an open child.
 */
module ClientReducer {
  import opened Common
  import opened ClientSpec
  import opened ClientTree

  const MAX_RECORDS: nat := 20000

  /** An insertion-ordered table, with the position each slot was applied at. */
  datatype Table = Table(records: seq<Event>, at: map<Slot, Option<Cursor>>)

  datatype Outcome = Changed | Ignored | Failed

  datatype Scope = RunScope(run: string) | ThreadScope(thread: string) | AgentScope

  datatype Item = Item(event: Event, cursor: Option<Cursor>)

  // ---------------------------------------------------------------------
  // Dictionary operations
  // ---------------------------------------------------------------------

  function Find(rs: seq<Event>, slot: Slot): (r: Option<nat>)
    ensures r.Some? ==> At(rs, r.value, slot)
    ensures r.None? ==> forall i: nat :: !At(rs, i, slot)
  {
    if rs == [] then None
    else
      var n := |rs| - 1;
      match Find(rs[..n], slot)
      case Some(i) => Some(i)
      case None =>
        assert forall i: nat :: i < n ==> (At(rs, i, slot) <==> At(rs[..n], i, slot));
        if At(rs, n, slot) then Some(n) else None
  }

  /** One record per slot. */
  ghost predicate Keyed(rs: seq<Event>) {
    && AllStructural(rs)
    && forall i, j :: 0 <= i < |rs| && 0 <= j < |rs| && SlotOf(rs[i]) == SlotOf(rs[j]) ==> i == j
  }

  lemma ClosedKeyed(rs: seq<Event>)
    requires Closed(rs)
    ensures Keyed(rs)
  {
    forall i | 0 <= i < |rs| ensures Structural(rs[i]) {
      assert Fits(rs[..i], rs[i]);
    }
    forall i, j | 0 <= i < |rs| && 0 <= j < |rs| && SlotOf(rs[i]) == SlotOf(rs[j]) ensures i == j {
      SlotsUnique(rs, i, j);
    }
  }

  function Put(rs: seq<Event>, e: Event): seq<Event>
    requires Structural(e)
  {
    match Find(rs, SlotOf(e))
    case Some(i) => rs[i := e]
    case None => rs + [e]
  }

  function Pop(rs: seq<Event>, slot: Slot): seq<Event> {
    match Find(rs, slot)
    case Some(i) => rs[..i] + rs[i + 1..]
    case None => rs
  }

  function Known(at: map<Slot, Option<Cursor>>, slot: Slot): Option<Cursor> {
    if slot in at then at[slot] else None
  }

  // ---------------------------------------------------------------------
  // One event
  // ---------------------------------------------------------------------

  predicate Stale(known: Option<Cursor>, incoming: Option<Cursor>) {
    && incoming.Some? && known.Some?
    && incoming.value.epoch == known.value.epoch && incoming.value.at < known.value.at
  }

  predicate Waits(rs: seq<Event>, i: nat, run: string) {
    i < |rs| && ChildOf(rs[i], {run}) && Find(rs, Slot(false, RunKey(rs[i].run))).None?
  }

  /** Some direct child Run has begun and not ended. */
  ghost predicate Active(rs: seq<Event>, run: string) {
    exists i: nat :: Waits(rs, i, run)
  }

  predicate Repeats(t: Table, e: Event, cursor: Option<Cursor>)
    requires Structural(e)
  {
    var found := Find(t.records, SlotOf(e));
    && found.Some?
    && (t.records[found.value] == e || (cursor.Some? && Known(t.at, SlotOf(e)) == cursor))
  }

  /** A Begin at a new position starts a new incarnation and drops the old End. */
  function Reopened(t: Table, e: Event, cursor: Option<Cursor>): Table
    requires Structural(e)
  {
    var end := Slot(false, KeyOf(e));
    if IsBegin(e) && Find(t.records, SlotOf(e)).Some? && cursor.Some? && cursor != Known(t.at, SlotOf(e))
    then Table(Pop(t.records, end), t.at - {end})
    else t
  }

  function Stored(t: Table, e: Event, cursor: Option<Cursor>): Table
    requires Structural(e)
  {
    var base := Reopened(t, e, cursor);
    Table(Put(base.records, e), base.at[SlotOf(e) := cursor])
  }

  ghost function Applied(t: Table, e: Event, cursor: Option<Cursor>): (Table, Outcome) {
    if !Structural(e) then (t, Changed)
    else if Stale(Known(t.at, SlotOf(e)), cursor) || Repeats(t, e, cursor) then (t, Ignored)
    else if e.RunEnd? && Active(t.records, e.run) then (t, Failed)
    else
      var next := Stored(t, e, cursor);
      (next, if |next.records| > MAX_RECORDS then Failed else Changed)
  }

  /** Input a well-behaved server may send next: ancestors first, parents stable. */
  ghost predicate Admissible(rs: seq<Event>, e: Event) {
    Structural(e) ==>
      && (IsBegin(e) && ParentOf(e).Some? ==> Has(rs, Slot(true, ParentOf(e).value)))
      && (!IsBegin(e) ==> Has(rs, Slot(true, KeyOf(e))))
      && (e.StepBegin? ==> e.step.StepKey? && e.step.path != [])
      && (IsBegin(e) ==> forall i: nat :: At(rs, i, SlotOf(e)) ==> ParentOf(rs[i]) == ParentOf(e))
  }

  lemma SameSlots(a: seq<Event>, b: seq<Event>, slot: Slot)
    requires |a| == |b| && AllStructural(a) && AllStructural(b)
    requires forall i :: 0 <= i < |a| ==> SlotOf(a[i]) == SlotOf(b[i])
    ensures Has(a, slot) <==> Has(b, slot)
  {
    if i: nat :| At(a, i, slot) {
      assert At(b, i, slot);
    }
    if i: nat :| At(b, i, slot) {
      assert At(a, i, slot);
    }
  }

  lemma UpdateCloses(rs: seq<Event>, k: nat, e: Event)
    requires Closed(rs) && k < |rs| && Structural(e) && Structural(rs[k]) && SlotOf(rs[k]) == SlotOf(e)
    requires IsBegin(e) ==> ParentOf(rs[k]) == ParentOf(e)
    ensures Closed(rs[k := e])
  {
    var s := rs[k := e];
    ClosedKeyed(rs);
    forall i {:trigger s[..i]} | 0 <= i < |s| ensures Fits(s[..i], s[i]) {
      assert Fits(rs[..i], rs[i]);
      forall slot ensures Has(s[..i], slot) <==> Has(rs[..i], slot) {
        assert AllStructural(s[..i]) && AllStructural(rs[..i]);
        SameSlots(s[..i], rs[..i], slot);
      }
    }
  }

  lemma PopAt(rs: seq<Event>, slot: Slot, j: nat, other: Slot) returns (k: nat)
    requires At(Pop(rs, slot), j, other)
    ensures At(rs, k, other) && (Find(rs, slot).Some? ==> k != Find(rs, slot).value)
  {
    k := if Find(rs, slot).None? || j < Find(rs, slot).value then j else j + 1;
  }

  lemma PopHas(rs: seq<Event>, slot: Slot, other: Slot)
    requires Keyed(rs)
    ensures Has(Pop(rs, slot), other) <==> Has(rs, other) && other != slot
  {
    if Find(rs, slot).Some? {
      var i := Find(rs, slot).value;
      assert rs == rs[..i] + [rs[i]] + rs[i + 1..];
      HasConcat(rs[..i] + [rs[i]], rs[i + 1..], other);
      HasConcat(rs[..i], [rs[i]], other);
      HasConcat(rs[..i], rs[i + 1..], other);
      HasOne(rs[i], other);
      if j: nat :| At(Pop(rs, slot), j, other) {
        var k := PopAt(rs, slot, j, other);
      }
    }
  }

  lemma PopKeyed(rs: seq<Event>, slot: Slot)
    requires Keyed(rs)
    ensures Keyed(Pop(rs, slot))
  {
    if Find(rs, slot).Some? {
      var i := Find(rs, slot).value;
      var s := Pop(rs, slot);
      forall k | 0 <= k < |s| ensures s[k] == rs[if k < i then k else k + 1] {
      }
    }
  }

  lemma {:induction false} PopSnoc(rs: seq<Event>, e: Event, slot: Slot)
    requires Keyed(rs + [e]) && Structural(e)
    ensures Pop(rs + [e], slot) == if SlotOf(e) == slot then rs else Pop(rs, slot) + [e]
  {
    var s := rs + [e];
    assert s[..|rs|] == rs && s[|rs|] == e;
    assert At(s, |rs|, SlotOf(e));
    match Find(rs, slot)
    case Some(i) =>
      assert s[i] == rs[i];
      assert s[..i] + s[i + 1..] == rs[..i] + rs[i + 1..] + [e];
    case None =>
  }

  lemma KeyedSnoc(rs: seq<Event>, e: Event)
    requires Keyed(rs + [e])
    ensures Keyed(rs) && Structural(e)
  {
    var s := rs + [e];
    assert s[|rs|] == e;
    forall i | 0 <= i < |rs| ensures rs[i] == s[i] {
    }
  }

  /** Dropping an End disturbs nothing else. */
  lemma {:induction false} PopEndCloses(rs: seq<Event>, key: Key)
    requires Closed(rs)
    ensures Closed(Pop(rs, Slot(false, key)))
  {
    hide Closed, Has, Pop, Keyed;
    if rs == [] {
      PopNone(Slot(false, key));
    } else {
      var init, e := rs[..|rs| - 1], rs[|rs| - 1];
      assert rs == init + [e];
      ClosedSnoc(init, e);
      ClosedKeyed(rs);
      KeyedSnoc(init, e);
      PopSnoc(init, e, Slot(false, key));
      PopEndCloses(init, key);
      if SlotOf(e) != Slot(false, key) {
        PopHas(init, Slot(false, key), SlotOf(e));
        PopHas(init, Slot(false, key), Slot(true, KeyOf(e)));
        if IsBegin(e) && ParentOf(e).Some? {
          PopHas(init, Slot(false, key), Slot(true, ParentOf(e).value));
        }
        ClosedSnoc(Pop(init, Slot(false, key)), e);
      }
    }
  }

  lemma PopNone(slot: Slot)
    ensures Pop([], slot) == [] && Closed([])
  {
  }

  lemma PutCloses(rs: seq<Event>, e: Event)
    requires Closed(rs) && Structural(e) && Admissible(rs, e)
    ensures Closed(Put(rs, e))
  {
    hide Closed;
    match Find(rs, SlotOf(e))
    case Some(i) => UpdateCloses(rs, i, e);
    case None => ClosedSnoc(rs, e);
  }

  /** Ancestor-closed input keeps the table ancestor-closed, parents first. */
  lemma AppliedCloses(t: Table, e: Event, cursor: Option<Cursor>)
    requires Closed(t.records) && Admissible(t.records, e)
    ensures Closed(Applied(t, e, cursor).0.records)
  {
    hide Closed, Pop, Put, Has;
    if Structural(e) {
      var base := Reopened(t, e, cursor);
      if base != t {
        var end := Slot(false, KeyOf(e));
        PopEndCloses(t.records, KeyOf(e));
        ClosedKeyed(t.records);
        ReopenAdmits(t.records, e);
      }
      PutCloses(base.records, e);
    }
  }

  lemma ReopenAdmits(rs: seq<Event>, e: Event)
    requires Keyed(rs) && Structural(e) && IsBegin(e) && Admissible(rs, e)
    ensures Admissible(Pop(rs, Slot(false, KeyOf(e))), e)
  {
    hide Has;
    var end := Slot(false, KeyOf(e));
    var s := Pop(rs, end);
    if ParentOf(e).Some? {
      PopHas(rs, end, Slot(true, ParentOf(e).value));
    }
    forall i: nat | At(s, i, SlotOf(e)) ensures ParentOf(s[i]) == ParentOf(e) {
      if Find(rs, end).Some? {
        assert At(rs, if i < Find(rs, end).value then i else i + 1, SlotOf(e));
      }
    }
  }

  /** Delivering an event again, at the same position, changes nothing. */
  lemma AppliedOnce(t: Table, e: Event, cursor: Option<Cursor>)
    requires Structural(e) && Keyed(t.records) && Applied(t, e, cursor).1.Changed?
    ensures Applied(Applied(t, e, cursor).0, e, cursor) == (Applied(t, e, cursor).0, Ignored)
  {
    hide Active;
    var base := Reopened(t, e, cursor);
    PopKeyed(t.records, Slot(false, KeyOf(e)));
    PutFinds(base.records, e);
  }

  lemma PutFinds(rs: seq<Event>, e: Event)
    requires Keyed(rs) && Structural(e)
    ensures Find(Put(rs, e), SlotOf(e)).Some?
    ensures Put(rs, e)[Find(Put(rs, e), SlotOf(e)).value] == e
  {
    var s := Put(rs, e);
    var i := if Find(rs, SlotOf(e)).Some? then Find(rs, SlotOf(e)).value else |rs|;
    assert At(s, i, SlotOf(e));
    assert forall j: nat :: j < |s| && j != i ==> s[j] == rs[j];
  }

  // ---------------------------------------------------------------------
  // Replaying a snapshot from nothing
  // ---------------------------------------------------------------------

  /** Applies events in order; the first refusal ends the replay. */
  ghost function Replayed(t: Table, items: seq<Item>): Option<Table>
    decreases |items|
  {
    if items == [] then Some(t)
    else
      var n := |items| - 1;
      match Replayed(t, items[..n])
      case None => None
      case Some(before) =>
        var (after, outcome) := Applied(before, items[n].event, items[n].cursor);
        if outcome.Failed? then None else Some(after)
  }

  function Unplaced(es: seq<Event>): (items: seq<Item>)
    ensures |items| == |es| && forall i :: 0 <= i < |es| ==> items[i] == Item(es[i], None)
  {
    seq(|es|, i requires 0 <= i < |es| => Item(es[i], None))
  }

  /** Every ended Run has only ended child Runs. */
  ghost predicate Settled(rs: seq<Event>) {
    forall i :: 0 <= i < |rs| && rs[i].RunEnd? ==> !Active(rs, rs[i].run)
  }

  /** Every RunEnd finds its children ended before it. */
  ghost predicate EndsInOrder(es: seq<Event>) {
    forall n {:trigger es[..n]} :: 0 <= n < |es| && es[n].RunEnd? ==> !Active(es[..n], es[n].run)
  }

  lemma FreshApplied(t: Table, e: Event)
    requires Structural(e) && !Has(t.records, SlotOf(e)) && SlotOf(e) !in t.at && |t.records| < MAX_RECORDS
    ensures e.RunEnd? && Active(t.records, e.run) ==> Applied(t, e, None).1.Failed?
    ensures !(e.RunEnd? && Active(t.records, e.run)) ==>
              Applied(t, e, None) == (Table(t.records + [e], t.at[SlotOf(e) := None]), Changed)
  {
    hide Active;
    assert Find(t.records, SlotOf(e)).None?;
  }

  lemma OverBudget(t: Table, e: Event)
    requires Structural(e) && !Has(t.records, SlotOf(e)) && SlotOf(e) !in t.at && |t.records| >= MAX_RECORDS
    ensures Applied(t, e, None).1.Failed?
  {
    hide Active;
    assert Find(t.records, SlotOf(e)).None?;
  }

  lemma {:induction false} ReplayAppends(es: seq<Event>)
    requires Closed(es)
    ensures Replayed(Table([], map[]), Unplaced(es)).Some? <==> EndsInOrder(es) && |es| <= MAX_RECORDS
    ensures var r := Replayed(Table([], map[]), Unplaced(es));
            r.Some? ==> r.value.records == es && forall slot :: slot in r.value.at ==> Has(es, slot)
  {
    hide Closed, Has, Active, Applied, Fits;
    if es != [] {
      var init, e := es[..|es| - 1], es[|es| - 1];
      assert es == init + [e];
      ClosedSnoc(init, e);
      ReplayAppends(init);
      assert Unplaced(es)[..|init|] == Unplaced(init);
      OrderSnoc(init, e);
      FitsFresh(init, e);
      var r := Replayed(Table([], map[]), Unplaced(init));
      if r.Some? {
        if |init| < MAX_RECORDS {
          FreshApplied(r.value, e);
          forall slot ensures Has(es, slot) <==> Has(init, slot) || slot == SlotOf(e) {
            HasConcat(init, [e], slot);
            HasOne(e, slot);
          }
        } else {
          OverBudget(r.value, e);
        }
      }
    }
  }

  lemma FitsFresh(prior: seq<Event>, e: Event)
    requires Fits(prior, e)
    ensures Structural(e) && !Has(prior, SlotOf(e))
  {
  }

  lemma OrderSnoc(es: seq<Event>, e: Event)
    ensures EndsInOrder(es + [e]) <==> EndsInOrder(es) && !(e.RunEnd? && Active(es, e.run))
  {
    hide Active;
    var s := es + [e];
    assert s[..|es|] == es && s[|es|] == e;
    assert forall n :: 0 <= n < |es| ==> s[..n] == es[..n] && s[n] == es[n];
    if EndsInOrder(s) {
      forall n {:trigger es[..n]} | 0 <= n < |es| && es[n].RunEnd? ensures !Active(es[..n], es[n].run) {
        assert s[..n] == es[..n];
      }
    }
  }

  /** A child Run's records are presented inside its ancestor Run's. */
  lemma ChildInside(rs: seq<Event>, i: nat, run: string)
    requires Closed(rs) && i < |rs| && ChildOf(rs[i], {run})
    ensures Begun(rs, RunKey(rs[i].run)) && Anc(rs, RunKey(run), RunKey(rs[i].run))
    ensures Begun(rs, RunKey(run)) && rs[i].run != run
  {
    var x := RunKey(rs[i].run);
    BirthIs(rs, i);
    ParentFirst(rs, x);
    RunAbove(rs, Parent(rs, x).value);
    hide Closed;
    AncBegun(rs, RunKey(run), Parent(rs, x).value);
  }

  /** In presentation order a Run is waiting at its End exactly when it is in the table. */
  lemma ActiveInOrder(rs: seq<Event>, n: nat)
    requires Closed(rs) && n < |Presented(rs)| && Presented(rs)[n].RunEnd?
    ensures Active(Presented(rs)[..n], Presented(rs)[n].run) <==> Active(rs, Presented(rs)[n].run)
  {
    hide Presented, Closed, Anc;
    var s, run := Presented(rs), Presented(rs)[n].run;
    if Active(rs, run) {
      var i: nat :| Waits(rs, i, run);
      var m := EarlierThanEnd(rs, n, rs[i], i);
      if Find(s[..n], Slot(false, RunKey(rs[i].run))).Some? {
        EndedAtAll(rs, n, rs[i].run);
      }
      assert Waits(s[..n], m, run);
    }
    if Active(s[..n], run) {
      var m: nat :| Waits(s[..n], m, run);
      assert s[m] in s;
      PresentedSame(rs, s[m]);
      var i :| 0 <= i < |rs| && rs[i] == s[m];
      if Find(rs, Slot(false, RunKey(rs[i].run))).Some? {
        EndedInTime(rs, n, i);
      }
      assert Waits(rs, i, run);
    }
  }

  /** Records of a child of the Run ending at `n` come before position `n`. */
  lemma EarlierThanEnd(rs: seq<Event>, n: nat, e: Event, i: nat) returns (m: nat)
    requires Closed(rs) && n < |Presented(rs)| && Presented(rs)[n].RunEnd? && e in rs
    requires i < |rs| && ChildOf(rs[i], {Presented(rs)[n].run})
    requires Structural(e) && KeyOf(e) == RunKey(rs[i].run)
    ensures m < n && Presented(rs)[m] == e
  {
    hide Presented, Closed, Anc;
    var s := Presented(rs);
    var key := RunKey(s[n].run);
    ChildInside(rs, i, s[n].run);
    PresentedSame(rs, e);
    m :| 0 <= m < |s| && s[m] == e;
    assert s[n] in s;
    PresentedSame(rs, s[n]);
    var j :| 0 <= j < |rs| && rs[j] == s[n];
    KeyBegun(rs, j);
    EndingIs(rs, key, j);
    var b := Nested(rs, key, m);
  }

  lemma EndedInTime(rs: seq<Event>, n: nat, i: nat)
    requires Closed(rs) && n < |Presented(rs)| && Presented(rs)[n].RunEnd?
    requires i < |rs| && ChildOf(rs[i], {Presented(rs)[n].run})
    requires Find(rs, Slot(false, RunKey(rs[i].run))).Some?
    ensures Find(Presented(rs)[..n], Slot(false, RunKey(rs[i].run))).Some?
  {
    hide Presented, Closed;
    var end := Slot(false, RunKey(rs[i].run));
    var k := EarlierThanEnd(rs, n, rs[Find(rs, end).value], i);
    assert At(Presented(rs)[..n], k, end);
  }

  lemma EndedAtAll(rs: seq<Event>, n: nat, run: string)
    requires Closed(rs) && n < |Presented(rs)|
    requires Find(Presented(rs)[..n], Slot(false, RunKey(run))).Some?
    ensures Find(rs, Slot(false, RunKey(run))).Some?
  {
    hide Presented, Closed;
    var s, end := Presented(rs), Slot(false, RunKey(run));
    var m := Find(s[..n], end).value;
    assert s[m] in s;
    PresentedSame(rs, s[m]);
    var j: nat :| j < |rs| && rs[j] == s[m];
    assert At(rs, j, end);
  }

  /**
   A snapshot replayed into an empty reducer is accepted exactly when the table
   fits the budget and no ended Run has an open child, and then rebuilds it.
   */
  lemma SnapshotReplays(rs: seq<Event>)
    requires Closed(rs)
    ensures var r := Replayed(Table([], map[]), Unplaced(Presented(rs)));
            && (r.Some? <==> Settled(rs) && |rs| <= MAX_RECORDS)
            && (r.Some? ==> multiset(r.value.records) == multiset(rs))
  {
    hide Presented, Closed, Active, Replayed;
    var s := Presented(rs);
    PresentedClosed(rs);
    PresentedOnce(rs);
    ReplayAppends(s);
    assert |multiset(s)| == |s| && |multiset(rs)| == |rs|;
    if EndsInOrder(s) {
      forall i | 0 <= i < |rs| && rs[i].RunEnd? ensures !Active(rs, rs[i].run) {
        PresentedSame(rs, rs[i]);
        var n :| 0 <= n < |s| && s[n] == rs[i];
        ActiveInOrder(rs, n);
        assert !Active(s[..n], s[n].run);
      }
    }
    if Settled(rs) {
      forall n {:trigger s[..n]} | 0 <= n < |s| && s[n].RunEnd? ensures !Active(s[..n], s[n].run) {
        ActiveInOrder(rs, n);
        assert s[n] in s;
        PresentedSame(rs, s[n]);
        var i :| 0 <= i < |rs| && rs[i] == s[n];
      }
    }
  }
}
