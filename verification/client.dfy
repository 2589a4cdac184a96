/**
 The client-side reducer as the mutable object consumers share: a cursor, the
 table, and a pending replacement that is committed whole at its checkpoint or
 not at all.
 */
module Client {
  import opened Common
  import opened ClientSpec
  import opened ClientTree
  import opened ClientReducer

  const PREFILL_MAX_BYTES: nat := 16 * 1024 * 1024
  const PREFILL_MAX_ITEMS: nat := 20000

  datatype Replacement = Replacement(cursor: Cursor, scope: Scope, roots: Option<set<string>>)

  datatype Frame =
    | Prefill(replacement: Replacement)
    | Checkpoint(id: Option<Cursor>, cursor: Cursor)
    | Live(id: Option<Cursor>, event: Event, position: Option<Cursor>, bytes: nat)

  /** `Refreshed` is followed by a snapshot of the whole table. */
  datatype Reply = Nothing | Delivered(event: Event) | Refreshed(mutations: seq<Event>) | Rejected

  // ---------------------------------------------------------------------
  // Replacement, as functions
  // ---------------------------------------------------------------------

  predicate RootIn(e: Event, scope: Scope) {
    && e.RunBegin? && e.parent.None?
    && match scope
       case AgentScope => true
       case RunScope(run) => e.run == run
       case ThreadScope(thread) => e.thread == thread
  }

  /** The trees a replacement speaks for: those it names, or every root in scope. */
  function Replaced(rs: seq<Event>, replacement: Replacement): set<string> {
    match replacement.roots
    case Some(roots) => roots
    case None => set i | 0 <= i < |rs| && RootIn(rs[i], replacement.scope) :: rs[i].run
  }

  function Outside(at: map<Slot, Option<Cursor>>, runs: set<string>): map<Slot, Option<Cursor>> {
    map slot | slot in at && slot.key.run !in runs :: at[slot]
  }

  /** The table without the whole trees rooted in `roots`. */
  function Without(t: Table, roots: set<string>): Table {
    var runs := Pass(t.records, roots);
    Table(Remove(t.records, runs), Outside(t.at, runs))
  }

  ghost function Committed(t: Table, replacement: Replacement, items: seq<Item>): Option<Table> {
    Replayed(Without(t, Replaced(t.records, replacement)), items)
  }

  function Mutations(items: seq<Item>): seq<Event> {
    if items == [] then []
    else
      var last := items[|items| - 1].event;
      Mutations(items[..|items| - 1]) + if Structural(last) then [] else [last]
  }

  /** One record per slot, and positions only for recorded slots. */
  ghost predicate InStep(t: Table) {
    Keyed(t.records) && forall slot :: slot in t.at ==> Has(t.records, slot)
  }

  // ---------------------------------------------------------------------
  // Laws of replacement
  // ---------------------------------------------------------------------

  /** Releasing whole trees leaves a closed table, and nothing under them. */
  lemma WithoutCloses(t: Table, roots: set<string>)
    requires Closed(t.records)
    ensures Closed(Without(t, roots).records)
    ensures forall slot :: Has(Without(t, roots).records, slot) <==>
                           Has(t.records, slot) && slot.key.run !in Pass(t.records, roots)
  {
    hide Closed, Has, Remove, Pass, ChildClosed;
    PassIsClosure(t.records, roots);
    RemoveCloses(t.records, Pass(t.records, roots));
    forall slot ensures Has(Without(t, roots).records, slot) <==>
                        Has(t.records, slot) && slot.key.run !in Pass(t.records, roots)
    {
      RemoveKeeps(t.records, Pass(t.records, roots), slot);
    }
  }

  /** The key is, or lies under, one of the Runs. */
  ghost predicate UnderAny(rs: seq<Event>, runs: set<string>, key: Key)
    requires Closed(rs) && Begun(rs, key)
  {
    exists run :: run in runs && Anc(rs, RunKey(run), key)
  }

  /** A Step lies under a Run exactly if its own Run does. */
  lemma {:induction false} UnderByRun(rs: seq<Event>, run: string, x: Key)
    requires Closed(rs) && Begun(rs, x)
    ensures Begun(rs, RunKey(x.run)) && (Anc(rs, RunKey(run), x) <==> Anc(rs, RunKey(run), RunKey(x.run)))
    decreases Birth(rs, x)
  {
    if x.StepKey? {
      RecordFits(rs, Birth(rs, x));
      ParentFirst(rs, x);
      UnderByRun(rs, run, Above(x));
    }
  }

  /** A child Run lies under whatever the Run of its parent lies under. */
  lemma UnderChild(rs: seq<Event>, run: string, x: Key)
    requires Closed(rs) && Begun(rs, x) && x.RunKey? && Parent(rs, x).Some?
    ensures Begun(rs, RunKey(Parent(rs, x).value.run))
    ensures Anc(rs, RunKey(run), x) <==> x == RunKey(run) || Anc(rs, RunKey(run), RunKey(Parent(rs, x).value.run))
  {
    ParentFirst(rs, x);
    UnderByRun(rs, run, Parent(rs, x).value);
  }

  /** A selected Run lies under one that was asked for. */
  lemma {:induction false} SelectedUnder(rs: seq<Event>, runs: set<string>, x: string)
    requires Closed(rs) && Begun(rs, RunKey(x)) && x in Pass(rs, runs)
    ensures UnderAny(rs, runs, RunKey(x))
    decreases Birth(rs, RunKey(x))
  {
    hide Closed, Pass;
    if x in runs {
      AncSelf(rs, RunKey(x));
    } else {
      var i := PassOrigin(rs, runs, x);
      BirthIs(rs, i);
      var parent := rs[i].parent.value;
      UnderChild(rs, x, RunKey(x));
      ParentFirst(rs, RunKey(x));
      RunFirst(rs, parent);
      PassGrows(rs, runs, i);
      SelectedUnder(rs, runs, parent.run);
      var run :| run in runs && Anc(rs, RunKey(run), RunKey(parent.run));
      UnderChild(rs, run, RunKey(x));
    }
  }

  lemma RunFirst(rs: seq<Event>, x: Key)
    requires Closed(rs) && Begun(rs, x)
    ensures Begun(rs, RunKey(x.run)) && Birth(rs, RunKey(x.run)) <= Birth(rs, x)
  {
    hide Closed;
    RunAbove(rs, x);
    AncBegun(rs, RunKey(x.run), x);
  }

  /** Whatever Run lies under one that was asked for is selected. */
  lemma {:induction false} UnderSelected(rs: seq<Event>, runs: set<string>, run: string, x: string)
    requires Closed(rs) && Begun(rs, RunKey(x)) && run in runs && Anc(rs, RunKey(run), RunKey(x))
    ensures x in Pass(rs, runs)
    decreases Birth(rs, RunKey(x))
  {
    PassIsClosure(rs, runs);
    if x != run {
      hide Closed, Pass, Anc;
      AncOther(rs, RunKey(run), RunKey(x));
      var i := Birth(rs, RunKey(x));
      RecordFits(rs, i);
      var parent := rs[i].parent.value;
      UnderChild(rs, run, RunKey(x));
      ParentFirst(rs, RunKey(x));
      RunFirst(rs, parent);
      UnderSelected(rs, runs, run, parent.run);
      assert ChildOf(rs[i], Pass(rs, runs));
    }
  }

  lemma AncOther(rs: seq<Event>, a: Key, x: Key)
    requires Closed(rs) && Begun(rs, x) && Anc(rs, a, x) && a != x
    ensures Parent(rs, x).Some?
  {
  }

  /** The single pass selects exactly the Runs of the trees asked for. */
  lemma PassIsTrees(rs: seq<Event>, runs: set<string>, key: Key)
    requires Closed(rs) && Begun(rs, key)
    ensures key.run in Pass(rs, runs) <==> UnderAny(rs, runs, key)
  {
    hide Closed, Pass, Anc;
    UnderByRun(rs, key.run, key);
    if key.run in Pass(rs, runs) {
      SelectedUnder(rs, runs, key.run);
      var run :| run in runs && Anc(rs, RunKey(run), RunKey(key.run));
      UnderByRun(rs, run, key);
    }
    if run :| run in runs && Anc(rs, RunKey(run), key) {
      UnderByRun(rs, run, key);
      UnderSelected(rs, runs, run, key.run);
    }
  }

  /** A tree the scope speaks for: any root for the agent, one Run's, or those of one thread. */
  predicate Spoken(scope: Scope, e: Event) {
    && e.RunBegin? && e.parent == None
    && (scope == AgentScope || scope == RunScope(e.run) || scope == ThreadScope(e.thread))
  }

  /** The key is in a tree the replacement speaks for: one it names, or any that its scope does. */
  ghost predicate Claimed(rs: seq<Event>, r: Replacement, key: Key)
    requires Closed(rs) && Begun(rs, key)
  {
    match r.roots
    case Some(roots) => UnderAny(rs, roots, key)
    case None => exists i :: 0 <= i < |rs| && Spoken(r.scope, rs[i]) && Anc(rs, RunKey(rs[i].run), key)
  }

  lemma ClaimedIs(rs: seq<Event>, r: Replacement, key: Key)
    requires Closed(rs) && Begun(rs, key)
    ensures UnderAny(rs, Replaced(rs, r), key) <==> Claimed(rs, r, key)
  {
    hide Closed, Anc;
    if r.roots.None? {
      if Claimed(rs, r, key) {
        var i :| 0 <= i < |rs| && Spoken(r.scope, rs[i]) && Anc(rs, RunKey(rs[i].run), key);
        assert RootIn(rs[i], r.scope);
      }
      if UnderAny(rs, Replaced(rs, r), key) {
        var run :| run in Replaced(rs, r) && Anc(rs, RunKey(run), key);
        var i :| 0 <= i < |rs| && RootIn(rs[i], r.scope) && rs[i].run == run;
        assert Spoken(r.scope, rs[i]);
      }
    }
  }

  lemma {:induction false} RemoveIs(rs: seq<Event>, runs: set<string>, e: Event)
    requires AllStructural(rs)
    ensures e in Remove(rs, runs) <==> e in rs && KeyOf(e).run !in runs
  {
    if rs != [] {
      var init, last := rs[..|rs| - 1], rs[|rs| - 1];
      assert rs == init + [last];
      RemoveIs(init, runs, e);
    }
  }

  /** A replacement removes exactly the records of the trees it speaks for; every other one stays. */
  lemma ReplacementRemoves(t: Table, r: Replacement, e: Event)
    requires Closed(t.records)
    ensures e in Without(t, Replaced(t.records, r)).records ==> e in t.records
    ensures e in t.records ==>
              && Structural(e) && Begun(t.records, KeyOf(e))
              && (e in Without(t, Replaced(t.records, r)).records <==> !Claimed(t.records, r, KeyOf(e)))
  {
    hide Closed, Pass, Claimed, Replaced, UnderAny, Remove;
    var runs := Replaced(t.records, r);
    ClosedKeyed(t.records);
    KeyedStructural(t.records);
    RemoveIs(t.records, Pass(t.records, runs), e);
    if e in t.records {
      var i :| 0 <= i < |t.records| && t.records[i] == e;
      KeyBegun(t.records, i);
      PassIsTrees(t.records, runs, KeyOf(e));
      ClaimedIs(t.records, r, KeyOf(e));
    }
  }

  /** With no roots named, a root goes exactly if the scope is the agent's, or its own Run or thread. */
  lemma RootReplaced(t: Table, r: Replacement, e: Event)
    requires Closed(t.records) && r.roots.None? && e in t.records && e.RunBegin? && e.parent.None?
    ensures e in Without(t, Replaced(t.records, r)).records <==>
            r.scope != AgentScope && r.scope != RunScope(e.run) && r.scope != ThreadScope(e.thread)
  {
    hide Closed, Without, Replaced, Anc;
    ReplacementRemoves(t, r, e);
    var i :| 0 <= i < |t.records| && t.records[i] == e;
    BirthIs(t.records, i);
    AncSelf(t.records, RunKey(e.run));
    if j :| 0 <= j < |t.records| && Spoken(r.scope, t.records[j]) && Anc(t.records, RunKey(t.records[j].run), KeyOf(e)) {
      if t.records[j].run != e.run {
        AncOther(t.records, RunKey(t.records[j].run), RunKey(e.run));
      }
      BirthIs(t.records, j);
    }
  }

  /** A replacement for the whole agent that names no roots leaves nothing of the old table. */
  lemma AgentReplaced(t: Table, r: Replacement)
    requires Closed(t.records) && r.roots.None? && r.scope == AgentScope
    ensures forall e :: e !in Without(t, Replaced(t.records, r)).records
  {
    hide Closed, Without, Replaced, Anc;
    var left := Without(t, Replaced(t.records, r)).records;
    forall e ensures e !in left {
      ReplacementRemoves(t, r, e);
      if e in t.records {
        AgentClaims(t.records, r, KeyOf(e));
      }
    }
  }

  lemma AgentClaims(rs: seq<Event>, r: Replacement, key: Key)
    requires Closed(rs) && Begun(rs, key) && r.roots.None? && r.scope == AgentScope
    ensures Claimed(rs, r, key)
  {
    hide Closed, Anc;
    var root := RootAbove(rs, key);
    KidsAre(rs, None, root);
    var i := Birth(rs, root);
    RecordFits(rs, i);
    assert Spoken(r.scope, rs[i]);
  }

  /** Each item is admissible after the ones before it. */
  ghost predicate AdmissibleAll(t: Table, items: seq<Item>) {
    forall n {:trigger items[..n]} :: 0 <= n < |items| && Replayed(t, items[..n]).Some? ==>
      Admissible(Replayed(t, items[..n]).value.records, items[n].event)
  }

  lemma {:induction false} ReplayedCloses(t: Table, items: seq<Item>)
    requires Closed(t.records) && AdmissibleAll(t, items) && Replayed(t, items).Some?
    ensures Closed(Replayed(t, items).value.records)
  {
    hide Closed, Admissible, Applied;
    if items != [] {
      var n := |items| - 1;
      var init := items[..n];
      forall k {:trigger init[..k]} | 0 <= k < n && Replayed(t, init[..k]).Some?
        ensures Admissible(Replayed(t, init[..k]).value.records, init[k].event)
      {
        assert init[..k] == items[..k];
      }
      ReplayedCloses(t, init);
      AppliedCloses(Replayed(t, init).value, items[n].event, items[n].cursor);
    }
  }

  /** A commit over ancestor-closed input leaves no orphan. */
  lemma CommitCloses(t: Table, replacement: Replacement, items: seq<Item>)
    requires Closed(t.records) && Committed(t, replacement, items).Some?
    requires AdmissibleAll(Without(t, Replaced(t.records, replacement)), items)
    ensures Closed(Committed(t, replacement, items).value.records)
  {
    hide Closed, AdmissibleAll, Replayed, Without;
    WithoutCloses(t, Replaced(t.records, replacement));
    ReplayedCloses(Without(t, Replaced(t.records, replacement)), items);
  }

  // ---------------------------------------------------------------------
  // One frame, and many
  // ---------------------------------------------------------------------

  datatype Waiting = Waiting(replacement: Replacement, items: seq<Item>)

  /** What the reducer keeps from one frame to the next. */
  datatype Session = Session(cursor: Option<Cursor>, table: Table, waiting: Option<Waiting>, bytes: nat)

  predicate Behind(id: Option<Cursor>, cursor: Option<Cursor>) {
    id.Some? && cursor.Some? && id.value.epoch == cursor.value.epoch && id.value.at <= cursor.value.at
  }

  ghost function Replying(before: Table, event: Event, outcome: Outcome): Reply {
    match outcome
    case Failed => Rejected
    case Ignored => Nothing
    case Changed =>
      if Structural(event) && IsBegin(event) && Has(before.records, SlotOf(event)) then Refreshed([])
      else Delivered(event)
  }

  /** What one frame does: held while a replacement is pending, applied otherwise. */
  ghost function Fed(s: Session, frame: Frame): (Session, Reply) {
    match frame
    case Prefill(r) =>
      if s.waiting.Some? then (s, Rejected) else (s.(waiting := Some(Waiting(r, []))), Nothing)
    case Checkpoint(id, boundary) =>
      if id != Some(boundary) then (s, Rejected)
      else if s.waiting.None? then
        if Stale(s.cursor, Some(boundary)) then (s, Rejected) else (s.(cursor := Some(boundary)), Nothing)
      else
        var w := s.waiting.value;
        var committed := Committed(s.table, w.replacement, w.items);
        if w.replacement.cursor != boundary || committed.None? then (s, Rejected)
        else (Session(Some(boundary), committed.value, None, 0), Refreshed(Mutations(w.items)))
    case Live(id, event, position, size) =>
      if s.waiting.Some? then
        var w := s.waiting.value;
        if id.Some? || (event.Progress? && event.part) then (s, Rejected)
        else if s.bytes + size > PREFILL_MAX_BYTES || |w.items| >= PREFILL_MAX_ITEMS
        then (s.(bytes := s.bytes + size), Rejected)
        else (s.(waiting := Some(w.(items := w.items + [Item(event, position)])), bytes := s.bytes + size), Nothing)
      else if Behind(id, s.cursor) then (s, Nothing)
      else
        var applied := Applied(s.table, event, if position.Some? then position else id);
        (Session(if id.Some? then id else s.cursor, applied.0, None, s.bytes), Replying(s.table, event, applied.1))
  }

  /** The frame's events, where they are applied, have begun ancestors and a stable parent. */
  ghost predicate Welcome(s: Session, frame: Frame) {
    match frame
    case Prefill(_) => true
    case Checkpoint(_, _) =>
      s.waiting.Some? ==>
        AdmissibleAll(Without(s.table, Replaced(s.table.records, s.waiting.value.replacement)), s.waiting.value.items)
    case Live(id, event, _, _) =>
      s.waiting.None? && !Behind(id, s.cursor) ==> Admissible(s.table.records, event)
  }

  ghost predicate AllWelcome(s: Session, frames: seq<Frame>)
    decreases |frames|
  {
    frames == [] || (Welcome(s, frames[0]) && AllWelcome(Fed(s, frames[0]).0, frames[1..]))
  }

  ghost function FedAll(s: Session, frames: seq<Frame>): Session
    decreases |frames|
  {
    if frames == [] then s else FedAll(Fed(s, frames[0]).0, frames[1..])
  }

  lemma FedCloses(s: Session, frame: Frame)
    requires Closed(s.table.records) && Welcome(s, frame)
    ensures Closed(Fed(s, frame).0.table.records)
  {
    hide Closed, AdmissibleAll, Admissible, Committed, Applied, Without;
    match frame
    case Prefill(_) =>
    case Checkpoint(_, _) =>
      if s.waiting.Some? && Committed(s.table, s.waiting.value.replacement, s.waiting.value.items).Some? {
        CommitCloses(s.table, s.waiting.value.replacement, s.waiting.value.items);
      }
    case Live(id, event, position, _) =>
      if s.waiting.None? && !Behind(id, s.cursor) {
        AppliedCloses(s.table, event, if position.Some? then position else id);
      }
  }

  /** No sequence of frames orphans a record, whatever is refused, repeated or replaced on the way. */
  lemma {:induction false} FeedsClose(s: Session, frames: seq<Frame>)
    requires Closed(s.table.records) && AllWelcome(s, frames)
    ensures Closed(FedAll(s, frames).table.records)
    decreases |frames|
  {
    hide Closed, Welcome, Fed;
    if frames != [] {
      FedCloses(s, frames[0]);
      FeedsClose(Fed(s, frames[0]).0, frames[1..]);
    }
  }

  /** Until its checkpoint, nothing of a replacement shows: table and cursor stay as they were. */
  lemma {:induction false} WaitingHides(s: Session, frames: seq<Frame>)
    requires s.waiting.Some? && forall i :: 0 <= i < |frames| ==> !frames[i].Checkpoint?
    ensures var t := FedAll(s, frames);
            && t.table == s.table && t.cursor == s.cursor
            && t.waiting.Some? && t.waiting.value.replacement == s.waiting.value.replacement
            && s.waiting.value.items <= t.waiting.value.items
    decreases |frames|
  {
    if frames != [] {
      var next := Fed(s, frames[0]).0;
      assert next.waiting.Some? && s.waiting.value.items <= next.waiting.value.items;
      WaitingHides(next, frames[1..]);
    }
  }

  // ---------------------------------------------------------------------
  // Bookkeeping
  // ---------------------------------------------------------------------

  lemma {:induction false} RemoveKeyed(rs: seq<Event>, runs: set<string>)
    requires Keyed(rs)
    ensures Keyed(Remove(rs, runs))
  {
    hide Keyed, Has;
    if rs == [] {
      KeyedNone();
    } else {
      var init, e := rs[..|rs| - 1], rs[|rs| - 1];
      assert rs == init + [e];
      KeyedSnoc(init, e);
      RemoveKeyed(init, runs);
      RemoveSnoc(init, e, runs);
      RemoveKeeps(init, runs, SlotOf(e));
      KeyedFresh(init, e);
      if KeyOf(e).run !in runs {
        KeyedExtend(Remove(init, runs), e);
      }
    }
  }

  lemma KeyedStructural(rs: seq<Event>)
    requires Keyed(rs)
    ensures AllStructural(rs)
  {
  }

  lemma KeyedNone()
    ensures Keyed([])
  {
  }

  lemma KeyedFresh(rs: seq<Event>, e: Event)
    requires Keyed(rs + [e])
    ensures Structural(e) && !Has(rs, SlotOf(e))
  {
    KeyedSnoc(rs, e);
    var s := rs + [e];
    assert s[|rs|] == e;
    forall i | 0 <= i < |rs| ensures SlotOf(rs[i]) != SlotOf(e) {
      assert s[i] == rs[i];
    }
  }

  lemma KeyedExtend(rs: seq<Event>, e: Event)
    requires Keyed(rs) && Structural(e) && !Has(rs, SlotOf(e))
    ensures Keyed(rs + [e])
  {
    var s := rs + [e];
    forall i | 0 <= i < |rs| ensures s[i] == rs[i] && SlotOf(rs[i]) != SlotOf(e) {
      assert At(rs, i, SlotOf(rs[i]));
    }
  }

  lemma PutHas(rs: seq<Event>, e: Event, slot: Slot)
    requires Keyed(rs) && Structural(e)
    ensures Keyed(Put(rs, e))
    ensures Has(Put(rs, e), slot) <==> Has(rs, slot) || slot == SlotOf(e)
  {
    match Find(rs, SlotOf(e))
    case Some(i) => SameSlots(rs, rs[i := e], slot);
    case None =>
      KeyedExtend(rs, e);
      HasConcat(rs, [e], slot);
      HasOne(e, slot);
  }

  lemma ReopenedInStep(t: Table, e: Event, cursor: Option<Cursor>)
    requires InStep(t) && Structural(e)
    ensures InStep(Reopened(t, e, cursor))
  {
    hide Keyed, Has, Pop;
    var end := Slot(false, KeyOf(e));
    PopKeyed(t.records, end);
    forall slot | slot in t.at && slot != end ensures Has(Pop(t.records, end), slot) {
      PopHas(t.records, end, slot);
    }
  }

  /** Within an epoch no slot is ever taken back to an earlier position. */
  lemma AppliedForward(t: Table, e: Event, cursor: Option<Cursor>, slot: Slot)
    ensures var before, after := Known(t.at, slot), Known(Applied(t, e, cursor).0.at, slot);
            before.Some? && after.Some? && before.value.epoch == after.value.epoch ==>
              before.value.at <= after.value.at
  {
    hide Has, Pop, Put, Active;
  }

  /** An event is ignored exactly if its slot is further on already, or holds it, or was set from its position. */
  lemma IgnoredExactly(t: Table, e: Event, cursor: Option<Cursor>)
    requires Keyed(t.records)
    ensures Applied(t, e, cursor).1.Ignored? <==>
            && Structural(e)
            && ((cursor.Some? && exists later: nat ::
                   later > cursor.value.at && Known(t.at, SlotOf(e)) == Some(Cursor(cursor.value.epoch, later)))
                || e in t.records
                || (Has(t.records, SlotOf(e)) && cursor.Some? && Known(t.at, SlotOf(e)) == cursor))
  {
    hide Active;
    if Structural(e) {
      FoundIs(t.records, SlotOf(e));
      if e in t.records {
        var i: nat :| i < |t.records| && t.records[i] == e;
        assert At(t.records, i, SlotOf(e));
      }
      if Stale(Known(t.at, SlotOf(e)), cursor) {
        assert Known(t.at, SlotOf(e)) == Some(Cursor(cursor.value.epoch, Known(t.at, SlotOf(e)).value.at));
      }
    }
  }

  /** A Run is active while some child Run of it has begun and has no End. */
  lemma ActiveIs(rs: seq<Event>, run: string)
    ensures Active(rs, run) <==>
            exists i :: 0 <= i < |rs| && rs[i].RunBegin? && rs[i].parent.Some? && rs[i].parent.value.run == run
                        && !Has(rs, Slot(false, RunKey(rs[i].run)))
  {
    hide Has;
    if Active(rs, run) {
      var i: nat :| Waits(rs, i, run);
      FoundIs(rs, Slot(false, RunKey(rs[i].run)));
    }
    if i :| 0 <= i < |rs| && rs[i].RunBegin? && rs[i].parent.Some? && rs[i].parent.value.run == run
            && !Has(rs, Slot(false, RunKey(rs[i].run))) {
      FoundIs(rs, Slot(false, RunKey(rs[i].run)));
      assert Waits(rs, i, run);
    }
  }

  /** Within an epoch the cursor moves back only where a replacement commits. */
  lemma FedForward(s: Session, frame: Frame)
    requires frame.Checkpoint? ==> s.waiting.None?
    ensures var after := Fed(s, frame).0.cursor;
            s.cursor.Some? ==> after.Some? && (after.value.epoch == s.cursor.value.epoch ==>
                                                 s.cursor.value.at <= after.value.at)
  {
    hide Applied, Replying, Committed;
  }

  /** A Begin where one is recorded already, at a position of its own: the Run or Step begins anew. */
  ghost predicate Anew(t: Table, e: Event, cursor: Option<Cursor>) {
    && Structural(e) && IsBegin(e) && Has(t.records, SlotOf(e))
    && cursor.Some? && cursor != Known(t.at, SlotOf(e))
  }

  /** An event that is stored adds its slot and disturbs no other, but that beginning anew drops the old End. */
  lemma AppliedSlots(t: Table, e: Event, cursor: Option<Cursor>, slot: Slot)
    requires InStep(t) && Structural(e)
    requires !Stale(Known(t.at, SlotOf(e)), cursor) && !Repeats(t, e, cursor) && !(e.RunEnd? && Active(t.records, e.run))
    ensures var next := Applied(t, e, cursor).0;
            var dropped := Anew(t, e, cursor) && slot == Slot(false, KeyOf(e));
            && (Has(next.records, slot) <==> slot == SlotOf(e) || (Has(t.records, slot) && !dropped))
            && (slot in next.at <==> slot == SlotOf(e) || (slot in t.at && !dropped))
            && (slot in next.at ==> next.at[slot] == if slot == SlotOf(e) then cursor else t.at[slot])
  {
    hide Keyed, Has, Pop, Put, Active;
    var end := Slot(false, KeyOf(e));
    FoundIs(t.records, SlotOf(e));
    PopKeyed(t.records, end);
    PopHas(t.records, end, slot);
    PutHas(Reopened(t, e, cursor).records, e, slot);
  }

  lemma FoundIs(rs: seq<Event>, slot: Slot)
    ensures Find(rs, slot).Some? <==> Has(rs, slot)
  {
  }

  lemma AppliedInStep(t: Table, e: Event, cursor: Option<Cursor>)
    requires InStep(t)
    ensures InStep(Applied(t, e, cursor).0)
  {
    hide Keyed, Has, Put, Reopened, Active;
    if Structural(e) {
      var base := Reopened(t, e, cursor);
      ReopenedInStep(t, e, cursor);
      PutHas(base.records, e, SlotOf(e));
      forall slot | slot in base.at ensures Has(Put(base.records, e), slot) {
        PutHas(base.records, e, slot);
      }
      assert InStep(Stored(t, e, cursor));
    }
  }

  lemma WithoutInStep(t: Table, roots: set<string>)
    requires InStep(t)
    ensures InStep(Without(t, roots))
  {
    hide Keyed, Has, Remove;
    var runs := Pass(t.records, roots);
    RemoveKeyed(t.records, runs);
    forall slot | slot in Outside(t.at, runs) ensures Has(Remove(t.records, runs), slot) {
      RemoveKeeps(t.records, runs, slot);
    }
  }

  // ---------------------------------------------------------------------
  // The object
  // ---------------------------------------------------------------------

  class StreamClientState {
    var cursor: Option<Cursor>
    var records: seq<Event>
    var positions: map<Slot, Option<Cursor>>
    var prefix: Option<seq<Item>>
    var replacement: Option<Replacement>
    var bytes: nat

    ghost predicate Valid()
      reads this
    {
      InStep(Content()) && (prefix.Some? <==> replacement.Some?)
    }

    /** Where the reducer stands between frames. */
    function State(): Session
      reads this
    {
      Session(cursor, Content(),
              if prefix.Some? && replacement.Some? then Some(Waiting(replacement.value, prefix.value)) else None,
              bytes)
    }

    function Content(): Table
      reads this`records, this`positions
    {
      Table(records, positions)
    }

    constructor ()
      ensures Valid() && Content() == Table([], map[]) && cursor == None && prefix == None
    {
      cursor, records, positions := None, [], map[];
      prefix, replacement, bytes := None, None, 0;
    }

    /** A second reducer with the same table and cursor, and nothing pending. */
    method Copy() returns (result: StreamClientState)
      requires Valid()
      ensures fresh(result) && result.Valid() && result.Content() == Content()
      ensures result.cursor == cursor && result.prefix == None
    {
      result := new StreamClientState();
      result.cursor := cursor;
      result.records := records;
      result.positions := positions;
    }

    method Descendants(runs: set<string>) returns (selected: set<string>)
      ensures selected == Pass(records, runs)
    {
      selected := runs;
      for i := 0 to |records|
        invariant selected == Pass(records[..i], runs)
      {
        assert records[..i + 1][..i] == records[..i];
        if ChildOf(records[i], selected) {
          selected := selected + {records[i].run};
        }
      }
      assert records[..|records|] == records;
    }

    method RemoveRuns(runs: set<string>)
      requires Valid()
      modifies this`records, this`positions
      ensures records == Remove(old(records), runs) && positions == Outside(old(positions), runs)
    {
      hide Keyed, Remove, Has, Pop, Dropped;
      var items := records;
      KeyedStructural(items);
      assert items[..0] == [] && items[0..] == items;
      RemoveNone(runs);
      DroppedNone(positions, runs);
      for i := 0 to |items|
        invariant records == Remove(items[..i], runs) + items[i..] && Keyed(records)
        invariant positions == Dropped(old(positions), items[..i], runs)
      {
        var slot := SlotAt(items, i);
        RemoveStep(items, i, runs);
        DroppedStep(old(positions), items, i, runs);
        if slot.key.run in runs {
          PopKeyed(records, slot);
          records := Pop(records, slot);
          positions := positions - {slot};
        }
      }
      assert items[..|items|] == items;
      DroppedAll(Table(items, old(positions)), runs);
    }

    /** Drops any half-received replacement; what was committed stays. */
    method Attach()
      requires Valid()
      modifies this`prefix, this`replacement, this`bytes
      ensures Valid() && prefix == None && bytes == 0
    {
      prefix, replacement, bytes := None, None, 0;
    }

    /** The stack loop writes the recursive pre- and post-order of the table. */
    method Snapshot() returns (events: seq<Event>)
      requires Closed(records)
      ensures events == Presented(records)
      ensures multiset(events) == multiset(records)
    {
      hide Closed, Grouped, Kids, Forest, Tree, Ending, AllBegun, Due, Effort;
      ClosedKeyed(records);
      KeyedStructural(records);
      var groups := Groups(map[], map[], map[]);
      GroupedNone();
      for i := 0 to |records|
        invariant Grouped(groups, records[..i])
      {
        assert records[..i + 1] == records[..i] + [records[i]];
        GroupedSnoc(groups, records[..i], records[i]);
        groups := Group(groups, records[i]);
      }
      assert records[..|records|] == records;
      GroupedKids(groups, records, None);
      PresentedStart(records);
      events := [];
      var stack := Reversed(groups.Below(None));
      while stack != []
        invariant AllBegun(records, stack) && events + Due(records, stack) == Presented(records)
        decreases Effort(records, stack)
      {
        var top := stack[|stack| - 1];
        TopBegun(records, stack);
        GroupedIs(groups, records, top.key);
        GroupedKids(groups, records, Some(top.key));
        if top.ending {
          PopEnding(records, stack);
          stack := stack[..|stack| - 1];
          if top.key in groups.ends {
            events := events + [groups.ends[top.key]];
          }
        } else {
          PopOpening(records, stack);
          stack := stack[..|stack| - 1] + [Visit(top.key, true)] + Reversed(groups.Below(Some(top.key)));
          events := events + [groups.begins[top.key]];
        }
      }
      DueNone(records);
      PresentedOnce(records);
    }

    /** Takes the given roots' trees out of the table; the cursor is left where it is. */
    method Forget(roots: set<string>)
      requires Valid()
      modifies this`records, this`positions
      ensures Valid() && Content() == Without(old(Content()), roots)
    {
      WithoutInStep(Content(), roots);
      var runs := Descendants(roots);
      RemoveRuns(runs);
    }

    method AnyActive(run: string) returns (active: bool)
      ensures active <==> Active(records, run)
    {
      for i := 0 to |records|
        invariant forall j: nat :: j < i ==> !Waits(records, j, run)
      {
        if Waits(records, i, run) {
          return true;
        }
      }
      active := false;
    }

    method Apply(event: Event, position: Option<Cursor>) returns (outcome: Outcome)
      requires Valid()
      modifies this`records, this`positions
      ensures Valid() && (Content(), outcome) == Applied(old(Content()), event, position)
    {
      hide InStep, Keyed, Active, Find, Put, Pop;
      AppliedInStep(Content(), event, position);
      if !Structural(event) {
        return Changed;
      }
      var key := SlotOf(event);
      if Stale(Known(positions, key), position) || Repeats(Content(), event, position) {
        return Ignored;
      }
      if event.RunEnd? {
        var active := AnyActive(event.run);
        if active {
          return Failed;
        }
      }
      if IsBegin(event) {
        var end := Slot(false, KeyOf(event));
        if Find(records, key).Some? && position.Some? && position != Known(positions, key) {
          records := Pop(records, end);
          positions := positions - {end};
        }
      }
      records := Put(records, event);
      positions := positions[key := position];
      outcome := if |records| > MAX_RECORDS then Failed else Changed;
    }

    /** Applies a finished prefix to a candidate; `ok` is false if any item is refused. */
    method ApplyAll(items: seq<Item>) returns (ok: bool, mutations: seq<Event>)
      requires Valid()
      modifies this`records, this`positions
      ensures Valid()
      ensures ok <==> Replayed(old(Content()), items).Some?
      ensures ok ==> Replayed(old(Content()), items) == Some(Content()) && mutations == Mutations(items)
    {
      hide InStep, Applied;
      mutations := [];
      ok := true;
      assert items[..0] == [];
      for i := 0 to |items|
        invariant Valid() && Replayed(old(Content()), items[..i]) == Some(Content())
        invariant mutations == Mutations(items[..i])
      {
        assert items[..i + 1][..i] == items[..i];
        var outcome := Apply(items[i].event, items[i].cursor);
        if outcome.Failed? {
          RefusedStays(old(Content()), items, i + 1);
          ok := false;
          return;
        }
        if !Structural(items[i].event) {
          mutations := mutations + [items[i].event];
        }
      }
      assert items[..|items|] == items;
    }

    /** Opens a pending replacement; one may not be opened inside another. */
    method Begin(r: Replacement) returns (reply: Reply)
      requires Valid()
      modifies this`prefix, this`replacement
      ensures Valid()
      ensures reply.Rejected? <==> old(prefix).Some?
      ensures if reply.Rejected? then prefix == old(prefix) && replacement == old(replacement)
              else reply.Nothing? && prefix == Some([]) && replacement == Some(r)
    {
      if prefix.Some? {
        return Rejected;
      }
      replacement, prefix := Some(r), Some([]);
      reply := Nothing;
    }

    /**
     Commits a pending replacement whole, or leaves everything as it was; with
     nothing pending, moves the cursor forward within its epoch.
     */
    method Commit(id: Option<Cursor>, boundary: Cursor) returns (reply: Reply)
      requires Valid()
      modifies this
      ensures Valid()
      ensures reply.Rejected? ==>
                && Content() == old(Content()) && cursor == old(cursor)
                && prefix == old(prefix) && replacement == old(replacement) && bytes == old(bytes)
      ensures !reply.Rejected? ==> id == Some(boundary) && cursor == Some(boundary) && prefix == None
      ensures !reply.Rejected? ==> bytes == if old(prefix).Some? then 0 else old(bytes)
      ensures reply.Rejected? <==>
                || id != Some(boundary)
                || (if old(prefix).Some? then
                      || old(replacement).value.cursor != boundary
                      || Committed(old(Content()), old(replacement).value, old(prefix).value).None?
                    else Stale(old(cursor), Some(boundary)))
      ensures !reply.Rejected? ==>
                if old(prefix).Some? then
                  && Committed(old(Content()), old(replacement).value, old(prefix).value) == Some(Content())
                  && reply == Refreshed(Mutations(old(prefix).value))
                else Content() == old(Content()) && reply == Nothing
    {
      hide InStep, Replayed;
      if id != Some(boundary) {
        return Rejected;
      }
      if prefix.Some? {
        if boundary != replacement.value.cursor {
          return Rejected;
        }
        var candidate := Copy();
        candidate.Forget(Replaced(candidate.records, replacement.value));
        var ok, mutations := candidate.ApplyAll(prefix.value);
        if !ok {
          return Rejected;
        }
        records, positions := candidate.records, candidate.positions;
        prefix, replacement, bytes := None, None, 0;
        cursor := Some(boundary);
        return Refreshed(mutations);
      }
      if Stale(cursor, Some(boundary)) {
        return Rejected;
      }
      cursor := Some(boundary);
      reply := Nothing;
    }

    /** A frame inside a pending replacement is only kept, never shown. */
    method Hold(id: Option<Cursor>, event: Event, position: Option<Cursor>, size: nat) returns (reply: Reply)
      requires Valid() && prefix.Some?
      modifies this`prefix, this`bytes
      ensures Valid() && (reply.Nothing? || reply.Rejected?)
      ensures prefix == if reply.Rejected? then old(prefix) else Some(old(prefix).value + [Item(event, position)])
      ensures old(bytes) <= PREFILL_MAX_BYTES && old(|prefix.value|) <= PREFILL_MAX_ITEMS && reply.Nothing? ==>
                bytes <= PREFILL_MAX_BYTES && |prefix.value| <= PREFILL_MAX_ITEMS
      ensures reply.Rejected? <==>
                || id.Some? || (event.Progress? && event.part)
                || old(bytes) + size > PREFILL_MAX_BYTES || old(|prefix.value|) >= PREFILL_MAX_ITEMS
      ensures bytes == old(bytes) + if id.Some? || (event.Progress? && event.part) then 0 else size
    {
      if id.Some? || (event.Progress? && event.part) {
        return Rejected;
      }
      bytes := bytes + size;
      if bytes > PREFILL_MAX_BYTES || |prefix.value| >= PREFILL_MAX_ITEMS {
        return Rejected;
      }
      prefix := Some(prefix.value + [Item(event, position)]);
      reply := Nothing;
    }

    /** A live frame is absorbed once: behind the cursor it is dropped, else applied. */
    method Advance(id: Option<Cursor>, event: Event, position: Option<Cursor>) returns (reply: Reply)
      requires Valid() && prefix.None?
      modifies this`cursor, this`records, this`positions
      ensures Valid() && prefix.None?
      ensures if Behind(id, old(cursor)) then reply.Nothing? && cursor == old(cursor) && Content() == old(Content())
              else
                var applied := Applied(old(Content()), event, if position.Some? then position else id);
                && Content() == applied.0 && cursor == (if id.Some? then id else old(cursor))
                && reply == Replying(old(Content()), event, applied.1)
    {
      hide InStep, Applied;
      if id.Some? {
        if cursor.Some? && id.value.epoch == cursor.value.epoch && id.value.at <= cursor.value.at {
          return Nothing;
        }
        cursor := id;
      }
      var replacing := Structural(event) && IsBegin(event) && Find(records, SlotOf(event)).Some?;
      assert replacing <==> Structural(event) && IsBegin(event) && Has(records, SlotOf(event)) by {
        if Structural(event) && Find(records, SlotOf(event)).Some? {
          assert At(records, Find(records, SlotOf(event)).value, SlotOf(event));
        }
      }
      var outcome := Apply(event, if position.Some? then position else id);
      match outcome
      case Failed => reply := Rejected;
      case Ignored => reply := Nothing;
      case Changed => reply := if replacing then Refreshed([]) else Delivered(event);
    }

    /** Takes one frame from the stream. */
    method Feed(frame: Frame) returns (reply: Reply)
      requires Valid()
      modifies this
      ensures Valid() && (State(), reply) == Fed(old(State()), frame)
    {
      hide InStep, Committed, Applied;
      match frame
      case Prefill(r) => reply := Begin(r);
      case Checkpoint(id, boundary) => reply := Commit(id, boundary);
      case Live(id, event, position, size) =>
        if prefix.Some? {
          reply := Hold(id, event, position, size);
        } else {
          reply := Advance(id, event, position);
        }
    }
  }

  // ---------------------------------------------------------------------
  // The explicit stack of a snapshot
  // ---------------------------------------------------------------------

  /** The grouping dictionaries a snapshot is drawn from. */
  datatype Groups = Groups(children: map<Option<Key>, seq<Key>>, begins: map<Key, Event>, ends: map<Key, Event>) {
    function Below(p: Option<Key>): seq<Key> {
      if p in children then children[p] else []
    }
  }

  ghost predicate Grouped(g: Groups, rs: seq<Event>) {
    KidsGrouped(g, rs) && SlotsGrouped(g, rs) && KeptGrouped(g.begins, true, rs) && KeptGrouped(g.ends, false, rs)
  }

  ghost predicate KidsGrouped(g: Groups, rs: seq<Event>) {
    forall p :: g.Below(p) == Kids(rs, p)
  }

  ghost predicate SlotsGrouped(g: Groups, rs: seq<Event>) {
    && (forall key :: key in g.begins <==> Has(rs, Slot(true, key)))
    && (forall key :: key in g.ends <==> Has(rs, Slot(false, key)))
  }

  ghost predicate KeptGrouped(kept: map<Key, Event>, begin: bool, rs: seq<Event>) {
    forall key :: key in kept ==> kept[key] in rs && At([kept[key]], 0, Slot(begin, key))
  }

  datatype Visit = Visit(key: Key, ending: bool)

  function Reversed(keys: seq<Key>): (visits: seq<Visit>)
    ensures |visits| == |keys|
    ensures forall i :: 0 <= i < |keys| ==> visits[i] == Visit(keys[|keys| - 1 - i], false)
  {
    seq(|keys|, i requires 0 <= i < |keys| => Visit(keys[|keys| - 1 - i], false))
  }

  ghost predicate AllBegun(rs: seq<Event>, stack: seq<Visit>) {
    forall i :: 0 <= i < |stack| ==> Begun(rs, stack[i].key)
  }

  /** What popping the stack to the bottom still writes; the last visit goes first. */
  ghost function Due(rs: seq<Event>, stack: seq<Visit>): seq<Event>
    requires Closed(rs) && AllBegun(rs, stack)
  {
    if stack == [] then []
    else
      var n := |stack| - 1;
      (if stack[n].ending then Ending(rs, stack[n].key) else Tree(rs, stack[n].key)) + Due(rs, stack[..n])
  }

  /** Twice the records still to write, plus the visits that only close. */
  ghost function Effort(rs: seq<Event>, stack: seq<Visit>): nat
    requires Closed(rs) && AllBegun(rs, stack)
  {
    if stack == [] then 0
    else
      var n := |stack| - 1;
      (if stack[n].ending then 1 else 2 * |Tree(rs, stack[n].key)|) + Effort(rs, stack[..n])
  }

  ghost function Writes(rs: seq<Event>, v: Visit): seq<Event>
    requires Closed(rs) && Begun(rs, v.key)
  {
    if v.ending then Ending(rs, v.key) else Tree(rs, v.key)
  }

  lemma DueSnoc(rs: seq<Event>, stack: seq<Visit>, v: Visit)
    requires Closed(rs) && AllBegun(rs, stack) && Begun(rs, v.key)
    ensures AllBegun(rs, stack + [v])
    ensures Due(rs, stack + [v]) == Writes(rs, v) + Due(rs, stack)
    ensures Effort(rs, stack + [v]) == (if v.ending then 1 else 2 * |Writes(rs, v)|) + Effort(rs, stack)
  {
    hide Closed, Tree, Ending;
    assert (stack + [v])[..|stack|] == stack;
  }

  lemma {:induction false} DuePush(rs: seq<Event>, stack: seq<Visit>, lo: nat, keys: seq<Key>)
    requires Closed(rs) && AllBegun(rs, stack) && Late(rs, lo, keys)
    ensures AllBegun(rs, stack + Reversed(keys))
    ensures Due(rs, stack + Reversed(keys)) == Forest(rs, lo, keys) + Due(rs, stack)
    ensures Effort(rs, stack + Reversed(keys)) == 2 * |Forest(rs, lo, keys)| + Effort(rs, stack)
    decreases |keys|
  {
    hide Closed, Tree, Ending, Due, Effort, AllBegun, Begun;
    if keys == [] {
      assert stack + Reversed(keys) == stack;
    } else {
      DuePush(rs, stack, lo, keys[1..]);
      var top := Visit(keys[0], false);
      assert Reversed(keys) == Reversed(keys[1..]) + [top];
      assert stack + Reversed(keys) == stack + Reversed(keys[1..]) + [top];
      DueSnoc(rs, stack + Reversed(keys[1..]), top);
    }
  }

  lemma StackTop(rs: seq<Event>, stack: seq<Visit>) returns (under: seq<Visit>, top: Visit)
    requires AllBegun(rs, stack) && stack != []
    ensures stack == under + [top] && under == stack[..|stack| - 1] && top == stack[|stack| - 1]
    ensures AllBegun(rs, under) && Begun(rs, top.key)
  {
    under, top := stack[..|stack| - 1], stack[|stack| - 1];
  }

  lemma PopEnding(rs: seq<Event>, stack: seq<Visit>)
    requires Closed(rs) && AllBegun(rs, stack) && stack != [] && stack[|stack| - 1].ending
    ensures AllBegun(rs, stack[..|stack| - 1])
    ensures Due(rs, stack) == Ending(rs, stack[|stack| - 1].key) + Due(rs, stack[..|stack| - 1])
    ensures Effort(rs, stack[..|stack| - 1]) < Effort(rs, stack)
  {
    hide Closed, Due, Effort, AllBegun, Begun;
    var under, top := StackTop(rs, stack);
    DueSnoc(rs, under, top);
  }

  /** Opening a visit writes its Begin and leaves its children above its close. */
  lemma PopOpening(rs: seq<Event>, stack: seq<Visit>)
    requires Closed(rs) && AllBegun(rs, stack) && stack != [] && !stack[|stack| - 1].ending
    ensures Begun(rs, stack[|stack| - 1].key)
    ensures var key := stack[|stack| - 1].key;
            var rest := stack[..|stack| - 1] + [Visit(key, true)] + Reversed(Kids(rs, Some(key)));
            && AllBegun(rs, rest)
            && Due(rs, stack) == [rs[Birth(rs, key)]] + Due(rs, rest)
            && Effort(rs, rest) < Effort(rs, stack)
  {
    hide Closed, Forest, Ending, Kids, Due, Effort, AllBegun, Begun, Late;
    var under, top := StackTop(rs, stack);
    DueSnoc(rs, under, top);
    DueSnoc(rs, under, Visit(top.key, true));
    KidsLate(rs, top.key);
    DuePush(rs, under + [Visit(top.key, true)], Birth(rs, top.key) + 1, Kids(rs, Some(top.key)));
    var begin, below, end := [rs[Birth(rs, top.key)]], Below(rs, top.key), Ending(rs, top.key);
    Regrouped(begin, below, end, Due(rs, under));
  }

  lemma Regrouped(a: seq<Event>, b: seq<Event>, c: seq<Event>, d: seq<Event>)
    ensures (a + b + c) + d == a + (b + (c + d))
  {
  }

  /** The recorded Begin and End of a key are the ones its Tree writes. */
  lemma GroupedIs(g: Groups, rs: seq<Event>, key: Key)
    requires Closed(rs) && Grouped(g, rs) && Begun(rs, key)
    ensures key in g.begins && g.begins[key] == rs[Birth(rs, key)]
    ensures Ending(rs, key) == if key in g.ends then [g.ends[key]] else []
  {
    var i :| 0 <= i < |rs| && rs[i] == g.begins[key];
    BirthIs(rs, i);
    if key in g.ends {
      var j :| 0 <= j < |rs| && rs[j] == g.ends[key];
      SlotsUnique(rs, j, Index(rs, Slot(false, key)));
    }
  }

  lemma GroupedKids(g: Groups, rs: seq<Event>, p: Option<Key>)
    requires Grouped(g, rs)
    ensures g.Below(p) == Kids(rs, p)
  {
  }

  lemma TopBegun(rs: seq<Event>, stack: seq<Visit>)
    requires AllBegun(rs, stack) && stack != []
    ensures Begun(rs, stack[|stack| - 1].key)
  {
  }

  lemma DueNone(rs: seq<Event>)
    requires Closed(rs)
    ensures AllBegun(rs, []) && Due(rs, []) == []
  {
  }

  lemma PresentedStart(rs: seq<Event>)
    requires Closed(rs)
    ensures AllBegun(rs, Reversed(Kids(rs, None))) && Due(rs, Reversed(Kids(rs, None))) == Presented(rs)
  {
    hide Closed, Forest, Kids;
    RootsLate(rs);
    DuePush(rs, [], 0, Kids(rs, None));
    assert [] + Reversed(Kids(rs, None)) == Reversed(Kids(rs, None));
  }

  lemma GroupedNone()
    ensures Grouped(Groups(map[], map[], map[]), [])
  {
  }

  function Group(g: Groups, e: Event): Groups
    requires Structural(e)
  {
    if IsBegin(e) then
      Groups(g.children[ParentOf(e) := g.Below(ParentOf(e)) + [KeyOf(e)]], g.begins[KeyOf(e) := e], g.ends)
    else Groups(g.children, g.begins, g.ends[KeyOf(e) := e])
  }

  lemma GroupedSnoc(g: Groups, rs: seq<Event>, e: Event)
    requires Grouped(g, rs) && Structural(e)
    ensures Grouped(Group(g, e), rs + [e])
  {
    hide KidsGrouped, SlotsGrouped, KeptGrouped;
    KidsStay(g, rs, e);
    SlotsStay(g, rs, e);
    KeptStay(g.begins, true, rs, e);
    KeptStay(g.ends, false, rs, e);
  }

  lemma KidsStay(g: Groups, rs: seq<Event>, e: Event)
    requires KidsGrouped(g, rs) && Structural(e)
    ensures KidsGrouped(Group(g, e), rs + [e])
  {
    hide Kids;
    forall p ensures Group(g, e).Below(p) == Kids(rs + [e], p) {
      KidsSnoc(rs, e, p);
    }
  }

  lemma SlotsStay(g: Groups, rs: seq<Event>, e: Event)
    requires SlotsGrouped(g, rs) && Structural(e)
    ensures SlotsGrouped(Group(g, e), rs + [e])
  {
    hide Has;
    SlotSnoc(rs, e);
  }

  lemma KeptStay(kept: map<Key, Event>, begin: bool, rs: seq<Event>, e: Event)
    requires KeptGrouped(kept, begin, rs) && Structural(e)
    ensures KeptGrouped(kept, begin, rs + [e])
    ensures IsBegin(e) == begin ==> KeptGrouped(kept[KeyOf(e) := e], begin, rs + [e])
  {
    assert (rs + [e])[|rs|] == e;
    forall x | x in rs ensures x in rs + [e] {
    }
  }

  lemma SlotSnoc(rs: seq<Event>, e: Event)
    requires Structural(e)
    ensures forall slot :: Has(rs + [e], slot) <==> Has(rs, slot) || slot == SlotOf(e)
  {
    hide Has;
    forall slot ensures Has(rs + [e], slot) <==> Has(rs, slot) || slot == SlotOf(e) {
      HasConcat(rs, [e], slot);
      HasOne(e, slot);
    }
  }

  lemma KidsSnoc(rs: seq<Event>, e: Event, p: Option<Key>)
    ensures Kids(rs + [e], p) == Kids(rs, p) + if IsBegin(e) && ParentOf(e) == p then [KeyOf(e)] else []
  {
    assert (rs + [e])[..|rs|] == rs;
  }

  function SlotAt(rs: seq<Event>, i: nat): (slot: Slot)
    requires AllStructural(rs) && i < |rs|
    ensures slot == SlotOf(rs[i])
  {
    SlotOf(rs[i])
  }

  /** Popping the record under the loop's index keeps the kept part and the rest. */
  lemma RemoveStep(items: seq<Event>, i: nat, runs: set<string>)
    requires i < |items| && Keyed(Remove(items[..i], runs) + items[i..]) && Structural(items[i])
    ensures var rs := Remove(items[..i], runs) + items[i..];
            Remove(items[..i + 1], runs) + items[i + 1..] ==
            if KeyOf(items[i]).run in runs then Pop(rs, SlotOf(items[i])) else rs
  {
    hide Keyed, Remove, Pop;
    var kept, e, rest := Remove(items[..i], runs), items[i], items[i + 1..];
    assert items[..i + 1] == items[..i] + [e];
    assert kept + items[i..] == kept + [e] + rest;
    RemoveSnoc(items[..i], e, runs);
    PopMiddle(kept, e, rest);
  }

  /** Positions left once the records in `done` have been swept. */
  ghost function Dropped(at: map<Slot, Option<Cursor>>, done: seq<Event>, runs: set<string>)
    : map<Slot, Option<Cursor>>
  {
    map slot | slot in at && !(slot.key.run in runs && Has(done, slot)) :: at[slot]
  }

  lemma DroppedNone(at: map<Slot, Option<Cursor>>, runs: set<string>)
    ensures Dropped(at, [], runs) == at
  {
  }

  lemma DroppedStep(at: map<Slot, Option<Cursor>>, items: seq<Event>, i: nat, runs: set<string>)
    requires i < |items| && Structural(items[i])
    ensures Dropped(at, items[..i + 1], runs) ==
            if KeyOf(items[i]).run in runs then Dropped(at, items[..i], runs) - {SlotOf(items[i])}
            else Dropped(at, items[..i], runs)
  {
    hide Has;
    assert items[..i + 1] == items[..i] + [items[i]];
    forall slot ensures Has(items[..i + 1], slot) <==> Has(items[..i], slot) || slot == SlotOf(items[i]) {
      HasConcat(items[..i], [items[i]], slot);
      HasOne(items[i], slot);
    }
  }

  lemma DroppedAll(t: Table, runs: set<string>)
    requires InStep(t)
    ensures Dropped(t.at, t.records, runs) == Outside(t.at, runs)
  {
    hide Has, Keyed;
  }

  lemma PopMiddle(a: seq<Event>, e: Event, b: seq<Event>)
    requires Keyed(a + [e] + b)
    ensures Structural(e) && Pop(a + [e] + b, SlotOf(e)) == a + b
  {
    var s := a + [e] + b;
    assert s[|a|] == e;
    assert At(s, |a|, SlotOf(e));
    assert s[..|a|] == a && s[|a| + 1..] == b;
  }

  lemma {:induction false} RefusedStays(t: Table, items: seq<Item>, n: nat)
    requires n <= |items| && Replayed(t, items[..n]).None?
    ensures Replayed(t, items).None?
    decreases |items|
  {
    if n < |items| {
      assert items[..|items| - 1][..n] == items[..n];
      RefusedStays(t, items[..|items| - 1], n);
    } else {
      assert items[..n] == items;
    }
  }
}
