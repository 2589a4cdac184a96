/**
 Both ends of a stream: a client that follows what a subscription sends keeps a
 table in which nothing lacks what lies above it, as long as the output is well
 formed; and what the one ill-formed frame a subscription can send does there.
 */
module EndToEnd {
  import opened Common
  import opened ClientSpec
  import opened ClientTree
  import opened ClientReducer
  import opened Client
  import Log = ObservationSpec
  import Server = Observation
  import opened ObservationTree

  // ---------------------------------------------------------------------
  // On the wire
  // ---------------------------------------------------------------------

  /** The client's event for an observed one, its contents aside. */
  predicate Says(s: Log.Event, e: Event) {
    match s
    case RunBegin(run, parent) => e.RunBegin? && e.run == run && e.parent == parent
    case RunEnd(run) => e.RunEnd? && e.run == run
    case StepBegin(step) => e.StepBegin? && e.step == step
    case StepEnd(step) => e.StepEnd? && e.step == step
    case Part(_) => e.Progress? && e.part
    case Other(_) => e.Progress? && !e.part
  }

  /** How an output reaches the client: only an event from the log is acknowledged by its position. */
  predicate Wire(epoch: string, out: Server.Out, frame: Frame) {
    match out
    case Shown(s) =>
      && frame.Live? && Says(s.event, frame.event)
      && frame.id == if s.Source? then Some(Cursor(epoch, s.at)) else None
    case Mark(at) => frame == Checkpoint(Some(Cursor(epoch, at)), Cursor(epoch, at))
    case Prefill => frame.Prefill?
  }

  predicate Wired(epoch: string, outs: seq<Server.Out>, frames: seq<Frame>) {
    |outs| == |frames| && forall i :: 0 <= i < |outs| ==> Wire(epoch, outs[i], frames[i])
  }

  /** The events among the outputs. */
  function Events(outs: seq<Server.Out>): seq<Log.Sent> {
    if outs == [] then []
    else
      var last := outs[|outs| - 1];
      Events(outs[..|outs| - 1]) + if last.Shown? then [last.sent] else []
  }

  /** The last position the outputs acknowledge. */
  function Reach(from: Option<nat>, outs: seq<Server.Out>): Option<nat> {
    if outs == [] then from
    else
      var id := Server.IdOf(outs[|outs| - 1]);
      if id.Some? then id else Reach(from, outs[..|outs| - 1])
  }

  /** Acknowledged positions ascend, strictly so for events; a replacement can only come first. */
  predicate Orderly(from: Option<nat>, outs: seq<Server.Out>) {
    outs == [] || (
      var n := |outs| - 1;
      var before := Reach(from, outs[..n]);
      && Orderly(from, outs[..n])
      && match outs[n] {
           case Shown(Source(_, at)) => before.None? || before.value < at
           case Shown(Context(_)) => true
           case Mark(at) => before.None? || before.value <= at
           case Prefill => n == 0
         })
  }

  /** The event names its Run's parent, and its Step by a path. */
  predicate Named(parents: Log.Parents, e: Log.Event) {
    match e
    case RunBegin(run, parent) => run in parents && parents[run] == parent
    case StepBegin(step) => step.StepKey? && step.path != []
    case _ => true
  }

  predicate AllNamed(parents: Log.Parents, out: seq<Log.Sent>) {
    forall i :: 0 <= i < |out| ==> Named(parents, out[i].event)
  }

  /** What the client holds after some frames, and whether it accepted them all; it stops at a refusal. */
  ghost function Followed(s: Session, frames: seq<Frame>): (r: (Session, bool)) {
    if frames == [] then (s, true)
    else
      var (before, ok) := Followed(s, frames[..|frames| - 1]);
      if !ok then (before, false)
      else
        var (after, reply) := Fed(before, frames[|frames| - 1]);
        (after, !reply.Rejected?)
  }

  // ---------------------------------------------------------------------
  // One event
  // ---------------------------------------------------------------------

  /** The table is sound, and everything the observer was told has begun has begun in it. */
  ghost predicate Tracks(parents: Log.Parents, t: Table, out: seq<Log.Sent>) {
    && Closed(t.records) && InStep(t) && Agrees(t.records, parents)
    && forall k :: k in Log.Begun(out) ==> Has(t.records, Slot(true, k))
  }

  lemma LineHolds(parents: Log.Parents, rank: map<string, nat>, out: seq<Log.Sent>, s: Log.Sent)
    requires Log.Ranked(parents, rank) && Log.Fits(parents, rank, out, s) && Log.Nearest(s.event).Some?
    ensures Log.Nearest(s.event).value in Log.Begun(out)
  {
    hide Log.Ranked, Log.Begun;
    var line := Log.Line(parents, rank, Log.Nearest(s.event).value).value;
    assert line[|line| - 1] in line;
  }

  /** A frame that may follow the output is admissible to a table that tracks the output. */
  lemma FitsAdmits(
    parents: Log.Parents, rank: map<string, nat>, t: Table, out: seq<Log.Sent>, s: Log.Sent, e: Event)
    requires Log.Ranked(parents, rank) && Log.Fits(parents, rank, out, s) && Tracks(parents, t, out)
    requires Says(s.event, e) && Named(parents, s.event)
    ensures Admissible(t.records, e)
  {
    hide Log.Ranked, Log.Begun, Log.Fits, Closed, InStep, Has;
    if Log.Nearest(s.event).Some? {
      LineHolds(parents, rank, out, s);
    }
    if Structural(e) && IsBegin(e) {
      forall i: nat | At(t.records, i, SlotOf(e)) ensures ParentOf(t.records[i]) == ParentOf(e) {
        RecordFits(t.records, i);
      }
    }
  }

  lemma AgreesPopped(rs: seq<Event>, slot: Slot, parents: Log.Parents)
    requires Agrees(rs, parents)
    ensures Agrees(Pop(rs, slot), parents)
  {
  }

  lemma AgreesPut(rs: seq<Event>, e: Event, parents: Log.Parents)
    requires Agrees(rs, parents) && Structural(e)
    requires e.RunBegin? ==> e.run in parents && parents[e.run] == e.parent
    ensures Agrees(Put(rs, e), parents)
  {
  }

  lemma AppliedAgrees(t: Table, e: Event, cursor: Option<Cursor>, parents: Log.Parents)
    requires Agrees(t.records, parents)
    requires e.RunBegin? ==> e.run in parents && parents[e.run] == e.parent
    ensures Agrees(Applied(t, e, cursor).0.records, parents)
  {
    hide Agrees, Pop, Put, Active;
    if Structural(e) {
      AgreesPopped(t.records, Slot(false, KeyOf(e)), parents);
      AgreesPut(Reopened(t, e, cursor).records, e, parents);
    }
  }

  /** Begins stay, and a Begin that is not refused is there afterwards. */
  lemma AppliedHas(t: Table, e: Event, cursor: Option<Cursor>, key: Key)
    requires InStep(t)
    requires Has(t.records, Slot(true, key)) || (Structural(e) && IsBegin(e) && KeyOf(e) == key)
    ensures Has(Applied(t, e, cursor).0.records, Slot(true, key))
  {
    hide Has, Pop, Put, Keyed, Active;
    if Structural(e) && !Stale(Known(t.at, SlotOf(e)), cursor) {
      if Repeats(t, e, cursor) {
        assert At(t.records, Find(t.records, SlotOf(e)).value, SlotOf(e));
        FoundHas(t.records, SlotOf(e));
      } else {
        PopKeyed(t.records, Slot(false, KeyOf(e)));
        PopHas(t.records, Slot(false, KeyOf(e)), Slot(true, key));
        PutHas(Reopened(t, e, cursor).records, e, Slot(true, key));
      }
    }
  }

  lemma FoundHas(rs: seq<Event>, slot: Slot)
    requires Find(rs, slot).Some?
    ensures Has(rs, slot)
  {
  }

  lemma AppliedTracks(
    parents: Log.Parents, rank: map<string, nat>, t: Table, out: seq<Log.Sent>, s: Log.Sent, e: Event,
    cursor: Option<Cursor>)
    requires Log.Ranked(parents, rank) && Log.Fits(parents, rank, out, s) && Tracks(parents, t, out)
    requires Says(s.event, e) && Named(parents, s.event)
    ensures Tracks(parents, Applied(t, e, cursor).0, out + [s])
  {
    hide Log.Ranked, Log.Begun, Log.Fits, Closed, InStep, Agrees, Applied, Has, Admissible;
    FitsAdmits(parents, rank, t, out, s, e);
    AppliedCloses(t, e, cursor);
    AppliedInStep(t, e, cursor);
    AppliedAgrees(t, e, cursor, parents);
    Log.OutSnoc(out, s);
    forall k | k in Log.Begun(out + [s]) ensures Has(Applied(t, e, cursor).0.records, Slot(true, k)) {
      AppliedHas(t, e, cursor, k);
    }
  }

  // ---------------------------------------------------------------------
  // One frame
  // ---------------------------------------------------------------------

  /** What is held back is admissible from the trees that stay, and would track the output. */
  ghost predicate Holding(parents: Log.Parents, base: Table, items: seq<Item>, out: seq<Log.Sent>) {
    && AdmissibleAll(base, items)
    && (Replayed(base, items).Some? ==> Tracks(parents, Replayed(base, items).value, out))
  }

  function Base(t: Table, w: Waiting): Table {
    Without(t, Replaced(t.records, w.replacement))
  }

  /** The client has acknowledged no further than the server has. */
  predicate NotAhead(epoch: string, cursor: Option<Cursor>, reach: Option<nat>) {
    cursor.Some? && cursor.value.epoch == epoch ==> reach.Some? && cursor.value.at <= reach.value
  }

  ghost predicate Keeps(
    parents: Log.Parents, epoch: string, s: Session, out: seq<Log.Sent>, reach: Option<nat>)
  {
    && Closed(s.table.records) && NotAhead(epoch, s.cursor, reach)
    && match s.waiting
       case None => Tracks(parents, s.table, out)
       case Some(w) => Holding(parents, Base(s.table, w), w.items, out)
  }

  /** The output may come next. */
  ghost predicate Next(
    parents: Log.Parents, rank: map<string, nat>, out: seq<Log.Sent>, reach: Option<nat>, o: Server.Out, first: bool)
    requires Log.Ranked(parents, rank)
  {
    match o
    case Shown(s) =>
      && Log.Fits(parents, rank, out, s) && Named(parents, s.event)
      && (s.Source? ==> reach.None? || reach.value < s.at)
    case Mark(at) => reach.None? || reach.value <= at
    case Prefill => first
  }

  lemma {:induction false} RemoveAgrees(rs: seq<Event>, runs: set<string>, parents: Log.Parents)
    requires Agrees(rs, parents)
    ensures Agrees(Remove(rs, runs), parents)
  {
    if rs != [] {
      RemoveAgrees(rs[..|rs| - 1], runs, parents);
    }
  }

  /** Announcing a replacement: the trees that stay are a sound table. */
  lemma Announced(parents: Log.Parents, t: Table, r: Replacement)
    requires Tracks(parents, t, [])
    ensures Holding(parents, Base(t, Waiting(r, [])), [], [])
  {
    hide Closed, InStep, Agrees, Has, Remove, Pass;
    WithoutCloses(t, Replaced(t.records, r));
    WithoutInStep(t, Replaced(t.records, r));
    RemoveAgrees(t.records, Pass(t.records, Replaced(t.records, r)), parents);
  }

  /** One more event held back. */
  lemma Held(
    parents: Log.Parents, rank: map<string, nat>, base: Table, items: seq<Item>, out: seq<Log.Sent>,
    s: Log.Sent, item: Item)
    requires Log.Ranked(parents, rank) && Log.Fits(parents, rank, out, s) && Holding(parents, base, items, out)
    requires Says(s.event, item.event) && Named(parents, s.event)
    ensures Holding(parents, base, items + [item], out + [s])
  {
    hide Log.Ranked, Log.Fits, Tracks, Admissible, Applied;
    var more := items + [item];
    assert more[..|items|] == items && more[|items|] == item;
    forall n {:trigger more[..n]} | 0 <= n < |more| && Replayed(base, more[..n]).Some?
      ensures Admissible(Replayed(base, more[..n]).value.records, more[n].event)
    {
      if n < |items| {
        assert more[..n] == items[..n];
      } else {
        FitsAdmits(parents, rank, Replayed(base, items).value, out, s, item.event);
      }
    }
    if Replayed(base, items).Some? {
      AppliedTracks(parents, rank, Replayed(base, items).value, out, s, item.event, item.cursor);
    }
  }

  /** An event applied at once. */
  lemma LiveKeeps(
    parents: Log.Parents, rank: map<string, nat>, epoch: string, s: Session, out: seq<Log.Sent>, reach: Option<nat>,
    o: Server.Out, frame: Frame)
    requires Log.Ranked(parents, rank) && Keeps(parents, epoch, s, out, reach) && Wire(epoch, o, frame)
    requires Next(parents, rank, out, reach, o, false) && o.Shown? && s.waiting.None?
    ensures Welcome(s, frame)
    ensures !Fed(s, frame).1.Rejected? ==>
              Keeps(parents, epoch, Fed(s, frame).0, out + [o.sent],
                    if Server.IdOf(o).Some? then Server.IdOf(o) else reach)
  {
    hide Log.Ranked, Log.Fits, Tracks, Admissible, Applied, Closed, Has, Says, Named;
    var cursor := if frame.position.Some? then frame.position else frame.id;
    FitsAdmits(parents, rank, s.table, out, o.sent, frame.event);
    AppliedTracks(parents, rank, s.table, out, o.sent, frame.event, cursor);
    TracksClosed(parents, Applied(s.table, frame.event, cursor).0, out + [o.sent]);
  }

  lemma TracksClosed(parents: Log.Parents, t: Table, out: seq<Log.Sent>)
    requires Tracks(parents, t, out)
    ensures Closed(t.records)
  {
  }

  /** An event held back for a replacement. */
  lemma HeldKeeps(
    parents: Log.Parents, rank: map<string, nat>, epoch: string, s: Session, out: seq<Log.Sent>, reach: Option<nat>,
    o: Server.Out, frame: Frame)
    requires Log.Ranked(parents, rank) && Keeps(parents, epoch, s, out, reach) && Wire(epoch, o, frame)
    requires Next(parents, rank, out, reach, o, false) && o.Shown? && s.waiting.Some?
    ensures Welcome(s, frame)
    ensures !Fed(s, frame).1.Rejected? ==>
              Keeps(parents, epoch, Fed(s, frame).0, out + [o.sent],
                    if Server.IdOf(o).Some? then Server.IdOf(o) else reach)
  {
    hide Log.Ranked, Log.Fits, Holding, Admissible, Applied, Closed, Has, Says, Named, Without, Replaced;
    var w := s.waiting.value;
    Held(parents, rank, Base(s.table, w), w.items, out, o.sent, Item(frame.event, frame.position));
  }

  /** A checkpoint: a replacement commits whole, or is refused. */
  lemma MarkKeeps(
    parents: Log.Parents, epoch: string, s: Session, out: seq<Log.Sent>, reach: Option<nat>, o: Server.Out,
    frame: Frame)
    requires Keeps(parents, epoch, s, out, reach) && Wire(epoch, o, frame)
    requires o.Mark? && (reach.None? || reach.value <= o.at)
    ensures Welcome(s, frame)
    ensures !Fed(s, frame).1.Rejected? ==> Keeps(parents, epoch, Fed(s, frame).0, out, Server.IdOf(o))
  {
    hide Tracks, AdmissibleAll, Closed, Has, Without, Replaced, Replayed;
    if s.waiting.Some? {
      var base := Base(s.table, s.waiting.value);
      if Replayed(base, s.waiting.value.items).Some? {
        TracksClosed(parents, Replayed(base, s.waiting.value.items).value, out);
      }
    }
  }

  /** One frame: it is welcome, and if it is accepted the client still keeps up. */
  lemma FedKeeps(
    parents: Log.Parents, rank: map<string, nat>, epoch: string, s: Session, out: seq<Log.Sent>, reach: Option<nat>,
    o: Server.Out, frame: Frame)
    requires Log.Ranked(parents, rank) && Keeps(parents, epoch, s, out, reach) && Wire(epoch, o, frame)
    requires Next(parents, rank, out, reach, o, s.waiting.None? && out == [])
    ensures Welcome(s, frame)
    ensures !Fed(s, frame).1.Rejected? ==>
              Keeps(parents, epoch, Fed(s, frame).0, if o.Shown? then out + [o.sent] else out,
                    if Server.IdOf(o).Some? then Server.IdOf(o) else reach)
  {
    hide Log.Ranked, Log.Fits, Tracks, Admissible, AdmissibleAll, Applied, Replayed, Closed, Has;
    match o
    case Shown(_) =>
      if s.waiting.None? {
        LiveKeeps(parents, rank, epoch, s, out, reach, o, frame);
      } else {
        HeldKeeps(parents, rank, epoch, s, out, reach, o, frame);
      }
    case Mark(_) => MarkKeeps(parents, epoch, s, out, reach, o, frame);
    case Prefill =>
      Announced(parents, s.table, frame.replacement);
  }

  // ---------------------------------------------------------------------
  // All frames
  // ---------------------------------------------------------------------

  lemma OutputNext(
    parents: Log.Parents, rank: map<string, nat>, from: Option<nat>, outs: seq<Server.Out>, o: Server.Out)
    requires Log.Ranked(parents, rank) && Orderly(from, outs + [o])
    requires Log.WellFormed(parents, rank, Events(outs + [o])) && AllNamed(parents, Events(outs + [o]))
    ensures Orderly(from, outs)
    ensures Log.WellFormed(parents, rank, Events(outs)) && AllNamed(parents, Events(outs))
    ensures Events(outs + [o]) == if o.Shown? then Events(outs) + [o.sent] else Events(outs)
    ensures Reach(from, outs + [o]) == if Server.IdOf(o).Some? then Server.IdOf(o) else Reach(from, outs)
    ensures Next(parents, rank, Events(outs), Reach(from, outs), o, outs == [])
  {
    hide Log.Ranked, Log.WellFormed, Log.Fits, Named;
    var more := outs + [o];
    assert more[..|outs|] == outs && more[|outs|] == o;
    assert Events(outs) + [] == Events(outs);
    if o.Shown? {
      Log.WellFormedSnoc(parents, rank, Events(outs), o.sent);
      var all := Events(outs) + [o.sent];
      assert all[|Events(outs)|] == o.sent;
      forall i | 0 <= i < |Events(outs)| ensures Named(parents, Events(outs)[i].event) {
        assert all[i] == Events(outs)[i];
      }
    }
  }

  /** Frame `n` is welcome to the client that follows the ones before it. */
  ghost predicate WelcomeAt(s: Session, frames: seq<Frame>, n: nat)
    requires n < |frames|
  {
    Followed(s, frames[..n]).1 ==> Welcome(Followed(s, frames[..n]).0, frames[n])
  }

  lemma FollowedSnoc(s: Session, frames: seq<Frame>, frame: Frame)
    ensures Followed(s, frames + [frame]) ==
            if !Followed(s, frames).1 then (Followed(s, frames).0, false)
            else (Fed(Followed(s, frames).0, frame).0, !Fed(Followed(s, frames).0, frame).1.Rejected?)
    ensures WelcomeAt(s, frames + [frame], |frames|) <==>
              (Followed(s, frames).1 ==> Welcome(Followed(s, frames).0, frame))
    ensures forall n: nat :: n < |frames| ==> (WelcomeAt(s, frames + [frame], n) <==> WelcomeAt(s, frames, n))
  {
    hide Fed, Welcome;
    var more := frames + [frame];
    assert more[..|frames|] == frames && more[|frames|] == frame;
    forall n: nat | n < |frames| ensures WelcomeAt(s, more, n) <==> WelcomeAt(s, frames, n) {
      assert more[..n] == frames[..n];
    }
  }

  lemma StartKeeps(parents: Log.Parents, epoch: string, s: Session, from: Option<nat>)
    requires s.waiting.None? && Tracks(parents, s.table, []) && NotAhead(epoch, s.cursor, from)
    ensures Followed(s, []) == (s, true) && Keeps(parents, epoch, s, Events([]), Reach(from, []))
    ensures Closed(s.table.records) && Events([]) == []
  {
  }

  lemma NextAlso(
    parents: Log.Parents, rank: map<string, nat>, out: seq<Log.Sent>, reach: Option<nat>, o: Server.Out,
    first: bool, sooner: bool)
    requires Log.Ranked(parents, rank) && Next(parents, rank, out, reach, o, first) && (first ==> sooner)
    ensures Next(parents, rank, out, reach, o, sooner)
  {
  }

  lemma KeepsClosed(parents: Log.Parents, epoch: string, s: Session, out: seq<Log.Sent>, reach: Option<nat>)
    requires Keeps(parents, epoch, s, out, reach)
    ensures Closed(s.table.records)
  {
  }

  lemma {:induction false} FollowedKeeps(
    parents: Log.Parents, rank: map<string, nat>, epoch: string, s: Session, from: Option<nat>,
    outs: seq<Server.Out>, frames: seq<Frame>)
    requires Log.Ranked(parents, rank) && Wired(epoch, outs, frames) && Orderly(from, outs)
    requires Log.WellFormed(parents, rank, Events(outs)) && AllNamed(parents, Events(outs))
    requires s.waiting.None? && Tracks(parents, s.table, []) && NotAhead(epoch, s.cursor, from)
    ensures forall n: nat :: n < |frames| ==> WelcomeAt(s, frames, n)
    ensures Closed(Followed(s, frames).0.table.records)
    ensures Followed(s, frames).1 ==> Keeps(parents, epoch, Followed(s, frames).0, Events(outs), Reach(from, outs))
  {
    hide Log.Ranked, Log.WellFormed, AllNamed, Tracks, Orderly, Reach, Events, Keeps, Closed, Followed, WelcomeAt, Next,
      Wire, Fed, Welcome;
    if outs == [] {
      assert frames == [];
      StartKeeps(parents, epoch, s, from);
    } else {
      var n := |outs| - 1;
      var before := Followed(s, frames[..n]);
      assert outs == outs[..n] + [outs[n]] && frames == frames[..n] + [frames[n]];
      OutputNext(parents, rank, from, outs[..n], outs[n]);
      FollowedKeeps(parents, rank, epoch, s, from, outs[..n], frames[..n]);
      FollowedSnoc(s, frames[..n], frames[n]);
      if before.1 {
        if n == 0 {
          StartKeeps(parents, epoch, s, from);
        }
        NextAlso(parents, rank, Events(outs[..n]), Reach(from, outs[..n]), outs[n], n == 0,
                 before.0.waiting.None? && Events(outs[..n]) == []);
        FedKeeps(parents, rank, epoch, before.0, Events(outs[..n]), Reach(from, outs[..n]), outs[n], frames[n]);
        KeepsClosed(parents, epoch, before.0, Events(outs[..n]), Reach(from, outs[..n]));
        FedCloses(before.0, frames[n]);
      }
    }
  }

  /**
   Every frame is admissible to the client that follows the ones before it. Whether
   it accepts them all or stops at a refusal, every record of its table has
   everything above it before it; and if it accepted them and waits for no
   checkpoint, all that was shown to begin has begun in its table.
   */
  ghost predicate KeptUp(s: Session, outs: seq<Server.Out>, frames: seq<Frame>) {
    var (t, accepted) := Followed(s, frames);
    && (forall n: nat :: n < |frames| ==> WelcomeAt(s, frames, n))
    && Closed(t.table.records)
    && (accepted && t.waiting.None? ==>
          forall k :: k in Log.Begun(Events(outs)) ==> Has(t.table.records, Slot(true, k)))
  }

  /** A client that follows a well-formed output, replacing trees first or not, keeps up with it. */
  lemma ClientStaysClosed(
    parents: Log.Parents, rank: map<string, nat>, epoch: string, s: Session, from: Option<nat>,
    outs: seq<Server.Out>, frames: seq<Frame>)
    requires Log.Ranked(parents, rank) && Wired(epoch, outs, frames) && Orderly(from, outs)
    requires Log.WellFormed(parents, rank, Events(outs)) && AllNamed(parents, Events(outs))
    requires Closed(s.table.records) && InStep(s.table) && Agrees(s.table.records, parents)
    requires s.waiting.None? && NotAhead(epoch, s.cursor, from)
    ensures KeptUp(s, outs, frames)
  {
    hide Log.Ranked, Log.WellFormed, AllNamed, Orderly, Wired, Events, Closed, Followed, WelcomeAt, Has, InStep, Agrees;
    NothingBegun();
    FollowedKeeps(parents, rank, epoch, s, from, outs, frames);
  }

  lemma NothingBegun()
    ensures Log.Begun([]) == {}
  {
  }

  // ---------------------------------------------------------------------
  // From the log to the client
  // ---------------------------------------------------------------------

  /** Frames of the log name what the log's rules say. */
  lemma {:induction false} WatchedNamed(
    parents: Log.Parents, roots: map<string, string>, log: seq<Log.Entry>, scope: string -> bool)
    requires Log.Bracketed(parents, roots, log)
    ensures forall f :: f in Log.Watched(log, scope) ==> Named(parents, f.event)
  {
    if log != [] {
      WatchedNamed(parents, roots, log[..|log| - 1], scope);
    }
  }

  lemma {:induction false} LiveNamed(parents: Log.Parents, suppressed: set<Key>, frames: seq<Log.Frame>)
    requires forall f :: f in frames ==> Named(parents, f.event)
    ensures AllNamed(parents, Log.Live(suppressed, frames))
  {
    hide Named;
    if frames != [] {
      LiveNamed(parents, suppressed, frames[..|frames| - 1]);
    }
  }

  lemma DeliveredNamed(
    sub: Server.EventSubscription, parents: Log.Parents, roots: map<string, string>, scope: string -> bool,
    log: seq<Log.Entry>, n: nat, m: nat)
    requires sub.Valid() && Log.Bracketed(parents, roots, log)
    requires n <= m <= |log| && sub.handled == Log.Watched(log[n..m], scope)
    ensures AllNamed(parents, sub.delivered)
  {
    hide Named, Log.Live, Log.Silent, Log.Watched, Log.Bracketed;
    Log.BracketedPrefix(parents, roots, log, m);
    WatchedNamed(parents, roots, log[..m], scope);
    assert log[..m] == log[..n] + log[n..m];
    Log.WatchedConcat(log[..n], log[n..m], scope);
    LiveNamed(parents, sub.quiet, sub.handled);
  }

  lemma HeadedPrefix(log: seq<Log.Entry>, n: nat, m: nat, scope: string -> bool)
    requires n <= m <= |log| && Log.Headed(log, n, scope)
    ensures Log.Headed(log[..m], n, scope)
  {
    hide Log.Bare, Log.Pending;
    var part := log[..m];
    assert part[..n] == log[..n];
    forall i | n <= i < m ensures !Log.Bare(part[..i], Log.Pending(part[..n]), part[i], scope) {
      assert part[..i] == log[..i] && part[i] == log[i];
    }
  }

  /**
   End to end: as long as no watched Run accepted since the boundary ends without
   having begun, whatever a subscription has sent, a prefix and any amount of the
   log, keeps the table of the client that follows it ancestor-closed.
   */
  lemma SubscriptionKeepsClosed(
    sub: Server.EventSubscription, parents: Log.Parents, rank: map<string, nat>, roots: map<string, string>,
    scope: string -> bool, log: seq<Log.Entry>, n: nat,
    epoch: string, s: Session, from: Option<nat>, outs: seq<Server.Out>, frames: seq<Frame>)
    requires sub.Valid() && n <= |log| && sub.handled + sub.batch == Log.Watched(log[n..], scope)
    requires Log.Ranked(parents, rank) && Log.Rooted(parents, roots) && Log.Bracketed(parents, roots, log)
    requires Log.WellFormed(parents, rank, sub.opening) && AllNamed(parents, sub.opening)
    requires Log.Introduced(parents, rank, log[..n], roots, scope, Log.Pending(log[..n]), sub.opening, sub.quiet)
    requires Log.Headed(log, n, scope)
    requires Events(outs) == sub.opening + sub.delivered && Wired(epoch, outs, frames) && Orderly(from, outs)
    requires Closed(s.table.records) && InStep(s.table) && Agrees(s.table.records, parents)
    requires s.waiting.None? && NotAhead(epoch, s.cursor, from)
    ensures KeptUp(s, outs, frames)
  {
    hide *;
    var m := Server.SubscriptionWellFormed(sub, parents, rank, roots, scope, log, n);
    HeadedPrefix(log, n, m, scope);
    DeliveredNamed(sub, parents, roots, scope, log, n, m);
    NamedConcat(parents, sub.opening, sub.delivered);
    ClientStaysClosed(parents, rank, epoch, s, from, outs, frames);
  }

  lemma NamedConcat(parents: Log.Parents, a: seq<Log.Sent>, b: seq<Log.Sent>)
    requires AllNamed(parents, a) && AllNamed(parents, b)
    ensures AllNamed(parents, a + b)
  {
    hide Named;
  }

  // ---------------------------------------------------------------------
  // The one ill-formed frame
  // ---------------------------------------------------------------------

  /** A Run has an End and no Begin. */
  ghost predicate Orphaned(rs: seq<Event>, run: string) {
    Has(rs, Slot(false, RunKey(run))) && !Has(rs, Slot(true, RunKey(run)))
  }

  lemma OrphanOpens(rs: seq<Event>, run: string)
    requires Orphaned(rs, run)
    ensures !Closed(rs)
  {
    var i: nat :| At(rs, i, Slot(false, RunKey(run)));
    if Closed(rs) {
      RecordFits(rs, i);
      KeyBegun(rs, i);
    }
  }

  /** No child of a Run that has not begun. */
  lemma NoneActive(rs: seq<Event>, run: string)
    requires Closed(rs) && !Has(rs, Slot(true, RunKey(run)))
    ensures !Has(rs, Slot(false, RunKey(run))) && !Active(rs, run)
  {
    hide Closed;
    if i: nat :| At(rs, i, Slot(false, RunKey(run))) {
      KeyBegun(rs, i);
    }
    if i: nat :| Waits(rs, i, run) {
      ChildInside(rs, i, run);
    }
  }

  /**
   The End of a Run that never began, in a sound table, is not admissible. It is
   stored all the same, and the table is closed no longer; but it hangs under
   nothing, so what a snapshot visits is what it was.
   */
  lemma BareEnd(t: Table, run: string, body: string, cursor: Option<Cursor>)
    requires Closed(t.records) && InStep(t) && !Has(t.records, Slot(true, RunKey(run)))
    ensures var e := RunEnd(run, body);
            && !Admissible(t.records, e)
            && Applied(t, e, cursor) == (Table(t.records + [e], t.at[SlotOf(e) := cursor]),
                                         if |t.records| < MAX_RECORDS then Changed else Failed)
            && Orphaned(t.records + [e], run) && !Closed(t.records + [e])
            && forall p :: Kids(t.records + [e], p) == Kids(t.records, p)
  {
    hide Closed, Active, Keyed, Kids;
    var e := RunEnd(run, body);
    NoneActive(t.records, run);
    assert Find(t.records, SlotOf(e)).None?;
    HasConcat(t.records, [e], SlotOf(e));
    HasConcat(t.records, [e], Slot(true, RunKey(run)));
    HasOne(e, SlotOf(e));
    HasOne(e, Slot(true, RunKey(run)));
    OrphanOpens(t.records + [e], run);
    forall p ensures Kids(t.records + [e], p) == Kids(t.records, p) {
      KidsSnocEnd(t.records, e, p);
    }
  }

  lemma KidsSnocEnd(rs: seq<Event>, e: Event, p: Option<Key>)
    requires e.RunEnd?
    ensures Kids(rs + [e], p) == Kids(rs, p)
  {
    assert (rs + [e])[..|rs|] == rs;
  }

  /** Nothing heals it: the table stays open until a Begin of that very Run. */
  lemma OrphanStays(t: Table, run: string, e: Event, cursor: Option<Cursor>)
    requires InStep(t) && Orphaned(t.records, run) && !(e.RunBegin? && e.run == run)
    requires e.StepBegin? ==> e.step.StepKey?
    ensures Orphaned(Applied(t, e, cursor).0.records, run) && !Closed(Applied(t, e, cursor).0.records)
  {
    hide Has, Pop, Put, Keyed, Active, Closed;
    if Structural(e) {
      var end, begin := Slot(false, RunKey(run)), Slot(true, RunKey(run));
      PopKeyed(t.records, Slot(false, KeyOf(e)));
      PopHas(t.records, Slot(false, KeyOf(e)), end);
      PopHas(t.records, Slot(false, KeyOf(e)), begin);
      PutHas(Reopened(t, e, cursor).records, e, end);
      PutHas(Reopened(t, e, cursor).records, e, begin);
    }
    OrphanOpens(Applied(t, e, cursor).0.records, run);
  }
}
