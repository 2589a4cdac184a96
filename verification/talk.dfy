/**
 Admission of message batches by the talk loop, as atomic steps of the loop, of
 the message hub, of the run store and of a crash. A cursor save is a request
 on the wire: it may land, land late, or be lost. It carries the lease token of
 its process, so it can land until the next process registers, and not after.
 */
module Talk {
  import opened Common

  type Scope = string

  /** `incoming`: decodable, from someone else, and not a handler's failure notice. */
  datatype Entry = Entry(pos: nat, incoming: bool)

  /** A conversation stream, what it still retains, and the saved cursor. */
  datatype Hub = Hub(log: seq<Entry>, first: nat, cursor: nat)

  datatype Status = Active | Ended(ok: bool)

  datatype Run = Run(scope: Scope, after: nat, status: Status)

  datatype Batch = Batch(scope: Scope, after: nat, through: nat, entries: seq<Entry>)

  /** One batch admitted with its Run, and whether a failure notice was attempted. */
  datatype Receipt = Receipt(through: nat, entries: seq<Entry>, run: nat, notice: bool)

  datatype Phase =
    | Idle
    | Chosen(batch: Batch)
    | Waiting(batch: Batch)
    | Failing(batch: Batch)
    | Replying(batch: Batch)
    | Closing(batch: Batch)
    | Saving
    | Offline

  datatype Save = Save(scope: Scope, through: nat)

  datatype State = State(
    hubs: map<Scope, Hub>,
    receipts: map<(Scope, nat), Receipt>,
    runs: map<nat, Run>,
    lost: set<(Scope, nat)>,
    notices: seq<nat>,
    wire: set<Save>,
    pending: Option<Save>,
    phase: Phase)

  datatype Event =
    | Arrive(scope: Scope, entry: Entry)
    | Trim(scope: Scope, first: nat)
    | Pick(scope: Scope)
    | Skip
    | Admit(run: nat)
    | Refuse
    | Resume
    | EndRun(run: nat, ok: bool)
    | Finish
    | Cancel
    | Break
    | Notice
    | Reply
    | Close
    | Issue
    | Saved
    | GaveUp
    | Denied
    | Switched
    | Reconcile
    | Land(save: Save)
    | Drop(save: Save)
    | Crash
    | Register

  const CONTEXT: nat := 20

  // ---------------------------------------------------------------------
  // Reading a stream
  // ---------------------------------------------------------------------

  function Tail(log: seq<Entry>): nat {
    if log == [] then 0 else log[|log| - 1].pos
  }

  predicate Ordered(log: seq<Entry>) {
    && (forall i :: 0 <= i < |log| ==> log[i].pos > 0)
    && forall i, j :: 0 <= i < j < |log| ==> log[i].pos < log[j].pos
  }

  /** Retained entries after a cursor, in order. */
  function Retained(log: seq<Entry>, first: nat, after: nat): seq<Entry> {
    if log == [] then []
    else
      var e := log[|log| - 1];
      Retained(log[..|log| - 1], first, after) + if e.pos > after && e.pos >= first then [e] else []
  }

  function Read(hub: Hub, after: nat): seq<Entry> {
    var all := Retained(hub.log, hub.first, after);
    if |all| <= CONTEXT then all else all[..CONTEXT]
  }

  predicate HasIncoming(entries: seq<Entry>) {
    exists i :: 0 <= i < |entries| && entries[i].incoming
  }

  // ---------------------------------------------------------------------
  // Steps
  // ---------------------------------------------------------------------

  function Key(b: Batch): (Scope, nat) {
    (b.scope, b.after)
  }

  predicate Busy(s: State, scope: Scope) {
    exists r :: r in s.runs && s.runs[r].scope == scope && s.runs[r].status.Active?
  }

  /** The saved cursor moves forward only, and never past the stream. */
  predicate Accepts(hub: Hub, through: nat) {
    hub.cursor <= through <= Tail(hub.log)
  }

  function Choose(s: State, scope: Scope): Option<Batch>
    requires scope in s.hubs
  {
    var after := s.hubs[scope].cursor;
    if (scope, after) in s.receipts then
      var r := s.receipts[(scope, after)];
      Some(Batch(scope, after, r.through, r.entries))
    else
      var entries := Read(s.hubs[scope], after);
      if entries == [] then None else Some(Batch(scope, after, Tail(entries), entries))
  }

  /**
   What can happen next. With `late`, the loop may forget its open save, refused
   access or turning to another hub, while an attempt at it is still on the wire.
   */
  predicate Enabled(s: State, ev: Event, late: bool) {
    match ev
    case Arrive(scope, entry) =>
      scope in s.hubs && entry.pos > Tail(s.hubs[scope].log) && entry.pos >= s.hubs[scope].first
    case Trim(scope, first) => scope in s.hubs && first >= s.hubs[scope].first
    case Pick(scope) => s.phase.Idle? && s.pending.None? && scope in s.hubs && Choose(s, scope).Some?
    case Skip => s.phase.Chosen? && !HasIncoming(s.phase.batch.entries)
    case Admit(run) =>
      && s.phase.Chosen? && HasIncoming(s.phase.batch.entries)
      && Key(s.phase.batch) !in s.receipts && run !in s.runs && !Busy(s, s.phase.batch.scope)
    case Refuse => s.phase.Chosen? && HasIncoming(s.phase.batch.entries) && Key(s.phase.batch) !in s.receipts
    case Resume =>
      && s.phase.Chosen? && HasIncoming(s.phase.batch.entries)
      && Key(s.phase.batch) in s.receipts && s.receipts[Key(s.phase.batch)].run in s.runs
    case EndRun(run, _) => run in s.runs && s.runs[run].status.Active?
    case Finish =>
      && s.phase.Waiting? && Key(s.phase.batch) in s.receipts
      && var run := s.receipts[Key(s.phase.batch)].run; run in s.runs && s.runs[run].status.Ended?
    case Cancel =>
      && s.phase.Waiting? && Key(s.phase.batch) in s.receipts
      && var run := s.receipts[Key(s.phase.batch)].run; run in s.runs && s.runs[run].status.Ended?
    case Break => s.phase.Waiting?
    case Notice => s.phase.Failing?
    case Reply => s.phase.Replying? && Key(s.phase.batch) in s.receipts
    case Close => s.phase.Closing?
    case Issue => s.phase.Saving? && s.pending.Some?
    case Saved =>
      && s.phase.Saving? && s.pending.Some? && s.pending.value.scope in s.hubs
      && Accepts(s.hubs[s.pending.value.scope], s.pending.value.through)
    case GaveUp => s.phase.Saving?
    case Denied => (s.phase.Saving? || s.phase.Idle?) && s.pending.Some? && (late || s.pending.value !in s.wire)
    case Switched => s.phase.Idle? && s.pending.Some? && (late || s.pending.value !in s.wire)
    case Reconcile => s.phase.Idle? && s.pending.Some? && s.pending.value.scope in s.hubs
    case Land(save) => save in s.wire && save.scope in s.hubs
    case Drop(save) => save in s.wire
    case Crash => true
    case Register => s.phase.Offline?
  }

  function Moved(s: State, save: Save): State
    requires save.scope in s.hubs
  {
    var hub := s.hubs[save.scope];
    if Accepts(hub, save.through) then s.(hubs := s.hubs[save.scope := hub.(cursor := save.through)]) else s
  }

  /** Positions trimmed away before the cursor reached them. */
  function Trimmed(scope: Scope, hub: Hub, first: nat): set<(Scope, nat)> {
    set i | 0 <= i < |hub.log| && hub.cursor < hub.log[i].pos < first :: (scope, hub.log[i].pos)
  }

  predicate Acknowledged(s: State, b: Batch) {
    if Key(b) in s.receipts then
      var run := s.receipts[Key(b)].run;
      run in s.runs && s.runs[run].status.Ended?
    else !HasIncoming(b.entries)
  }

  /**
   A crash leaves its open save as it was, for what of it is on the wire may
   still land; registering gives the agent a new token, and the hub refuses the old.
   */
  function Next(s: State, ev: Event): State
    requires Enabled(s, ev, true)
  {
    match ev
    case Arrive(scope, entry) =>
      var hub := s.hubs[scope];
      s.(hubs := s.hubs[scope := hub.(log := hub.log + [entry])])
    case Trim(scope, first) =>
      var hub := s.hubs[scope];
      s.(hubs := s.hubs[scope := hub.(first := first)], lost := s.lost + Trimmed(scope, hub, first))
    case Pick(scope) => s.(phase := Chosen(Choose(s, scope).value))
    case Skip => s.(phase := Closing(s.phase.batch))
    case Admit(run) =>
      var b := s.phase.batch;
      s.(receipts := s.receipts[Key(b) := Receipt(b.through, b.entries, run, false)],
         runs := s.runs[run := Run(b.scope, b.after, Active)],
         phase := Waiting(b))
    case Refuse => s.(phase := Failing(s.phase.batch))
    case Resume =>
      var b := s.phase.batch;
      var status := s.runs[s.receipts[Key(b)].run].status;
      s.(phase := if status == Ended(false) then Failing(b) else Closing(b))
    case EndRun(run, ok) => s.(runs := s.runs[run := s.runs[run].(status := Ended(ok))])
    case Finish =>
      var b := s.phase.batch;
      s.(phase := if s.runs[s.receipts[Key(b)].run].status.ok then Closing(b) else Failing(b))
    case Cancel => s.(phase := Closing(s.phase.batch))
    case Break => s.(phase := Failing(s.phase.batch))
    case Notice =>
      var b := s.phase.batch;
      if Key(b) in s.receipts && !s.receipts[Key(b)].notice then
        s.(receipts := s.receipts[Key(b) := s.receipts[Key(b)].(notice := true)], phase := Replying(b))
      else s.(phase := Closing(b))
    case Reply =>
      var b := s.phase.batch;
      s.(notices := s.notices + [s.receipts[Key(b)].run], phase := Closing(b))
    case Close =>
      var b := s.phase.batch;
      if Acknowledged(s, b) then s.(pending := Some(Save(b.scope, b.through)), phase := Saving)
      else s.(phase := Idle)
    case Issue => s.(wire := s.wire + {s.pending.value})
    case Saved => Moved(s, s.pending.value).(pending := None, phase := Idle)
    case GaveUp => s.(phase := Idle)
    case Denied => s.(pending := None, phase := Idle)
    case Switched => s.(pending := None)
    case Reconcile =>
      if s.hubs[s.pending.value.scope].cursor >= s.pending.value.through then s.(pending := None)
      else s.(phase := Saving)
    case Land(save) => Moved(s, save).(wire := s.wire - {save})
    case Drop(save) => s.(wire := s.wire - {save})
    case Crash => s.(phase := Offline)
    case Register => s.(wire := {}, pending := None, phase := Idle)
  }

  // ---------------------------------------------------------------------
  // What every reachable state satisfies
  // ---------------------------------------------------------------------

  predicate InBatch(e: Entry, after: nat, through: nat) {
    after < e.pos <= through
  }

  /** A batch holds every entry of its range still retained, and every incoming one not trimmed unread. */
  ghost predicate Drawn(s: State, b: Batch) {
    && b.scope in s.hubs && b.after < b.through <= Tail(s.hubs[b.scope].log) && |b.entries| <= CONTEXT
    && (forall i :: 0 <= i < |b.entries| ==>
          InBatch(b.entries[i], b.after, b.through) && b.entries[i] in s.hubs[b.scope].log)
    && (forall e :: e in s.hubs[b.scope].log && e.incoming && InBatch(e, b.after, b.through) ==>
          e in b.entries || (b.scope, e.pos) in s.lost)
    && (forall e :: e in s.hubs[b.scope].log && e.pos >= s.hubs[b.scope].first && InBatch(e, b.after, b.through) ==>
          e in b.entries)
  }

  function BatchOf(key: (Scope, nat), r: Receipt): Batch {
    Batch(key.0, key.1, r.through, r.entries)
  }

  /** The entry was in a batch whose Run has ended. */
  ghost predicate Handled(s: State, scope: Scope, e: Entry) {
    exists key :: key in s.receipts && HandledBy(s, key, scope, e)
  }

  predicate HandledBy(s: State, key: (Scope, nat), scope: Scope, e: Entry)
    requires key in s.receipts
  {
    && key.0 == scope && e in s.receipts[key].entries
    && s.receipts[key].run in s.runs && s.runs[s.receipts[key].run].status.Ended?
  }

  /** Acknowledging up to `upto` skips no incoming entry. */
  ghost predicate Safe(s: State, scope: Scope, upto: nat)
    requires scope in s.hubs
  {
    forall e :: e in s.hubs[scope].log && e.incoming && e.pos <= upto ==>
      (scope, e.pos) in s.lost || Handled(s, scope, e)
  }

  /** The saved cursor skips nothing, and what it has not reached was kept or is known lost. */
  ghost predicate HubOk(s: State, scope: Scope)
    requires scope in s.hubs
  {
    var hub := s.hubs[scope];
    && Ordered(hub.log) && hub.cursor <= Tail(hub.log) && Safe(s, scope, hub.cursor)
    && forall e :: e in hub.log && hub.cursor < e.pos < hub.first ==> (scope, e.pos) in s.lost
  }

  ghost predicate HubsOk(s: State) {
    forall scope :: scope in s.hubs ==> HubOk(s, scope)
  }

  ghost predicate ReceiptOk(s: State, key: (Scope, nat))
    requires key in s.receipts
  {
    && Drawn(s, BatchOf(key, s.receipts[key])) && HasIncoming(s.receipts[key].entries)
    && key.0 in s.hubs && key.1 <= s.hubs[key.0].cursor
    && s.receipts[key].run in s.runs
    && s.runs[s.receipts[key].run].scope == key.0 && s.runs[s.receipts[key].run].after == key.1
  }

  ghost predicate ReceiptsOk(s: State) {
    forall key :: key in s.receipts ==> ReceiptOk(s, key)
  }

  /** Every Run has the one receipt it was admitted with. */
  ghost predicate RunsOk(s: State) {
    forall r :: r in s.runs ==>
      && (s.runs[r].scope, s.runs[r].after) in s.receipts
      && s.receipts[(s.runs[r].scope, s.runs[r].after)].run == r
  }

  /** One active root Run per conversation thread. */
  ghost predicate ThreadsIdle(s: State) {
    forall a, b ::
      a in s.runs && b in s.runs && s.runs[a].status.Active? && s.runs[b].status.Active?
      && s.runs[a].scope == s.runs[b].scope ==>
        a == b
  }

  ghost predicate SaveOk(s: State, save: Save) {
    save.scope in s.hubs && save.through <= Tail(s.hubs[save.scope].log) && Safe(s, save.scope, save.through)
  }

  ghost predicate SavesOk(s: State) {
    (forall save :: save in s.wire ==> SaveOk(s, save)) && (s.pending.Some? ==> SaveOk(s, s.pending.value))
  }

  predicate InHand(p: Phase) {
    p.Chosen? || p.Waiting? || p.Failing? || p.Replying? || p.Closing?
  }

  ghost predicate PhaseOk(s: State) {
    && (InHand(s.phase) ==>
          var b := s.phase.batch;
          && Drawn(s, b) && b.after <= s.hubs[b.scope].cursor
          && (Key(b) in s.receipts ==> BatchOf(Key(b), s.receipts[Key(b)]) == b)
          && s.pending.None?)
    && (s.phase.Waiting? || s.phase.Replying? ==> Key(s.phase.batch) in s.receipts)
  }

  predicate NoticedBy(r: Receipt, run: nat) {
    r.run == run && r.notice
  }

  ghost predicate Noticed(s: State, run: nat) {
    exists key :: key in s.receipts && NoticedBy(s.receipts[key], run)
  }

  /** A notice is attempted only with its flag already set, and the flag is set once. */
  ghost predicate NoticesOk(s: State) {
    && (forall i, j :: 0 <= i < j < |s.notices| ==> s.notices[i] != s.notices[j])
    && (forall i :: 0 <= i < |s.notices| ==> Noticed(s, s.notices[i]))
    && (s.phase.Replying? && Key(s.phase.batch) in s.receipts ==>
          s.receipts[Key(s.phase.batch)].notice && s.receipts[Key(s.phase.batch)].run !in s.notices)
  }

  ghost predicate Inv(s: State) {
    && HubsOk(s) && ReceiptsOk(s) && RunsOk(s) && ThreadsIdle(s)
    && SavesOk(s) && PhaseOk(s) && NoticesOk(s)
  }

  ghost predicate HubsGrow(a: map<Scope, Hub>, b: map<Scope, Hub>) {
    && b.Keys == a.Keys
    && forall scope :: scope in a ==>
         && LogGrows(a[scope].log, b[scope].log) && a[scope].cursor <= b[scope].cursor
         && a[scope].first <= b[scope].first
  }

  ghost predicate ReceiptsGrow(a: map<(Scope, nat), Receipt>, b: map<(Scope, nat), Receipt>) {
    forall key :: key in a ==>
      && key in b && b[key].run == a[key].run && BatchOf(key, b[key]) == BatchOf(key, a[key])
      && (a[key].notice ==> b[key].notice)
  }

  ghost predicate RunsGrow(a: map<nat, Run>, b: map<nat, Run>) {
    forall r :: r in a ==>
      && r in b && b[r].scope == a[r].scope && b[r].after == a[r].after
      && (a[r].status.Ended? ==> b[r].status == a[r].status)
  }

  /** Facts only accumulate: logs extend, receipts and ended Runs stay. */
  ghost predicate Grows(s: State, t: State) {
    && s.lost <= t.lost && HubsGrow(s.hubs, t.hubs)
    && ReceiptsGrow(s.receipts, t.receipts) && RunsGrow(s.runs, t.runs)
  }

  ghost predicate LogGrows(a: seq<Entry>, b: seq<Entry>) {
    && Tail(a) <= Tail(b) && (forall e :: e in a ==> e in b)
    && forall e :: e in b && e !in a ==> e.pos > Tail(a)
  }

  lemma LogSame(a: seq<Entry>)
    ensures LogGrows(a, a)
  {
  }

  lemma LogAppend(a: seq<Entry>, e: Entry)
    requires e.pos > Tail(a)
    ensures LogGrows(a, a + [e])
  {
    assert (a + [e])[|a|] == e;
  }

  lemma HubSet(hubs: map<Scope, Hub>, scope: Scope, hub: Hub)
    requires scope in hubs && LogGrows(hubs[scope].log, hub.log)
    requires hubs[scope].cursor <= hub.cursor && hubs[scope].first <= hub.first
    ensures HubsGrow(hubs, hubs[scope := hub])
  {
    forall other | other in hubs ensures LogGrows(hubs[other].log, hubs[other].log) {
      LogSame(hubs[other].log);
    }
  }

  lemma HubsSame(hubs: map<Scope, Hub>)
    ensures HubsGrow(hubs, hubs)
  {
    forall other | other in hubs ensures LogGrows(hubs[other].log, hubs[other].log) {
      LogSame(hubs[other].log);
    }
  }

  /** Moving a cursor touches nothing but its hub. */
  lemma MovedOnly(s: State, save: Save)
    requires save.scope in s.hubs
    ensures HubsGrow(s.hubs, Moved(s, save).hubs) && Moved(s, save) == s.(hubs := Moved(s, save).hubs)
  {
    HubsSame(s.hubs);
    LogSame(s.hubs[save.scope].log);
    if Accepts(s.hubs[save.scope], save.through) {
      HubSet(s.hubs, save.scope, s.hubs[save.scope].(cursor := save.through));
    }
  }

  /** Most steps touch neither receipts nor Runs nor notices. */
  lemma Plain(s: State, ev: Event)
    requires Enabled(s, ev, true) && !ev.Admit? && !ev.EndRun? && !ev.Notice? && !ev.Reply?
    ensures var t := Next(s, ev);
            t.receipts == s.receipts && t.runs == s.runs && t.notices == s.notices
  {
    hide Choose, Trimmed, Busy, Acknowledged, HasIncoming, Moved, Accepts, Tail;
    if ev.Saved? {
      MovedOnly(s, s.pending.value);
    } else if ev.Land? {
      MovedOnly(s, ev.save);
    }
  }

  /** What the other four steps do. */
  lemma Changes(s: State, ev: Event)
    requires Enabled(s, ev, true)
    ensures !ev.Admit? && !ev.EndRun? && !ev.Notice? && !ev.Reply? ==>
              var t := Next(s, ev);
              t.receipts == s.receipts && t.runs == s.runs && t.notices == s.notices
    ensures ev.Admit? ==>
              && s.phase.Chosen? && Key(s.phase.batch) !in s.receipts
              && ev.run !in s.runs && !Busy(s, s.phase.batch.scope)
              && var b := s.phase.batch;
              Next(s, ev) ==
              s.(receipts := s.receipts[Key(b) := Receipt(b.through, b.entries, ev.run, false)],
                 runs := s.runs[ev.run := Run(b.scope, b.after, Active)], phase := Waiting(b))
    ensures ev.EndRun? ==>
              && ev.run in s.runs && s.runs[ev.run].status.Active?
              && Next(s, ev) == s.(runs := s.runs[ev.run := s.runs[ev.run].(status := Ended(ev.ok))])
    ensures ev.Notice? ==>
              && s.phase.Failing?
              && var b := s.phase.batch;
              Next(s, ev) ==
              if Key(b) in s.receipts && !s.receipts[Key(b)].notice then
                s.(receipts := s.receipts[Key(b) := s.receipts[Key(b)].(notice := true)], phase := Replying(b))
              else s.(phase := Closing(b))
    ensures ev.Reply? ==>
              && s.phase.Replying? && Key(s.phase.batch) in s.receipts
              && var b := s.phase.batch;
              Next(s, ev) == s.(notices := s.notices + [s.receipts[Key(b)].run], phase := Closing(b))
  {
    hide Choose, Trimmed, Busy, Acknowledged, HasIncoming, Moved, Accepts, Tail;
    if !ev.Admit? && !ev.EndRun? && !ev.Notice? && !ev.Reply? {
      Plain(s, ev);
    }
  }

  /** The ways a step can change the receipts. */
  lemma ReceiptChanges(s: State, ev: Event)
    requires Enabled(s, ev, true)
    ensures var t := Next(s, ev);
            || t.receipts == s.receipts
            || (ev.Admit? && s.phase.Chosen? && Key(s.phase.batch) !in s.receipts
                && t.receipts == s.receipts[Key(s.phase.batch) :=
                                   Receipt(s.phase.batch.through, s.phase.batch.entries, ev.run, false)])
            || (ev.Notice? && s.phase.Failing? && Key(s.phase.batch) in s.receipts
                && t.receipts == s.receipts[Key(s.phase.batch) := s.receipts[Key(s.phase.batch)].(notice := true)])
  {
    hide *;
    Changes(s, ev);
  }

  lemma StepKeepsReceipts(s: State, ev: Event)
    requires Enabled(s, ev, true)
    ensures ReceiptsGrow(s.receipts, Next(s, ev).receipts) && RunsGrow(s.runs, Next(s, ev).runs)
  {
    hide Next, Enabled, Busy;
    ReceiptChanges(s, ev);
    RunChanges(s, ev);
  }

  /** No step forgets, and no step moves a cursor back. */
  lemma StepGrows(s: State, ev: Event)
    requires Enabled(s, ev, true)
    ensures Grows(s, Next(s, ev))
  {
    hide Choose, Trimmed, Busy, Acknowledged, HasIncoming, HubsGrow, LogGrows, Moved, Accepts, Tail, ReceiptsGrow,
      RunsGrow;
    StepKeepsReceipts(s, ev);
    HubsSame(s.hubs);
    match ev
    case Arrive(scope, entry) =>
      LogAppend(s.hubs[scope].log, entry);
      HubSet(s.hubs, scope, s.hubs[scope].(log := s.hubs[scope].log + [entry]));
    case Trim(scope, first) =>
      LogSame(s.hubs[scope].log);
      HubSet(s.hubs, scope, s.hubs[scope].(first := first));
    case Saved => MovedOnly(s, s.pending.value);
    case Land(save) => MovedOnly(s, save);
    case _ =>
  }

  lemma HandledStays(s: State, t: State, scope: Scope, e: Entry)
    requires Grows(s, t) && Handled(s, scope, e)
    ensures Handled(t, scope, e)
  {
    var key :| key in s.receipts && HandledBy(s, key, scope, e);
    assert HandledBy(t, key, scope, e);
  }

  lemma SafeStays(s: State, t: State, scope: Scope, upto: nat)
    requires Grows(s, t) && scope in s.hubs && Safe(s, scope, upto) && upto <= Tail(s.hubs[scope].log)
    ensures Safe(t, scope, upto)
  {
    hide Handled;
    forall e | e in t.hubs[scope].log && e.incoming && e.pos <= upto
      ensures (scope, e.pos) in t.lost || Handled(t, scope, e)
    {
      assert e in s.hubs[scope].log;
      if Handled(s, scope, e) {
        HandledStays(s, t, scope, e);
      }
    }
  }

  lemma DrawnStays(s: State, t: State, b: Batch)
    requires Grows(s, t) && Drawn(s, b)
    ensures Drawn(t, b)
  {
    forall e | e in t.hubs[b.scope].log && e.incoming && InBatch(e, b.after, b.through)
      ensures e in b.entries || (b.scope, e.pos) in t.lost
    {
      assert e in s.hubs[b.scope].log;
    }
    forall e | e in t.hubs[b.scope].log && e.pos >= t.hubs[b.scope].first && InBatch(e, b.after, b.through)
      ensures e in b.entries
    {
      assert e in s.hubs[b.scope].log;
    }
  }

  lemma SaveStays(s: State, t: State, save: Save)
    requires Grows(s, t) && SaveOk(s, save)
    ensures SaveOk(t, save)
  {
    hide Safe;
    SafeStays(s, t, save.scope, save.through);
  }

  // ---------------------------------------------------------------------
  // Reading gives a drawn batch
  // ---------------------------------------------------------------------

  lemma OrderedSnoc(log: seq<Entry>, e: Entry)
    ensures Ordered(log + [e]) <==> Ordered(log) && e.pos > 0 && forall x :: x in log ==> x.pos < e.pos
  {
    var all := log + [e];
    if Ordered(all) {
      assert all[|log|] == e;
      forall i | 0 <= i < |log| ensures log[i].pos > 0 && log[i].pos < e.pos {
        assert all[i] == log[i];
      }
      forall i, j | 0 <= i < j < |log| ensures log[i].pos < log[j].pos {
        assert all[i] == log[i] && all[j] == log[j];
      }
    }
  }

  lemma {:induction false} RetainedIs(log: seq<Entry>, first: nat, after: nat)
    requires Ordered(log)
    ensures Ordered(Retained(log, first, after))
    ensures forall e :: e in Retained(log, first, after) <==> e in log && e.pos > after && e.pos >= first
  {
    if log != [] {
      var init, last := log[..|log| - 1], log[|log| - 1];
      assert log == init + [last];
      OrderedSnoc(init, last);
      hide Ordered;
      RetainedIs(init, first, after);
      OrderedSnoc(Retained(init, first, after), last);
    }
  }

  /** A fresh read misses only what was trimmed before it was read. */
  lemma ReadDrawn(s: State, scope: Scope)
    requires scope in s.hubs && HubOk(s, scope)
    ensures var hub := s.hubs[scope];
            var entries := Read(hub, hub.cursor);
            entries != [] ==> Drawn(s, Batch(scope, hub.cursor, Tail(entries), entries))
  {
    hide Safe, Ordered, Retained;
    var hub := s.hubs[scope];
    RetainedIs(hub.log, hub.first, hub.cursor);
    var all, entries := Retained(hub.log, hub.first, hub.cursor), Read(hub, hub.cursor);
    if entries != [] {
      var last := |entries| - 1;
      assert entries == all[..last + 1] && Tail(entries) == all[last].pos;
      assert all[last] in all;
      TailLast(hub.log, all[last]);
      forall i | 0 <= i <= last ensures InBatch(entries[i], hub.cursor, Tail(entries)) && entries[i] in hub.log {
        assert entries[i] == all[i] && all[i] in all;
        OrderedAt(all, i, last);
      }
      forall e | e in hub.log && e.pos >= hub.first && InBatch(e, hub.cursor, Tail(entries)) ensures e in entries {
        assert e in all;
        var k :| 0 <= k < |all| && all[k] == e;
        OrderedAt(all, k, last);
        assert entries[k] == e;
      }
    }
  }

  /** A read takes everything retained after the cursor, or as much of it as it may. */
  lemma ReadIsFull(hub: Hub, after: nat)
    requires Ordered(hub.log)
    ensures var entries := Read(hub, after);
            && (forall e :: e in entries ==> e in hub.log && e.pos > after && e.pos >= hub.first)
            && (|entries| < CONTEXT ==> forall e :: e in hub.log && e.pos > after && e.pos >= hub.first ==> e in entries)
  {
    RetainedIs(hub.log, hub.first, after);
  }

  lemma OrderedAt(log: seq<Entry>, i: nat, j: nat)
    requires Ordered(log) && i < |log| && j < |log|
    ensures i <= j <==> log[i].pos <= log[j].pos
  {
  }

  lemma TailLast(log: seq<Entry>, e: Entry)
    requires Ordered(log) && e in log
    ensures 0 < e.pos <= Tail(log)
  {
  }

  lemma ChosenReceipt(s: State, scope: Scope)
    requires scope in s.hubs && ReceiptsOk(s)
    ensures var key := (scope, s.hubs[scope].cursor);
            key in s.receipts ==> Drawn(s, BatchOf(key, s.receipts[key]))
  {
    hide Drawn;
    assert (scope, s.hubs[scope].cursor) in s.receipts ==> ReceiptOk(s, (scope, s.hubs[scope].cursor));
  }

  lemma ChooseDrawn(s: State, scope: Scope)
    requires scope in s.hubs && HubsOk(s) && ReceiptsOk(s) && Choose(s, scope).Some?
    ensures var b := Choose(s, scope).value;
            && Drawn(s, b) && b.after == s.hubs[scope].cursor && b.scope == scope
            && (Key(b) in s.receipts ==> BatchOf(Key(b), s.receipts[Key(b)]) == b)
  {
    hide Drawn, Safe, HubOk, Read, ReceiptOk;
    ReadDrawn(s, scope);
    ChosenReceipt(s, scope);
  }

  // ---------------------------------------------------------------------
  // Each part of the invariant is kept
  // ---------------------------------------------------------------------

  /** What may be acknowledged once a batch in hand is closed. */
  lemma ClosedIsSafe(s: State, b: Batch)
    requires HubsOk(s) && ReceiptsOk(s) && Drawn(s, b) && b.after <= s.hubs[b.scope].cursor
    requires Key(b) in s.receipts ==> BatchOf(Key(b), s.receipts[Key(b)]) == b
    requires Acknowledged(s, b)
    ensures SaveOk(s, Save(b.scope, b.through))
  {
    hide Ordered, ReceiptsOk;
    assert HubOk(s, b.scope);
    hide HubsOk;
    var log := s.hubs[b.scope].log;
    forall e | e in log && e.incoming && e.pos <= b.through
      ensures (b.scope, e.pos) in s.lost || Handled(s, b.scope, e)
    {
      if e.pos > b.after && (b.scope, e.pos) !in s.lost {
        assert InBatch(e, b.after, b.through);
        var i :| 0 <= i < |b.entries| && b.entries[i] == e;
        assert HasIncoming(b.entries);
        assert HandledBy(s, Key(b), b.scope, e);
      }
    }
  }

  /** The ways a step can change a conversation's hub. */
  lemma HubChanges(s: State, ev: Event, scope: Scope)
    requires Enabled(s, ev, true) && scope in s.hubs
    ensures var t := Next(s, ev);
            && scope in t.hubs
            && (t.hubs[scope] == s.hubs[scope]
                || (ev.Arrive? && ev.scope == scope
                    && ev.entry.pos > Tail(s.hubs[scope].log) && ev.entry.pos >= s.hubs[scope].first
                    && t.hubs[scope] == s.hubs[scope].(log := s.hubs[scope].log + [ev.entry]))
                || (ev.Trim? && ev.scope == scope && t.hubs[scope] == s.hubs[scope].(first := ev.first)
                    && Trimmed(scope, s.hubs[scope], ev.first) <= t.lost)
                || (ev.Saved? && s.pending.Some? && s.pending.value.scope in s.hubs
                    && t.hubs == Moved(s, s.pending.value).hubs)
                || (ev.Land? && ev.save in s.wire && ev.save.scope in s.hubs && t.hubs == Moved(s, ev.save).hubs))
  {
    hide Choose, Trimmed, Acknowledged, HasIncoming, Busy, Moved, Accepts, Tail;
    if ev.Saved? {
      MovedOnly(s, s.pending.value);
    } else if ev.Land? {
      MovedOnly(s, ev.save);
    }
  }

  lemma HubsKept(s: State, ev: Event)
    requires Inv(s) && Enabled(s, ev, true)
    ensures HubsOk(Next(s, ev))
  {
    hide HubOk, ReceiptsOk, ThreadsIdle, RunsOk, PhaseOk, NoticesOk, SaveOk, Next, Enabled, Trimmed, Moved;
    var t := Next(s, ev);
    StepGrows(s, ev);
    SameHubs(s, t);
    forall scope | scope in t.hubs ensures HubOk(t, scope) {
      HubChanges(s, ev, scope);
      if t.hubs[scope] == s.hubs[scope] {
        HubStays(s, t, scope);
      } else if ev.Arrive? {
        HubArrives(s, t, scope, ev.entry);
      } else if ev.Trim? {
        HubTrims(s, t, scope, ev.first);
      } else if ev.Saved? {
        HubMoves(s, t, s.pending.value, scope);
      } else {
        HubMoves(s, t, ev.save, scope);
      }
    }
  }

  lemma HubStays(s: State, t: State, scope: Scope)
    requires Grows(s, t) && scope in s.hubs && HubOk(s, scope) && scope in t.hubs && t.hubs[scope] == s.hubs[scope]
    ensures HubOk(t, scope)
  {
    hide Safe, Ordered;
    SafeStays(s, t, scope, s.hubs[scope].cursor);
  }

  lemma HubArrives(s: State, t: State, scope: Scope, entry: Entry)
    requires Grows(s, t) && scope in s.hubs && HubOk(s, scope) && scope in t.hubs
    requires t.hubs[scope] == s.hubs[scope].(log := s.hubs[scope].log + [entry])
    requires entry.pos > Tail(s.hubs[scope].log) && entry.pos >= s.hubs[scope].first
    ensures HubOk(t, scope)
  {
    hide Safe, Grows;
    SafeStays(s, t, scope, s.hubs[scope].cursor);
    GrownLost(s, t);
  }

  lemma HubTrims(s: State, t: State, scope: Scope, first: nat)
    requires Grows(s, t) && scope in s.hubs && HubOk(s, scope) && scope in t.hubs
    requires t.hubs[scope] == s.hubs[scope].(first := first)
    requires Trimmed(scope, s.hubs[scope], first) <= t.lost
    ensures HubOk(t, scope)
  {
    hide Safe, Ordered, Grows;
    SafeStays(s, t, scope, s.hubs[scope].cursor);
    TrimmedAll(scope, s.hubs[scope], first);
  }

  lemma HubMoves(s: State, t: State, save: Save, scope: Scope)
    requires Grows(s, t) && SaveOk(s, save) && scope in s.hubs && HubOk(s, scope) && scope in t.hubs
    requires t.hubs == Moved(s, save).hubs
    ensures HubOk(t, scope)
  {
    hide Safe, Ordered, Grows;
    SafeStays(s, t, scope, s.hubs[scope].cursor);
    SafeStays(s, t, save.scope, save.through);
    GrownLost(s, t);
  }

  lemma SameHubs(s: State, t: State)
    requires Grows(s, t)
    ensures t.hubs.Keys == s.hubs.Keys
  {
  }

  lemma GrownLost(s: State, t: State)
    requires Grows(s, t)
    ensures s.lost <= t.lost
  {
  }

  lemma TrimmedAll(scope: Scope, hub: Hub, first: nat)
    ensures forall e :: e in hub.log && hub.cursor < e.pos < first ==> (scope, e.pos) in Trimmed(scope, hub, first)
  {
    forall e | e in hub.log && hub.cursor < e.pos < first ensures (scope, e.pos) in Trimmed(scope, hub, first) {
      var i :| 0 <= i < |hub.log| && hub.log[i] == e;
    }
  }

  lemma ReceiptsKept(s: State, ev: Event)
    requires Inv(s) && Enabled(s, ev, true)
    ensures ReceiptsOk(Next(s, ev))
  {
    hide Drawn, ThreadsIdle, HubsOk, NoticesOk, SavesOk, PhaseOk, Grows, HasIncoming, Busy, Next, Enabled, RunsOk,
      ReceiptOk;
    var t := Next(s, ev);
    StepGrows(s, ev);
    NewReceipt(s, ev);
    forall key | key in t.receipts ensures ReceiptOk(t, key) {
      if key in s.receipts {
        ReceiptStays(s, t, key);
      } else {
        ReceiptMade(s, ev);
      }
    }
  }

  lemma ReceiptMade(s: State, ev: Event)
    requires Inv(s) && Enabled(s, ev, true) && ev.Admit?
    ensures Key(s.phase.batch) in Next(s, ev).receipts && ReceiptOk(Next(s, ev), Key(s.phase.batch))
  {
    hide Drawn, ThreadsIdle, HubsOk, NoticesOk, SavesOk, ReceiptsOk, Grows, HasIncoming, Busy, RunsOk;
    StepGrows(s, ev);
    DrawnStays(s, Next(s, ev), s.phase.batch);
  }

  lemma ReceiptStays(s: State, t: State, key: (Scope, nat))
    requires Grows(s, t) && key in s.receipts && ReceiptOk(s, key)
    ensures key in t.receipts && ReceiptOk(t, key)
  {
    hide Drawn;
    DrawnStays(s, t, BatchOf(key, s.receipts[key]));
  }

  /** The ways a step can change the Runs. */
  lemma RunChanges(s: State, ev: Event)
    requires Enabled(s, ev, true)
    ensures var t := Next(s, ev);
            || t.runs == s.runs
            || (ev.Admit? && ev.run !in s.runs && !Busy(s, s.phase.batch.scope)
                && t.runs == s.runs[ev.run := Run(s.phase.batch.scope, s.phase.batch.after, Active)]
                && Key(s.phase.batch) in t.receipts && t.receipts[Key(s.phase.batch)].run == ev.run
                && Key(s.phase.batch) !in s.receipts)
            || (ev.EndRun? && ev.run in s.runs && s.runs[ev.run].status.Active?
                && t.runs == s.runs[ev.run := s.runs[ev.run].(status := Ended(ev.ok))])
  {
    hide Choose, Next, Enabled, Busy;
    Changes(s, ev);
  }

  lemma RunsKept(s: State, ev: Event)
    requires Inv(s) && Enabled(s, ev, true)
    ensures RunsOk(Next(s, ev)) && ThreadsIdle(Next(s, ev))
  {
    hide HubsOk, NoticesOk, SavesOk, PhaseOk, ReceiptsOk, Next, Enabled, HubsGrow;
    StepGrows(s, ev);
    RunChanges(s, ev);
  }

  lemma SavesKept(s: State, ev: Event)
    requires Inv(s) && Enabled(s, ev, true)
    ensures SavesOk(Next(s, ev))
  {
    hide SaveOk, Drawn, HubsOk, NoticesOk, ThreadsIdle, RunsOk, ReceiptsOk, Choose, Trimmed, Grows, Acknowledged,
      HasIncoming, Busy, Moved;
    var t := Next(s, ev);
    StepGrows(s, ev);
    forall save | save in s.wire || s.pending == Some(save) ensures SaveOk(t, save) {
      SaveStays(s, t, save);
    }
    if ev.Close? && Acknowledged(s, s.phase.batch) {
      var b := s.phase.batch;
      ClosedIsSafe(s, b);
      SaveStays(s, t, Save(b.scope, b.through));
    }
    if ev.Saved? {
      MovedOnly(s, s.pending.value);
    } else if ev.Land? {
      MovedOnly(s, ev.save);
    }
  }

  /** The batch in hand is the one picked, until it is let go. */
  lemma HandStays(s: State, ev: Event)
    requires Enabled(s, ev, true)
    ensures var t := Next(s, ev);
            && (InHand(t.phase) && !ev.Pick? ==> InHand(s.phase) && t.phase.batch == s.phase.batch)
            && (InHand(t.phase) ==> t.pending == s.pending)
            && (t.phase.Waiting? ==> s.phase.Waiting? || ev.Admit?)
            && (t.phase.Replying? ==> (s.phase.Replying? || ev.Notice?) && !ev.Pick?)
  {
    hide Choose, Trimmed, Acknowledged, HasIncoming, Busy, Moved, Accepts, Tail;
    if ev.Saved? {
      MovedOnly(s, s.pending.value);
    } else if ev.Land? {
      MovedOnly(s, ev.save);
    }
  }

  /** Only the batch in hand gains a receipt, and with its own range and entries. */
  lemma NewReceipt(s: State, ev: Event)
    requires Enabled(s, ev, true)
    ensures var t := Next(s, ev);
            && (t.receipts.Keys == s.receipts.Keys
                || (ev.Admit? && t.receipts.Keys == s.receipts.Keys + {Key(s.phase.batch)}
                    && t.receipts[Key(s.phase.batch)] ==
                       Receipt(s.phase.batch.through, s.phase.batch.entries, ev.run, false)))
            && (ev.Admit? ==> Key(s.phase.batch) in t.receipts)
            && (ev.Notice? && t.phase.Replying? ==> Key(s.phase.batch) in t.receipts)
  {
    hide Choose, Next, Enabled, Busy;
    Changes(s, ev);
  }

  lemma PhaseKept(s: State, ev: Event)
    requires Inv(s) && Enabled(s, ev, true)
    ensures PhaseOk(Next(s, ev))
  {
    hide Drawn, NoticesOk, ThreadsIdle, RunsOk, SavesOk, HubsOk, ReceiptsOk, Choose, Next, Enabled, Grows;
    var t := Next(s, ev);
    StepGrows(s, ev);
    HandStays(s, ev);
    NewReceipt(s, ev);
    if InHand(t.phase) {
      var b := t.phase.batch;
      if ev.Pick? {
        PickIs(s, ev);
        ChooseDrawn(s, ev.scope);
      }
      DrawnIn(s, b);
      CursorGrows(s, t, b.scope);
      DrawnStays(s, t, b);
      if Key(b) in s.receipts {
        BatchKept(s, t, b);
      }
    }
  }

  lemma PickIs(s: State, ev: Event)
    requires Enabled(s, ev, true) && ev.Pick?
    ensures s.pending.None? && ev.scope in s.hubs && Choose(s, ev.scope).Some?
    ensures Next(s, ev) == s.(phase := Chosen(Choose(s, ev.scope).value))
  {
    hide Choose;
  }

  lemma BatchKept(s: State, t: State, b: Batch)
    requires Grows(s, t) && Key(b) in s.receipts && BatchOf(Key(b), s.receipts[Key(b)]) == b
    ensures Key(b) in t.receipts && BatchOf(Key(b), t.receipts[Key(b)]) == b
  {
    hide HubsGrow, RunsGrow;
  }

  lemma DrawnIn(s: State, b: Batch)
    requires Drawn(s, b)
    ensures b.scope in s.hubs
  {
  }

  lemma NoticesKept(s: State, ev: Event)
    requires Inv(s) && Enabled(s, ev, true)
    ensures NoticesOk(Next(s, ev))
  {
    hide HubsOk, ThreadsIdle, SavesOk, Next, Enabled, Noticed, Grows, ReceiptsOk, RunsOk;
    var t := Next(s, ev);
    StepGrows(s, ev);
    NoticeChanges(s, ev);
    ReceiptChanges(s, ev);
    HandStays(s, ev);
    forall i | 0 <= i < |s.notices| ensures Noticed(t, s.notices[i]) {
      NoticedStays(s, t, s.notices[i]);
    }
    if ev.Reply? {
      NoticedHere(t, Key(s.phase.batch));
    } else if ev.Notice? && t.phase.Replying? {
      FirstNotice(s, Key(s.phase.batch));
    }
  }

  /** A notice is sent for the batch in hand, whose flag was set on the way to sending it. */
  lemma NoticeChanges(s: State, ev: Event)
    requires Enabled(s, ev, true)
    ensures var t := Next(s, ev);
            && (ev.Reply? ==> s.phase.Replying? && Key(s.phase.batch) in s.receipts && !t.phase.Replying?
                              && t.notices == s.notices + [s.receipts[Key(s.phase.batch)].run]
                              && t.receipts == s.receipts)
            && (!ev.Reply? ==> t.notices == s.notices)
            && (ev.Notice? && t.phase.Replying? ==>
                  && InHand(s.phase) && t.phase.batch == s.phase.batch && Key(s.phase.batch) in s.receipts
                  && !s.receipts[Key(s.phase.batch)].notice && Key(s.phase.batch) in t.receipts
                  && t.receipts[Key(s.phase.batch)].notice
                  && t.receipts[Key(s.phase.batch)].run == s.receipts[Key(s.phase.batch)].run)
  {
    hide Choose, Next, Enabled, Busy;
    Changes(s, ev);
  }

  lemma NoticedStays(s: State, t: State, run: nat)
    requires Grows(s, t) && Noticed(s, run)
    ensures Noticed(t, run)
  {
    var key :| key in s.receipts && NoticedBy(s.receipts[key], run);
    assert NoticedBy(t.receipts[key], run);
  }

  lemma NoticedHere(s: State, key: (Scope, nat))
    requires key in s.receipts && s.receipts[key].notice
    ensures Noticed(s, s.receipts[key].run)
  {
    assert NoticedBy(s.receipts[key], s.receipts[key].run);
  }

  /** While a receipt's flag is clear its Run has had no notice. */
  lemma FirstNotice(s: State, key: (Scope, nat))
    requires ReceiptsOk(s) && RunsOk(s) && NoticesOk(s) && key in s.receipts && !s.receipts[key].notice
    ensures s.receipts[key].run !in s.notices
  {
    hide Drawn, HasIncoming;
    var run := s.receipts[key].run;
    assert ReceiptOk(s, key);
    forall other | other in s.receipts ensures !NoticedBy(s.receipts[other], run) {
      assert ReceiptOk(s, other);
    }
  }

  /** Every step of every participant keeps the protocol's invariant. */
  lemma StepKeeps(s: State, ev: Event)
    requires Inv(s) && Enabled(s, ev, true)
    ensures Inv(Next(s, ev))
  {
    hide HubsOk, ReceiptsOk, RunsOk, ThreadsIdle, SavesOk, PhaseOk, NoticesOk, Next, Enabled;
    HubsKept(s, ev);
    ReceiptsKept(s, ev);
    RunsKept(s, ev);
    SavesKept(s, ev);
    PhaseKept(s, ev);
    NoticesKept(s, ev);
  }

  // ---------------------------------------------------------------------
  // Whole runs
  // ---------------------------------------------------------------------

  predicate Initial(s: State) {
    && s.receipts == map[] && s.runs == map[] && s.lost == {} && s.notices == []
    && s.wire == {} && s.pending == None && s.phase == Idle
    && forall scope :: scope in s.hubs ==> s.hubs[scope] == Hub([], 0, 0)
  }

  /** `evs` can happen from `s`, one after another. */
  predicate Possible(s: State, evs: seq<Event>, late: bool)
    decreases |evs|
  {
    evs == [] || (Enabled(s, evs[0], late) && Enabled(s, evs[0], true) && Possible(Next(s, evs[0]), evs[1..], late))
  }

  function After(s: State, evs: seq<Event>, late: bool): State
    requires Possible(s, evs, late)
    decreases |evs|
  {
    if evs == [] then s else After(Next(s, evs[0]), evs[1..], late)
  }

  lemma InitialInv(s: State)
    requires Initial(s)
    ensures Inv(s)
  {
    forall scope | scope in s.hubs ensures HubOk(s, scope) {
    }
  }

  lemma {:induction false} RunKeeps(s: State, evs: seq<Event>, late: bool)
    requires Inv(s) && Possible(s, evs, late)
    ensures Inv(After(s, evs, late))
    decreases |evs|
  {
    hide Inv, Next, Enabled;
    if evs != [] {
      StepKeeps(s, evs[0]);
      RunKeeps(Next(s, evs[0]), evs[1..], late);
    }
  }

  /** The saved cursor of every conversation only moves forward. */
  lemma {:induction false} CursorForward(s: State, evs: seq<Event>, late: bool, scope: Scope)
    requires Possible(s, evs, late) && scope in s.hubs
    ensures scope in After(s, evs, late).hubs
    ensures s.hubs[scope].cursor <= After(s, evs, late).hubs[scope].cursor
    decreases |evs|
  {
    hide Next, Enabled, LogGrows, ReceiptsGrow, RunsGrow;
    if evs != [] {
      StepGrows(s, evs[0]);
      CursorForward(Next(s, evs[0]), evs[1..], late, scope);
    }
  }

  /** No two Runs were admitted for the same conversation and cursor. */
  ghost predicate OneRunPerCursor(s: State) {
    forall a, b ::
      a in s.runs && b in s.runs && s.runs[a].scope == s.runs[b].scope && s.runs[a].after == s.runs[b].after ==>
        a == b
  }

  /**
   Over any interleaving with crashes, lost saves and late saves: one Run per
   (conversation, cursor), at most one notice attempt per Run, one active Run per
   conversation, and no incoming message behind the saved cursor unless its
   batch's Run has ended or the hub had already trimmed it unread.
   */
  lemma TalkIsSafe(s: State, evs: seq<Event>)
    requires Initial(s) && Possible(s, evs, true)
    ensures var t := After(s, evs, true);
            && OneRunPerCursor(t)
            && (forall i, j :: 0 <= i < j < |t.notices| ==> t.notices[i] != t.notices[j])
            && ThreadsIdle(t)
            && forall scope :: scope in t.hubs ==> Safe(t, scope, t.hubs[scope].cursor)
  {
    InitialInv(s);
    RunKeeps(s, evs, true);
    hide ReceiptsOk, SavesOk, PhaseOk, After, Possible, Safe;
    var t := After(s, evs, true);
    forall scope | scope in t.hubs ensures Safe(t, scope, t.hubs[scope].cursor) {
      assert HubOk(t, scope);
    }
  }

  /** What counts as lost is no longer retained by the hub. */
  predicate LostOk(s: State) {
    forall key :: key in s.lost ==> key.0 in s.hubs && key.1 < s.hubs[key.0].first
  }

  lemma LostChanges(s: State, ev: Event)
    requires Enabled(s, ev, true)
    ensures ev.Trim? ==>
              && ev.scope in s.hubs && Next(s, ev).hubs == s.hubs[ev.scope := s.hubs[ev.scope].(first := ev.first)]
              && Next(s, ev).lost == s.lost + Trimmed(ev.scope, s.hubs[ev.scope], ev.first)
    ensures !ev.Trim? ==> Next(s, ev).lost == s.lost
  {
    hide Choose, Trimmed, Acknowledged, HasIncoming, Busy, Moved, Accepts, Tail;
    if ev.Saved? {
      MovedOnly(s, s.pending.value);
    } else if ev.Land? {
      MovedOnly(s, ev.save);
    }
  }

  lemma StepLost(s: State, ev: Event)
    requires Enabled(s, ev, true) && LostOk(s)
    ensures LostOk(Next(s, ev))
  {
    hide Next, Enabled, LogGrows, ReceiptsGrow, RunsGrow;
    LostChanges(s, ev);
    StepGrows(s, ev);
  }

  /** Over every history only what the hub has trimmed is lost. */
  lemma {:induction false} LostIsTrimmed(s: State, evs: seq<Event>, late: bool)
    requires Possible(s, evs, late) && LostOk(s)
    ensures LostOk(After(s, evs, late))
    decreases |evs|
  {
    hide Next, Enabled, LostOk;
    if evs != [] {
      StepLost(s, evs[0]);
      LostIsTrimmed(Next(s, evs[0]), evs[1..], late);
    }
  }

  // ---------------------------------------------------------------------
  // Who gets a failure notice
  // ---------------------------------------------------------------------

  /** What the loop last saw of the batch in hand. */
  datatype Sight =
    | Unseen           // picked, or still waited for
    | Quiet            // nothing incoming in it
    | TurnedAway       // not admitted
    | SawFailure
    | SawSuccess
    | SawRunning
    | Stopped          // the loop was stopped while waiting
    | Broken           // waiting failed on its own account

  function Look(s: State, ev: Event, was: Sight): Sight {
    match ev
    case Pick(_) => Unseen
    case Skip => Quiet
    case Refuse => TurnedAway
    case Cancel => Stopped
    case Break => Broken
    case Finish => if InHand(s.phase) then Seen(s, s.phase.batch) else was
    case Resume => if InHand(s.phase) then Seen(s, s.phase.batch) else was
    case _ => was
  }

  /** How the batch's Run stands. */
  function Seen(s: State, b: Batch): Sight {
    if Key(b) !in s.receipts || s.receipts[Key(b)].run !in s.runs then Unseen
    else match s.runs[s.receipts[Key(b)].run].status
         case Active => SawRunning
         case Ended(ok) => if ok then SawSuccess else SawFailure
  }

  function Sighted(s: State, evs: seq<Event>, late: bool, was: Sight): Sight
    requires Possible(s, evs, late)
    decreases |evs|
  {
    if evs == [] then was else Sighted(Next(s, evs[0]), evs[1..], late, Look(s, evs[0], was))
  }

  /** Runs whose batch the loop was waiting for when waiting failed on its own account. */
  function BrokenRuns(s: State, evs: seq<Event>, late: bool): set<nat>
    requires Possible(s, evs, late)
    decreases |evs|
  {
    if evs == [] then {} else BrokenNow(s, evs[0]) + BrokenRuns(Next(s, evs[0]), evs[1..], late)
  }

  function BrokenNow(s: State, ev: Event): set<nat> {
    if ev.Break? && s.phase.Waiting? && Key(s.phase.batch) in s.receipts then {s.receipts[Key(s.phase.batch)].run} else {}
  }

  /** The Run failed, or the loop gave up waiting for it. */
  predicate Faulted(s: State, run: nat, broken: set<nat>) {
    run in broken || (run in s.runs && s.runs[run].status == Ended(false))
  }

  /** Flags are set for faulted Runs only. */
  predicate FlagsOk(s: State, broken: set<nat>) {
    forall key :: key in s.receipts && s.receipts[key].notice ==> Faulted(s, s.receipts[key].run, broken)
  }

  /** How the sight of the batch in hand goes with its phase. */
  predicate SightOk(s: State, sight: Sight, broken: set<nat>) {
    match s.phase
    case Failing(b) =>
      if sight.TurnedAway? then Key(b) !in s.receipts
      else (sight.SawFailure? || sight.Broken?) && Key(b) in s.receipts && Faulted(s, s.receipts[Key(b)].run, broken)
    case Replying(b) =>
      && (sight.SawFailure? || sight.Broken?) && Key(b) in s.receipts && s.receipts[Key(b)].notice
      && Faulted(s, s.receipts[Key(b)].run, broken)
    case Closing(b) =>
      match sight {
        case Unseen => false
        case Quiet => !HasIncoming(b.entries)
        case TurnedAway => Key(b) !in s.receipts
        case SawFailure => Key(b) in s.receipts && s.receipts[Key(b)].notice
        case Broken => Key(b) in s.receipts && s.receipts[Key(b)].notice
        case SawSuccess =>
          && Key(b) in s.receipts && s.receipts[Key(b)].run in s.runs
          && s.runs[s.receipts[Key(b)].run].status == Ended(true)
        case _ => true
      }
    case _ => true
  }

  lemma FaultedStays(s: State, ev: Event, run: nat, broken: set<nat>)
    requires Enabled(s, ev, true) && Faulted(s, run, broken)
    ensures Faulted(Next(s, ev), run, broken)
  {
    hide Next, Enabled, Busy, BatchOf;
    StepKeepsReceipts(s, ev);
  }

  lemma FlagsKept(s: State, ev: Event, sight: Sight, broken: set<nat>)
    requires Enabled(s, ev, true) && FlagsOk(s, broken) && SightOk(s, sight, broken)
    ensures FlagsOk(Next(s, ev), broken)
  {
    hide Next, Enabled, Busy, HasIncoming, Faulted;
    ReceiptChanges(s, ev);
    forall key | key in s.receipts && Faulted(s, s.receipts[key].run, broken)
      ensures Faulted(Next(s, ev), s.receipts[key].run, broken)
    {
      FaultedStays(s, ev, s.receipts[key].run, broken);
    }
  }

  lemma FlagsMore(s: State, broken: set<nat>, more: set<nat>)
    requires FlagsOk(s, broken) && broken <= more
    ensures FlagsOk(s, more)
  {
  }

  lemma SightMore(s: State, sight: Sight, broken: set<nat>, more: set<nat>)
    requires SightOk(s, sight, broken) && broken <= more
    ensures SightOk(s, sight, more)
  {
  }

  /** Steps that look at the batch in hand. */
  predicate Looks(ev: Event) {
    ev.Pick? || ev.Skip? || ev.Refuse? || ev.Cancel? || ev.Break? || ev.Finish? || ev.Resume?
  }

  lemma SightAfterLook(s: State, ev: Event, sight: Sight, broken: set<nat>)
    requires Enabled(s, ev, true) && Looks(ev) && (s.phase.Waiting? ==> Key(s.phase.batch) in s.receipts)
    ensures SightOk(Next(s, ev), Look(s, ev, sight), broken + BrokenNow(s, ev))
  {
    hide Choose, Trimmed, Acknowledged, HasIncoming, Busy, Moved, Accepts, Tail;
  }

  /** Any other step leaves the batch in hand where it is, but for a notice. */
  lemma Unlooked(s: State, ev: Event)
    requires Enabled(s, ev, true) && !Looks(ev)
    ensures var t := Next(s, ev);
            || t.phase == s.phase || (!t.phase.Failing? && !t.phase.Replying? && !t.phase.Closing?)
            || ev.Notice? || ev.Reply?
    ensures ev.Admit? ==> s.phase.Chosen?
  {
    hide Choose, Trimmed, Acknowledged, HasIncoming, Busy, Moved, Accepts, Tail;
    if ev.Saved? {
      MovedOnly(s, s.pending.value);
    } else if ev.Land? {
      MovedOnly(s, ev.save);
    }
  }

  lemma SightStays(s: State, ev: Event, sight: Sight, broken: set<nat>)
    requires Enabled(s, ev, true) && !Looks(ev) && SightOk(s, sight, broken)
    ensures SightOk(Next(s, ev), sight, broken) && Look(s, ev, sight) == sight
  {
    hide Next, Enabled, Busy, HasIncoming, Faulted, BatchOf;
    Unlooked(s, ev);
    Changes(s, ev);
    ReceiptChanges(s, ev);
    StepKeepsReceipts(s, ev);
    forall run | Faulted(s, run, broken) ensures Faulted(Next(s, ev), run, broken) {
      FaultedStays(s, ev, run, broken);
    }
  }

  lemma StepSight(s: State, ev: Event, sight: Sight, broken: set<nat>)
    requires Inv(s) && Enabled(s, ev, true) && FlagsOk(s, broken) && SightOk(s, sight, broken)
    ensures FlagsOk(Next(s, ev), broken + BrokenNow(s, ev))
    ensures SightOk(Next(s, ev), Look(s, ev, sight), broken + BrokenNow(s, ev))
  {
    hide *;
    FlagsKept(s, ev, sight, broken);
    FlagsMore(Next(s, ev), broken, broken + BrokenNow(s, ev));
    WaitingKnown(s);
    if Looks(ev) {
      SightAfterLook(s, ev, sight, broken);
    } else {
      SightStays(s, ev, sight, broken);
      SightMore(Next(s, ev), sight, broken, broken + BrokenNow(s, ev));
    }
  }

  lemma WaitingKnown(s: State)
    requires Inv(s)
    ensures s.phase.Waiting? ==> Key(s.phase.batch) in s.receipts
  {
    hide HubsOk, ReceiptsOk, RunsOk, ThreadsIdle, SavesOk, NoticesOk, Drawn;
  }

  lemma {:induction false} RunSight(s: State, evs: seq<Event>, late: bool, sight: Sight, broken: set<nat>)
    requires Inv(s) && Possible(s, evs, late) && FlagsOk(s, broken) && SightOk(s, sight, broken)
    ensures var t := After(s, evs, late);
            var all := broken + BrokenRuns(s, evs, late);
            Inv(t) && FlagsOk(t, all) && SightOk(t, Sighted(s, evs, late, sight), all)
    decreases |evs|
  {
    hide Inv, Next, Enabled, FlagsOk, SightOk, BrokenNow, Look;
    if evs == [] {
      assert broken + {} == broken;
    } else {
      StepKeeps(s, evs[0]);
      StepSight(s, evs[0], sight, broken);
      RunSight(Next(s, evs[0]), evs[1..], late, Look(s, evs[0], sight), broken + BrokenNow(s, evs[0]));
      assert broken + BrokenNow(s, evs[0]) + BrokenRuns(Next(s, evs[0]), evs[1..], late)
          == broken + (BrokenNow(s, evs[0]) + BrokenRuns(Next(s, evs[0]), evs[1..], late));
    }
  }

  /**
   Over every history: a failure notice is attempted only for a Run that failed or
   whose waiting broke off, so without a `Break` never for a Run that did not fail.
   A batch whose Run was seen to have failed, or whose waiting broke off, is closed
   only with its notice accounted for. One that is closed with its Run failed and
   unnoticed was last seen running, or the loop was stopped.
   */
  lemma NoticesFollowFailures(s: State, evs: seq<Event>)
    requires Initial(s) && Possible(s, evs, true)
    ensures var t := After(s, evs, true);
            var sight := Sighted(s, evs, true, Unseen);
            && (forall i :: 0 <= i < |t.notices| ==> Faulted(t, t.notices[i], BrokenRuns(s, evs, true)))
            && (t.phase.Closing? ==>
                  var key := Key(t.phase.batch);
                  && (sight.SawFailure? || sight.Broken? ==> key in t.receipts && t.receipts[key].notice)
                  && (key in t.receipts && !t.receipts[key].notice && t.receipts[key].run in t.runs
                      && t.runs[t.receipts[key].run].status == Ended(false) ==>
                        sight.SawRunning? || sight.Stopped?))
  {
    hide *;
    InitialInv(s);
    NothingSeen(s);
    RunSight(s, evs, true, Unseen, {});
    var t, broken := After(s, evs, true), BrokenRuns(s, evs, true);
    assert {} + broken == broken;
    forall i | 0 <= i < |t.notices| ensures Faulted(t, t.notices[i], broken) {
      NoticedFault(t, t.notices[i], broken);
    }
    if t.phase.Closing? {
      SightAtClose(t, Sighted(s, evs, true, Unseen), broken);
    }
  }

  lemma NothingSeen(s: State)
    requires Initial(s)
    ensures FlagsOk(s, {}) && SightOk(s, Unseen, {})
  {
  }

  lemma SightAtClose(t: State, sight: Sight, broken: set<nat>)
    requires Inv(t) && SightOk(t, sight, broken) && t.phase.Closing?
    ensures var key := Key(t.phase.batch);
            && (sight.SawFailure? || sight.Broken? ==> key in t.receipts && t.receipts[key].notice)
            && (key in t.receipts && !t.receipts[key].notice && t.receipts[key].run in t.runs
                && t.runs[t.receipts[key].run].status == Ended(false) ==>
                  sight.SawRunning? || sight.Stopped?)
  {
    hide Inv, HasIncoming, Faulted;
    if Key(t.phase.batch) in t.receipts {
      HandKnown(t);
    }
  }

  lemma NoticedFault(t: State, run: nat, broken: set<nat>)
    requires Inv(t) && FlagsOk(t, broken) && run in t.notices
    ensures Faulted(t, run, broken)
  {
    hide HubsOk, ReceiptsOk, RunsOk, ThreadsIdle, SavesOk, PhaseOk, Faulted;
    assert Noticed(t, run);
    var key :| key in t.receipts && NoticedBy(t.receipts[key], run);
  }

  /** A batch in hand that was admitted has something incoming. */
  lemma HandKnown(t: State)
    requires Inv(t) && t.phase.Closing? && Key(t.phase.batch) in t.receipts
    ensures HasIncoming(t.phase.batch.entries)
  {
    hide HubsOk, RunsOk, ThreadsIdle, SavesOk, NoticesOk, Drawn;
    assert ReceiptOk(t, Key(t.phase.batch));
  }

  // ---------------------------------------------------------------------
  // Messages, when access is refused only with nothing on the wire
  // ---------------------------------------------------------------------

  /** Admitted ranges of a conversation do not overlap. */
  predicate Disjoint(s: State) {
    forall a, b :: a in s.receipts && b in s.receipts && a.0 == b.0 && a.1 < b.1 ==> s.receipts[a].through <= b.1
  }

  /** The cursor stands at the start or past the end of every admitted range. */
  predicate Aligned(s: State) {
    forall key :: key in s.receipts ==>
      key.0 in s.hubs && (s.receipts[key].through <= s.hubs[key.0].cursor || key.1 == s.hubs[key.0].cursor)
  }

  predicate WireBehind(s: State) {
    forall save :: save in s.wire ==>
      save.scope in s.hubs && (s.pending == Some(save) || save.through <= s.hubs[save.scope].cursor)
  }

  predicate PendingPast(s: State) {
    s.pending.Some? ==> forall key :: key in s.receipts && key.0 == s.pending.value.scope ==>
      s.receipts[key].through <= s.pending.value.through
  }

  predicate HandAtCursor(s: State) {
    InHand(s.phase) ==> s.phase.batch.scope in s.hubs && s.phase.batch.after == s.hubs[s.phase.batch.scope].cursor
  }

  predicate Tiled(s: State) {
    Disjoint(s) && Aligned(s) && WireBehind(s) && PendingPast(s) && HandAtCursor(s)
  }

  /** Only an open save can move the cursor. */
  lemma CursorStill(s: State, ev: Event, scope: Scope)
    requires Enabled(s, ev, true) && WireBehind(s) && scope in s.hubs
    ensures scope in Next(s, ev).hubs
    ensures Next(s, ev).hubs[scope].cursor == s.hubs[scope].cursor
            || (s.pending.Some? && s.pending.value.scope == scope && (ev.Saved? || ev == Land(s.pending.value))
                && Next(s, ev).hubs[scope].cursor == s.pending.value.through)
  {
    hide *;
    HubChanges(s, ev, scope);
    if ev.Saved? && s.pending.Some? && s.pending.value.scope in s.hubs {
      MovedCursor(s, s.pending.value, scope);
    } else if ev.Land? && ev.save in s.wire && ev.save.scope in s.hubs {
      BehindOrOpen(s, ev.save);
      MovedCursor(s, ev.save, scope);
    }
  }

  lemma BehindOrOpen(s: State, save: Save)
    requires WireBehind(s) && save in s.wire && save.scope in s.hubs
    ensures s.pending == Some(save) || save.through <= s.hubs[save.scope].cursor
  {
  }

  lemma MovedCursor(s: State, save: Save, scope: Scope)
    requires save.scope in s.hubs && scope in s.hubs
    ensures var hubs := Moved(s, save).hubs;
            && scope in hubs
            && (hubs[scope].cursor == s.hubs[scope].cursor
                || (scope == save.scope && save.through > s.hubs[scope].cursor && hubs[scope].cursor == save.through))
  {
    hide Tail;
  }

  /** The through of a batch in hand is past every admitted range of its conversation. */
  lemma HandPast(s: State)
    requires Inv(s) && Tiled(s) && InHand(s.phase)
    ensures forall key :: key in s.receipts && key.0 == s.phase.batch.scope ==>
              s.receipts[key].through <= s.phase.batch.through && (key.1 < s.phase.batch.after ==>
                s.receipts[key].through <= s.phase.batch.after) && key.1 <= s.phase.batch.after
  {
    hide HubsOk, RunsOk, ThreadsIdle, SavesOk, NoticesOk, HasIncoming;
    forall key | key in s.receipts ensures key.1 < s.receipts[key].through {
      assert ReceiptOk(s, key);
    }
  }

  lemma ReceiptRange(s: State, ev: Event)
    requires Enabled(s, ev, true) && Grows(s, Next(s, ev))
    ensures var t := Next(s, ev);
            forall key :: key in t.receipts ==>
              (key in s.receipts && t.receipts[key].through == s.receipts[key].through)
              || (ev.Admit? && InHand(s.phase) && key == Key(s.phase.batch)
                  && t.receipts[key].through == s.phase.batch.through)
  {
    hide HubsGrow, RunsGrow, HasIncoming, Busy;
    NewReceipt(s, ev);
  }

  predicate Strict(s: State, ev: Event) {
    Enabled(s, ev, false) && Enabled(s, ev, true)
  }

  lemma TilesDisjoint(s: State, ev: Event)
    requires Inv(s) && Tiled(s) && Strict(s, ev)
    ensures Disjoint(Next(s, ev))
  {
    hide Inv, Next, Enabled, Grows, Aligned, WireBehind, PendingPast, HandAtCursor;
    StepGrows(s, ev);
    ReceiptRange(s, ev);
    if InHand(s.phase) {
      HandPast(s);
      FreshKey(s, ev);
    }
  }

  lemma FreshKey(s: State, ev: Event)
    requires Enabled(s, ev, true) && InHand(s.phase)
    ensures ev.Admit? ==> Key(s.phase.batch) !in s.receipts
  {
    hide HasIncoming, Busy;
  }

  lemma HandAlone(s: State)
    requires Inv(s) && InHand(s.phase)
    ensures s.pending.None?
  {
    hide HubsOk, ReceiptsOk, RunsOk, ThreadsIdle, SavesOk, NoticesOk, Drawn;
  }

  lemma TilesAligned(s: State, ev: Event)
    requires Inv(s) && Tiled(s) && Strict(s, ev)
    ensures Aligned(Next(s, ev))
  {
    hide Inv, Next, Enabled, Grows, Disjoint, WireBehind;
    var t := Next(s, ev);
    StepGrows(s, ev);
    ReceiptRange(s, ev);
    if InHand(s.phase) {
      HandAlone(s);
    }
    forall scope | scope in s.hubs
      ensures scope in t.hubs
      ensures t.hubs[scope].cursor == s.hubs[scope].cursor
              || (s.pending.Some? && s.pending.value.scope == scope
                  && t.hubs[scope].cursor == s.pending.value.through)
    {
      CursorStill(s, ev, scope);
    }
  }

  /** An open save is let go only once it has landed, or with nothing of it left on the wire. */
  lemma PendingSettles(s: State, ev: Event)
    requires Strict(s, ev) && s.pending.Some? && s.pending.value.scope in s.hubs && !InHand(s.phase)
    ensures var t := Next(s, ev);
            var save := s.pending.value;
            save in t.wire ==>
              save.scope in t.hubs && (t.pending == s.pending || save.through <= t.hubs[save.scope].cursor)
  {
    hide Choose, Trimmed, HasIncoming, Busy, Acknowledged;
  }

  lemma TilesWire(s: State, ev: Event)
    requires Inv(s) && Tiled(s) && Strict(s, ev)
    ensures WireBehind(Next(s, ev))
  {
    hide Inv, Next, Enabled, Grows, Disjoint, Aligned, PendingPast, HandAtCursor;
    var t := Next(s, ev);
    StepGrows(s, ev);
    if InHand(s.phase) {
      HandAlone(s);
    }
    if s.pending.Some? {
      WireScope(s, s.pending.value);
      PendingSettles(s, ev);
    }
    forall save | save in t.wire
      ensures save.scope in t.hubs && (t.pending == Some(save) || save.through <= t.hubs[save.scope].cursor)
    {
      WireFrom(s, ev, save);
      WireScope(s, save);
      CursorGrows(s, t, save.scope);
    }
  }

  lemma CursorGrows(s: State, t: State, scope: Scope)
    requires Grows(s, t) && scope in s.hubs
    ensures scope in t.hubs && s.hubs[scope].cursor <= t.hubs[scope].cursor
  {
  }

  lemma WireScope(s: State, save: Save)
    requires Inv(s) && (save in s.wire || s.pending == Some(save))
    ensures save.scope in s.hubs
  {
    hide HubsOk, ReceiptsOk, RunsOk, ThreadsIdle, PhaseOk, NoticesOk, Safe;
  }

  lemma WireFrom(s: State, ev: Event, save: Save)
    requires Strict(s, ev) && save in Next(s, ev).wire
    ensures save in s.wire || s.pending == Some(save)
  {
    hide Choose, Trimmed, HasIncoming, Busy, Acknowledged;
  }

  lemma TilesPending(s: State, ev: Event)
    requires Inv(s) && Tiled(s) && Strict(s, ev)
    ensures PendingPast(Next(s, ev))
  {
    hide Inv, Next, Enabled, Grows, Disjoint, Aligned, WireBehind, HandAtCursor;
    StepGrows(s, ev);
    ReceiptRange(s, ev);
    PendingFrom(s, ev);
    if InHand(s.phase) {
      HandAlone(s);
      HandPast(s);
    }
  }

  lemma PendingFrom(s: State, ev: Event)
    requires Enabled(s, ev, true)
    ensures var t := Next(s, ev);
            || t.pending.None? || t.pending == s.pending
            || (ev.Close? && InHand(s.phase) && t.pending == Some(Save(s.phase.batch.scope, s.phase.batch.through)))
  {
    hide Choose, Trimmed, HasIncoming, Busy, Acknowledged;
  }

  lemma TilesHand(s: State, ev: Event)
    requires Inv(s) && Tiled(s) && Strict(s, ev)
    ensures HandAtCursor(Next(s, ev))
  {
    var t := Next(s, ev);
    HandStays(s, ev);
    if InHand(t.phase) {
      if ev.Pick? {
        CursorStill(s, ev, ev.scope);
      } else {
        HandAlone(s);
        CursorStill(s, ev, s.phase.batch.scope);
      }
    }
    hide Inv, Grows, Disjoint, Aligned, PendingPast, Trimmed, HasIncoming, Busy, Acknowledged;
  }

  lemma StepTiles(s: State, ev: Event)
    requires Inv(s) && Tiled(s) && Strict(s, ev)
    ensures Tiled(Next(s, ev))
  {
    hide Inv, Next, Enabled, Disjoint, Aligned, WireBehind, PendingPast, HandAtCursor;
    TilesDisjoint(s, ev);
    TilesAligned(s, ev);
    TilesWire(s, ev);
    TilesPending(s, ev);
    TilesHand(s, ev);
  }

  lemma {:induction false} RunTiles(s: State, evs: seq<Event>)
    requires Inv(s) && Tiled(s) && Possible(s, evs, false)
    ensures Inv(After(s, evs, false)) && Tiled(After(s, evs, false))
    decreases |evs|
  {
    hide Inv, Tiled, Next, Enabled;
    if evs != [] {
      StepKeeps(s, evs[0]);
      StepTiles(s, evs[0]);
      RunTiles(Next(s, evs[0]), evs[1..]);
    }
  }

  /**
   Over any history of crashes and of lost and late saves, no message reaches two
   Runs, unless the loop forgot a save on the wire: access to the conversation was
   refused, or the hub changed.
   */
  lemma MessagesOnce(s: State, evs: seq<Event>, a: (Scope, nat), b: (Scope, nat), e: Entry)
    requires Initial(s) && Possible(s, evs, false)
    requires a in After(s, evs, false).receipts && b in After(s, evs, false).receipts && a.0 == b.0
    requires e in After(s, evs, false).receipts[a].entries && e in After(s, evs, false).receipts[b].entries
    ensures a == b
  {
    hide Inv, After, Possible, Aligned, WireBehind, PendingPast, HandAtCursor, Disjoint, Tiled;
    InitialInv(s);
    InitialTiled(s);
    RunTiles(s, evs);
    OnlyOne(After(s, evs, false), a, b, e);
  }

  lemma InitialTiled(s: State)
    requires Initial(s)
    ensures Tiled(s)
  {
  }

  lemma OnlyOne(t: State, a: (Scope, nat), b: (Scope, nat), e: Entry)
    requires Inv(t) && Tiled(t) && a in t.receipts && b in t.receipts && a.0 == b.0
    requires e in t.receipts[a].entries && e in t.receipts[b].entries
    ensures a == b
  {
    hide HubsOk, RunsOk, ThreadsIdle, SavesOk, PhaseOk, NoticesOk, HasIncoming, Aligned, WireBehind, PendingPast,
      HandAtCursor;
    assert ReceiptOk(t, a) && ReceiptOk(t, b);
    assert InBatch(e, a.1, t.receipts[a].through) && InBatch(e, b.1, t.receipts[b].through);
  }

  // ---------------------------------------------------------------------
  // Messages, over every history
  // ---------------------------------------------------------------------

  predicate Shares(s: State, b: Batch, key: (Scope, nat), e: Entry)
    requires key in s.receipts
  {
    key.0 == b.scope && key != Key(b) && e.incoming && e in b.entries && e in s.receipts[key].entries
  }

  /** An incoming message of the batch was already admitted with another one. */
  ghost predicate Repeats(s: State, b: Batch) {
    exists key, e :: key in s.receipts && Shares(s, b, key, e)
  }

  predicate Inside(s: State, scope: Scope, key: (Scope, nat), e: Entry)
    requires scope in s.hubs && key in s.receipts
  {
    var hub := s.hubs[scope];
    && key.0 == scope && key.1 < hub.cursor < e.pos <= s.receipts[key].through
    && e in hub.log && e.incoming && e.pos >= hub.first
  }

  /**
   The saved cursor stands strictly inside the range of an admitted batch, with an
   incoming message still retained in the rest of that range.
   */
  ghost predicate Reread(s: State, scope: Scope)
    requires scope in s.hubs
  {
    exists key, e :: key in s.receipts && Inside(s, scope, key, e)
  }

  function Elements(log: seq<Entry>): (all: set<Entry>)
    ensures |all| <= |log|
    ensures forall e :: e in all <==> e in log
  {
    if log == [] then {} else Elements(log[1..]) + {log[0]}
  }

  lemma {:induction false} OrderedCount(log: seq<Entry>)
    requires Ordered(log)
    ensures |Elements(log)| == |log|
  {
    if log != [] {
      forall i | 0 <= i < |log| - 1 ensures log[1..][i] == log[i + 1] {
      }
      OrderedCount(log[1..]);
      assert log[0] !in log[1..];
    }
  }

  /** A full read that misses an entry holds as many earlier ones as a batch can. */
  lemma ReadReaches(s: State, scope: Scope, key: (Scope, nat), e: Entry)
    requires scope in s.hubs && HubOk(s, scope) && key in s.receipts && ReceiptOk(s, key) && Inside(s, scope, key, e)
    ensures e in Read(s.hubs[scope], s.hubs[scope].cursor) && e in s.receipts[key].entries
  {
    hide Safe, Ordered, Retained, HasIncoming;
    var hub, r := s.hubs[scope], s.receipts[key];
    RetainedIs(hub.log, hub.first, hub.cursor);
    var all, entries := Retained(hub.log, hub.first, hub.cursor), Read(hub, hub.cursor);
    assert InBatch(e, key.1, r.through);
    if e !in entries {
      assert |all| > CONTEXT;
      var k := Later(all, CONTEXT, e);
      forall x | x in entries ensures x in r.entries {
        var i :| 0 <= i < |entries| && entries[i] == x;
        assert all[i] == x && x in all;
        OrderedAt(all, k, i);
        assert InBatch(x, key.1, r.through);
      }
      PrefixOrdered(all, CONTEXT);
      OrderedCount(entries);
      TooMany(Elements(entries), e, Elements(r.entries));
    }
  }

  lemma Later(log: seq<Entry>, n: nat, e: Entry) returns (k: nat)
    requires n < |log| && e in log && e !in log[..n]
    ensures n <= k < |log| && log[k] == e
  {
    assert log == log[..n] + log[n..];
    var j :| 0 <= j < |log| - n && log[n..][j] == e;
    k := n + j;
  }

  lemma PrefixOrdered(log: seq<Entry>, n: nat)
    requires Ordered(log) && n <= |log|
    ensures Ordered(log[..n])
  {
  }

  lemma TooMany(a: set<Entry>, e: Entry, b: set<Entry>)
    requires a <= b && e in b && e !in a
    ensures |a| < |b|
  {
    assert |b| == |a| + |b - a|;
    assert e in b - a;
  }

  /** A fresh read repeats a message exactly when the cursor stands inside an admitted range before it. */
  lemma PickRepeats(s: State, scope: Scope)
    requires Inv(s) && scope in s.hubs && Choose(s, scope).Some? && (scope, s.hubs[scope].cursor) !in s.receipts
    ensures Repeats(s, Choose(s, scope).value) <==> Reread(s, scope)
  {
    hide Safe, Ordered, Retained, HasIncoming, Drawn, Read, RunsOk, ThreadsIdle, SavesOk, PhaseOk, NoticesOk, ReceiptOk;
    var b, hub := Choose(s, scope).value, s.hubs[scope];
    if Repeats(s, b) {
      var key, e :| key in s.receipts && Shares(s, b, key, e);
      assert ReceiptOk(s, key);
      SharedInside(s, scope, key, e);
      assert Inside(s, scope, key, e);
    }
    if Reread(s, scope) {
      var key, e :| key in s.receipts && Inside(s, scope, key, e);
      assert HubOk(s, scope) && ReceiptOk(s, key);
      ReadReaches(s, scope, key, e);
      assert Shares(s, b, key, e);
    }
  }

  lemma SharedInside(s: State, scope: Scope, key: (Scope, nat), e: Entry)
    requires scope in s.hubs && HubOk(s, scope) && key in s.receipts && ReceiptOk(s, key)
    requires key.0 == scope && key.1 != s.hubs[scope].cursor && e.incoming
    requires e in Read(s.hubs[scope], s.hubs[scope].cursor) && e in s.receipts[key].entries
    ensures Inside(s, scope, key, e)
  {
    hide Safe, Ordered, Retained, HasIncoming;
    var hub := s.hubs[scope];
    RetainedIs(hub.log, hub.first, hub.cursor);
    assert e in Retained(hub.log, hub.first, hub.cursor);
  }

  /** No incoming message is in two receipts. */
  ghost predicate Once(s: State) {
    forall a, b, e: Entry ::
      a in s.receipts && b in s.receipts && a.0 == b.0 && e.incoming
      && e in s.receipts[a].entries && e in s.receipts[b].entries ==>
        a == b
  }

  /** The batch in hand was picked with the cursor inside an admitted range. */
  ghost function Hot(s: State, ev: Event, hot: bool): bool {
    if ev.Pick? && ev.scope in s.hubs then Reread(s, ev.scope) else hot
  }

  /** No batch was admitted that had been picked with the cursor inside an admitted range. */
  ghost predicate Clean(s: State, evs: seq<Event>, hot: bool)
    requires Possible(s, evs, true)
    decreases |evs|
  {
    evs == [] || (!(evs[0].Admit? && hot) && Clean(Next(s, evs[0]), evs[1..], Hot(s, evs[0], hot)))
  }

  ghost predicate HotOk(s: State, hot: bool) {
    s.phase.Chosen? && Key(s.phase.batch) !in s.receipts ==> (hot <==> Repeats(s, s.phase.batch))
  }

  lemma ReceiptsSame(s: State, ev: Event)
    requires Enabled(s, ev, true)
    ensures var t := Next(s, ev);
            && ReceiptsGrow(s.receipts, t.receipts)
            && (!ev.Admit? ==> t.receipts.Keys == s.receipts.Keys)
            && (ev.Admit? ==> s.phase.Chosen? && Key(s.phase.batch) !in s.receipts
                              && t.receipts.Keys == s.receipts.Keys + {Key(s.phase.batch)}
                              && t.receipts[Key(s.phase.batch)].entries == s.phase.batch.entries)
            && (t.phase.Chosen? && !ev.Pick? ==> s.phase.Chosen? && t.phase.batch == s.phase.batch)
            && (ev.Pick? ==> ev.scope in s.hubs && Choose(s, ev.scope).Some?
                             && t.receipts == s.receipts && t.phase == Chosen(Choose(s, ev.scope).value))
  {
    hide Choose, Next, Enabled, RunsGrow;
    StepKeepsReceipts(s, ev);
    ReceiptChanges(s, ev);
    ChosenFrom(s, ev);
    if ev.Pick? {
      PickIs(s, ev);
    }
  }

  lemma ChosenFrom(s: State, ev: Event)
    requires Enabled(s, ev, true)
    ensures Next(s, ev).phase.Chosen? && !ev.Pick? ==>
              s.phase.Chosen? && Next(s, ev).phase.batch == s.phase.batch
    ensures ev.Admit? ==> s.phase.Chosen? && Key(s.phase.batch) !in s.receipts
                          && Key(s.phase.batch) in Next(s, ev).receipts
  {
    hide Choose, Trimmed, Acknowledged, HasIncoming, Busy, Moved, Accepts, Tail;
    if ev.Saved? {
      MovedOnly(s, s.pending.value);
    } else if ev.Land? {
      MovedOnly(s, ev.save);
    }
  }

  lemma SharesSame(s: State, t: State, b: Batch)
    requires ReceiptsGrow(s.receipts, t.receipts) && t.receipts.Keys == s.receipts.Keys
    ensures Repeats(s, b) <==> Repeats(t, b)
    ensures Once(s) <==> Once(t)
  {
    forall key, e | key in s.receipts ensures Shares(s, b, key, e) <==> Shares(t, b, key, e) {
    }
  }

  lemma AdmitOnce(s: State, t: State, b: Batch)
    requires ReceiptsGrow(s.receipts, t.receipts) && Key(b) !in s.receipts
    requires t.receipts.Keys == s.receipts.Keys + {Key(b)} && t.receipts[Key(b)].entries == b.entries
    ensures Once(t) <==> Once(s) && !Repeats(s, b)
  {
    hide ReceiptsGrow;
    SameEntries(s, t);
    if Once(t) {
      OnceBefore(s, t, b);
    }
    if Once(s) && !Once(t) {
      TwiceAfter(s, t, b);
    }
  }

  lemma SameEntries(s: State, t: State)
    requires ReceiptsGrow(s.receipts, t.receipts)
    ensures forall key :: key in s.receipts ==> key in t.receipts && t.receipts[key].entries == s.receipts[key].entries
  {
    forall key | key in s.receipts ensures key in t.receipts && t.receipts[key].entries == s.receipts[key].entries {
      assert BatchOf(key, t.receipts[key]) == BatchOf(key, s.receipts[key]);
    }
  }

  lemma OnceBefore(s: State, t: State, b: Batch)
    requires forall key :: key in s.receipts ==> key in t.receipts && t.receipts[key].entries == s.receipts[key].entries
    requires Key(b) in t.receipts && t.receipts[Key(b)].entries == b.entries && Once(t)
    ensures Once(s) && !Repeats(s, b)
  {
    forall key, e | key in s.receipts ensures !Shares(s, b, key, e) {
      assert key in t.receipts && t.receipts[key].entries == s.receipts[key].entries;
    }
  }

  lemma TwiceAfter(s: State, t: State, b: Batch)
    requires forall key :: key in s.receipts ==> key in t.receipts && t.receipts[key].entries == s.receipts[key].entries
    requires t.receipts.Keys == s.receipts.Keys + {Key(b)} && t.receipts[Key(b)].entries == b.entries
    requires Once(s) && !Once(t)
    ensures Repeats(s, b)
  {
    var x, y, e: Entry :|
      x in t.receipts && y in t.receipts && x.0 == y.0 && e.incoming
      && e in t.receipts[x].entries && e in t.receipts[y].entries && x != y;
    if x == Key(b) {
      assert Shares(s, b, y, e);
    } else {
      assert Shares(s, b, x, e);
    }
  }

  lemma StepOnce(s: State, ev: Event, hot: bool)
    requires Inv(s) && Enabled(s, ev, true) && HotOk(s, hot)
    ensures HotOk(Next(s, ev), Hot(s, ev, hot))
    ensures Once(Next(s, ev)) <==> Once(s) && !(ev.Admit? && hot)
  {
    hide Inv, Next, Enabled, Once, Repeats, Reread, ReceiptsGrow, Choose;
    var t := Next(s, ev);
    ReceiptsSame(s, ev);
    if ev.Admit? {
      AdmitOnce(s, t, s.phase.batch);
    } else {
      SharesSame(s, t, if t.phase.Chosen? then t.phase.batch else Batch("", 0, 0, []));
      if ev.Pick? {
        ChosenKey(s, ev.scope);
        if (ev.scope, s.hubs[ev.scope].cursor) !in s.receipts {
          PickRepeats(s, ev.scope);
        }
      }
    }
  }

  lemma ChosenKey(s: State, scope: Scope)
    requires scope in s.hubs && Choose(s, scope).Some?
    ensures Key(Choose(s, scope).value) == (scope, s.hubs[scope].cursor)
  {
    hide Read;
  }

  lemma {:induction false} RunOnce(s: State, evs: seq<Event>, hot: bool)
    requires Inv(s) && HotOk(s, hot) && Possible(s, evs, true)
    ensures Once(After(s, evs, true)) <==> Once(s) && Clean(s, evs, hot)
    decreases |evs|
  {
    hide Inv, Next, Enabled, Once, HotOk, Hot;
    if evs != [] {
      StepKeeps(s, evs[0]);
      StepOnce(s, evs[0], hot);
      RunOnce(Next(s, evs[0]), evs[1..], Hot(s, evs[0], hot));
    }
  }

  /**
   Over every history, each incoming message is in at most one receipt if and only
   if no batch was admitted that had been picked with the saved cursor strictly
   inside an admitted range before an incoming message it still retained.
   */
  lemma OnceExactly(s: State, evs: seq<Event>)
    requires Initial(s) && Possible(s, evs, true)
    ensures Once(After(s, evs, true)) <==> Clean(s, evs, false)
  {
    hide Inv, After, Possible, Clean;
    InitialInv(s);
    RunOnce(s, evs, false);
  }

  // ---------------------------------------------------------------------
  // A refused access can hand a message to two Runs
  // ---------------------------------------------------------------------

  const ROOM: Scope := "room"
  const QUIET := Entry(1, false)
  const ASKED := Entry(2, true)
  const EARLY := Save(ROOM, 1)

  predicate Leads(s: State, evs: seq<Event>, t: State) {
    Possible(s, evs, true) && After(s, evs, true) == t
  }

  lemma One(s: State, ev: Event)
    requires Enabled(s, ev, true)
    ensures Leads(s, [ev], Next(s, ev))
  {
    hide Enabled, Next;
    assert [ev][1..] == [] && [ev][0] == ev;
    assert Possible(Next(s, ev), [], true) && After(Next(s, ev), [], true) == Next(s, ev);
  }

  lemma Then(s: State, a: seq<Event>, t: State, ev: Event)
    requires Leads(s, a, t) && Enabled(t, ev, true)
    ensures Leads(s, a + [ev], Next(t, ev))
  {
    hide Enabled, Next;
    One(t, ev);
    Joined(s, a, [ev]);
  }

  lemma RetainedSnoc(log: seq<Entry>, e: Entry, first: nat, after: nat)
    ensures Retained(log + [e], first, after) ==
            Retained(log, first, after) + if e.pos > after && e.pos >= first then [e] else []
  {
    assert (log + [e])[..|log|] == log;
  }

  lemma RoomReads()
    ensures Retained([QUIET], 0, 0) == [QUIET]
    ensures Retained([QUIET, ASKED], 0, 0) == [QUIET, ASKED]
    ensures Retained([QUIET, ASKED], 0, 1) == [ASKED]
  {
    RetainedSnoc([], QUIET, 0, 0);
    RetainedSnoc([], QUIET, 0, 1);
    RetainedSnoc([QUIET], ASKED, 0, 0);
    RetainedSnoc([QUIET], ASKED, 0, 1);
    assert [] + [QUIET] == [QUIET] && [QUIET] + [ASKED] == [QUIET, ASKED];
  }

  /** The loop reads a batch holding nothing for it to handle. */
  lemma QuietBatch() returns (s: State, t: State, evs: seq<Event>)
    ensures Initial(s) && Leads(s, evs, t)
    ensures t == State(map[ROOM := Hub([QUIET], 0, 0)], map[], map[], {}, [], {}, None,
                       Closing(Batch(ROOM, 0, 1, [QUIET])))
  {
    hide Retained, Leads, Busy;
    RoomReads();
    s := State(map[ROOM := Hub([], 0, 0)], map[], map[], {}, [], {}, None, Idle);
    var b := Batch(ROOM, 0, 1, [QUIET]);
    var s1 := s.(hubs := map[ROOM := Hub([QUIET], 0, 0)]);
    assert [] + [QUIET] == [QUIET];
    assert Next(s, Arrive(ROOM, QUIET)) == s1;
    One(s, Arrive(ROOM, QUIET));
    evs := [Arrive(ROOM, QUIET)];
    assert Choose(s1, ROOM) == Some(b);
    Then(s, evs, s1, Pick(ROOM));
    evs := evs + [Pick(ROOM)];
    hide Choose;
    Then(s, evs, s1.(phase := Chosen(b)), Skip);
    evs := evs + [Skip];
    t := s1.(phase := Closing(b));
  }

  /** Its save is sent and given up, and access is refused while it is still on the wire. */
  lemma SaveLeftBehind() returns (s: State, evs: seq<Event>)
    ensures Initial(s)
    ensures Leads(s, evs, State(map[ROOM := Hub([QUIET], 0, 0)], map[], map[], {}, [], {EARLY}, None, Idle))
  {
    hide Initial, Possible, After, Enabled, Next;
    var t;
    s, t, evs := QuietBatch();
    var sent := QuietSave(t);
    Joined(s, evs, sent);
    evs := evs + sent;
    var forgotten := QuietForgotten(t.(wire := {EARLY}, pending := Some(EARLY), phase := Saving));
    Joined(s, evs, forgotten);
    evs := evs + forgotten;
  }

  lemma QuietSave(s: State) returns (evs: seq<Event>)
    requires s == State(map[ROOM := Hub([QUIET], 0, 0)], map[], map[], {}, [], {}, None,
                        Closing(Batch(ROOM, 0, 1, [QUIET])))
    ensures Leads(s, evs, s.(wire := {EARLY}, pending := Some(EARLY), phase := Saving))
  {
    hide Leads, Busy, Choose, Tail, Accepts;
    assert !HasIncoming([QUIET]);
    One(s, Close);
    evs := [Close] + [Issue];
    var t := s.(pending := Some(EARLY), phase := Saving);
    assert Next(s, Close) == t;
    assert Next(t, Issue) == t.(wire := {EARLY});
    Then(s, [Close], t, Issue);
  }

  lemma QuietForgotten(s: State) returns (evs: seq<Event>)
    requires s.pending.Some? && s.phase.Saving?
    ensures Leads(s, evs, s.(pending := None, phase := Idle))
  {
    hide Leads, Busy, Choose, Tail, Accepts;
    One(s, GaveUp);
    evs := [GaveUp] + [Denied];
    Then(s, [GaveUp], s.(phase := Idle), Denied);
  }

  /** Turning to another hub forgets the save just as refused access does. */
  lemma SwitchForgets(s: State)
    requires Enabled(s, Switched, true)
    ensures Enabled(s, Denied, true) && Next(s, Switched) == Next(s, Denied)
  {
  }

  /** Back in, the loop reads the same batch with a new message in it, and the old save lands under it. */
  lemma LandsUnder(s: State) returns (t: State, evs: seq<Event>)
    requires s == State(map[ROOM := Hub([QUIET], 0, 0)], map[], map[], {}, [], {EARLY}, None, Idle)
    ensures Leads(s, evs, t)
    ensures t.hubs == map[ROOM := Hub([QUIET, ASKED], 0, 1)] && t.phase == Idle && t.pending == None
    ensures t.receipts == map[(ROOM, 0) := Receipt(2, [QUIET, ASKED], 7, false)]
    ensures t.runs == map[7 := Run(ROOM, 0, Ended(true))]
  {
    hide *;
    var u, first := LongerBatch(s);
    var second := LandsAndStops(u);
    evs := first + second;
    t := u.(hubs := map[ROOM := Hub([QUIET, ASKED], 0, 1)], wire := {}, runs := map[7 := Run(ROOM, 0, Ended(true))],
            phase := Idle);
    LeadsBoth(s, first, u, second, t);
  }

  lemma LeadsBoth(s: State, a: seq<Event>, t: State, b: seq<Event>, u: State)
    requires Leads(s, a, t) && Leads(t, b, u)
    ensures Leads(s, a + b, u)
  {
    hide Enabled, Next;
    Joined(s, a, b);
  }

  lemma LongerBatch(s: State) returns (t: State, evs: seq<Event>)
    requires s == State(map[ROOM := Hub([QUIET], 0, 0)], map[], map[], {}, [], {EARLY}, None, Idle)
    ensures Leads(s, evs, t)
    ensures t == State(map[ROOM := Hub([QUIET, ASKED], 0, 0)],
                       map[(ROOM, 0) := Receipt(2, [QUIET, ASKED], 7, false)],
                       map[7 := Run(ROOM, 0, Active)], {}, [], {EARLY}, None,
                       Waiting(Batch(ROOM, 0, 2, [QUIET, ASKED])))
  {
    hide Retained, Leads;
    RoomReads();
    var b := Batch(ROOM, 0, 2, [QUIET, ASKED]);
    assert [QUIET] + [ASKED] == [QUIET, ASKED];
    var s1 := s.(hubs := map[ROOM := Hub([QUIET, ASKED], 0, 0)]);
    assert Next(s, Arrive(ROOM, ASKED)) == s1;
    One(s, Arrive(ROOM, ASKED));
    evs := [Arrive(ROOM, ASKED)];
    assert Choose(s1, ROOM) == Some(b);
    Then(s, evs, s1, Pick(ROOM));
    evs := evs + [Pick(ROOM)];
    assert b.entries[1].incoming;
    Then(s, evs, s1.(phase := Chosen(b)), Admit(7));
    evs := evs + [Admit(7)];
    t := Next(s1.(phase := Chosen(b)), Admit(7));
  }

  /** The Run ends, the old save lands under the range, and the process is replaced before it saves. */
  lemma LandsAndStops(s: State) returns (evs: seq<Event>)
    requires s.hubs == map[ROOM := Hub([QUIET, ASKED], 0, 0)] && s.wire == {EARLY} && s.pending == None
    requires s.runs == map[7 := Run(ROOM, 0, Active)]
    ensures Leads(s, evs, s.(hubs := map[ROOM := Hub([QUIET, ASKED], 0, 1)], wire := {},
                             runs := map[7 := Run(ROOM, 0, Ended(true))], phase := Idle))
  {
    hide *;
    var t := s.(runs := map[7 := Run(ROOM, 0, Ended(true))]);
    RunEnded(s);
    var u := t.(hubs := map[ROOM := Hub([QUIET, ASKED], 0, 1)], wire := {});
    LandsEarly(t);
    LeadsBoth(s, [EndRun(7, true)], t, [Land(EARLY)], u);
    Replaced(u);
    evs := [EndRun(7, true)] + [Land(EARLY)] + [Crash, Register];
    LeadsBoth(s, [EndRun(7, true)] + [Land(EARLY)], u, [Crash, Register], u.(phase := Idle));
  }

  lemma RunEnded(s: State)
    requires s.runs == map[7 := Run(ROOM, 0, Active)]
    ensures Leads(s, [EndRun(7, true)], s.(runs := map[7 := Run(ROOM, 0, Ended(true))]))
  {
    hide Leads;
    var t := s.(runs := map[7 := Run(ROOM, 0, Ended(true))]);
    assert Next(s, EndRun(7, true)) == t;
    One(s, EndRun(7, true));
  }

  lemma LandsEarly(s: State)
    requires s.hubs == map[ROOM := Hub([QUIET, ASKED], 0, 0)] && s.wire == {EARLY}
    ensures Leads(s, [Land(EARLY)], s.(hubs := map[ROOM := Hub([QUIET, ASKED], 0, 1)], wire := {}))
  {
    hide Leads;
    assert Next(s, Land(EARLY)) == s.(hubs := map[ROOM := Hub([QUIET, ASKED], 0, 1)], wire := {});
    One(s, Land(EARLY));
  }

  lemma Replaced(s: State)
    requires s.wire == {} && s.pending == None
    ensures Leads(s, [Crash, Register], s.(phase := Idle))
  {
    hide Leads;
    One(s, Crash);
    Then(s, [Crash], s.(phase := Offline), Register);
    assert [Crash] + [Register] == [Crash, Register];
  }

  /** From there the message is admitted again, under the cursor the old save set. */
  lemma AdmittedAgain(s: State) returns (t: State, evs: seq<Event>)
    requires s.hubs == map[ROOM := Hub([QUIET, ASKED], 0, 1)] && s.phase == Idle && s.pending == None
    requires s.receipts == map[(ROOM, 0) := Receipt(2, [QUIET, ASKED], 7, false)]
    requires s.runs == map[7 := Run(ROOM, 0, Ended(true))]
    ensures Leads(s, evs, t)
    ensures t.receipts ==
            map[(ROOM, 0) := Receipt(2, [QUIET, ASKED], 7, false), (ROOM, 1) := Receipt(2, [ASKED], 8, false)]
  {
    hide Retained, Leads;
    RoomReads();
    var b := Batch(ROOM, 1, 2, [ASKED]);
    assert Choose(s, ROOM) == Some(b);
    One(s, Pick(ROOM));
    hide Choose;
    var s1 := s.(phase := Chosen(b));
    assert b.entries[0].incoming;
    Then(s, [Pick(ROOM)], s1, Admit(8));
    evs := [Pick(ROOM)] + [Admit(8)];
    t := Next(s1, Admit(8));
  }

  lemma {:induction false} Joined(s: State, a: seq<Event>, b: seq<Event>)
    requires Possible(s, a, true) && Possible(After(s, a, true), b, true)
    ensures Possible(s, a + b, true) && After(s, a + b, true) == After(After(s, a, true), b, true)
    decreases |a|
  {
    hide Enabled, Next;
    if a == [] {
      assert a + b == b;
    } else {
      assert (a + b)[1..] == a[1..] + b;
      Joined(Next(s, a[0]), a[1..], b);
    }
  }

  /** Refused while its save is on the wire, the loop can hand one message to two Runs. */
  lemma DeniedSaveRepeats() returns (s: State, evs: seq<Event>)
    ensures Initial(s) && Possible(s, evs, true)
    ensures var t := After(s, evs, true);
            && (ROOM, 0) in t.receipts && (ROOM, 1) in t.receipts
            && ASKED in t.receipts[(ROOM, 0)].entries && ASKED in t.receipts[(ROOM, 1)].entries
            && t.receipts[(ROOM, 0)].run != t.receipts[(ROOM, 1)].run && !Once(t)
  {
    hide Possible, After, Next, Enabled;
    var first, second, third, u, t;
    s, first := SaveLeftBehind();
    u, second := LandsUnder(After(s, first, true));
    Joined(s, first, second);
    t, third := AdmittedAgain(u);
    Joined(s, first + second, third);
    evs := first + second + third;
    assert [QUIET, ASKED][1] == ASKED && [ASKED][0] == ASKED;
  }

  // ---------------------------------------------------------------------
  // A batch goes through
  // ---------------------------------------------------------------------

  /** A closed batch whose Run has ended, or that had none to wait for, moves the cursor to its end. */
  lemma SavesThrough(s: State) returns (t: State)
    requires s.phase.Closing? && Acknowledged(s, s.phase.batch) && s.phase.batch.scope in s.hubs
    requires Accepts(s.hubs[s.phase.batch.scope], s.phase.batch.through)
    ensures Leads(s, [Close, Issue, Saved], t)
    ensures var b := s.phase.batch;
            && t.hubs == s.hubs[b.scope := s.hubs[b.scope].(cursor := b.through)]
            && t.phase == Idle && t.pending == None
            && t.receipts == s.receipts && t.runs == s.runs && t.notices == s.notices
  {
    hide Leads, Accepts, Acknowledged;
    var b := s.phase.batch;
    var closed := s.(pending := Some(Save(b.scope, b.through)), phase := Saving);
    var issued := closed.(wire := closed.wire + {closed.pending.value});
    assert Next(s, Close) == closed && Next(closed, Issue) == issued;
    t := Next(issued, Saved);
    assert t == issued.(hubs := t.hubs, pending := None, phase := Idle);
    One(s, Close);
    Then(s, [Close], closed, Issue);
    Then(s, [Close] + [Issue], issued, Saved);
    assert [Close] + [Issue] + [Saved] == [Close, Issue, Saved];
  }

  /** What follows once the Run of the batch in hand has ended: a notice first if it failed and had none. */
  function Remedy(failed: bool): seq<Event> {
    if failed then [Notice, Reply] else []
  }

  lemma ChosenAccepts(s: State, scope: Scope)
    requires Inv(s) && scope in s.hubs && Choose(s, scope).Some?
    ensures var b := Choose(s, scope).value;
            && b.scope == scope && b.after == s.hubs[scope].cursor && Accepts(s.hubs[scope], b.through)
            && Key(b) == (scope, b.after)
  {
    hide RunsOk, ThreadsIdle, SavesOk, PhaseOk, NoticesOk, Choose;
    ChooseDrawn(s, scope);
  }

  lemma AdmitsFresh(s: State, scope: Scope, run: nat) returns (t: State)
    requires s.phase == Idle && s.pending == None && scope in s.hubs && Choose(s, scope).Some?
    requires var b := Choose(s, scope).value;
             b.scope == scope && HasIncoming(b.entries) && Key(b) !in s.receipts && run !in s.runs && !Busy(s, scope)
    ensures var b := Choose(s, scope).value;
            && Leads(s, [Pick(scope), Admit(run)], t)
            && t == s.(receipts := s.receipts[Key(b) := Receipt(b.through, b.entries, run, false)],
                       runs := s.runs[run := Run(b.scope, b.after, Active)], phase := Waiting(b))
  {
    hide Leads, Choose, HasIncoming;
    var b := Choose(s, scope).value;
    var chosen := s.(phase := Chosen(b));
    One(s, Pick(scope));
    assert !Busy(chosen, scope);
    t := Next(chosen, Admit(run));
    Then(s, [Pick(scope)], chosen, Admit(run));
    assert [Pick(scope)] + [Admit(run)] == [Pick(scope), Admit(run)];
  }

  lemma EndsRun(s: State, run: nat, ok: bool)
    requires run in s.runs && s.runs[run].status.Active?
    ensures Enabled(s, EndRun(run, ok), true)
    ensures Next(s, EndRun(run, ok)) == s.(runs := s.runs[run := s.runs[run].(status := Ended(ok))])
  {
  }

  lemma FinishIs(s: State, run: nat, ok: bool)
    requires s.phase.Waiting? && Key(s.phase.batch) in s.receipts && s.receipts[Key(s.phase.batch)].run == run
    requires run in s.runs && s.runs[run].status == Ended(ok)
    ensures Enabled(s, Finish, true)
    ensures var b := s.phase.batch;
            Next(s, Finish) == s.(phase := if ok then Closing(b) else Failing(b))
  {
  }

  lemma NoticeIs(s: State) returns (t: State)
    requires s.phase.Failing? && Key(s.phase.batch) in s.receipts && !s.receipts[Key(s.phase.batch)].notice
    ensures Leads(s, [Notice, Reply], t)
    ensures var b := s.phase.batch;
            var r := s.receipts[Key(b)];
            t == s.(receipts := s.receipts[Key(b) := r.(notice := true)], notices := s.notices + [r.run],
                    phase := Closing(b))
  {
    hide Leads;
    var b := s.phase.batch;
    var flagged := s.(receipts := s.receipts[Key(b) := s.receipts[Key(b)].(notice := true)], phase := Replying(b));
    assert Next(s, Notice) == flagged;
    One(s, Notice);
    t := Next(flagged, Reply);
    Then(s, [Notice], flagged, Reply);
    assert [Notice] + [Reply] == [Notice, Reply];
  }

  lemma ClosesAfter(s: State)
    requires s.phase.Closing? && Key(s.phase.batch) in s.receipts
    requires var run := s.receipts[Key(s.phase.batch)].run; run in s.runs && s.runs[run].status.Ended?
    ensures Acknowledged(s, s.phase.batch)
  {
  }

  lemma RemedyIs(failed: bool, evs: seq<Event>)
    ensures evs + Remedy(failed) == if failed then evs + [Notice, Reply] else evs
  {
  }

  /** From the end of the Run of the batch waited for to the moved cursor. */
  lemma EndedThrough(s: State, run: nat, ok: bool) returns (t: State)
    requires s.phase.Waiting? && s.phase.batch.scope in s.hubs
    requires Accepts(s.hubs[s.phase.batch.scope], s.phase.batch.through)
    requires Key(s.phase.batch) in s.receipts && s.receipts[Key(s.phase.batch)].run == run
    requires !s.receipts[Key(s.phase.batch)].notice && run in s.runs && s.runs[run].status == Ended(ok)
    ensures Leads(s, [Finish] + Remedy(!ok) + [Close, Issue, Saved], t)
    ensures var b := s.phase.batch;
            && t.hubs == s.hubs[b.scope := s.hubs[b.scope].(cursor := b.through)]
            && t.receipts == (if ok then s.receipts else s.receipts[Key(b) := s.receipts[Key(b)].(notice := true)])
            && t.runs == s.runs && t.notices == s.notices + (if ok then [] else [run])
            && t.phase == Idle && t.pending == None
  {
    hide *;
    var b := s.phase.batch;
    var seen := s.(phase := if ok then Closing(b) else Failing(b));
    FinishIs(s, run, ok);
    One(s, Finish);
    RemedyIs(!ok, [Finish]);
    var closing := seen;
    if !ok {
      closing := NoticeIs(seen);
      LeadsBoth(s, [Finish], seen, [Notice, Reply], closing);
    }
    ClosesAfter(closing);
    t := SavesThrough(closing);
    LeadsBoth(s, [Finish] + Remedy(!ok), closing, [Close, Issue, Saved], t);
  }

  /**
   A batch with something incoming, read by an idle loop, goes through: admitted
   with a Run that ends, it is closed and the cursor moves to its end, and a notice
   is attempted exactly if the Run failed.
   */
  lemma FreshBatchThrough(s: State, scope: Scope, run: nat, ok: bool) returns (t: State)
    requires Inv(s) && s.phase == Idle && s.pending == None && scope in s.hubs && Choose(s, scope).Some?
    requires var b := Choose(s, scope).value;
             HasIncoming(b.entries) && Key(b) !in s.receipts && run !in s.runs && !Busy(s, scope)
    ensures Leads(s, [Pick(scope), Admit(run)] + [EndRun(run, ok)] + ([Finish] + Remedy(!ok) + [Close, Issue, Saved]), t)
    ensures var b := Choose(s, scope).value;
            && t.hubs == s.hubs[scope := s.hubs[scope].(cursor := b.through)]
            && t.receipts == s.receipts[Key(b) := Receipt(b.through, b.entries, run, !ok)]
            && t.runs == s.runs[run := Run(scope, b.after, Ended(ok))]
            && t.notices == s.notices + (if ok then [] else [run])
            && t.phase == Idle && t.pending == None
  {
    hide *;
    ChosenAccepts(s, scope);
    var waiting := AdmitsFresh(s, scope, run);
    EndsRun(waiting, run, ok);
    Then(s, [Pick(scope), Admit(run)], waiting, EndRun(run, ok));
    t := EndedThrough(Next(waiting, EndRun(run, ok)), run, ok);
    LeadsBoth(s, [Pick(scope), Admit(run)] + [EndRun(run, ok)], Next(waiting, EndRun(run, ok)),
              [Finish] + Remedy(!ok) + [Close, Issue, Saved], t);
  }

  /**
   A Run that fails after the resuming loop saw it running, and before the batch is
   closed: the cursor moves past its messages, and no notice is ever attempted.
   */
  lemma UnseenFailure(s: State, scope: Scope) returns (t: State)
    requires Inv(s) && s.phase == Idle && s.pending == None && scope in s.hubs
    requires (scope, s.hubs[scope].cursor) in s.receipts
    requires var run := s.receipts[(scope, s.hubs[scope].cursor)].run; run in s.runs && s.runs[run].status.Active?
    ensures var r := s.receipts[(scope, s.hubs[scope].cursor)];
            && Leads(s, [Pick(scope), Resume] + [EndRun(r.run, false)] + [Close, Issue, Saved], t)
            && t.hubs == s.hubs[scope := s.hubs[scope].(cursor := r.through)]
            && t.receipts == s.receipts && t.notices == s.notices
            && t.runs == s.runs[r.run := s.runs[r.run].(status := Ended(false))]
  {
    hide *;
    var r := s.receipts[(scope, s.hubs[scope].cursor)];
    ChoosesReceipt(s, scope);
    ChosenAccepts(s, scope);
    var closing := ResumesRunning(s, scope);
    EndsRun(closing, r.run, false);
    Then(s, [Pick(scope), Resume], closing, EndRun(r.run, false));
    var ended := Next(closing, EndRun(r.run, false));
    ClosesAfter(ended);
    t := SavesThrough(ended);
    LeadsBoth(s, [Pick(scope), Resume] + [EndRun(r.run, false)], ended, [Close, Issue, Saved], t);
  }

  /** A receipt for the cursor is picked as it is, with something incoming. */
  lemma ChoosesReceipt(s: State, scope: Scope)
    requires Inv(s) && scope in s.hubs && (scope, s.hubs[scope].cursor) in s.receipts
    ensures var r := s.receipts[(scope, s.hubs[scope].cursor)];
            && Choose(s, scope) == Some(Batch(scope, s.hubs[scope].cursor, r.through, r.entries))
            && HasIncoming(r.entries)
  {
    hide HubsOk, RunsOk, ThreadsIdle, SavesOk, PhaseOk, NoticesOk, Drawn, HasIncoming;
    assert ReceiptOk(s, (scope, s.hubs[scope].cursor));
  }

  lemma ResumesRunning(s: State, scope: Scope) returns (t: State)
    requires s.phase == Idle && s.pending == None && scope in s.hubs && Choose(s, scope).Some?
    requires var b := Choose(s, scope).value;
             && HasIncoming(b.entries) && Key(b) in s.receipts
             && s.receipts[Key(b)].run in s.runs && s.runs[s.receipts[Key(b)].run].status.Active?
    ensures Leads(s, [Pick(scope), Resume], t) && t == s.(phase := Closing(Choose(s, scope).value))
  {
    hide Leads, Choose, HasIncoming;
    var b := Choose(s, scope).value;
    var chosen := s.(phase := Chosen(b));
    One(s, Pick(scope));
    t := Next(chosen, Resume);
    Then(s, [Pick(scope)], chosen, Resume);
    assert [Pick(scope)] + [Resume] == [Pick(scope), Resume];
  }
}
