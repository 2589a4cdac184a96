/**
 What an observer is sent when it attaches to the event log: the ancestors an
 event needs, when an output is well formed, and the live suffix that follows
 any well-formed prefix.
 */
module ObservationSpec {
  import opened Common

  datatype Event =
    | RunBegin(run: string, parent: Option<Key>)
    | RunEnd(run: string)
    | StepBegin(step: Key)
    | StepEnd(step: Key)
    | Part(step: Key)
    | Other(run: string)

  /** A canonical event, its position, and the root Run it belongs to. */
  datatype Frame = Frame(at: nat, root: string, event: Event)

  /** What the observer receives: repeated context, or an event from the log. */
  datatype Sent = Context(event: Event) | Source(event: Event, at: nat)

  function RunOf(e: Event): string {
    match e
    case RunBegin(run, _) => run
    case RunEnd(run) => run
    case StepBegin(step) => step.run
    case StepEnd(step) => step.run
    case Part(step) => step.run
    case Other(run) => run
  }

  /** The key an event begins. */
  function Begins(e: Event): Option<Key> {
    match e
    case RunBegin(run, _) => Some(RunKey(run))
    case StepBegin(step) => Some(step)
    case _ => None
  }

  function Ends(e: Event): Option<Key> {
    match e
    case RunEnd(run) => Some(RunKey(run))
    case StepEnd(step) => Some(step)
    case _ => None
  }

  /** The nearest key that must have begun before the event is shown. */
  function Nearest(e: Event): Option<Key> {
    match e
    case RunBegin(_, parent) => parent
    case RunEnd(run) => Some(RunKey(run))
    case StepBegin(step) => Some(Above(step))
    case StepEnd(step) => Some(step)
    case Part(step) => Some(step)
    case Other(_) => None
  }

  // ---------------------------------------------------------------------
  // Ancestors
  // ---------------------------------------------------------------------

  type Parents = map<string, Option<Key>>

  /** Runs are created after the Run of their parent Step. */
  ghost predicate Ranked(parents: Parents, rank: map<string, nat>) {
    forall run :: run in parents && parents[run].Some? ==>
      run in rank && parents[run].value.run in rank && rank[parents[run].value.run] < rank[run]
  }

  ghost function RankOf(rank: map<string, nat>, run: string): nat {
    if run in rank then rank[run] else 0
  }

  /** A key and everything above it, outermost first; none if a Run has no record. */
  ghost function Line(parents: Parents, rank: map<string, nat>, key: Key): (line: Option<seq<Key>>)
    requires Ranked(parents, rank)
    ensures line.Some? ==> line.value != [] && line.value[|line.value| - 1] == key
    decreases RankOf(rank, key.run), if key.StepKey? then |key.path| + 1 else 0
  {
    match key
    case StepKey(_, _) => Extend(Line(parents, rank, Above(key)), key)
    case RunKey(run) =>
      if run !in parents then None
      else match parents[run]
           case None => Some([key])
           case Some(p) => Extend(Line(parents, rank, p), key)
  }

  function Extend(line: Option<seq<Key>>, key: Key): Option<seq<Key>> {
    if line.None? then None else Some(line.value + [key])
  }

  /** The keys an event needs begun, outermost first. */
  ghost function Needs(parents: Parents, rank: map<string, nat>, e: Event): Option<seq<Key>>
    requires Ranked(parents, rank)
  {
    if Nearest(e).None? then Some([]) else Line(parents, rank, Nearest(e).value)
  }

  /** Every key on a line has the part of the line before it as its own line. */
  lemma {:induction false} LinePrefix(parents: Parents, rank: map<string, nat>, key: Key, i: nat)
    requires Ranked(parents, rank) && Line(parents, rank, key).Some? && i < |Line(parents, rank, key).value|
    ensures var line := Line(parents, rank, key).value;
            Line(parents, rank, line[i]) == Some(line[..i + 1])
    decreases RankOf(rank, key.run), if key.StepKey? then |key.path| + 1 else 0
  {
    var line := Line(parents, rank, key).value;
    if i == |line| - 1 {
      assert line[..i + 1] == line;
    } else {
      var up := if key.StepKey? then Above(key) else parents[key.run].value;
      LinePrefix(parents, rank, up, i);
      assert line[..i + 1] == Line(parents, rank, up).value[..i + 1];
    }
  }

  /** What a partial record of parents shows is what the full record shows. */
  lemma {:induction false} LineAgrees(some: Parents, all: Parents, rank: map<string, nat>, key: Key)
    requires Ranked(all, rank) && Ranked(some, rank) && Line(some, rank, key).Some?
    requires forall run :: run in some ==> run in all && all[run] == some[run]
    ensures Line(all, rank, key) == Line(some, rank, key)
    decreases RankOf(rank, key.run), if key.StepKey? then |key.path| + 1 else 0
  {
    if key.StepKey? {
      LineAgrees(some, all, rank, Above(key));
    } else if some[key.run].Some? {
      LineAgrees(some, all, rank, some[key.run].value);
    }
  }

  // ---------------------------------------------------------------------
  // Well-formed output
  // ---------------------------------------------------------------------

  function Begun(out: seq<Sent>): set<Key> {
    if out == [] then {}
    else
      var n := |out| - 1;
      Begun(out[..n]) + if Begins(out[n].event).Some? then {Begins(out[n].event).value} else {}
  }

  /** Steps whose Begin was sent as a source event. */
  function SourceSteps(out: seq<Sent>): set<Key> {
    if out == [] then {}
    else
      var n := |out| - 1;
      SourceSteps(out[..n]) + if out[n].Source? && out[n].event.StepBegin? then {out[n].event.step} else {}
  }

  function Sources(out: seq<Sent>): seq<(nat, Event)> {
    if out == [] then []
    else
      var n := |out| - 1;
      Sources(out[..n]) + if out[n].Source? then [(out[n].at, out[n].event)] else []
  }

  /** `s` may follow `out`: its ancestors have begun, and a Part follows its own source Begin. */
  ghost predicate Fits(parents: Parents, rank: map<string, nat>, out: seq<Sent>, s: Sent)
    requires Ranked(parents, rank)
  {
    && Needs(parents, rank, s.event).Some?
    && (forall k :: k in Needs(parents, rank, s.event).value ==> k in Begun(out))
    && (s.event.Part? ==> s.Source? && s.event.step in SourceSteps(out))
  }

  ghost predicate WellFormed(parents: Parents, rank: map<string, nat>, out: seq<Sent>)
    requires Ranked(parents, rank)
  {
    out == [] || (var n := |out| - 1;
                  WellFormed(parents, rank, out[..n]) && Fits(parents, rank, out[..n], out[n]))
  }

  lemma OutSnoc(out: seq<Sent>, s: Sent)
    ensures Begun(out + [s]) == Begun(out) + if Begins(s.event).Some? then {Begins(s.event).value} else {}
    ensures SourceSteps(out + [s]) ==
            SourceSteps(out) + if s.Source? && s.event.StepBegin? then {s.event.step} else {}
    ensures Sources(out + [s]) == Sources(out) + if s.Source? then [(s.at, s.event)] else []
  {
    assert (out + [s])[..|out|] == out;
  }

  lemma WellFormedSnoc(parents: Parents, rank: map<string, nat>, out: seq<Sent>, s: Sent)
    requires Ranked(parents, rank)
    ensures WellFormed(parents, rank, out + [s]) <==> WellFormed(parents, rank, out) && Fits(parents, rank, out, s)
  {
    hide Fits;
    assert (out + [s])[..|out|] == out;
  }

  lemma {:induction false} WellFormedAgrees(some: Parents, all: Parents, rank: map<string, nat>, out: seq<Sent>)
    requires Ranked(all, rank) && Ranked(some, rank) && WellFormed(some, rank, out)
    requires forall run :: run in some ==> run in all && all[run] == some[run]
    ensures WellFormed(all, rank, out)
  {
    hide Ranked;
    if out != [] {
      var n := |out| - 1;
      WellFormedAgrees(some, all, rank, out[..n]);
      if Nearest(out[n].event).Some? {
        LineAgrees(some, all, rank, Nearest(out[n].event).value);
      }
    }
  }

  /** The key and everything above it have begun. */
  ghost predicate Whole(parents: Parents, rank: map<string, nat>, begun: set<Key>, key: Key)
    requires Ranked(parents, rank)
  {
    Line(parents, rank, key).Some? && forall a :: a in Line(parents, rank, key).value ==> a in begun
  }

  lemma WholeGrows(parents: Parents, rank: map<string, nat>, a: set<Key>, b: set<Key>, key: Key)
    requires Ranked(parents, rank) && Whole(parents, rank, a, key) && a <= b
    ensures Whole(parents, rank, b, key)
  {
    hide Ranked, Line;
  }

  /** The parent's line is whole, as far as there is a parent. */
  ghost predicate WholeAbove(parents: Parents, rank: map<string, nat>, begun: set<Key>, run: string)
    requires Ranked(parents, rank)
  {
    run in parents && (parents[run].Some? ==> Whole(parents, rank, begun, parents[run].value))
  }

  lemma WholeRun(parents: Parents, rank: map<string, nat>, begun: set<Key>, run: string)
    requires Ranked(parents, rank)
    ensures Whole(parents, rank, begun, RunKey(run)) <==>
            WholeAbove(parents, rank, begun, run) && RunKey(run) in begun
  {
    hide Ranked;
    if run in parents {
      if parents[run].None? {
        assert Line(parents, rank, RunKey(run)) == Some([RunKey(run)]);
      } else {
        WholeExtends(parents, rank, begun, parents[run].value, RunKey(run));
      }
    }
  }

  lemma WholeExtends(parents: Parents, rank: map<string, nat>, begun: set<Key>, up: Key, key: Key)
    requires Ranked(parents, rank)
    requires Line(parents, rank, key) == Extend(Line(parents, rank, up), key)
    ensures Whole(parents, rank, begun, key) <==> Whole(parents, rank, begun, up) && key in begun
  {
    hide Ranked;
    if Line(parents, rank, up).Some? {
      var line := Line(parents, rank, up).value;
      assert Line(parents, rank, key).value == line + [key];
      forall a ensures a in line + [key] <==> a in line || a == key {
      }
    }
  }

  lemma WholeStep(parents: Parents, rank: map<string, nat>, begun: set<Key>, step: Key)
    requires Ranked(parents, rank) && step.StepKey?
    ensures Whole(parents, rank, begun, step) <==> Whole(parents, rank, begun, Above(step)) && step in begun
  {
    hide Ranked;
    WholeExtends(parents, rank, begun, Above(step), step);
  }

  // ---------------------------------------------------------------------
  // The log
  // ---------------------------------------------------------------------

  /** What happens to the records, in order: a Run is accepted unseen, the rest is published. */
  datatype Entry = Accepted(run: string, parent: Option<Key>) | Published(frame: Frame)

  /** Keys begun and not yet ended. */
  function Open(log: seq<Entry>): set<Key> {
    if log == [] then {}
    else
      var before := Open(log[..|log| - 1]);
      match log[|log| - 1]
      case Accepted(_, _) => before
      case Published(f) =>
        if Begins(f.event).Some? then before + {Begins(f.event).value}
        else if Ends(f.event).Some? then before - {Ends(f.event).value}
        else before
  }

  /** Runs accepted that have neither begun nor ended. */
  function Pending(log: seq<Entry>): set<string> {
    if log == [] then {}
    else
      var before := Pending(log[..|log| - 1]);
      match log[|log| - 1]
      case Accepted(run, _) => before + {run}
      case Published(f) => if f.event.RunBegin? || f.event.RunEnd? then before - {f.event.run} else before
  }

  /** Runs ever accepted and Steps ever begun. */
  function Recorded(log: seq<Entry>): set<Key> {
    if log == [] then {}
    else
      var before := Recorded(log[..|log| - 1]);
      match log[|log| - 1]
      case Accepted(run, _) => before + {RunKey(run)}
      case Published(f) => if f.event.StepBegin? then before + {f.event.step} else before
  }

  /** Runs of one tree share a root. */
  predicate Rooted(parents: Parents, roots: map<string, string>) {
    forall run :: run in parents && parents[run].Some? ==>
      run in roots && parents[run].value.run in roots && roots[parents[run].value.run] == roots[run]
  }

  /** Accepted by the store, and not ended: published as begun or still waiting to be. */
  predicate Going(before: seq<Entry>, run: string) {
    run in Pending(before) || RunKey(run) in Open(before)
  }

  /**
   What may happen next. A Run is accepted under an open Step and may begin after
   that Step has ended, or end without having begun; a Step begins directly under
   something open, and has Parts and an End while it is open itself.
   */
  predicate Nests(parents: Parents, roots: map<string, string>, before: seq<Entry>, e: Entry) {
    match e
    case Accepted(run, parent) =>
      && RunKey(run) !in Recorded(before) && run in roots && run in parents && parents[run] == parent
      && (parent.Some? ==> parent.value.StepKey? && parent.value in Open(before))
    case Published(f) =>
      && RunOf(f.event) in roots && roots[RunOf(f.event)] == f.root
      && match f.event {
           case RunBegin(run, parent) => Going(before, run) && run in parents && parents[run] == parent
           case RunEnd(run) => Going(before, run)
           case StepBegin(step) => step.StepKey? && step.path != [] && Above(step) in Open(before)
           case StepEnd(step) => step.StepKey? && step in Open(before)
           case Part(step) => step.StepKey? && step in Open(before)
           case Other(_) => true
         }
  }

  predicate Bracketed(parents: Parents, roots: map<string, string>, log: seq<Entry>) {
    log == [] || (var n := |log| - 1;
                  Bracketed(parents, roots, log[..n]) && Nests(parents, roots, log[..n], log[n]))
  }

  /** Frames of the trees the observer watches. */
  function Watched(log: seq<Entry>, scope: string -> bool): seq<Frame> {
    if log == [] then []
    else
      var e := log[|log| - 1];
      Watched(log[..|log| - 1], scope) + if e.Published? && scope(e.frame.root) then [e.frame] else []
  }

  lemma LogSnoc(log: seq<Entry>, e: Entry)
    ensures Open(log + [e]) ==
            if e.Accepted? then Open(log)
            else if Begins(e.frame.event).Some? then Open(log) + {Begins(e.frame.event).value}
            else if Ends(e.frame.event).Some? then Open(log) - {Ends(e.frame.event).value}
            else Open(log)
    ensures Pending(log + [e]) ==
            if e.Accepted? then Pending(log) + {e.run}
            else if e.frame.event.RunBegin? || e.frame.event.RunEnd? then Pending(log) - {e.frame.event.run}
            else Pending(log)
    ensures Recorded(log + [e]) ==
            if e.Accepted? then Recorded(log) + {RunKey(e.run)}
            else if e.frame.event.StepBegin? then Recorded(log) + {e.frame.event.step}
            else Recorded(log)
  {
    assert (log + [e])[..|log|] == log;
  }

  lemma WatchedSnoc(log: seq<Entry>, e: Entry, scope: string -> bool)
    ensures Watched(log + [e], scope) ==
            Watched(log, scope) + if e.Published? && scope(e.frame.root) then [e.frame] else []
  {
    assert (log + [e])[..|log|] == log;
  }

  lemma BracketedSnoc(parents: Parents, roots: map<string, string>, init: seq<Entry>, e: Entry)
    ensures Bracketed(parents, roots, init + [e]) <==>
            Bracketed(parents, roots, init) && Nests(parents, roots, init, e)
  {
    hide Nests;
    assert (init + [e])[..|init|] == init;
  }

  /** Everything going on is recorded, and with it everything above it. */
  lemma {:induction false} RecordedWhole(
    parents: Parents, rank: map<string, nat>, roots: map<string, string>, log: seq<Entry>)
    requires Ranked(parents, rank) && Bracketed(parents, roots, log)
    ensures Open(log) <= Recorded(log)
    ensures forall run :: run in Pending(log) ==> RunKey(run) in Recorded(log)
    ensures forall k :: k in Recorded(log) ==> Whole(parents, rank, Recorded(log), k)
  {
    hide Ranked, Whole;
    if log != [] {
      var init, e := log[..|log| - 1], log[|log| - 1];
      assert log == init + [e];
      BracketedSnoc(parents, roots, init, e);
      RecordedWhole(parents, rank, roots, init);
      LogSnoc(init, e);
      hide Open, Pending, Recorded, Bracketed;
      forall k | k in Recorded(log) ensures Whole(parents, rank, Recorded(log), k) {
        if k in Recorded(init) {
          WholeGrows(parents, rank, Recorded(init), Recorded(log), k);
        } else if e.Accepted? {
          WholeRun(parents, rank, Recorded(log), e.run);
          if e.parent.Some? {
            WholeGrows(parents, rank, Recorded(init), Recorded(log), e.parent.value);
          }
        } else {
          WholeStep(parents, rank, Recorded(log), k);
          WholeGrows(parents, rank, Recorded(init), Recorded(log), Above(k));
        }
      }
    }
  }

  // ---------------------------------------------------------------------
  // The live suffix
  // ---------------------------------------------------------------------

  /** Steps still silent: suppressed at first, and neither begun nor ended since. */
  function Silent(suppressed: set<Key>, frames: seq<Frame>): set<Key> {
    if frames == [] then suppressed
    else
      var e := frames[|frames| - 1].event;
      Silent(suppressed, frames[..|frames| - 1]) - if e.StepBegin? || e.StepEnd? then {e.step} else {}
  }

  function Live(suppressed: set<Key>, frames: seq<Frame>): seq<Sent> {
    if frames == [] then []
    else
      var n := |frames| - 1;
      var f := frames[n];
      Live(suppressed, frames[..n])
      + if f.event.Part? && f.event.step in Silent(suppressed, frames[..n]) then [] else [Source(f.event, f.at)]
  }

  lemma LiveSnoc(suppressed: set<Key>, frames: seq<Frame>, f: Frame)
    ensures Silent(suppressed, frames + [f]) ==
            Silent(suppressed, frames) - if f.event.StepBegin? || f.event.StepEnd? then {f.event.step} else {}
    ensures Live(suppressed, frames + [f]) ==
            Live(suppressed, frames)
            + if f.event.Part? && f.event.step in Silent(suppressed, frames) then [] else [Source(f.event, f.at)]
  {
    assert (frames + [f])[..|frames|] == frames;
  }

  predicate InScope(roots: map<string, string>, scope: string -> bool, run: string) {
    run in roots && scope(roots[run])
  }

  /**
   What an observer knows: the whole line of everything open in scope, and of
   what is above every waiting Run; of the waiting Runs themselves exactly those
   of `base`; and of no Run that was never accepted. Parts of an open Step are
   silent, or follow its own Begin.
   */
  ghost predicate Introduced(
    parents: Parents, rank: map<string, nat>, log: seq<Entry>, roots: map<string, string>, scope: string -> bool,
    base: set<string>, out: seq<Sent>, silent: set<Key>)
    requires Ranked(parents, rank)
  {
    && OpenKnown(parents, rank, log, roots, scope, out, silent)
    && WaitingKnown(parents, rank, log, roots, scope, base, out) && NamesKnown(log, out)
  }

  ghost predicate OpenKnown(
    parents: Parents, rank: map<string, nat>, log: seq<Entry>, roots: map<string, string>, scope: string -> bool,
    out: seq<Sent>, silent: set<Key>)
    requires Ranked(parents, rank)
  {
    forall k :: k in Open(log) && InScope(roots, scope, k.run) ==>
      Whole(parents, rank, Begun(out), k) && (k.StepKey? ==> k in silent || k in SourceSteps(out))
  }

  ghost predicate WaitingKnown(
    parents: Parents, rank: map<string, nat>, log: seq<Entry>, roots: map<string, string>, scope: string -> bool,
    base: set<string>, out: seq<Sent>)
    requires Ranked(parents, rank)
  {
    forall run :: run in Pending(log) && InScope(roots, scope, run) ==>
      WholeAbove(parents, rank, Begun(out), run) && (RunKey(run) in Begun(out) <==> run in base)
  }

  ghost predicate NamesKnown(log: seq<Entry>, out: seq<Sent>) {
    forall run :: RunKey(run) in Begun(out) ==> RunKey(run) in Recorded(log)
  }

  /** A Run ends that never began and was not waiting at the boundary either. */
  predicate Bare(before: seq<Entry>, base: set<string>, e: Entry, scope: string -> bool) {
    && e.Published? && scope(e.frame.root) && e.frame.event.RunEnd?
    && RunKey(e.frame.event.run) !in Open(before) && e.frame.event.run !in base
  }

  /** No watched Run accepted after the boundary ends without having begun. */
  predicate Headed(log: seq<Entry>, n: nat, scope: string -> bool)
    requires n <= |log|
  {
    forall i :: n <= i < |log| ==> !Bare(log[..i], Pending(log[..n]), log[i], scope)
  }

  lemma HeadedSnoc(log: seq<Entry>, e: Entry, n: nat, scope: string -> bool)
    requires n <= |log|
    ensures Headed(log + [e], n, scope) <==>
            Headed(log, n, scope) && !Bare(log, Pending(log[..n]), e, scope)
  {
    hide Bare, Pending;
    var all := log + [e];
    assert all[..n] == log[..n] && all[..|log|] == log;
    forall i | n <= i < |log| ensures all[..i] == log[..i] && all[i] == log[i] {
    }
    if Headed(all, n, scope) {
      forall i | n <= i < |log| ensures !Bare(log[..i], Pending(log[..n]), log[i], scope) {
        assert !Bare(all[..i], Pending(all[..n]), all[i], scope);
      }
      assert !Bare(all[..|log|], Pending(all[..n]), all[|log|], scope);
    }
  }

  /** Accepting a Run shows nothing, and its parent is open. */
  lemma AcceptedIntroduced(
    parents: Parents, rank: map<string, nat>, log: seq<Entry>, e: Entry, roots: map<string, string>,
    scope: string -> bool, base: set<string>, out: seq<Sent>, silent: set<Key>)
    requires Ranked(parents, rank) && Rooted(parents, roots) && Nests(parents, roots, log, e) && e.Accepted?
    requires Introduced(parents, rank, log, roots, scope, base, out, silent)
    requires forall run :: run in base ==> RunKey(run) in Recorded(log)
    ensures Introduced(parents, rank, log + [e], roots, scope, base, out, silent)
  {
    hide Ranked, Whole, Begun, SourceSteps, Open, Pending, Recorded;
    LogSnoc(log, e);
  }

  /** A frame outside the scope changes nothing inside it. */
  lemma Elsewhere(
    parents: Parents, rank: map<string, nat>, log: seq<Entry>, e: Entry, roots: map<string, string>,
    scope: string -> bool, base: set<string>, out: seq<Sent>, silent: set<Key>)
    requires Ranked(parents, rank) && Nests(parents, roots, log, e) && e.Published? && !scope(e.frame.root)
    requires Introduced(parents, rank, log, roots, scope, base, out, silent)
    ensures Introduced(parents, rank, log + [e], roots, scope, base, out, silent)
  {
    hide Ranked, Whole, WholeAbove, Begun, SourceSteps, Open, Pending, Recorded;
    LogSnoc(log, e);
  }

  /** The frame needs what the observer knows, unless it is the bare End of a Run. */
  lemma ShownFits(
    parents: Parents, rank: map<string, nat>, log: seq<Entry>, f: Frame, roots: map<string, string>,
    scope: string -> bool, base: set<string>, out: seq<Sent>, silent: set<Key>)
    requires Ranked(parents, rank) && Nests(parents, roots, log, Published(f)) && scope(f.root)
    requires Introduced(parents, rank, log, roots, scope, base, out, silent)
    ensures !(f.event.Part? && f.event.step in silent) ==>
              (Fits(parents, rank, out, Source(f.event, f.at)) <==> !Bare(log, base, Published(f), scope))
  {
    hide Ranked, Begun, SourceSteps, Open, Pending, Recorded, Line;
    match f.event
    case RunBegin(run, parent) =>
      WholeRun(parents, rank, Begun(out), run);
    case RunEnd(run) =>
      WholeRun(parents, rank, Begun(out), run);
    case StepBegin(step) =>
    case StepEnd(step) =>
    case Part(step) =>
    case Other(_) =>
  }

  /** What is sent next of a watched frame: the frame, unless it is a silent Part. */
  predicate Follows(f: Frame, out: seq<Sent>, silent: set<Key>, next: seq<Sent>) {
    next == if f.event.Part? && f.event.step in silent then out else out + [Source(f.event, f.at)]
  }

  lemma FollowsGrows(f: Frame, out: seq<Sent>, silent: set<Key>, next: seq<Sent>)
    requires Follows(f, out, silent, next)
    ensures Begun(next) == Begun(out) + if Begins(f.event).Some? then {Begins(f.event).value} else {}
    ensures SourceSteps(out) <= SourceSteps(next)
    ensures f.event.StepBegin? ==> f.event.step in SourceSteps(next)
  {
    hide Begun, SourceSteps;
    OutSnoc(out, Source(f.event, f.at));
  }

  /** After a watched frame, shown or silent, the observer still knows what is going on. */
  lemma ShownIntroduced(
    parents: Parents, rank: map<string, nat>, log: seq<Entry>, f: Frame, roots: map<string, string>,
    scope: string -> bool, base: set<string>, out: seq<Sent>, silent: set<Key>, next: seq<Sent>)
    requires Ranked(parents, rank) && Nests(parents, roots, log, Published(f)) && scope(f.root)
    requires Introduced(parents, rank, log, roots, scope, base, out, silent)
    requires forall run :: Going(log, run) ==> RunKey(run) in Recorded(log)
    requires Follows(f, out, silent, next)
    ensures Introduced(parents, rank, log + [Published(f)], roots, scope, base, next,
                       silent - if f.event.StepBegin? || f.event.StepEnd? then {f.event.step} else {})
  {
    hide Ranked, Nests, Follows, Going, OpenKnown, WaitingKnown, NamesKnown;
    ShownOpen(parents, rank, log, f, roots, scope, base, out, silent, next);
    ShownWaiting(parents, rank, log, f, roots, scope, base, out, silent, next);
    ShownNames(parents, rank, log, f, roots, scope, base, out, silent, next);
  }

  lemma ShownOpen(
    parents: Parents, rank: map<string, nat>, log: seq<Entry>, f: Frame, roots: map<string, string>,
    scope: string -> bool, base: set<string>, out: seq<Sent>, silent: set<Key>, next: seq<Sent>)
    requires Ranked(parents, rank) && Nests(parents, roots, log, Published(f)) && scope(f.root)
    requires Introduced(parents, rank, log, roots, scope, base, out, silent)
    requires Follows(f, out, silent, next)
    ensures OpenKnown(parents, rank, log + [Published(f)], roots, scope, next,
                      silent - if f.event.StepBegin? || f.event.StepEnd? then {f.event.step} else {})
  {
    hide Ranked, Begun, SourceSteps, Open, Pending, Recorded, Whole, WholeAbove, NamesKnown, Follows;
    LogSnoc(log, Published(f));
    FollowsGrows(f, out, silent, next);
    forall k | Whole(parents, rank, Begun(out), k) ensures Whole(parents, rank, Begun(next), k) {
      WholeGrows(parents, rank, Begun(out), Begun(next), k);
    }
    if f.event.RunBegin? {
      RunShown(parents, rank, log, f.event.run, roots, scope, base, out, silent, Begun(next));
    } else if f.event.StepBegin? {
      WholeStep(parents, rank, Begun(next), f.event.step);
    }
  }

  /** A Run that begins had everything above it begun, waiting or already open. */
  lemma RunShown(
    parents: Parents, rank: map<string, nat>, log: seq<Entry>, run: string, roots: map<string, string>,
    scope: string -> bool, base: set<string>, out: seq<Sent>, silent: set<Key>, begun: set<Key>)
    requires Ranked(parents, rank) && Going(log, run) && InScope(roots, scope, run)
    requires Introduced(parents, rank, log, roots, scope, base, out, silent)
    requires Begun(out) <= begun && RunKey(run) in begun
    ensures Whole(parents, rank, begun, RunKey(run))
  {
    hide Ranked, Begun, SourceSteps, Open, Pending, Recorded, Whole, WholeAbove, NamesKnown;
    WholeRun(parents, rank, Begun(out), run);
    WholeRun(parents, rank, begun, run);
    AboveGrows(parents, rank, Begun(out), begun, run);
  }

  lemma ShownWaiting(
    parents: Parents, rank: map<string, nat>, log: seq<Entry>, f: Frame, roots: map<string, string>,
    scope: string -> bool, base: set<string>, out: seq<Sent>, silent: set<Key>, next: seq<Sent>)
    requires Ranked(parents, rank) && Nests(parents, roots, log, Published(f)) && scope(f.root)
    requires Introduced(parents, rank, log, roots, scope, base, out, silent)
    requires Follows(f, out, silent, next)
    ensures WaitingKnown(parents, rank, log + [Published(f)], roots, scope, base, next)
  {
    hide Ranked, Begun, SourceSteps, Open, Pending, Recorded, Whole, WholeAbove, NamesKnown, OpenKnown, Follows;
    LogSnoc(log, Published(f));
    FollowsGrows(f, out, silent, next);
    forall run | WholeAbove(parents, rank, Begun(out), run) ensures WholeAbove(parents, rank, Begun(next), run) {
      AboveGrows(parents, rank, Begun(out), Begun(next), run);
    }
  }

  lemma ShownNames(
    parents: Parents, rank: map<string, nat>, log: seq<Entry>, f: Frame, roots: map<string, string>,
    scope: string -> bool, base: set<string>, out: seq<Sent>, silent: set<Key>, next: seq<Sent>)
    requires Ranked(parents, rank) && Nests(parents, roots, log, Published(f)) && scope(f.root)
    requires Introduced(parents, rank, log, roots, scope, base, out, silent)
    requires forall run :: Going(log, run) ==> RunKey(run) in Recorded(log)
    requires Follows(f, out, silent, next)
    ensures NamesKnown(log + [Published(f)], next)
  {
    hide Ranked, Begun, SourceSteps, Open, Pending, Recorded, Whole, WholeAbove, WaitingKnown, OpenKnown, Follows;
    LogSnoc(log, Published(f));
    FollowsGrows(f, out, silent, next);
  }

  lemma AboveGrows(parents: Parents, rank: map<string, nat>, a: set<Key>, b: set<Key>, run: string)
    requires Ranked(parents, rank) && WholeAbove(parents, rank, a, run) && a <= b
    ensures WholeAbove(parents, rank, b, run)
  {
    hide Ranked, Whole;
    if parents[run].Some? {
      WholeGrows(parents, rank, a, b, parents[run].value);
    }
  }

  /**
   A well-formed prefix that introduces what is going on at the boundary stays well
   formed under the live suffix, however long, if and only if no watched Run
   accepted since has ended without having begun.
   */
  lemma {:induction false} LiveWellFormed(
    parents: Parents, rank: map<string, nat>, roots: map<string, string>, log: seq<Entry>, n: nat,
    scope: string -> bool, prefix: seq<Sent>, suppressed: set<Key>)
    requires Ranked(parents, rank) && Rooted(parents, roots) && Bracketed(parents, roots, log) && n <= |log|
    requires WellFormed(parents, rank, prefix)
    requires Introduced(parents, rank, log[..n], roots, scope, Pending(log[..n]), prefix, suppressed)
    ensures var live := Watched(log[n..], scope);
            var out := prefix + Live(suppressed, live);
            && (WellFormed(parents, rank, out) <==> Headed(log, n, scope))
            && Introduced(parents, rank, log, roots, scope, Pending(log[..n]), out, Silent(suppressed, live))
            && forall run :: run in Pending(log[..n]) ==> RunKey(run) in Recorded(log)
    decreases |log|
  {
    hide Ranked, Rooted, Introduced, Nests, WellFormed, Watched, Live, Silent, Bracketed, Pending, Recorded, Headed,
      Bare, Whole;
    if n == |log| {
      assert log[..n] == log && log[n..] == [];
      LiveNone(suppressed, scope);
      assert prefix + [] == prefix;
      RecordedWhole(parents, rank, roots, log);
      HeadedNone(log, scope);
    } else {
      var init, e := log[..|log| - 1], log[|log| - 1];
      assert log == init + [e] && init[..n] == log[..n];
      BracketedSnoc(parents, roots, init, e);
      LiveWellFormed(parents, rank, roots, init, n, scope, prefix, suppressed);
      assert log[n..] == init[n..] + [e];
      WatchedSnoc(init[n..], e, scope);
      HeadedSnoc(init, e, n, scope);
      LogSnoc(init, e);
      RecordedWhole(parents, rank, roots, init);
      LiveStep(parents, rank, roots, init, e, scope, Pending(log[..n]), prefix, suppressed, Watched(init[n..], scope));
    }
  }

  lemma {:induction false} BracketedPrefix(parents: Parents, roots: map<string, string>, log: seq<Entry>, n: nat)
    requires Bracketed(parents, roots, log) && n <= |log|
    ensures Bracketed(parents, roots, log[..n])
  {
    if n < |log| {
      assert log[..|log| - 1][..n] == log[..n];
      BracketedPrefix(parents, roots, log[..|log| - 1], n);
    } else {
      assert log[..n] == log;
    }
  }

  lemma LiveNone(suppressed: set<Key>, scope: string -> bool)
    ensures Watched([], scope) == [] && Live(suppressed, []) == [] && Silent(suppressed, []) == suppressed
  {
  }

  lemma HeadedNone(log: seq<Entry>, scope: string -> bool)
    ensures Headed(log, |log|, scope)
  {
  }

  /** One more entry of the log: the observer is sent at most one more frame. */
  lemma LiveStep(
    parents: Parents, rank: map<string, nat>, roots: map<string, string>, log: seq<Entry>, e: Entry,
    scope: string -> bool, base: set<string>, prefix: seq<Sent>, suppressed: set<Key>, live: seq<Frame>)
    requires Ranked(parents, rank) && Rooted(parents, roots) && Nests(parents, roots, log, e)
    requires Introduced(
               parents, rank, log, roots, scope, base, prefix + Live(suppressed, live), Silent(suppressed, live))
    requires Open(log) <= Recorded(log)
    requires forall run :: run in base || run in Pending(log) ==> RunKey(run) in Recorded(log)
    ensures var next := live + if e.Published? && scope(e.frame.root) then [e.frame] else [];
            var out := prefix + Live(suppressed, live);
            var more := prefix + Live(suppressed, next);
            && Introduced(parents, rank, log + [e], roots, scope, base, more, Silent(suppressed, next))
            && (WellFormed(parents, rank, more) <==> WellFormed(parents, rank, out) && !Bare(log, base, e, scope))
  {
    hide Ranked, Rooted, Introduced, Nests, WellFormed, Live, Silent, Fits;
    var out, silent := prefix + Live(suppressed, live), Silent(suppressed, live);
    assert live + [] == live;
    if e.Accepted? {
      AcceptedIntroduced(parents, rank, log, e, roots, scope, base, out, silent);
    } else if !scope(e.frame.root) {
      Elsewhere(parents, rank, log, e, roots, scope, base, out, silent);
    } else {
      var f := e.frame;
      LiveSnoc(suppressed, live, f);
      ShownFits(parents, rank, log, f, roots, scope, base, out, silent);
      ShownIntroduced(parents, rank, log, f, roots, scope, base, out, silent,
                      if f.event.Part? && f.event.step in silent then out else out + [Source(f.event, f.at)]);
      WellFormedSnoc(parents, rank, out, Source(f.event, f.at));
      assert prefix + (Live(suppressed, live) + [Source(f.event, f.at)]) == out + [Source(f.event, f.at)];
      assert prefix + (Live(suppressed, live) + []) == out;
    }
  }

  /** A boundary taken before the root was accepted: the suffix alone is what the observer sees. */
  lemma StartedWellFormed(
    parents: Parents, rank: map<string, nat>, roots: map<string, string>, log: seq<Entry>, n: nat,
    scope: string -> bool)
    requires Ranked(parents, rank) && Rooted(parents, roots) && Bracketed(parents, roots, log) && n <= |log|
    requires forall k :: k in Open(log[..n]) ==> !InScope(roots, scope, k.run)
    requires forall run :: run in Pending(log[..n]) ==> !InScope(roots, scope, run)
    ensures WellFormed(parents, rank, Live({}, Watched(log[n..], scope))) <==> Headed(log, n, scope)
  {
    hide Ranked, Rooted, Bracketed, Live, Watched, Headed, Open, Pending, Recorded;
    LiveWellFormed(parents, rank, roots, log, n, scope, [], {});
    assert [] + Live({}, Watched(log[n..], scope)) == Live({}, Watched(log[n..], scope));
  }

  lemma {:induction false} LiveConcat(suppressed: set<Key>, a: seq<Frame>, b: seq<Frame>)
    ensures Silent(suppressed, a + b) == Silent(Silent(suppressed, a), b)
    ensures Live(suppressed, a + b) == Live(suppressed, a) + Live(Silent(suppressed, a), b)
  {
    if b == [] {
      assert a + b == a;
    } else {
      var init, f := b[..|b| - 1], b[|b| - 1];
      assert b == init + [f] && a + b == (a + init) + [f];
      hide Live, Silent;
      LiveConcat(suppressed, a, init);
      LiveSnoc(suppressed, a + init, f);
      LiveSnoc(Silent(suppressed, a), init, f);
    }
  }

  lemma {:induction false} WatchedConcat(a: seq<Entry>, b: seq<Entry>, scope: string -> bool)
    ensures Watched(a + b, scope) == Watched(a, scope) + Watched(b, scope)
  {
    if b == [] {
      assert a + b == a;
    } else {
      var init, e := b[..|b| - 1], b[|b| - 1];
      assert b == init + [e] && a + b == (a + init) + [e];
      hide Watched;
      WatchedConcat(a, init, scope);
      WatchedSnoc(a + init, e, scope);
      WatchedSnoc(init, e, scope);
    }
  }

  /** Frames are read in log order: any number of them are those of some prefix of the log. */
  lemma {:induction false} WatchedPrefix(log: seq<Entry>, scope: string -> bool, k: nat) returns (m: nat)
    requires k <= |Watched(log, scope)|
    ensures m <= |log| && Watched(log[..m], scope) == Watched(log, scope)[..k]
  {
    if k == |Watched(log, scope)| {
      m := |log|;
      assert log[..m] == log;
    } else {
      var init := log[..|log| - 1];
      m := WatchedPrefix(init, scope, k);
      assert init[..m] == log[..m];
    }
  }

  lemma {:induction false} NothingSilent(frames: seq<Frame>)
    ensures Silent({}, frames) == {}
  {
    if frames != [] {
      NothingSilent(frames[..|frames| - 1]);
    }
  }

  // ---------------------------------------------------------------------
  // Two short logs
  // ---------------------------------------------------------------------

  const STEP := StepKey("r", [0])
  const PARENTS: Parents := map["r" := None, "c" := Some(STEP)]
  const ROOTS: map<string, string> := map["r" := "r", "c" := "r"]

  lemma Grown(log: seq<Entry>, e: Entry, open: set<Key>, pending: set<string>, recorded: set<Key>)
    requires Bracketed(PARENTS, ROOTS, log) && Nests(PARENTS, ROOTS, log, e)
    requires Open(log) == open && Pending(log) == pending && Recorded(log) == recorded
    ensures Bracketed(PARENTS, ROOTS, log + [e])
    ensures Open(log + [e]) == if e.Accepted? then open
                               else if Begins(e.frame.event).Some? then open + {Begins(e.frame.event).value}
                               else if Ends(e.frame.event).Some? then open - {Ends(e.frame.event).value}
                               else open
    ensures Pending(log + [e]) == if e.Accepted? then pending + {e.run}
                                  else if e.frame.event.RunBegin? || e.frame.event.RunEnd?
                                  then pending - {e.frame.event.run}
                                  else pending
    ensures Recorded(log + [e]) == if e.Accepted? then recorded + {RunKey(e.run)}
                                   else if e.frame.event.StepBegin? then recorded + {e.frame.event.step}
                                   else recorded
  {
    BracketedSnoc(PARENTS, ROOTS, log, e);
    LogSnoc(log, e);
  }

  /** An asynchronous Run begins after the Step that launched it has ended. */
  lemma AsyncRunNests() returns (log: seq<Entry>)
    ensures log == [Accepted("r", None), Published(Frame(1, "r", RunBegin("r", None))),
                    Published(Frame(2, "r", StepBegin(STEP))), Accepted("c", Some(STEP)),
                    Published(Frame(3, "r", StepEnd(STEP))),
                    Published(Frame(4, "r", RunBegin("c", Some(STEP))))]
    ensures Bracketed(PARENTS, ROOTS, log)
    ensures STEP !in Open(log) && RunKey("c") in Open(log)
  {
    hide Open, Pending, Recorded, Bracketed;
    var begun := StepOpened();
    var d, e := Accepted("c", Some(STEP)), Published(Frame(3, "r", StepEnd(STEP)));
    var f := Published(Frame(4, "r", RunBegin("c", Some(STEP))));
    Grown(begun, d, {RunKey("r"), STEP}, {}, {RunKey("r"), STEP});
    Grown(begun + [d], e, {RunKey("r"), STEP}, {"c"}, {RunKey("r"), RunKey("c"), STEP});
    Grown(begun + [d] + [e], f, {RunKey("r")}, {"c"}, {RunKey("r"), RunKey("c"), STEP});
    log := begun + [d] + [e] + [f];
  }

  lemma StepOpened() returns (log: seq<Entry>)
    ensures log == [Accepted("r", None), Published(Frame(1, "r", RunBegin("r", None))),
                    Published(Frame(2, "r", StepBegin(STEP)))]
    ensures Bracketed(PARENTS, ROOTS, log)
    ensures Open(log) == {RunKey("r"), STEP} && Pending(log) == {} && Recorded(log) == {RunKey("r"), STEP}
  {
    hide Open, Pending, Recorded, Bracketed;
    NothingLogged();
    var a, b := Accepted("r", None), Published(Frame(1, "r", RunBegin("r", None)));
    var c := Published(Frame(2, "r", StepBegin(STEP)));
    assert Above(STEP) == RunKey("r");
    Grown([], a, {}, {}, {});
    Grown([] + [a], b, {}, {"r"}, {RunKey("r")});
    Grown([] + [a] + [b], c, {RunKey("r")}, {}, {RunKey("r")});
    log := [] + [a] + [b] + [c];
  }

  lemma NothingLogged()
    ensures Open([]) == {} && Pending([]) == {} && Recorded([]) == {} && Bracketed(PARENTS, ROOTS, [])
  {
  }

  /** A root canceled before its first turn: the observer is sent an End without a Begin. */
  lemma UnstartedRunEnds() returns (log: seq<Entry>)
    ensures log == [Accepted("r", None), Published(Frame(1, "r", RunEnd("r")))]
    ensures Bracketed(PARENTS, ROOTS, log) && !Headed(log, 0, root => true)
    ensures Ranked(PARENTS, map["r" := 0, "c" := 1])
    ensures !WellFormed(PARENTS, map["r" := 0, "c" := 1], Live({}, Watched(log, root => true)))
  {
    hide Open, Pending, Recorded, Bracketed, WellFormed, Live, Watched;
    NothingLogged();
    var a, b := Accepted("r", None), Published(Frame(1, "r", RunEnd("r")));
    Grown([], a, {}, {}, {});
    Grown([] + [a], b, {}, {"r"}, {RunKey("r")});
    log := [] + [a] + [b];
    assert log == [a, b] && log[..1] == [] + [a] && log[..0] == [] && log[0..] == log;
    assert Bare(log[..1], Pending(log[..0]), log[1], root => true);
    StartedWellFormed(PARENTS, map["r" := 0, "c" := 1], ROOTS, log, 0, root => true);
  }
}
