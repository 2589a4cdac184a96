/**
 Attaching to the event log: replaying a cached suffix with the context it
 needs, silencing torn Part streams, and delivering the live suffix with
 checkpoints that never pass an unsent frame.
 */
module Observation {
  import opened Common
  import opened ObservationSpec

  const OPEN_ENTITIES: nat := 4096

  /** `Missing` stands for the lookup of a Begin the snapshot does not hold. */
  datatype Failure = Gap | Missing | Overflow

  /** Records at the boundary: parents of Runs, Begins with their positions, and what has ended. */
  datatype Snapshot = Snapshot(parents: Parents, begins: map<Key, (Event, Option<Cursor>)>, ends: set<Key>)

  ghost predicate SnapOk(snap: Snapshot, rank: map<string, nat>) {
    && Ranked(snap.parents, rank)
    && forall k :: k in snap.begins ==>
         var e := snap.begins[k].0;
         && Begins(e) == Some(k)
         && (k.RunKey? ==> e.RunBegin? && k.run in snap.parents && e.parent == snap.parents[k.run])
  }

  predicate Shaped(f: Frame) {
    f.event.StepBegin? || f.event.StepEnd? || f.event.Part? ==> f.event.step.StepKey?
  }

  function OpenRuns(snap: Snapshot): set<string> {
    set k | k in snap.begins && k.RunKey? && k !in snap.ends :: k.run
  }

  function OpenSteps(snap: Snapshot): set<Key> {
    set k | k in snap.begins && k.StepKey? && k !in snap.ends
  }

  // ---------------------------------------------------------------------
  // What a replay must emit
  // ---------------------------------------------------------------------

  function BegunSteps(frames: seq<Frame>): set<Key> {
    if frames == [] then {}
    else
      var e := frames[|frames| - 1].event;
      BegunSteps(frames[..|frames| - 1]) + if e.StepBegin? then {e.step} else {}
  }

  function BegunRuns(frames: seq<Frame>): set<string> {
    if frames == [] then {}
    else
      var e := frames[|frames| - 1].event;
      BegunRuns(frames[..|frames| - 1]) + if e.RunBegin? then {e.run} else {}
  }

  /** Every cached event, except Parts of ended Steps and of Steps begun before the cache. */
  function Kept(frames: seq<Frame>, ends: set<Key>): seq<(nat, Event)> {
    if frames == [] then []
    else
      var n := |frames| - 1;
      var f := frames[n];
      Kept(frames[..n], ends)
      + if f.event.Part? && (f.event.step in ends || f.event.step !in BegunSteps(frames[..n])) then []
        else [(f.at, f.event)]
  }

  lemma KeptSnoc(frames: seq<Frame>, f: Frame, ends: set<Key>)
    ensures BegunSteps(frames + [f]) == BegunSteps(frames) + if f.event.StepBegin? then {f.event.step} else {}
    ensures BegunRuns(frames + [f]) == BegunRuns(frames) + if f.event.RunBegin? then {f.event.run} else {}
    ensures Kept(frames + [f], ends) ==
            Kept(frames, ends)
            + if f.event.Part? && (f.event.step in ends || f.event.step !in BegunSteps(frames)) then []
              else [(f.at, f.event)]
  {
    assert (frames + [f])[..|frames|] == frames;
  }

  /** Where a replay stands after `done`, with `seen` and `suppressed` as the loop keeps them. */
  ghost predicate Replaying(
    snap: Snapshot, rank: map<string, nat>, done: seq<Frame>, prefix: seq<Sent>, seen: set<Key>, suppressed: set<Key>)
    requires Ranked(snap.parents, rank)
  {
    && WellFormed(snap.parents, rank, prefix)
    && seen == Begun(prefix) && suppressed == OpenSteps(snap) - SourceSteps(prefix)
    && SourceSteps(prefix) == BegunSteps(done) && Sources(prefix) == Kept(done, snap.ends)
    && (forall k :: k in seen ==>
          k in snap.begins || if k.StepKey? then k in SourceSteps(prefix) else k.run in BegunRuns(done))
    && forall k :: k in SourceSteps(prefix) ==> Whole(snap.parents, rank, seen, k)
  }

  lemma ReplayStart(snap: Snapshot, rank: map<string, nat>)
    requires Ranked(snap.parents, rank)
    ensures Replaying(snap, rank, [], [], {}, OpenSteps(snap))
  {
  }

  /** Context may be repeated once everything above it has begun. */
  lemma ContextFits(
    snap: Snapshot, rank: map<string, nat>, done: seq<Frame>, prefix: seq<Sent>, seen: set<Key>,
    suppressed: set<Key>, key: Key, line: seq<Key>, i: nat)
    requires SnapOk(snap, rank) && Replaying(snap, rank, done, prefix, seen, suppressed)
    requires Line(snap.parents, rank, key) == Some(line) && i < |line| && line[i] in snap.begins
    requires forall j :: 0 <= j < i ==> line[j] in seen
    ensures Replaying(snap, rank, done, prefix + [Context(snap.begins[line[i]].0)], seen + {line[i]}, suppressed)
  {
    hide WellFormed, Begun, SourceSteps, Sources, OpenSteps, Kept, BegunSteps, BegunRuns, Ranked, Line, Needs, Whole;
    var k := line[i];
    var s := Context(snap.begins[k].0);
    LinePrefix(snap.parents, rank, key, i);
    AboveLine(snap, rank, k);
    assert line[..i + 1][..i] == line[..i];
    WellFormedSnoc(snap.parents, rank, prefix, s);
    OutSnoc(prefix, s);
    forall k | k in SourceSteps(prefix) ensures Whole(snap.parents, rank, seen + {line[i]}, k) {
      WholeGrows(snap.parents, rank, seen, seen + {line[i]}, k);
    }
  }

  /** What the Begin of a key needs is the line above that key. */
  lemma AboveLine(snap: Snapshot, rank: map<string, nat>, k: Key)
    requires SnapOk(snap, rank) && k in snap.begins && Line(snap.parents, rank, k).Some?
    ensures var line := Line(snap.parents, rank, k).value;
            Needs(snap.parents, rank, snap.begins[k].0) == Some(line[..|line| - 1])
  {
    hide Ranked;
    var line := Line(snap.parents, rank, k).value;
    if k.StepKey? {
      assert line[..|line| - 1] == Line(snap.parents, rank, Above(k)).value;
    } else if snap.parents[k.run].Some? {
      assert line[..|line| - 1] == Line(snap.parents, rank, snap.parents[k.run].value).value;
    }
  }

  /** A cached event whose ancestors are begun is emitted, or is a Part that must stay silent. */
  lemma SourceFits(
    snap: Snapshot, rank: map<string, nat>, done: seq<Frame>, prefix: seq<Sent>, seen: set<Key>,
    suppressed: set<Key>, f: Frame)
    requires SnapOk(snap, rank) && Replaying(snap, rank, done, prefix, seen, suppressed) && Shaped(f)
    requires Needs(snap.parents, rank, f.event).Some?
    requires forall k :: k in Needs(snap.parents, rank, f.event).value ==> k in seen
    requires f.event.Part? ==> f.event.step !in snap.ends
    ensures var begun := if Begins(f.event).Some? then {Begins(f.event).value} else {};
            var quiet := if f.event.StepBegin? then suppressed - {f.event.step} else suppressed;
            if f.event.Part? && f.event.step in suppressed
            then Replaying(snap, rank, done + [f], prefix, seen, suppressed)
            else Replaying(snap, rank, done + [f], prefix + [Source(f.event, f.at)], seen + begun, quiet)
  {
    hide WellFormed, Begun, SourceSteps, Sources, Kept, BegunSteps, BegunRuns, Ranked, Line, Whole;
    var s := Source(f.event, f.at);
    SourceWhole(snap, rank, prefix, seen, f);
    KeptSnoc(done, f, snap.ends);
    OutSnoc(prefix, s);
    WellFormedSnoc(snap.parents, rank, prefix, s);
    if f.event.Part? {
      LineEnds(snap, rank, f.event.step);
      assert f.event.step in seen;
    }
    assert Kept(done, snap.ends) + [] == Kept(done, snap.ends);
  }

  /** A Step begun in the cache has its whole line begun. */
  lemma SourceWhole(snap: Snapshot, rank: map<string, nat>, prefix: seq<Sent>, seen: set<Key>, f: Frame)
    requires Ranked(snap.parents, rank) && Shaped(f) && Needs(snap.parents, rank, f.event).Some?
    requires forall k :: k in Needs(snap.parents, rank, f.event).value ==> k in seen
    requires forall k :: k in SourceSteps(prefix) ==> Whole(snap.parents, rank, seen, k)
    ensures var next := seen + if Begins(f.event).Some? then {Begins(f.event).value} else {};
            && (forall k :: k in SourceSteps(prefix) ==> Whole(snap.parents, rank, next, k))
            && (f.event.StepBegin? ==> Whole(snap.parents, rank, next, f.event.step))
  {
    hide Ranked, Line, SourceSteps;
    var next := seen + if Begins(f.event).Some? then {Begins(f.event).value} else {};
    forall k | k in SourceSteps(prefix) ensures Whole(snap.parents, rank, next, k) {
      WholeGrows(snap.parents, rank, seen, next, k);
    }
    if f.event.StepBegin? {
      WholeStep(snap.parents, rank, next, f.event.step);
    }
  }

  lemma LineEnds(snap: Snapshot, rank: map<string, nat>, key: Key)
    requires Ranked(snap.parents, rank) && Line(snap.parents, rank, key).Some?
    ensures key in Line(snap.parents, rank, key).value
  {
  }

  /** A Part of an ended Step is passed over. */
  lemma EndedPart(
    snap: Snapshot, rank: map<string, nat>, done: seq<Frame>, prefix: seq<Sent>, seen: set<Key>,
    suppressed: set<Key>, f: Frame)
    requires Ranked(snap.parents, rank) && Replaying(snap, rank, done, prefix, seen, suppressed)
    requires f.event.Part? && f.event.step in snap.ends
    ensures Replaying(snap, rank, done + [f], prefix, seen, suppressed)
  {
    hide WellFormed, Begun, SourceSteps, Sources, Kept, BegunSteps, BegunRuns, Ranked, Whole;
    KeptSnoc(done, f, snap.ends);
    assert Kept(done, snap.ends) + [] == Kept(done, snap.ends);
  }

  // ---------------------------------------------------------------------
  // When a replay must stop
  // ---------------------------------------------------------------------

  predicate Skipped(snap: Snapshot, f: Frame) {
    f.event.Part? && f.event.step in snap.ends
  }

  /** The key needs no repeating, or its record can be repeated before a frame at `at`. */
  predicate Repeatable(snap: Snapshot, epoch: string, at: Option<nat>, seen: set<Key>, k: Key) {
    k in seen
    || (k in snap.begins
        && (at.Some? ==>
              var cursor := snap.begins[k].1;
              cursor.Some? && cursor.value.epoch == epoch && cursor.value.at <= at.value))
  }

  /** What goes wrong at the first key that cannot be repeated. */
  function Obstacle(snap: Snapshot, epoch: string, at: Option<nat>, seen: set<Key>, keys: seq<Key>): Option<Failure> {
    if keys == [] then None
    else if !Repeatable(snap, epoch, at, seen, keys[0]) then Some(if keys[0] in snap.begins then Gap else Missing)
    else Obstacle(snap, epoch, at, seen, keys[1..])
  }

  ghost function FrameObstacle(
    snap: Snapshot, rank: map<string, nat>, epoch: string, seen: set<Key>, f: Frame): Option<Failure>
    requires Ranked(snap.parents, rank)
  {
    if Skipped(snap, f) then None
    else if Needs(snap.parents, rank, f.event).None? then Some(Gap)
    else Obstacle(snap, epoch, Some(f.at), seen, Needs(snap.parents, rank, f.event).value)
  }

  /** What the frames begin, and what they need begun. */
  ghost function Shows(snap: Snapshot, rank: map<string, nat>, frames: seq<Frame>): set<Key>
    requires Ranked(snap.parents, rank)
  {
    if frames == [] then {}
    else
      var before, f := Shows(snap, rank, frames[..|frames| - 1]), frames[|frames| - 1];
      if Skipped(snap, f) then before else before + Showing(snap, rank, f)
  }

  ghost function Showing(snap: Snapshot, rank: map<string, nat>, f: Frame): set<Key>
    requires Ranked(snap.parents, rank)
  {
    var needs := Needs(snap.parents, rank, f.event);
    (if needs.Some? then set k | k in needs.value else {})
    + if Begins(f.event).Some? then {Begins(f.event).value} else {}
  }

  /** The obstacle of the first frame that has one. */
  ghost function FirstObstacle(
    snap: Snapshot, rank: map<string, nat>, epoch: string, frames: seq<Frame>): Option<Failure>
    requires Ranked(snap.parents, rank)
  {
    if frames == [] then None
    else
      var init := frames[..|frames| - 1];
      var first := FirstObstacle(snap, rank, epoch, init);
      if first.Some? then first
      else FrameObstacle(snap, rank, epoch, Shows(snap, rank, init), frames[|frames| - 1])
  }

  lemma FirstSnoc(snap: Snapshot, rank: map<string, nat>, epoch: string, frames: seq<Frame>, f: Frame)
    requires Ranked(snap.parents, rank)
    ensures Shows(snap, rank, frames + [f]) ==
            if Skipped(snap, f) then Shows(snap, rank, frames) else Shows(snap, rank, frames) + Showing(snap, rank, f)
    ensures FirstObstacle(snap, rank, epoch, frames + [f]) ==
            if FirstObstacle(snap, rank, epoch, frames).Some? then FirstObstacle(snap, rank, epoch, frames)
            else FrameObstacle(snap, rank, epoch, Shows(snap, rank, frames), f)
  {
    assert (frames + [f])[..|frames|] == frames;
  }

  lemma {:induction false} FirstStays(
    snap: Snapshot, rank: map<string, nat>, epoch: string, frames: seq<Frame>, n: nat)
    requires Ranked(snap.parents, rank) && n <= |frames|
    requires FirstObstacle(snap, rank, epoch, frames[..n]).Some?
    ensures FirstObstacle(snap, rank, epoch, frames) == FirstObstacle(snap, rank, epoch, frames[..n])
  {
    if n == |frames| {
      assert frames[..n] == frames;
    } else {
      assert frames[..|frames| - 1][..n] == frames[..n];
      FirstStays(snap, rank, epoch, frames[..|frames| - 1], n);
    }
  }

  /** An open key can be introduced only with everything above it. */
  ghost function OpenObstacle(snap: Snapshot, rank: map<string, nat>, seen: set<Key>, k: Key): Option<Failure>
    requires Ranked(snap.parents, rank)
  {
    if Line(snap.parents, rank, k).None? then Some(Gap)
    else Obstacle(snap, "", None, seen, Line(snap.parents, rank, k).value)
  }

  predicate StillOpen(snap: Snapshot, k: Key) {
    k in snap.begins && k !in snap.ends
  }

  /** Repeating recorded Begins changes no obstacle of an open key. */
  lemma {:induction false} ObstacleSame(snap: Snapshot, epoch: string, a: set<Key>, b: set<Key>, keys: seq<Key>)
    requires a <= b && forall k :: k in b && k !in a ==> k in snap.begins
    ensures Obstacle(snap, epoch, None, a, keys) == Obstacle(snap, "", None, b, keys)
  {
    if keys != [] {
      ObstacleSame(snap, epoch, a, b, keys[1..]);
    }
  }

  function Reversed(keys: seq<Key>): seq<Key> {
    if keys == [] then [] else Reversed(keys[1..]) + [keys[0]]
  }

  lemma {:induction false} ReversedSnoc(keys: seq<Key>, k: Key)
    ensures Reversed(keys + [k]) == [k] + Reversed(keys)
  {
    if keys == [] {
      assert [] + [k] == [k] && [k][1..] == [];
      assert Reversed([k]) == Reversed([]) + [k];
    } else {
      assert (keys + [k])[1..] == keys[1..] + [k];
      ReversedSnoc(keys[1..], k);
    }
  }

  // ---------------------------------------------------------------------
  // The normalizer
  // ---------------------------------------------------------------------

  class StreamNormalizer {
    var active: set<string>
    var suppressed: set<Key>
    var openSteps: set<Key>

    constructor ()
      ensures active == {} && suppressed == {} && openSteps == {}
    {
      active, suppressed, openSteps := {}, {}, {};
    }

    function OpenEntities(): nat
      reads this
    {
      |active| + |openSteps|
    }

    method Seed(snap: Snapshot) returns (ok: bool)
      modifies this
      ensures active == OpenRuns(snap) && suppressed == OpenSteps(snap) && openSteps == OpenSteps(snap)
      ensures ok <==> OpenEntities() <= OPEN_ENTITIES
    {
      active := OpenRuns(snap);
      suppressed := OpenSteps(snap);
      openSteps := suppressed;
      ok := OpenEntities() <= OPEN_ENTITIES;
    }

    /** Tracks one live event; a Part of a silent Step is not delivered. */
    method Advance(e: Event) returns (r: Result<bool, Failure>)
      modifies this
      ensures suppressed == old(suppressed) - if e.StepBegin? || e.StepEnd? then {e.step} else {}
      ensures active == (if e.RunBegin? then old(active) + {e.run}
                         else if e.RunEnd? then old(active) - {e.run} else old(active))
      ensures openSteps == (if e.StepBegin? then old(openSteps) + {e.step}
                            else if e.StepEnd? then old(openSteps) - {e.step} else old(openSteps))
      ensures r == if OpenEntities() > OPEN_ENTITIES then Err(Overflow)
                   else Ok(!(e.Part? && e.step in suppressed))
    {
      match e {
        case RunBegin(run, _) => active := active + {run};
        case RunEnd(run) => active := active - {run};
        case StepBegin(step) =>
          suppressed := suppressed - {step};
          openSteps := openSteps + {step};
        case StepEnd(step) =>
          suppressed := suppressed - {step};
          openSteps := openSteps - {step};
        case _ =>
      }
      if OpenEntities() > OPEN_ENTITIES {
        return Err(Overflow);
      }
      r := Ok(!(e.Part? && e.step in suppressed));
    }

    /** Climbs from the event's nearest key to the top; a Run without a record is a gap. */
    static method Ancestors(snap: Snapshot, e: Event, ghost rank: map<string, nat>)
      returns (r: Result<seq<Key>, Failure>)
      requires Ranked(snap.parents, rank)
      ensures var needs := Needs(snap.parents, rank, e);
              r == if needs.Some? then Ok(needs.value) else Err(Gap)
    {
      hide Ranked, Line, Reversed;
      var result: seq<Key> := [];
      var key := Nearest(e);
      ClimbStart(snap.parents, rank, e);
      while key.Some?
        invariant Needs(snap.parents, rank, e) ==
                  Climbed(snap.parents, rank, key, result)
        decreases key.Some?, if key.Some? then RankOf(rank, key.value.run) else 0,
                  if key.Some? && key.value.StepKey? then |key.value.path| + 1 else 0
      {
        var k := key.value;
        ClimbStep(snap.parents, rank, k, result);
        result := result + [k];
        if k.StepKey? {
          key := Some(Above(k));
        } else {
          if k.run !in snap.parents {
            return Err(Gap);
          }
          RankFalls(snap.parents, rank, k.run);
          key := snap.parents[k.run];
        }
      }
      r := Ok(Reversed(result));
    }

    /** Repeats the Begins a frame still needs; a recorded Begin later than the frame is a gap. */
    static method Introduce(
      snap: Snapshot, keys: seq<Key>, epoch: string, at: Option<nat>, prefix: seq<Sent>, seen: set<Key>,
      ghost rank: map<string, nat>, ghost done: seq<Frame>, ghost suppressed: set<Key>, ghost key: Key)
      returns (failure: Option<Failure>, next: seq<Sent>, known: set<Key>)
      requires SnapOk(snap, rank) && Replaying(snap, rank, done, prefix, seen, suppressed)
      requires keys == [] || Line(snap.parents, rank, key) == Some(keys)
      ensures failure == Obstacle(snap, epoch, at, seen, keys)
      ensures failure.None? ==> Replaying(snap, rank, done, next, known, suppressed)
      ensures failure.None? ==> known == seen + set k | k in keys
      ensures failure.None? ==> forall k :: k in known && k !in seen ==> k in snap.begins
    {
      hide SnapOk, Replaying, Line;
      SnapRanked(snap, rank);
      next, known := prefix, seen;
      for i := 0 to |keys|
        invariant Replaying(snap, rank, done, next, known, suppressed)
        invariant known == seen + set k | k in keys[..i]
        invariant forall j :: 0 <= j < i ==> Repeatable(snap, epoch, at, seen, keys[j]) && keys[j] in known
        invariant Obstacle(snap, epoch, at, seen, keys) == Obstacle(snap, epoch, at, seen, keys[i..])
      {
        assert keys[i..][0] == keys[i] && keys[i..][1..] == keys[i + 1..] && keys[..i + 1] == keys[..i] + [keys[i]];
        if keys[i] !in known {
          if keys[i] !in snap.begins {
            return Some(Missing), next, known;
          }
          var (begin, cursor) := snap.begins[keys[i]];
          if at.Some?
             && (cursor.None? || cursor.value.epoch != epoch || cursor.value.at > at.value) {
            return Some(Gap), next, known;
          }
          ContextFits(snap, rank, done, next, known, suppressed, key, keys, i);
          next := next + [Context(begin)];
          known := known + {keys[i]};
        }
      }
      assert keys[..|keys|] == keys;
      failure := None;
    }

    /**
     Replays cached frames from a pinned snapshot. When it succeeds, every frame
     follows the Begins of its ancestors, a Part follows its own Step's Begin in
     the log, no other event is lost, and everything still open is introduced with
     its whole line. It fails exactly at the first frame with an obstacle, or else
     when some open key has one.
     */
    method Replay(snap: Snapshot, epoch: string, frames: seq<Frame>, ghost rank: map<string, nat>)
      returns (r: Result<seq<Sent>, Failure>)
      requires SnapOk(snap, rank) && forall i :: 0 <= i < |frames| ==> Shaped(frames[i])
      requires active == OpenRuns(snap) && suppressed == OpenSteps(snap)
      modifies this`suppressed
      ensures r.Ok? ==>
                && WellFormed(snap.parents, rank, r.value)
                && Sources(r.value) == Kept(frames, snap.ends)
                && suppressed == OpenSteps(snap) - SourceSteps(r.value)
                && (forall k :: StillOpen(snap, k) ==> Whole(snap.parents, rank, Begun(r.value), k))
                && forall run :: RunKey(run) in Begun(r.value) ==>
                     RunKey(run) in snap.begins || run in BegunRuns(frames)
      ensures FirstObstacle(snap, rank, epoch, frames).Some? ==>
                r == Err(FirstObstacle(snap, rank, epoch, frames).value)
      ensures FirstObstacle(snap, rank, epoch, frames).None? ==>
                && (r.Ok? <==>
                      forall k :: StillOpen(snap, k) ==>
                        OpenObstacle(snap, rank, Shows(snap, rank, frames), k).None?)
                && (r.Err? ==>
                      exists k :: StillOpen(snap, k)
                        && OpenObstacle(snap, rank, Shows(snap, rank, frames), k) == Some(r.error))
    {
      hide SnapOk, Replaying, Line, Kept, OpenSteps, OpenRuns, Begun, WellFormed, Sources, SourceSteps, Whole, Obstacle,
        FirstObstacle, Shows, OpenObstacle, BegunRuns, StillOpen, RunKeys;
      SnapRanked(snap, rank);
      var prefix: seq<Sent>, seen: set<Key> := [], {};
      ReplayStart(snap, rank);
      assert frames[..0] == [];
      NoneShown(snap, rank, epoch);
      for i := 0 to |frames|
        invariant Replaying(snap, rank, frames[..i], prefix, seen, suppressed)
        invariant seen == Shows(snap, rank, frames[..i]) && FirstObstacle(snap, rank, epoch, frames[..i]).None?
      {
        var f := frames[i];
        assert frames[..i + 1] == frames[..i] + [f];
        FirstSnoc(snap, rank, epoch, frames[..i], f);
        if f.event.Part? && f.event.step in snap.ends {
          EndedPart(snap, rank, frames[..i], prefix, seen, suppressed, f);
          continue;
        }
        var keys := Ancestors(snap, f.event, rank);
        if keys.Err? {
          FirstStays(snap, rank, epoch, frames, i + 1);
          return Err(keys.error);
        }
        var failure;
        failure, prefix, seen := Introduce(
          snap, keys.value, epoch, Some(f.at), prefix, seen, rank, frames[..i], suppressed, NearestOr(f.event));
        if failure.Some? {
          FirstStays(snap, rank, epoch, frames, i + 1);
          return Err(failure.value);
        }
        SourceFits(snap, rank, frames[..i], prefix, seen, suppressed, f);
        assert seen + {} == seen;
        if f.event.StepBegin? {
          seen := seen + {f.event.step};
          suppressed := suppressed - {f.event.step};
        } else if f.event.RunBegin? {
          seen := seen + {RunKey(f.event.run)};
        }
        if f.event.Part? && f.event.step in suppressed {
          continue;
        }
        prefix := prefix + [Source(f.event, f.at)];
      }
      assert frames[..|frames|] == frames;
      ReplaySeen(snap, rank, frames, prefix, seen, suppressed);
      var failure;
      failure, prefix, seen := IntroduceOpen(snap, epoch, prefix, seen, rank, frames);
      OpenKeys(snap, active);
      if failure.Some? {
        return Err(failure.value);
      }
      ReplayEnds(snap, rank, frames, prefix, seen, suppressed, active);
      r := Ok(prefix);
    }

    /** An idle observer still needs the Begins of whatever may later end. */
    method IntroduceOpen(
      snap: Snapshot, epoch: string, prefix: seq<Sent>, seen: set<Key>,
      ghost rank: map<string, nat>, ghost done: seq<Frame>)
      returns (failure: Option<Failure>, next: seq<Sent>, known: set<Key>)
      requires SnapOk(snap, rank) && Replaying(snap, rank, done, prefix, seen, suppressed)
      requires active == OpenRuns(snap)
      ensures failure.None? ==> Replaying(snap, rank, done, next, known, suppressed)
      ensures failure.None? ==>
                forall k :: k in RunKeys(active) + suppressed ==> Whole(snap.parents, rank, known, k)
      ensures failure.None? <==>
                forall k :: k in RunKeys(active) + suppressed ==> OpenObstacle(snap, rank, seen, k).None?
      ensures failure.Some? ==>
                exists k :: k in RunKeys(active) + suppressed && OpenObstacle(snap, rank, seen, k) == failure
    {
      hide SnapOk, Replaying, Line, OpenRuns, Obstacle, Whole, Needs;
      next, known := prefix, seen;
      var todo := RunKeys(active) + suppressed;
      OpenHaveBegins(snap, rank, done, prefix, seen, suppressed);
      while todo != {}
        invariant Replaying(snap, rank, done, next, known, suppressed)
        invariant todo <= RunKeys(active) + suppressed && seen <= known
        invariant forall k :: k in known && k !in seen ==> k in snap.begins
        invariant forall k :: k in RunKeys(active) + suppressed && k !in todo ==>
                    Whole(snap.parents, rank, known, k) && OpenObstacle(snap, rank, seen, k).None?
        decreases todo
      {
        var k :| k in todo;
        todo := todo - {k};
        var above := Ancestors(snap, snap.begins[k].0, rank);
        WholeLine(snap, rank, k);
        if above.Err? {
          assert OpenObstacle(snap, rank, seen, k) == Some(Gap);
          return Some(above.error), next, known;
        }
        ObstacleSame(snap, epoch, seen, known, above.value + [k]);
        ObstacleSame(snap, "", seen, known, above.value + [k]);
        ObstacleSame(snap, epoch, known, known, above.value + [k]);
        ghost var before := known;
        failure, next, known := Introduce(
          snap, above.value + [k], epoch, None, next, known, rank, done, suppressed, k);
        assert OpenObstacle(snap, rank, seen, k) == failure;
        if failure.Some? {
          return;
        }
        KeptWhole(snap, rank, before, known, RunKeys(active) + suppressed - todo - {k}, above.value, k);
      }
      failure := None;
    }
  }

  lemma KeptWhole(
    snap: Snapshot, rank: map<string, nat>, before: set<Key>, known: set<Key>, keys: set<Key>, above: seq<Key>, k: Key)
    requires Ranked(snap.parents, rank) && before <= known
    requires forall a :: a in keys ==> Whole(snap.parents, rank, before, a)
    requires Line(snap.parents, rank, k) == Some(above + [k]) && forall a :: a in above + [k] ==> a in known
    ensures forall a :: a in keys + {k} ==> Whole(snap.parents, rank, known, a)
  {
    hide Ranked, Line;
    forall a | a in keys ensures Whole(snap.parents, rank, known, a) {
      WholeGrows(snap.parents, rank, before, known, a);
    }
  }

  lemma NoneShown(snap: Snapshot, rank: map<string, nat>, epoch: string)
    requires Ranked(snap.parents, rank)
    ensures Shows(snap, rank, []) == {} && FirstObstacle(snap, rank, epoch, []) == None
  {
  }

  /** What is already introduced is no obstacle. */
  lemma {:induction false} SeenObstacle(snap: Snapshot, seen: set<Key>, keys: seq<Key>)
    requires forall k :: k in keys ==> k in seen
    ensures Obstacle(snap, "", None, seen, keys).None?
  {
    if keys != [] {
      assert keys[0] in keys;
      SeenObstacle(snap, seen, keys[1..]);
    }
  }

  /** Steps begun in the cache are introduced before the open ones are gone through. */
  lemma ReplaySeen(
    snap: Snapshot, rank: map<string, nat>, done: seq<Frame>, prefix: seq<Sent>, seen: set<Key>, suppressed: set<Key>)
    requires Ranked(snap.parents, rank) && Replaying(snap, rank, done, prefix, seen, suppressed)
    ensures suppressed <= OpenSteps(snap)
    ensures forall k :: k in OpenSteps(snap) && k !in suppressed ==> OpenObstacle(snap, rank, seen, k).None?
  {
    hide WellFormed, Begun, SourceSteps, Sources, Kept, BegunSteps, BegunRuns, Ranked, Line, Obstacle, OpenSteps;
    forall k | k in OpenSteps(snap) && k !in suppressed ensures OpenObstacle(snap, rank, seen, k).None? {
      SeenObstacle(snap, seen, Line(snap.parents, rank, k).value);
    }
  }

  lemma OpenKeys(snap: Snapshot, active: set<string>)
    requires active == OpenRuns(snap)
    ensures forall k :: StillOpen(snap, k) <==> k in RunKeys(active) + OpenSteps(snap)
  {
    forall k ensures StillOpen(snap, k) <==> k in RunKeys(active) + OpenSteps(snap) {
      if k.RunKey? && k in RunKeys(active) {
        var other :| other in snap.begins && other.RunKey? && other !in snap.ends && other.run == k.run;
        assert other == k;
      }
    }
  }

  /** The ancestors still to climb from `key`, then those already climbed. */
  ghost function Climbed(
    parents: Parents, rank: map<string, nat>, key: Option<Key>, result: seq<Key>): Option<seq<Key>>
    requires Ranked(parents, rank)
  {
    if key.None? then Some(Reversed(result))
    else if Line(parents, rank, key.value).None? then None
    else Some(Line(parents, rank, key.value).value + Reversed(result))
  }

  lemma ClimbStart(parents: Parents, rank: map<string, nat>, e: Event)
    requires Ranked(parents, rank)
    ensures Climbed(parents, rank, Nearest(e), []) == Needs(parents, rank, e)
  {
    hide Ranked, Line;
    if Nearest(e).Some? && Line(parents, rank, Nearest(e).value).Some? {
      var line := Line(parents, rank, Nearest(e).value).value;
      assert line + [] == line;
    }
  }

  lemma ClimbStep(parents: Parents, rank: map<string, nat>, k: Key, result: seq<Key>)
    requires Ranked(parents, rank)
    ensures k.StepKey? ==>
              Climbed(parents, rank, Some(k), result) == Climbed(parents, rank, Some(Above(k)), result + [k])
    ensures k.RunKey? && k.run !in parents ==> Climbed(parents, rank, Some(k), result) == None
    ensures k.RunKey? && k.run in parents ==>
              Climbed(parents, rank, Some(k), result) == Climbed(parents, rank, parents[k.run], result + [k])
  {
    hide Ranked, Reversed;
    ReversedSnoc(result, k);
    var up := if k.StepKey? then Some(Above(k)) else if k.run in parents then parents[k.run] else None;
    if up.Some? && Line(parents, rank, up.value).Some? {
      var line := Line(parents, rank, up.value).value;
      assert (line + [k]) + Reversed(result) == line + ([k] + Reversed(result));
    }
  }

  function NearestOr(e: Event): Key {
    if Nearest(e).Some? then Nearest(e).value else RunKey("")
  }

  function RunKeys(runs: set<string>): (keys: set<Key>)
    ensures forall k :: k in keys <==> k.RunKey? && k.run in runs
  {
    set run | run in runs :: RunKey(run)
  }

  lemma RankFalls(parents: Parents, rank: map<string, nat>, run: string)
    requires Ranked(parents, rank) && run in parents
    ensures parents[run].Some? ==> RankOf(rank, parents[run].value.run) < RankOf(rank, run)
  {
  }

  lemma SnapRanked(snap: Snapshot, rank: map<string, nat>)
    requires SnapOk(snap, rank)
    ensures Ranked(snap.parents, rank)
  {
  }

  /** The ancestors of a recorded Begin, with its key, are the key's whole line. */
  lemma WholeLine(snap: Snapshot, rank: map<string, nat>, k: Key)
    requires SnapOk(snap, rank) && k in snap.begins
    ensures Line(snap.parents, rank, k) == Extend(Needs(snap.parents, rank, snap.begins[k].0), k)
  {
    hide Ranked;
    if k.RunKey? && snap.parents[k.run].None? {
      assert [] + [k] == [k];
    }
  }

  lemma OpenHaveBegins(
    snap: Snapshot, rank: map<string, nat>, done: seq<Frame>, prefix: seq<Sent>, seen: set<Key>, suppressed: set<Key>)
    requires SnapOk(snap, rank) && Replaying(snap, rank, done, prefix, seen, suppressed)
    ensures Ranked(snap.parents, rank)
    ensures forall k :: k in RunKeys(OpenRuns(snap)) + suppressed ==> k in snap.begins
  {
    hide WellFormed, Begun, SourceSteps, Sources, Kept, BegunSteps, Ranked;
    forall k | k in RunKeys(OpenRuns(snap)) ensures k in snap.begins {
      var other :| other in snap.begins && other.RunKey? && other.run == k.run;
      assert other == k;
    }
  }

  /** At the end of a replay every open key has been introduced with its whole line. */
  lemma ReplayEnds(
    snap: Snapshot, rank: map<string, nat>, frames: seq<Frame>, prefix: seq<Sent>, seen: set<Key>,
    suppressed: set<Key>, active: set<string>)
    requires SnapOk(snap, rank) && Replaying(snap, rank, frames, prefix, seen, suppressed)
    requires active == OpenRuns(snap)
    requires forall k :: k in RunKeys(active) + suppressed ==> Whole(snap.parents, rank, seen, k)
    ensures Ranked(snap.parents, rank)
    ensures WellFormed(snap.parents, rank, prefix) && Sources(prefix) == Kept(frames, snap.ends)
    ensures suppressed == OpenSteps(snap) - SourceSteps(prefix)
    ensures forall k :: StillOpen(snap, k) ==> Whole(snap.parents, rank, Begun(prefix), k)
    ensures forall run :: RunKey(run) in Begun(prefix) ==> RunKey(run) in snap.begins || run in BegunRuns(frames)
  {
    hide WellFormed, Begun, Sources, SourceSteps, Kept, Ranked, Line, OpenSteps, OpenRuns, StillOpen, BegunRuns, Whole;
    OpenKeys(snap, active);
  }

  // ---------------------------------------------------------------------
  // Prefix and suffix together
  // ---------------------------------------------------------------------

  /** The snapshot holds what is going on in scope at the boundary, and nothing that was never recorded. */
  ghost predicate Reflects(
    snap: Snapshot, parents: Parents, roots: map<string, string>, scope: string -> bool, log: seq<Entry>)
  {
    && (forall run :: run in snap.parents ==> run in parents && parents[run] == snap.parents[run])
    && (forall k :: k in Open(log) && InScope(roots, scope, k.run) ==> StillOpen(snap, k))
    && (forall run :: run in Pending(log) && InScope(roots, scope, run) ==> StillOpen(snap, RunKey(run)))
    && forall k :: k in snap.begins ==> k in Recorded(log)
  }

  /** What a replay promises of its prefix, as far as the live suffix depends on it. */
  ghost predicate Replayed(snap: Snapshot, rank: map<string, nat>, frames: seq<Frame>, prefix: seq<Sent>)
    requires Ranked(snap.parents, rank)
  {
    && WellFormed(snap.parents, rank, prefix)
    && (forall k :: StillOpen(snap, k) ==> Whole(snap.parents, rank, Begun(prefix), k))
    && forall run :: RunKey(run) in Begun(prefix) ==> RunKey(run) in snap.begins || run in BegunRuns(frames)
  }

  lemma WholeAgrees(some: Parents, all: Parents, rank: map<string, nat>, begun: set<Key>, key: Key)
    requires Ranked(all, rank) && Ranked(some, rank) && Whole(some, rank, begun, key)
    requires forall run :: run in some ==> run in all && all[run] == some[run]
    ensures Whole(all, rank, begun, key)
  {
    LineAgrees(some, all, rank, key);
  }

  /** Frames of the log begin only Runs that were accepted. */
  lemma {:induction false} WatchedRecorded(
    parents: Parents, rank: map<string, nat>, roots: map<string, string>, log: seq<Entry>, f: Frame, i: nat)
    requires Ranked(parents, rank) && Bracketed(parents, roots, log) && i < |log| && log[i] == Published(f)
    ensures Nearest(f.event).Some? ==> Nearest(f.event).value in Recorded(log)
    ensures f.event.RunBegin? ==> RunKey(f.event.run) in Recorded(log)
    decreases |log|
  {
    hide Ranked, Whole, Open, Pending;
    var init, e := log[..|log| - 1], log[|log| - 1];
    assert log == init + [e];
    BracketedSnoc(parents, roots, init, e);
    LogSnoc(init, e);
    if i < |init| {
      WatchedRecorded(parents, rank, roots, init, f, i);
    } else {
      hide Recorded;
      RecordedWhole(parents, rank, roots, init);
      if f.event.RunBegin? {
        WholeRun(parents, rank, Recorded(init), f.event.run);
        if f.event.parent.Some? {
          WholeSelf(parents, rank, Recorded(init), f.event.parent.value);
        }
      }
    }
  }

  lemma WholeSelf(parents: Parents, rank: map<string, nat>, begun: set<Key>, key: Key)
    requires Ranked(parents, rank) && Whole(parents, rank, begun, key)
    ensures key in begun
  {
  }

  /** Every cached frame was published before the boundary. */
  ghost predicate FromLog(frames: seq<Frame>, log: seq<Entry>) {
    forall i :: 0 <= i < |frames| ==> Published(frames[i]) in log
  }

  lemma {:induction false} BegunRunsRecorded(
    parents: Parents, rank: map<string, nat>, roots: map<string, string>, log: seq<Entry>, frames: seq<Frame>)
    requires Ranked(parents, rank) && Bracketed(parents, roots, log) && FromLog(frames, log)
    ensures forall run :: run in BegunRuns(frames) ==> RunKey(run) in Recorded(log)
  {
    hide Ranked, Bracketed, Recorded;
    if frames != [] {
      var init, f := frames[..|frames| - 1], frames[|frames| - 1];
      assert FromLog(init, log) by {
        assert forall i :: 0 <= i < |init| ==> init[i] == frames[i];
      }
      BegunRunsRecorded(parents, rank, roots, log, init);
      var i :| 0 <= i < |log| && log[i] == Published(f);
      WatchedRecorded(parents, rank, roots, log, f, i);
    }
  }

  /** A replay introduces what is going on at the boundary. */
  lemma ReplayIntroduces(
    parents: Parents, rank: map<string, nat>, roots: map<string, string>, scope: string -> bool,
    log: seq<Entry>, snap: Snapshot, frames: seq<Frame>, prefix: seq<Sent>)
    requires Ranked(parents, rank) && Bracketed(parents, roots, log) && FromLog(frames, log)
    requires SnapOk(snap, rank) && Ranked(snap.parents, rank) && Replayed(snap, rank, frames, prefix)
    requires Reflects(snap, parents, roots, scope, log)
    ensures WellFormed(parents, rank, prefix)
    ensures Introduced(
              parents, rank, log, roots, scope, Pending(log), prefix, OpenSteps(snap) - SourceSteps(prefix))
  {
    hide Ranked, Bracketed, WellFormed, Begun, SourceSteps, Open, Pending, Recorded, BegunRuns, Whole, SnapOk;
    WellFormedAgrees(snap.parents, parents, rank, prefix);
    BegunRunsRecorded(parents, rank, roots, log, frames);
    forall k | StillOpen(snap, k) ensures Whole(parents, rank, Begun(prefix), k) {
      WholeAgrees(snap.parents, parents, rank, Begun(prefix), k);
    }
    forall run | run in Pending(log) && InScope(roots, scope, run)
      ensures WholeAbove(parents, rank, Begun(prefix), run) && RunKey(run) in Begun(prefix)
    {
      WholeRun(parents, rank, Begun(prefix), run);
    }
  }

  /**
   A replayed prefix followed by any amount of live log is well formed, ancestors
   first and no Part without its own Step's Begin, if and only if no watched Run
   accepted after the boundary ends without having begun.
   */
  lemma AttachmentWellFormed(
    parents: Parents, rank: map<string, nat>, roots: map<string, string>, scope: string -> bool,
    log: seq<Entry>, n: nat, snap: Snapshot, frames: seq<Frame>, prefix: seq<Sent>)
    requires Ranked(parents, rank) && Rooted(parents, roots) && Bracketed(parents, roots, log) && n <= |log|
    requires SnapOk(snap, rank) && Ranked(snap.parents, rank) && Replayed(snap, rank, frames, prefix)
    requires Reflects(snap, parents, roots, scope, log[..n]) && FromLog(frames, log[..n])
    ensures WellFormed(parents, rank,
                       prefix + Live(OpenSteps(snap) - SourceSteps(prefix), Watched(log[n..], scope)))
            <==> Headed(log, n, scope)
  {
    hide Ranked, Rooted, Bracketed, WellFormed, Live, Watched, SourceSteps, Replayed, Reflects, Introduced, Headed,
      Pending, FromLog;
    BracketedPrefix(parents, roots, log, n);
    ReplayIntroduces(parents, rank, roots, scope, log[..n], snap, frames, prefix);
    LiveWellFormed(parents, rank, roots, log, n, scope, prefix, OpenSteps(snap) - SourceSteps(prefix));
  }

  // ---------------------------------------------------------------------
  // A snapshot that holds every record of its trees
  // ---------------------------------------------------------------------

  /** The snapshot holds whole trees of the records, with all Steps of their Runs. */
  ghost predicate Loaded(snap: Snapshot, parents: Parents, log: seq<Entry>) {
    && (forall run :: run in snap.parents ==>
          && run in parents && parents[run] == snap.parents[run]
          && (parents[run].Some? ==> parents[run].value.run in snap.parents))
    && (forall k :: k in Recorded(log) && k.run in snap.parents ==> k in snap.begins)
    && forall k :: k in snap.begins ==> k in Recorded(log) && k.run in snap.parents
  }

  lemma {:induction false} TreeLine(snap: Snapshot, parents: Parents, rank: map<string, nat>, key: Key, log: seq<Entry>)
    requires Ranked(parents, rank) && Ranked(snap.parents, rank) && Loaded(snap, parents, log)
    requires key.run in snap.parents
    ensures Line(snap.parents, rank, key).Some?
    ensures forall a :: a in Line(snap.parents, rank, key).value ==> a.run in snap.parents
    decreases RankOf(rank, key.run), if key.StepKey? then |key.path| + 1 else 0
  {
    hide Recorded;
    if key.StepKey? {
      TreeLine(snap, parents, rank, Above(key), log);
    } else if snap.parents[key.run].Some? {
      TreeLine(snap, parents, rank, snap.parents[key.run].value, log);
    }
  }

  /** Everything above a record of a loaded tree is recorded in the snapshot too. */
  lemma LoadedLine(
    snap: Snapshot, parents: Parents, rank: map<string, nat>, roots: map<string, string>, log: seq<Entry>, key: Key)
    requires Ranked(parents, rank) && Bracketed(parents, roots, log) && Ranked(snap.parents, rank)
    requires Loaded(snap, parents, log) && key in Recorded(log) && key.run in snap.parents
    ensures Line(snap.parents, rank, key).Some?
    ensures forall a :: a in Line(snap.parents, rank, key).value ==> a in snap.begins
  {
    hide Ranked, Bracketed, Recorded, Line;
    TreeLine(snap, parents, rank, key, log);
    LineAgrees(snap.parents, parents, rank, key);
    RecordedWhole(parents, rank, roots, log);
    assert Whole(parents, rank, Recorded(log), key);
  }

  lemma {:induction false} NotMissing(snap: Snapshot, epoch: string, at: Option<nat>, seen: set<Key>, keys: seq<Key>)
    requires forall k :: k in keys ==> k in snap.begins
    ensures Obstacle(snap, epoch, at, seen, keys) != Some(Missing)
    ensures at.None? ==> Obstacle(snap, epoch, at, seen, keys).None?
  {
    if keys != [] {
      assert keys[0] in keys;
      NotMissing(snap, epoch, at, seen, keys[1..]);
    }
  }

  lemma LoadedFrame(
    snap: Snapshot, parents: Parents, rank: map<string, nat>, roots: map<string, string>, log: seq<Entry>,
    epoch: string, seen: set<Key>, f: Frame)
    requires Ranked(parents, rank) && Bracketed(parents, roots, log) && Ranked(snap.parents, rank)
    requires Loaded(snap, parents, log) && Published(f) in log
    requires Nearest(f.event).Some? ==> Nearest(f.event).value.run in snap.parents
    ensures FrameObstacle(snap, rank, epoch, seen, f) != Some(Missing)
  {
    hide Ranked, Bracketed, Recorded, Line, Loaded, Obstacle;
    var i :| 0 <= i < |log| && log[i] == Published(f);
    WatchedRecorded(parents, rank, roots, log, f, i);
    if Nearest(f.event).Some? {
      LoadedLine(snap, parents, rank, roots, log, Nearest(f.event).value);
      NotMissing(snap, epoch, Some(f.at), seen, Line(snap.parents, rank, Nearest(f.event).value).value);
    } else {
      NotMissing(snap, epoch, Some(f.at), seen, []);
    }
  }

  /**
   With whole trees loaded, no lookup of a Begin is ever missing and no open key
   is an obstacle: a replay can only stop at a frame whose ancestors' Begins are
   unpublished, of another incarnation, or later than the frame.
   */
  lemma {:induction false} LoadedNeverMissing(
    snap: Snapshot, parents: Parents, rank: map<string, nat>, roots: map<string, string>, log: seq<Entry>,
    epoch: string, frames: seq<Frame>)
    requires Ranked(parents, rank) && Bracketed(parents, roots, log) && Ranked(snap.parents, rank)
    requires Loaded(snap, parents, log) && FromLog(frames, log)
    requires forall i :: 0 <= i < |frames| && Nearest(frames[i].event).Some? ==>
               Nearest(frames[i].event).value.run in snap.parents
    ensures FirstObstacle(snap, rank, epoch, frames) != Some(Missing)
    ensures forall k, seen :: StillOpen(snap, k) ==> OpenObstacle(snap, rank, seen, k).None?
  {
    hide Ranked, Bracketed, Recorded, Line, FrameObstacle, Shows, Obstacle;
    forall k, seen | StillOpen(snap, k) ensures OpenObstacle(snap, rank, seen, k).None? {
      LoadedLine(snap, parents, rank, roots, log, k);
      NotMissing(snap, "", None, seen, Line(snap.parents, rank, k).value);
    }
    if frames != [] {
      var init, f := frames[..|frames| - 1], frames[|frames| - 1];
      assert forall i :: 0 <= i < |init| ==> init[i] == frames[i];
      LoadedNeverMissing(snap, parents, rank, roots, log, epoch, init);
      LoadedFrame(snap, parents, rank, roots, log, epoch, Shows(snap, rank, init), f);
    }
  }

  /** Without the record of an open Step, a Part of it ends the replay as a missing lookup. */
  lemma RecordMissing()
    ensures var step := StepKey("run", [0]);
            var snap := Snapshot(map["run" := None],
                                 map[RunKey("run") := (RunBegin("run", None), Some(Cursor("epoch", 1)))], {});
            && SnapOk(snap, map[])
            && FirstObstacle(snap, map[], "epoch", [Frame(3, "run", Part(step))]) == Some(Missing)
  {
    var step := StepKey("run", [0]);
    var snap := Snapshot(map["run" := None],
                         map[RunKey("run") := (RunBegin("run", None), Some(Cursor("epoch", 1)))], {});
    var f := Frame(3, "run", Part(step));
    assert [] + [f] == [f];
    FirstSnoc(snap, map[], "epoch", [], f);
    assert Line(snap.parents, map[], RunKey("run")) == Some([RunKey("run")]);
    assert [RunKey("run")] + [step] == [RunKey("run"), step];
    assert Line(snap.parents, map[], step) == Some([RunKey("run"), step]);
    assert [RunKey("run"), step][1..] == [step];
    assert Obstacle(snap, "epoch", Some(3), {}, [step]) == Some(Missing);
  }

  // ---------------------------------------------------------------------
  // A subscription: the prefix, then the live suffix
  // ---------------------------------------------------------------------

  /**
   One read from the canonical stream: watched frames, the position read to, and
   whether the reader held nothing when it was looked at before waiting for it.
   */
  datatype Read = Read(events: seq<Frame>, cursor: nat, idle: bool)

  datatype Out = Shown(sent: Sent) | Mark(at: nat) | Prefill

  datatype Received = Next(frame: Frame) | Starved | Stopped

  /** Runs begun and not ended, from those active at first. */
  function ActiveAfter(first: set<string>, frames: seq<Frame>): set<string> {
    if frames == [] then first
    else
      var before := ActiveAfter(first, frames[..|frames| - 1]);
      match frames[|frames| - 1].event
      case RunBegin(run, _) => before + {run}
      case RunEnd(run) => before - {run}
      case _ => before
  }

  lemma ActiveSnoc(first: set<string>, frames: seq<Frame>, f: Frame)
    ensures ActiveAfter(first, frames + [f]) ==
            (if f.event.RunBegin? then ActiveAfter(first, frames) + {f.event.run}
             else if f.event.RunEnd? then ActiveAfter(first, frames) - {f.event.run}
             else ActiveAfter(first, frames))
  {
    assert (frames + [f])[..|frames|] == frames;
  }

  predicate Between(frames: seq<Frame>, low: nat, high: nat) {
    && (forall i :: 0 <= i < |frames| ==> low < frames[i].at <= high)
    && forall i, j :: 0 <= i < j < |frames| ==> frames[i].at < frames[j].at
  }

  /** Reads continue from a position, each advancing it. */
  predicate Continues(feed: seq<Read>, from: nat) {
    feed == [] ||
    (from < feed[0].cursor && Between(feed[0].events, from, feed[0].cursor) && Continues(feed[1..], feed[0].cursor))
  }

  function Acquired(feed: seq<Read>): seq<Frame> {
    if feed == [] then [] else Acquired(feed[..|feed| - 1]) + feed[|feed| - 1].events
  }

  lemma {:induction false} ContinuesAt(feed: seq<Read>, from: nat, i: nat)
    requires Continues(feed, from) && i < |feed|
    ensures var low := if i == 0 then from else feed[i - 1].cursor;
            from <= low < feed[i].cursor && Between(feed[i].events, low, feed[i].cursor)
  {
    if i > 0 {
      ContinuesAt(feed[1..], feed[0].cursor, i - 1);
      assert feed[1..][i - 1] == feed[i];
      assert i > 1 ==> feed[1..][i - 2] == feed[i - 1];
    }
  }

  function IdOf(out: Out): Option<nat> {
    match out
    case Shown(Source(_, at)) => Some(at)
    case Mark(at) => Some(at)
    case _ => None
  }

  class EventSubscription {
    const norm: StreamNormalizer
    const boundary: nat
    /** Bound to one root, whose Runs all ending ends the subscription. */
    const rooted: bool
    var prefix: seq<Out>
    var batch: seq<Frame>
    var checkpoint: Option<nat>
    var lastSent: Option<nat>
    /** Frames taken from the stream and already dealt with, and what was sent of them. */
    ghost var handled: seq<Frame>
    ghost var delivered: seq<Sent>
    ghost var quiet: set<Key>
    ghost var first: set<string>
    /** The frames of the prefix. */
    ghost const opening: seq<Sent>

    /** The position the stream has been read to. */
    function Position(): nat
      reads this
    {
      if checkpoint.Some? then checkpoint.value else boundary
    }

    /** Once the prefix is out, everything sent lies behind everything still to send. */
    predicate SentUpTo()
      reads this
    {
      && lastSent.Some? && lastSent.value <= Position()
      && forall i :: 0 <= i < |batch| ==> lastSent.value < batch[i].at
    }

    ghost predicate Valid()
      reads this, norm
    {
      && norm.suppressed == Silent(quiet, handled) && delivered == Live(quiet, handled)
      && norm.active == ActiveAfter(first, handled)
      && boundary <= Position() && Between(handled + batch, boundary, Position())
      && (checkpoint.None? ==> batch == [] && handled == [])
      && (checkpoint.Some? ==> boundary < checkpoint.value)
      && (if prefix == [] then SentUpTo()
          else checkpoint.None? && IdOf(prefix[|prefix| - 1]).Some? && IdOf(prefix[|prefix| - 1]).value <= boundary)
    }

    /** A replacement announces itself before its frames; either prefix ends at the boundary. */
    constructor (
      norm: StreamNormalizer, boundary: nat, rooted: bool, replacing: bool, frames: seq<Sent>, after: Option<nat>)
      ensures Valid() && this.norm == norm && this.boundary == boundary && this.rooted == rooted
      ensures opening == frames && quiet == norm.suppressed && first == norm.active
      ensures delivered == [] && handled == []
      ensures |prefix| == |frames| + if replacing then 2 else 1
      ensures (replacing ==> prefix[0] == Prefill) && prefix[|prefix| - 1] == Mark(boundary)
      ensures forall i :: 0 <= i < |frames| ==> prefix[if replacing then i + 1 else i] == Shown(frames[i])
    {
      this.norm, this.boundary, this.rooted, opening := norm, boundary, rooted, frames;
      prefix := (if replacing then [Prefill] else [])
                + seq(|frames|, i requires 0 <= i < |frames| => Shown(frames[i])) + [Mark(boundary)];
      batch, checkpoint, lastSent := [], None, after;
      handled, delivered, quiet, first := [], [], norm.suppressed, norm.active;
    }

    /** A new root's own log since its admission, with nothing silent and no checkpoint behind it. */
    constructor Started(norm: StreamNormalizer, boundary: nat, frames: seq<Frame>, after: nat)
      requires norm.suppressed == {} && after <= boundary && Between(frames, after, boundary)
      ensures Valid() && this.norm == norm && this.boundary == boundary && rooted
      ensures opening == Live({}, frames) && quiet == {} && first == norm.active
      ensures delivered == [] && handled == [] && |prefix| == |frames|
      ensures forall i :: 0 <= i < |frames| ==> prefix[i] == Shown(Source(frames[i].event, frames[i].at))
    {
      this.norm, this.boundary, rooted, opening := norm, boundary, true, Live({}, frames);
      prefix := seq(|frames|, i requires 0 <= i < |frames| => Shown(Source(frames[i].event, frames[i].at)));
      batch, checkpoint, lastSent := [], None, Some(after);
      handled, delivered, quiet, first := [], [], {}, norm.active;
    }

    /** Sends the next frame of the prefix. */
    method SendPrefix() returns (out: Out)
      requires Valid() && prefix != []
      modifies this`prefix, this`lastSent
      ensures Valid() && prefix == old(prefix)[1..] && out == old(prefix)[0]
      ensures lastSent == if IdOf(out).Some? then IdOf(out) else old(lastSent)
    {
      hide Live, Silent, Between, ActiveAfter;
      out := prefix[0];
      prefix := prefix[1..];
      if IdOf(out).Some? {
        lastSent := IdOf(out);
      }
    }

    /** Takes one batch from the stream. */
    method Refill(read: Read)
      requires Valid() && prefix == [] && batch == []
      requires Position() < read.cursor && Between(read.events, Position(), read.cursor)
      modifies this`batch, this`checkpoint
      ensures Valid() && batch == read.events && checkpoint == Some(read.cursor)
    {
      hide Live, Silent, ActiveAfter;
      assert handled + batch == handled;
      batch := read.events;
      checkpoint := Some(read.cursor);
    }

    /** Deals with the oldest unsent frame: sends it, or passes over a silent Part. */
    method SendOne() returns (r: Result<Option<Frame>, Failure>)
      requires Valid() && prefix == [] && batch != []
      modifies this`batch, this`lastSent, this`handled, this`delivered, norm
      ensures r.Ok? ==> Valid() && handled + batch == old(handled + batch) && |batch| < |old(batch)|
      ensures handled == old(handled) + [old(batch)[0]]
      ensures r.Ok? && r.value.Some? ==>
                && delivered == old(delivered) + [Source(r.value.value.event, r.value.value.at)]
                && lastSent == Some(r.value.value.at)
                && (old(lastSent).Some? ==> old(lastSent).value < r.value.value.at)
      ensures r.Ok? && r.value.None? ==> delivered == old(delivered) && lastSent == old(lastSent)
    {
      hide Live, Silent, Between, ActiveAfter;
      var frame := batch[0];
      PopFront();
      LiveSnoc(quiet, handled, frame);
      ActiveSnoc(first, handled, frame);
      assert handled + batch == (handled + [frame]) + batch[1..];
      assert delivered + [] == delivered;
      batch := batch[1..];
      var deliver := norm.Advance(frame.event);
      handled := handled + [frame];
      if deliver.Err? {
        return Err(deliver.error);
      }
      if !deliver.value {
        return Ok(None);
      }
      delivered := delivered + [Source(frame.event, frame.at)];
      lastSent := Some(frame.at);
      r := Ok(Some(frame));
    }

    /**
     Sends the next live frame, reading further batches as needed. Silent Parts are
     passed over, nothing else is. A root subscription stops once no Run it knows of
     is active and the reader holds nothing; any other waits when the reads are used up.
     */
    method Receive(feed: seq<Read>) returns (r: Result<Received, Failure>, used: nat)
      requires Valid() && prefix == [] && Continues(feed, Position())
      modifies this, norm
      ensures used <= |feed| && prefix == []
      ensures r.Ok? ==> Valid() && quiet == old(quiet) && first == old(first)
      ensures r.Ok? ==> handled + batch == old(handled + batch) + Acquired(feed[..used])
      ensures r.Ok? && r.value.Next? ==>
                && delivered == old(delivered) + [Source(r.value.frame.event, r.value.frame.at)]
                && lastSent == Some(r.value.frame.at)
                && (old(lastSent).Some? ==> old(lastSent).value < r.value.frame.at)
      ensures r.Ok? && !r.value.Next? ==> batch == [] && delivered == old(delivered)
      ensures r.Ok? && !r.value.Next? ==>
                (r.value.Stopped? <==> rooted && ActiveAfter(first, handled) == {}
                                       && (used < |feed| ==> feed[used].idle))
      ensures r.Ok? && r.value.Starved? ==> used == |feed|
    {
      hide Live, Silent, Between, Continues, Acquired, EventSubscription.Valid, ActiveAfter;
      used := 0;
      assert feed[..0] == [];
      NothingAcquired();
      ghost var taken := handled + batch;
      assert taken + [] == taken;
      while true
        invariant Valid() && prefix == [] && used <= |feed| && quiet == old(quiet) && first == old(first)
        invariant handled + batch == taken + Acquired(feed[..used])
        invariant delivered == old(delivered) && lastSent == old(lastSent)
        invariant Position() == if used == 0 then old(Position()) else feed[used - 1].cursor
        decreases |feed| - used, |batch|
      {
        if batch == [] {
          ActiveNow();
          if rooted && norm.active == {} && (used < |feed| ==> feed[used].idle) {
            return Ok(Stopped), used;
          }
          if used == |feed| {
            return Ok(Starved), used;
          }
          ContinuesAt(feed, old(Position()), used);
          AcquiredSnoc(feed, used);
          assert handled + batch == handled;
          assert taken + (Acquired(feed[..used]) + feed[used].events) ==
                 (taken + Acquired(feed[..used])) + feed[used].events;
          Refill(feed[used]);
          used := used + 1;
          continue;
        }
        var sent := SendOne();
        if sent.Err? {
          return Err(sent.error), used;
        }
        if sent.value.Some? {
          return Ok(Next(sent.value.value)), used;
        }
      }
    }

    lemma ActiveNow()
      requires Valid()
      ensures norm.active == ActiveAfter(first, handled)
    {
    }

    /** A checkpoint is offered only when every frame read so far was sent or is silent. */
    method Checkpoint() returns (at: Option<nat>)
      requires Valid()
      modifies this`lastSent
      ensures Valid()
      ensures at.Some? ==>
                && prefix == [] && batch == [] && at.value == Position() && lastSent == at
                && (old(lastSent).Some? ==> old(lastSent).value < at.value)
                && delivered == Live(quiet, handled)
                && forall i :: 0 <= i < |handled| ==> handled[i].at <= at.value
      ensures at.Some? <==>
                && prefix == [] && batch == [] && boundary < Position()
                && (old(lastSent).None? || old(lastSent).value < Position())
      ensures at.None? ==> lastSent == old(lastSent)
    {
      if prefix != [] || batch != [] || checkpoint.None? {
        return None;
      }
      if lastSent.None? || checkpoint.value > lastSent.value {
        lastSent := checkpoint;
        assert handled + batch == handled;
        return checkpoint;
      }
      at := None;
    }

    lemma PopFront()
      requires Valid() && batch != []
      ensures forall i :: 1 <= i < |batch| ==> batch[0].at < batch[i].at
      ensures batch[0].at <= Position() && (prefix == [] ==> lastSent.Some? && lastSent.value < batch[0].at)
    {
      var all := handled + batch;
      forall i | 1 <= i < |batch| ensures batch[0].at < batch[i].at {
        assert all[|handled|] == batch[0] && all[|handled| + i] == batch[i];
      }
      assert all[|handled|] == batch[0];
    }
  }

  lemma NothingAcquired()
    ensures Acquired([]) == []
  {
  }

  lemma AcquiredSnoc(feed: seq<Read>, i: nat)
    requires i < |feed|
    ensures Acquired(feed[..i + 1]) == Acquired(feed[..i]) + feed[i].events
  {
    assert feed[..i + 1][..i] == feed[..i];
  }

  // ---------------------------------------------------------------------
  // All that a subscription sends
  // ---------------------------------------------------------------------

  /**
   Whatever a subscription has sent of its prefix and after it is well formed,
   provided the prefix was and introduced what was going on at the boundary, if and
   only if no Run accepted since has been shown to end without having begun. The
   frames acquired are the watched part of the log, and those sent a prefix of it.
   */
  lemma SubscriptionWellFormed(
    sub: EventSubscription, parents: Parents, rank: map<string, nat>, roots: map<string, string>,
    scope: string -> bool, log: seq<Entry>, n: nat)
    returns (m: nat)
    requires sub.Valid() && n <= |log| && sub.handled + sub.batch == Watched(log[n..], scope)
    requires Ranked(parents, rank) && Rooted(parents, roots) && Bracketed(parents, roots, log)
    requires WellFormed(parents, rank, sub.opening)
    requires Introduced(parents, rank, log[..n], roots, scope, Pending(log[..n]), sub.opening, sub.quiet)
    ensures n <= m <= |log| && sub.handled == Watched(log[n..m], scope)
    ensures WellFormed(parents, rank, sub.opening + sub.delivered) <==> Headed(log[..m], n, scope)
  {
    hide Ranked, Rooted, Bracketed, WellFormed, Live, Watched, Introduced, Headed, Pending;
    m := HandledUpTo(sub, scope, log, n);
    BracketedPrefix(parents, roots, log, m);
    assert log[..m][..n] == log[..n] && log[..m][n..] == log[n..m];
    LiveWellFormed(parents, rank, roots, log[..m], n, scope, sub.opening, sub.quiet);
  }

  lemma HandledUpTo(sub: EventSubscription, scope: string -> bool, log: seq<Entry>, n: nat) returns (m: nat)
    requires n <= |log| && sub.handled + sub.batch == Watched(log[n..], scope)
    ensures n <= m <= |log| && sub.handled == Watched(log[n..m], scope)
  {
    hide Watched;
    var k := WatchedPrefix(log[n..], scope, |sub.handled|);
    m := n + k;
    assert log[n..][..k] == log[n..m];
    assert (sub.handled + sub.batch)[..|sub.handled|] == sub.handled;
  }

  /** The same for a new root, whose subscription starts at the position of its admission. */
  lemma StartedSubscription(
    sub: EventSubscription, parents: Parents, rank: map<string, nat>, roots: map<string, string>,
    scope: string -> bool, log: seq<Entry>, a: nat, n: nat)
    returns (m: nat)
    requires sub.Valid() && a <= n <= |log| && sub.quiet == {}
    requires sub.opening == Live({}, Watched(log[a..n], scope))
    requires sub.handled + sub.batch == Watched(log[n..], scope)
    requires Ranked(parents, rank) && Rooted(parents, roots) && Bracketed(parents, roots, log)
    requires forall k :: k in Open(log[..a]) ==> !InScope(roots, scope, k.run)
    requires forall run :: run in Pending(log[..a]) ==> !InScope(roots, scope, run)
    ensures n <= m <= |log| && sub.handled == Watched(log[n..m], scope)
    ensures WellFormed(parents, rank, sub.opening + sub.delivered) <==> Headed(log[..m], a, scope)
  {
    hide Ranked, Rooted, Bracketed, WellFormed, Live, Watched, Headed, Open, Pending, Silent;
    m := HandledUpTo(sub, scope, log, n);
    BracketedPrefix(parents, roots, log, m);
    assert log[..m][..a] == log[..a] && log[..m][a..] == log[a..n] + log[n..m];
    WatchedConcat(log[a..n], log[n..m], scope);
    NothingSilent(Watched(log[a..n], scope));
    LiveConcat({}, Watched(log[a..n], scope), Watched(log[n..m], scope));
    StartedWellFormed(parents, rank, roots, log[..m], a, scope);
  }
}
