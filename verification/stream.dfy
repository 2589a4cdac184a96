/**
 The bounded canonical stream: one ring shared by many readers that are only
 scan cursors. A ghost log records everything ever published; the ring is
 proved to refine it for every reader that was not overflowed.

 Each method is one section under the stream's lock, so any interleaving of
 publishers, wake callbacks and readers is a sequence of calls, and `Valid` is
 what every call keeps.
 */
module Stream {
  import opened Common
  import opened StreamSpec

  datatype Refusal = StreamClosed | Nested | Gap | Ahead

  /** How one pass of `receive` ends: a batch, an exception, or a wait. */
  datatype Outcome =
    | Batch(events: seq<Frame>, cursor: nat)
    | Overflowed
    | Stopped
    | Parked

  /** The least element of `s`, or `top` when there is none. */
  ghost function Least(s: set<nat>, top: nat): (m: nat)
    ensures s == {} ==> m == top
    ensures s != {} ==> m in s && forall x :: x in s ==> m <= x
    decreases |s|
  {
    if s == {} then top
    else
      var x :| x in s;
      var rest := s - {x};
      assert s == rest + {x};
      var m := Least(rest, x);
      if x < m then x else m
  }

  /** The greatest element of `s`, or 0 when there is none. */
  ghost function Greatest(s: set<nat>): (m: nat)
    ensures s == {} ==> m == 0
    ensures s != {} ==> m in s && forall x :: x in s ==> x <= m
    decreases |s|
  {
    if s == {} then 0
    else
      var x :| x in s;
      var rest := s - {x};
      assert s == rest + {x};
      var m := Greatest(rest);
      if x > m then x else m
  }

  /** Staged events: invisible until the enclosing block ends normally. */
  class Publication {
    const source: CanonicalStream
    var pending: seq<Frame>

    constructor (source: CanonicalStream)
      ensures this.source == source && pending == []
    {
      this.source := source;
      pending := [];
    }

    ghost predicate Valid()
      reads this, source
    {
      forall i :: 0 <= i < |pending| ==> pending[i].at == source.tail + i + 1
    }

    method Append(kind: Kind, thread: string, root: Option<string>, size: nat)
      requires Valid()
      modifies this
      ensures Valid()
      ensures pending == old(pending) + [Frame(source.tail + |old(pending)| + 1, kind, thread, root, size)]
    {
      pending := pending + [Frame(source.tail + |pending| + 1, kind, thread, root, size)];
    }
  }

  class CanonicalStream {
    const limits: Limits
    const epoch: string
    var events: seq<Frame>
    var bytes: nat
    var tail: nat
    var floor: nat
    var readers: set<StreamReader>
    var listeners: set<StreamReader>
    var closed: bool
    var publishing: bool
    /** Everything ever published, and every reader ever subscribed. */
    ghost var log: seq<Frame>
    ghost var subscribed: set<StreamReader>
    /** The tail at the time of closing. */
    ghost var final: Option<nat>

    /** Ring, log and readers agree; budgets and wakeups aside. */
    ghost predicate Core()
      reads this, subscribed`at, subscribed`through, subscribed`delivered, subscribed`overflowed, subscribed`closed
      reads subscribed`until, subscribed`left
    {
      && limits.Positive()
      && Refines(events, floor, log) && tail == |log| && bytes == Bytes(events)
      && readers <= subscribed
      && (closed <==> final.Some?) && (closed ==> final.value <= tail)
      && listeners == (if closed then {} else readers)
      && forall r :: r in subscribed ==> r.Fine(this, events, floor, log, final, r in readers)
    }

    ghost predicate Valid()
      reads this, readers, subscribed
    {
      && Core() && !Over(events, limits)
      && forall r :: r in subscribed ==> r.Awake(tail, closed)
    }

    ghost function ReadFloor(): nat
      reads this`readers, this`tail, readers`at
    {
      Least(set r | r in readers :: r.at, tail)
    }

    lemma ReadFloorIs()
      ensures readers == {} ==> ReadFloor() == tail
      ensures readers != {} ==> exists r :: r in readers && r.at == ReadFloor()
      ensures forall r :: r in readers ==> ReadFloor() <= r.at
    {
      var ats := set r | r in readers :: r.at;
      assert forall r :: r in readers ==> r.at in ats;
    }

    constructor (limits: Limits, epoch: string)
      requires limits.Positive()
      ensures Valid() && log == [] && subscribed == {} && !closed && !publishing
      ensures this.limits == limits && this.epoch == epoch
    {
      this.limits, this.epoch := limits, epoch;
      events, bytes, tail, floor := [], 0, 0, 0;
      readers, listeners := {}, {};
      closed, publishing := false, false;
      log, subscribed, final := [], {}, None;
    }

    // -------------------------------------------------------------------
    // Publication
    // -------------------------------------------------------------------

    method Begin() returns (r: Result<Publication, Refusal>)
      modifies this`publishing
      ensures r.Ok? <==> !old(closed) && !old(publishing)
      ensures r.Ok? ==> fresh(r.value) && r.value.source == this && r.value.pending == [] && publishing
      ensures r.Err? ==> publishing == old(publishing) && r.error == (if closed then StreamClosed else Nested)
    {
      if closed {
        return Err(StreamClosed);
      }
      if publishing {
        return Err(Nested);
      }
      var p := new Publication(this);
      publishing := true;
      r := Ok(p);
    }

    /** The block raised: nothing staged becomes visible. */
    method Abort(p: Publication)
      requires Valid() && publishing
      modifies this`publishing
      ensures Valid() && !publishing && log == old(log) && events == old(events)
    {
      publishing := false;
    }

    /** The block ended: the staged events enter the log, in order. */
    method Commit(p: Publication)
      requires Valid() && publishing && p.source == this && p.Valid()
      modifies this, readers`overflowed, readers`scheduled
      ensures Valid() && !publishing
      ensures log == old(log) + p.pending
      ensures readers <= old(readers) && subscribed == old(subscribed) && closed == old(closed)
      ensures forall r :: r in old(readers) && r !in readers ==> r.overflowed
    {
      hide Refines, After, Over, Bytes, Compact, Fit, StreamReader.Fine, Furthest, ReadFloor;
      ReaderFlags();
      publishing := false;
      var i := 0;
      while i < |p.pending|
        invariant 0 <= i <= |p.pending| && !publishing && closed == old(closed)
        invariant log == old(log) + p.pending[..i]
        invariant Core() && !Over(events, limits)
        invariant readers <= old(readers) && subscribed == old(subscribed)
        invariant forall r :: r in old(readers) && r !in readers ==> r.overflowed && r.scheduled
        invariant forall r :: r in subscribed && r !in readers ==> r.parked ==> r.ready || r.scheduled
        invariant forall r :: r in readers ==> r.scheduled == old(r.scheduled)
        invariant i == 0 ==> tail == old(tail) && readers == old(readers)
      {
        assert p.pending[..i + 1] == p.pending[..i] + [p.pending[i]];
        Push(p.pending[i]);
        Reclaim();
        i := i + 1;
      }
      assert p.pending[..i] == p.pending;
      ReaderFlags();
      if p.pending != [] {
        NotifyAll();
      }
    }

    method Push(frame: Frame)
      requires Core() && frame.at == tail + 1
      modifies this`tail, this`events, this`bytes, this`log
      ensures Core() && log == old(log) + [frame]
    {
      hide Refines, After, Seen, Over, Bytes, UpTo, Select;
      AppendRefines(events, floor, log, frame);
      OneByte(frame);
      BytesConcat(events, [frame]);
      forall r | r in subscribed
        ensures r.Sound(log + [frame])
        ensures r in readers ==> r.Following(events + [frame], floor, log + [frame])
      {
        r.Grow(events, floor, log, frame);
      }
      tail := frame.at;
      events := events + [frame];
      bytes := bytes + frame.size;
      log := log + [frame];
    }

    method NotifyAll()
      requires Core() && listeners <= readers
      modifies listeners`scheduled
      ensures Core()
      ensures forall r :: r in listeners ==> r.scheduled
    {
      hide Core, Over;
      OpenListeners();
      var todo := listeners;
      while todo != {}
        invariant todo <= listeners
        invariant Core()
        invariant forall r :: r in listeners && r !in todo ==> r.scheduled
      {
        var r :| r in todo;
        r.Notify();
        todo := todo - {r};
      }
    }

    lemma ReaderFlags()
      requires Core()
      ensures forall r :: r in subscribed ==> (r in readers <==> !r.closed && !r.overflowed)
    {
      hide Refines, Bytes, StreamReader.Sound, StreamReader.Following;
    }

    lemma OpenListeners()
      requires Core() && listeners <= readers
      ensures forall r :: r in listeners ==> !r.closed
    {
      hide Refines, Bytes, StreamReader.Sound, StreamReader.Following;
    }

    /**
     Register a reader after a cursor, or at the tail. It is owed what the ring
     retains beyond the cursor and everything published from now on.
     */
    method Subscribe(after: Option<Cursor>, root: Option<string>, thread: Option<string>)
        returns (r: Result<StreamReader, Refusal>)
      requires Valid()
      modifies this`readers, this`listeners, this`subscribed
      ensures Valid()
      ensures r.Err? ==> readers == old(readers) && subscribed == old(subscribed)
      ensures r == Err(Gap) <==> after.Some? && (after.value.epoch != epoch || after.value.at < floor)
      ensures r == Err(Ahead) <==> after.Some? && after.value.epoch == epoch && after.value.at > tail
      ensures r.Err? ==> r.error.Gap? || r.error.Ahead?
      ensures r.Ok? ==>
                && fresh(r.value) && readers == old(readers) + {r.value} && subscribed == old(subscribed) + {r.value}
                && r.value.root == root && r.value.thread == thread
                && r.value.at == (if after.Some? then after.value.at else tail)
                && r.value.backlog == After(events, r.value.at) && r.value.joined == tail
                && r.value.delivered == [] && !r.value.parked
    {
      hide Refines, Over, Bytes, After, StreamReader.Fine, StreamReader.Due;
      RefinesFacts(events, floor, log);
      var cursor := if after.Some? then after.value else Cursor(epoch, tail);
      if cursor.epoch != epoch || cursor.at < floor {
        return Err(Gap);
      }
      if cursor.at > tail {
        return Err(Ahead);
      }
      ghost var backlog := After(events, cursor.at);
      var reader := new StreamReader(this, cursor.at, root, thread, backlog, tail);
      reader.Joins();
      readers, subscribed := readers + {reader}, subscribed + {reader};
      if !closed {
        listeners := listeners + {reader};
      }
      r := Ok(reader);
    }

    /** Wake every reader; what is retained can still be drained. */
    method Close()
      requires Valid()
      modifies this`closed, this`listeners, this`final, readers`scheduled
      ensures Valid() && closed && log == old(log) && events == old(events) && readers == old(readers)
      ensures final == if old(closed) then old(final) else Some(tail)
    {
      hide Refines, Over, Bytes, StreamReader.Sound, StreamReader.Following;
      if !closed {
        NotifyAll();
        closed, final := true, Some(tail);
        listeners := {};
      }
    }

    // -------------------------------------------------------------------
    // Reclaim
    // -------------------------------------------------------------------

    predicate OverLimit()
      reads this`events, this`bytes
      requires bytes == Bytes(events)
      ensures OverLimit() <==> Over(events, limits)
    {
      |events| > limits.events || bytes > limits.bytes
    }

    method FindReadFloor() returns (m: nat)
      ensures m == ReadFloor()
    {
      ReadFloorIs();
      m := tail;
      var todo, first := readers, true;
      while todo != {}
        invariant todo <= readers
        invariant first ==> todo == readers && m == tail
        invariant !first ==> (exists r :: r in readers && r.at == m)
        invariant !first ==> forall r :: r in readers && r !in todo ==> m <= r.at
      {
        var r :| r in todo;
        if first || r.at < m {
          m := r.at;
        }
        first := false;
        todo := todo - {r};
      }
    }

    /** Steps that ended after Parts, each with the last Part every end closed. */
    method Completed() returns (completed: map<string, seq<nat>>)
      ensures forall s :: Entry(completed, s) == Bounds(events, s)
    {
      var lastPart: map<string, nat> := map[];
      completed := map[];
      var i := 0;
      while i < |events|
        invariant 0 <= i <= |events|
        invariant forall s :: Pending(events[..i], s) == if s in lastPart then Some(lastPart[s]) else None
        invariant forall s :: Entry(completed, s) == Bounds(events[..i], s)
      {
        var frame := events[i];
        assert events[..i + 1][..i] == events[..i];
        match frame.kind {
          case Part(step) =>
            lastPart := lastPart[step := frame.at];
          case StepEnd(step) =>
            if step in lastPart {
              completed := completed[step := Entry(completed, step) + [lastPart[step]]];
              lastPart := lastPart - {step};
            }
          case _ =>
        }
        i := i + 1;
      }
      assert events[..i] == events;
    }

    static function Entry(completed: map<string, seq<nat>>, step: string): seq<nat> {
      if step in completed then completed[step] else []
    }

    method CompactRing(completed: map<string, seq<nat>>, readFloor: nat, ghost fs: seq<Frame>)
      requires forall s :: Entry(completed, s) == Bounds(fs, s)
      requires Ascending(events)
      modifies this`events, this`bytes
      ensures events == Compact(old(events), fs, readFloor) && bytes == Bytes(events)
    {
      hide Bounds, Compact, Bytes, Gone;
      var consumed := map step | step in completed && Bisect(completed[step], readFloor) > 0
        :: completed[step][Bisect(completed[step], readFloor) - 1];
      var retained, size, i := [], 0, 0;
      NoBytes();
      assert events[0..] == events;
      while i < |events|
        invariant 0 <= i <= |events| && events == old(events)
        invariant retained + Compact(events[i..], fs, readFloor) == Compact(events, fs, readFloor)
        invariant size == Bytes(retained)
      {
        var frame := events[i];
        ConsumedIs(completed, consumed, fs, readFloor, frame);
        CompactStep(events, fs, readFloor, i);
        if frame.kind.Part? && frame.kind.step in consumed && frame.at <= consumed[frame.kind.step] {
        } else {
          BytesConcat(retained, [frame]);
          OneByte(frame);
          retained := retained + [frame];
          size := size + frame.size;
        }
        i := i + 1;
      }
      CompactNothing(fs, readFloor);
      assert events[i..] == [];
      events, bytes := retained, size;
    }

    static lemma ConsumedIs(completed: map<string, seq<nat>>, consumed: map<string, nat>, fs: seq<Frame>, readFloor: nat, f: Frame)
      requires forall s :: Entry(completed, s) == Bounds(fs, s)
      requires consumed == map step | step in completed && Bisect(completed[step], readFloor) > 0
                             :: completed[step][Bisect(completed[step], readFloor) - 1]
      ensures Gone(fs, readFloor, f) <==> f.kind.Part? && f.kind.step in consumed && f.at <= consumed[f.kind.step]
    {
      if f.kind.Part? {
        assert Entry(completed, f.kind.step) == Bounds(fs, f.kind.step);
      }
    }

    static ghost predicate Blocked(fs: seq<Frame>, readFloor: nat) {
      exists s, b :: b in Bounds(fs, s) && readFloor < b
    }

    /** Some ended Step still holds disposable Parts beyond the read floor. */
    static method HasBlocked(completed: map<string, seq<nat>>, readFloor: nat, ghost fs: seq<Frame>) returns (r: bool)
      requires Ascending(fs) && forall s :: Entry(completed, s) == Bounds(fs, s)
      ensures r <==> Blocked(fs, readFloor)
    {
      r := exists s | s in completed :: Bisect(completed[s], readFloor) < |completed[s]|;
      if r {
        var s :| s in completed && Bisect(completed[s], readFloor) < |completed[s]|;
        var b := completed[s][Bisect(completed[s], readFloor)];
        assert Entry(completed, s) == Bounds(fs, s);
        assert b in Bounds(fs, s);
      } else {
        forall s, b | b in Bounds(fs, s) ensures b <= readFloor {
          assert Entry(completed, s) == Bounds(fs, s);
        }
      }
    }

    /** The furthest cursor among overflowed readers, or 0. */
    static ghost function Furthest(gone: set<StreamReader>): nat
      reads gone`at
    {
      Greatest(set r | r in gone :: r.at)
    }

    static lemma FurthestIs(gone: set<StreamReader>)
      ensures gone == {} ==> Furthest(gone) == 0
      ensures gone != {} ==> exists r :: r in gone && r.at == Furthest(gone)
      ensures forall r :: r in gone ==> r.at <= Furthest(gone)
    {
      var ats := set r | r in gone :: r.at;
      assert forall r :: r in gone ==> r.at in ats;
    }

    /** Reclaim in progress: `fs` is the ring and `was` the readers it began with. */
    ghost predicate Reclaiming(fs: seq<Frame>, was: set<StreamReader>, lost: nat)
      reads this, was`at, was`overflowed, was`scheduled, was`closed
    {
      && Refines(events, floor, log) && tail == |log| && bytes == Bytes(events)
      && Ascending(fs) && FromLog(fs, log)
      && readers <= was && listeners == (if closed then {} else readers)
      && lost == Furthest(was - readers)
      && (forall r :: r in was ==> r.source == this && !r.closed)
      && (forall r :: r in was && r in readers ==> !r.overflowed && floor <= r.at && lost <= r.at && After(events, r.at) == After(fs, r.at))
      && (forall r :: r in was && r !in readers ==> r.overflowed && r.scheduled && Over(After(fs, r.at), limits))
    }

    method Evict(ghost fs: seq<Frame>, ghost was: set<StreamReader>, ghost lost: nat)
      requires Reclaiming(fs, was, lost) && Over(events, limits)
      requires forall r :: r in readers ==> events[0].at <= r.at
      modifies this`events, this`bytes, this`floor
      ensures Reclaiming(fs, was, lost)
      ensures events == old(events)[1..] && Fit(events, limits) == Fit(old(events), limits)
    {
      hide Refines, After, Seen, Over, Bytes, Fit, Furthest;
      Oldest(events, limits);
      EvictRefines(events, floor, log);
      forall r | r in readers ensures After(events[1..], r.at) == After(events, r.at) {
        EvictSeen(events, r.at);
      }
      var evicted := events[0];
      events := events[1..];
      bytes := bytes - evicted.size;
      floor := evicted.at;
    }

    method OverflowEach(victims: set<StreamReader>)
      requires victims <= readers && listeners == (if closed then {} else readers)
      requires forall r :: r in victims ==> r.source == this && !r.closed
      modifies this`readers, this`listeners, victims`overflowed, victims`scheduled
      ensures readers == old(readers) - victims && listeners == (if closed then {} else readers)
      ensures forall r :: r in victims ==> r.overflowed && r.scheduled
    {
      var todo := victims;
      while todo != {}
        invariant todo <= victims
        invariant readers == old(readers) - (victims - todo)
        invariant listeners == (if closed then {} else readers)
        invariant forall r :: r in victims && r !in todo ==> r.overflowed && r.scheduled
      {
        var r :| r in todo;
        r.Overflow();
        todo := todo - {r};
      }
    }

    method OverflowAll(victims: set<StreamReader>, ghost fs: seq<Frame>, ghost was: set<StreamReader>, ghost lost: nat)
        returns (ghost lostNext: nat)
      requires Reclaiming(fs, was, lost)
      requires victims <= readers && victims != {}
      requires forall r :: r in victims ==> Over(After(fs, r.at), limits)
      requires forall v, r :: v in victims && r in readers - victims ==> v.at <= r.at
      modifies this`readers, this`listeners, victims`overflowed, victims`scheduled
      ensures readers == old(readers) - victims
      ensures Reclaiming(fs, was, lostNext)
      ensures exists r :: r in victims && r.at == lostNext
    {
      hide Refines, After, Seen, Over, Bytes, Furthest;
      FurthestIs(was - readers);
      OverflowEach(victims);
      lostNext := Furthest(was - readers);
      assert was - readers - victims == was - old(readers);
      LostIsVictim(victims, was, lost, lostNext);
    }

    lemma LostIsVictim(victims: set<StreamReader>, was: set<StreamReader>, lost: nat, lostNext: nat)
      requires victims != {} && victims <= was - readers
      requires lost == Furthest(was - readers - victims) && lostNext == Furthest(was - readers)
      requires forall r :: r in victims ==> lost <= r.at
      ensures exists r :: r in victims && r.at == lostNext
    {
      FurthestIs(was - readers);
      FurthestIs(was - readers - victims);
      var v :| v in victims;
      var r :| r in was - readers && r.at == lostNext;
      assert r !in victims ==> r in was - readers - victims;
    }

    /** The ring fits to the same suffix as what is still owed and not yet final. */
    ghost predicate OnCourse(fs: seq<Frame>, lost: nat)
      reads this`events, this`readers, this`tail, readers`at
    {
      Fit(events, limits) == Fit(Compact(After(fs, lost), fs, ReadFloor()), limits)
    }

    /** Compaction at the read floor keeps a reclaim in progress sound. */
    method CompactReclaiming(completed: map<string, seq<nat>>, readFloor: nat,
                             ghost fs: seq<Frame>, ghost was: set<StreamReader>, ghost lost: nat)
      requires Reclaiming(fs, was, lost) && readFloor == ReadFloor()
      requires forall s :: Entry(completed, s) == Bounds(fs, s)
      modifies this`events, this`bytes
      ensures Reclaiming(fs, was, lost)
      ensures events == Compact(old(events), fs, readFloor) && |events| <= |old(events)|
    {
      hide Refines, After, Seen, Over, Bytes, Compact, ReadFloor, Furthest;
      ReadFloorIs();
      RefinesFacts(events, floor, log);
      CompactRefines(events, floor, log, fs, readFloor);
      CompactKeeps(events, fs, readFloor);
      forall r | r in readers
        ensures After(Compact(events, fs, readFloor), r.at) == After(fs, r.at)
      {
        CompactUnread(events, fs, readFloor, r.at);
      }
      CompactRing(completed, readFloor, fs);
    }

    /**
     The readers standing at the read floor have not acquired a final Part: they
     are overflowed, so that the next floor can release more.
     */
    method OverflowSlowest(completed: map<string, seq<nat>>, readFloor: nat,
                           ghost fs: seq<Frame>, ghost was: set<StreamReader>, ghost lost: nat)
        returns (readFloorNext: nat, ghost lostNext: nat)
      requires Reclaiming(fs, was, lost) && readFloor == ReadFloor()
      requires Over(events, limits) && events != [] && readFloor < events[0].at <= tail
      requires forall s :: Entry(completed, s) == Bounds(fs, s)
      modifies this`events, this`bytes, this`readers, this`listeners, readers`overflowed, readers`scheduled
      ensures Reclaiming(fs, was, lostNext) && OnCourse(fs, lostNext) && readFloorNext == ReadFloor()
      ensures |events| <= |old(events)| && readers < old(readers)
      ensures forall r :: r in readers ==> r.scheduled == old(r.scheduled)
    {
      hide Refines, After, Seen, Over, Bytes, Compact, Fit, ReadFloor, Furthest;
      ReadFloorIs();
      var slowest := set r | r in readers && r.at == readFloor;
      forall r | r in slowest ensures After(fs, r.at) == events {
        NothingSeen(events, r.at);
      }
      lostNext := OverflowAll(slowest, fs, was, lost);
      readFloorNext := FindReadFloor();
      CompactReclaiming(completed, readFloorNext, fs, was, lostNext);
    }

    /** Prefer a consumed prefix; overflow a reader only while Parts block the ring. */
    method ReleaseConsumed(completed: map<string, seq<nat>>, readFloor: nat,
                           ghost fs: seq<Frame>, ghost was: set<StreamReader>, ghost lost: nat)
        returns (readFloorNext: nat, ghost lostNext: nat)
      requires Reclaiming(fs, was, lost) && OnCourse(fs, lost) && readFloor == ReadFloor()
      requires forall s :: Entry(completed, s) == Bounds(fs, s)
      modifies this`events, this`bytes, this`floor, this`readers, this`listeners, readers`overflowed, readers`scheduled
      ensures Reclaiming(fs, was, lostNext) && OnCourse(fs, lostNext)
      ensures readers <= old(readers) && forall r :: r in readers ==> r.scheduled == old(r.scheduled) && readFloorNext <= r.at
      ensures Over(events, limits) ==> !Blocked(fs, readFloorNext)
    {
      hide Refines, After, Seen, Over, Bytes, Compact, Fit, Blocked, ReadFloor, Furthest;
      readFloorNext, lostNext := readFloor, lost;
      while OverLimit()
        invariant Reclaiming(fs, was, lostNext) && OnCourse(fs, lostNext) && readFloorNext == ReadFloor()
        invariant readers <= old(readers) && forall r :: r in readers ==> r.scheduled == old(r.scheduled)
        decreases |events| + |readers|
      {
        Oldest(events, limits);
        RefinesFacts(events, floor, log);
        ReadFloorIs();
        if events[0].at <= readFloorNext {
          Evict(fs, was, lostNext);
          continue;
        }
        var blocked := HasBlocked(completed, readFloorNext, fs);
        if !blocked {
          break;
        }
        ghost var before := readers;
        readFloorNext, lostNext := OverflowSlowest(completed, readFloorNext, fs, was, lostNext);
        FewerReaders(readers, before);
      }
      ReadFloorIs();
    }

    static lemma FewerReaders(a: set<StreamReader>, b: set<StreamReader>)
      requires a < b
      ensures |a| < |b|
    {
      assert b == a + (b - a);
    }

    /** Nothing disposable is left: evict unread frames, and the readers they overtake. */
    method EvictUnread(ghost readFloor: nat, ghost fs: seq<Frame>, ghost was: set<StreamReader>, ghost lost: nat)
        returns (ghost lostNext: nat)
      requires Reclaiming(fs, was, lost) && OnCourse(fs, lost)
      requires forall r :: r in readers ==> readFloor <= r.at
      requires Over(events, limits) ==> !Blocked(fs, readFloor)
      modifies this`events, this`bytes, this`floor, this`readers, this`listeners, readers`overflowed, readers`scheduled
      ensures Reclaiming(fs, was, lostNext) && OnCourse(fs, lostNext) && !Over(events, limits)
      ensures readers <= old(readers) && forall r :: r in readers ==> r.scheduled == old(r.scheduled)
    {
      hide Over, Reclaiming, Blocked, Fit, Compact, After, ReadFloor;
      InReclaim(fs, was, lost);
      lostNext := lost;
      while OverLimit()
        invariant Reclaiming(fs, was, lostNext) && OnCourse(fs, lostNext) && bytes == Bytes(events)
        invariant readers <= old(readers) && forall r :: r in readers ==> r.scheduled == old(r.scheduled) && readFloor <= r.at
        invariant Over(events, limits) ==> !Blocked(fs, readFloor)
        decreases |events|
      {
        Oldest(events, limits);
        // Readers the next eviction overtakes go first; the lock hides the order.
        var overtaken := set r | r in readers && r.at < events[0].at;
        if overtaken != {} {
          lostNext := OverflowOvertaken(overtaken, readFloor, fs, was, lostNext);
        }
        assert forall r :: r in readers ==> r !in overtaken;
        Evict(fs, was, lostNext);
        InReclaim(fs, was, lostNext);
      }
    }

    lemma InReclaim(fs: seq<Frame>, was: set<StreamReader>, lost: nat)
      requires Reclaiming(fs, was, lost)
      ensures bytes == Bytes(events)
    {
      hide Refines, After, Over, Furthest;
    }

    method OverflowOvertaken(overtaken: set<StreamReader>, ghost readFloor: nat,
                             ghost fs: seq<Frame>, ghost was: set<StreamReader>, ghost lost: nat)
        returns (ghost lostNext: nat)
      requires Reclaiming(fs, was, lost) && Over(events, limits) && events != []
      requires overtaken == (set r | r in readers && r.at < events[0].at) && overtaken != {}
      requires (forall r :: r in readers ==> readFloor <= r.at) && !Blocked(fs, readFloor)
      modifies this`readers, this`listeners, overtaken`overflowed, overtaken`scheduled
      ensures Reclaiming(fs, was, lostNext) && OnCourse(fs, lostNext)
      ensures readers == old(readers) - overtaken
    {
      hide Refines, After, Seen, Over, Bytes, Compact, Fit, Blocked, ReadFloor, Furthest;
      RefinesFacts(events, floor, log);
      forall r | r in overtaken ensures After(fs, r.at) == events {
        NothingSeen(events, r.at);
      }
      lostNext := OverflowAll(overtaken, fs, was, lost);
      NothingBlocked(events, fs, readFloor, ReadFloor());
    }

    /**
     Bring the ring back within its budgets. Exactly the readers whose own
     unread suffix cannot fit are overflowed, and the ring becomes the longest
     fitting suffix of what compaction at the final read floor leaves.
     */
    method Reclaim()
      requires Core()
      modifies this`events, this`bytes, this`floor, this`readers, this`listeners, readers`overflowed, readers`scheduled
      ensures Core() && !Over(events, limits)
      ensures readers <= old(readers)
      ensures forall r :: r in old(readers) ==> (r !in readers <==> Over(After(old(events), r.at), limits))
      ensures forall r :: r in old(readers) && r !in readers ==> r.overflowed && r.scheduled
      ensures forall r :: r in readers ==> r.scheduled == old(r.scheduled)
      ensures forall r :: r in readers ==> After(events, r.at) == After(old(events), r.at)
      ensures !Over(old(events), limits) ==> events == old(events)
      ensures Over(old(events), limits) ==>
                events == Fit(Compact(After(old(events), Furthest(old(readers) - readers)), old(events), ReadFloor()), limits)
    {
      hide Refines, After, Seen, Over, Bytes, Compact, Fit, Blocked, ReadFloor, StreamReader.Sound, Furthest;
      if OverLimit() {
        ghost var fs, was := events, readers;
        RefinesFacts(events, floor, log);
        FurthestIs(was - readers);
        ghost var lost := Shrink(fs, was);
        FitFits(events, limits);
      }
      forall r | r in readers ensures !Over(After(events, r.at), limits) {
        AfterFits(events, r.at, limits);
      }
    }

    method Shrink(ghost fs: seq<Frame>, ghost was: set<StreamReader>) returns (ghost lost: nat)
      requires fs == events && was == readers && Over(fs, limits)
      requires Reclaiming(fs, was, 0)
      modifies this`events, this`bytes, this`floor, this`readers, this`listeners, readers`overflowed, readers`scheduled
      ensures Reclaiming(fs, was, lost) && OnCourse(fs, lost) && !Over(events, limits)
      ensures forall r :: r in readers ==> r.scheduled == old(r.scheduled)
    {
      hide Refines, After, Seen, Over, Bytes, Compact, Fit, Blocked, ReadFloor, Furthest;
      RefinesFacts(events, floor, log);
      NothingSeen(fs, 0);
      var readFloor := FindReadFloor();
      var completed := Completed();
      CompactReclaiming(completed, readFloor, fs, was, 0);
      readFloor, lost := ReleaseConsumed(completed, readFloor, fs, was, 0);
      lost := EvictUnread(readFloor, fs, was, lost);
    }

    /** With every boundary passed, compaction has nothing left to remove. */
    static lemma {:induction false} NothingBlocked(ring: seq<Frame>, fs: seq<Frame>, passed: nat, readFloor: nat)
      requires Ascending(ring) && (ring != [] ==> passed < ring[0].at) && !Blocked(fs, passed)
      ensures Compact(ring, fs, readFloor) == ring
    {
      if ring != [] {
        NothingBlocked(ring[1..], fs, passed, readFloor);
        if Gone(fs, readFloor, ring[0]) {
          assert Consumed(fs, ring[0].kind.step, readFloor).value in Bounds(fs, ring[0].kind.step);
        }
      }
    }
  }

  class StreamReader {
    const source: CanonicalStream
    const root: Option<string>
    const thread: Option<string>
    var at: nat
    var ready: bool
    var scheduled: bool
    var closed: bool
    var overflowed: bool
    var until: Option<nat>
    /** The retained frames after the cursor at subscription, and the tail then. */
    ghost const backlog: seq<Frame>
    ghost const joined: nat
    /** All batches so far, the cursor of the last one, and whether it waits. */
    ghost var delivered: seq<Frame>
    ghost var through: nat
    ghost var parked: bool
    /** Closed by its owner, whatever there was left to deliver. */
    ghost var left: bool

    constructor (source: CanonicalStream, at: nat, root: Option<string>, thread: Option<string>,
                 ghost backlog: seq<Frame>, ghost joined: nat)
      ensures this.source == source && this.at == at && this.root == root && this.thread == thread
      ensures this.backlog == backlog && this.joined == joined
      ensures !ready && !scheduled && !closed && !overflowed && until == None
      ensures delivered == [] && through == at && !parked && !left
    {
      this.source, this.at, this.root, this.thread := source, at, root, thread;
      this.backlog, this.joined := backlog, joined;
      ready, scheduled, closed, overflowed, until := false, false, false, false, None;
      delivered, through, parked, left := [], at, false, false;
    }

    /** What this reader is owed: its backlog, then all that was published since. */
    ghost function Feed(log: seq<Frame>): seq<Frame>
      requires joined <= |log|
    {
      backlog + log[joined..]
    }

    /** The batches are exactly the scope-filtered feed up to the last cursor. */
    ghost predicate Sound(log: seq<Frame>)
      requires joined <= |log|
      reads this`through, this`delivered
    {
      && through <= |log|
      && Ascending(backlog) && (forall i :: 0 <= i < |backlog| ==> backlog[i].at <= joined)
      && delivered == Select(root, thread, UpTo(Feed(log), through))
    }

    /** The ring still holds everything this registered reader is owed. */
    ghost predicate Following(events: seq<Frame>, floor: nat, log: seq<Frame>)
      requires joined <= |log|
      reads this`at, this`until
    {
      && floor <= at <= |log|
      && (until.Some? ==> at < until.value <= |log|)
      && After(events, at) == After(Feed(log), at)
    }

    /** What the stream keeps about a reader, registered or not. */
    ghost predicate Fine(stream: CanonicalStream, events: seq<Frame>, floor: nat, log: seq<Frame>, final: Option<nat>,
                         registered: bool)
      reads this`at, this`through, this`delivered, this`overflowed, this`closed, this`until, this`left
    {
      && source == stream && joined <= |log| && Sound(log) && (!overflowed ==> through == at)
      && (registered <==> !closed && !overflowed)
      && (registered ==> Following(events, floor, log))
      && (closed && !left && !overflowed ==> Drained(final))
    }

    /** It has come to where it was told to finish, or past all that was published before the stream closed. */
    ghost predicate Drained(final: Option<nat>)
      reads this`at, this`until
    {
      until == Some(at) || (final.Some? && final.value <= at)
    }

    ghost predicate Due(tail: nat, sourceClosed: bool)
      reads this`at, this`overflowed, this`closed, this`until
    {
      at < tail || overflowed || closed || sourceClosed || (until.Some? && at >= until.value)
    }

    /** A waiting reader with anything to do is set ready or has a wake scheduled. */
    ghost predicate Awake(tail: nat, sourceClosed: bool)
      reads this`at, this`overflowed, this`closed, this`until, this`parked, this`ready, this`scheduled
    {
      parked && Due(tail, sourceClosed) ==> ready || scheduled
    }

    /** A reader just created is owed the retained frames after its cursor. */
    lemma Joins()
      requires IsLog(source.log) && Ascending(source.events) && FromLog(source.events, source.log)
      requires joined == |source.log| && through == at <= joined && delivered == []
      requires source.floor <= at && until == None && !closed && !overflowed
      requires backlog == After(source.events, at)
      ensures Fine(source, source.events, source.floor, source.log, source.final, true)
    {
      hide After, UpTo, Select, Ascending, IsLog, FromLog;
      NoFrames(root, thread);
      assert Feed(source.log) == backlog;
      Retained(source.events, source.log, at);
    }

    static lemma Retained(events: seq<Frame>, log: seq<Frame>, at: nat)
      requires Ascending(events) && FromLog(events, log)
      ensures var backlog := After(events, at);
              && Ascending(backlog) && (forall i :: 0 <= i < |backlog| ==> backlog[i].at <= |log|)
              && After(backlog, at) == backlog && UpTo(backlog, at) == []
    {
      hide After, UpTo, Ascending;
      var backlog := After(events, at);
      AfterIsUnread(events, at);
      NothingSeen(backlog, at);
      forall i | 0 <= i < |backlog| ensures backlog[i].at <= |log| {
        assert Published(backlog[i], log);
      }
    }

    lemma FeedAscends(log: seq<Frame>)
      requires IsLog(log) && joined <= |log| && Sound(log)
      ensures Ascending(Feed(log))
    {
    }

    lemma Grow(events: seq<Frame>, floor: nat, log: seq<Frame>, f: Frame)
      requires Refines(events, floor, log) && joined <= |log| && Sound(log) && f.at == |log| + 1
      ensures Sound(log + [f])
      ensures Following(events, floor, log) ==> Following(events + [f], floor, log + [f])
    {
      FeedAscends(log);
      assert Feed(log + [f]) == Feed(log) + [f];
      AppendUnread(Feed(log), [f], through);
      if Following(events, floor, log) {
        AppendUnread(events, [f], at);
        AppendUnread(Feed(log), [f], at);
      }
    }

    method Notify()
      modifies this`scheduled
      ensures scheduled == (old(scheduled) || !closed)
    {
      if scheduled || closed {
        return;
      }
      scheduled := true;
    }

    method Overflow()
      requires !closed
      modifies this`overflowed, this`scheduled, source`readers, source`listeners
      ensures overflowed && scheduled
      ensures source.readers == old(source.readers) - {this}
      ensures source.listeners == old(source.listeners) - {this}
    {
      overflowed := true;
      source.readers := source.readers - {this};
      Notify();
      source.listeners := source.listeners - {this};
    }

    method Wake()
      requires source.Valid() && this in source.subscribed && scheduled
      modifies this`scheduled, this`ready
      ensures source.Valid() && ready && !scheduled
    {
      hide Refines, Over, Bytes, Sound, Following;
      scheduled := false;
      ready := true;
    }

    /** Leave the stream; the pending wake, if any, is still delivered. */
    method Close()
      requires source.listeners == (if source.closed then {} else source.readers)
      modifies this`scheduled, this`closed, source`readers, source`listeners
      ensures closed && (old(closed) || scheduled) && (old(scheduled) ==> scheduled)
      ensures !old(closed) ==> source.readers == old(source.readers) - {this}
      ensures !old(closed) ==> source.listeners == old(source.listeners) - {this}
      ensures old(closed) ==> source.readers == old(source.readers) && source.listeners == old(source.listeners)
    {
      if closed {
        return;
      }
      Notify();
      closed := true;
      source.listeners := source.listeners - {this};
      source.readers := source.readers - {this};
    }

    /** The owner lets go of the stream. */
    method Leave()
      requires source.Valid() && this in source.subscribed
      modifies this`scheduled, this`closed, this`left, source`readers, source`listeners
      ensures source.Valid() && closed && left == (old(left) || !old(closed))
    {
      hide Refines, Over, Bytes, Sound, Following, Drained;
      if !closed {
        left := true;
      }
      Close();
    }

    /** Drain through the current tail, then stop. */
    method Finish()
      requires source.Valid() && this in source.subscribed
      modifies this`until, this`scheduled, this`closed, source`readers, source`listeners
      ensures source.Valid() && until.Some? && at == old(at) && delivered == old(delivered)
      ensures old(until).None? ==> until.value == source.tail
      ensures closed <==> old(closed) || at >= until.value
    {
      hide Refines, Over, Bytes, Sound, After;
      if until == None {
        until := Some(source.tail);
      }
      if at >= until.value {
        Close();
      } else {
        Notify();
      }
    }

    /** One scan of the ring from the cursor, within the batch budgets. */
    method Gather(events: seq<Frame>, ghost rest: seq<Frame>)
      returns (batch: seq<Frame>, scanned: nat, cursor: nat, tooLarge: bool)
      requires Ascending(events) && rest == After(events, at)
      requires source.limits.Positive() && forall i :: 0 <= i < |events| ==> events[i].at <= source.tail
      ensures scanned <= |rest| && scanned <= source.limits.batchEvents
      ensures batch == Select(root, thread, rest[..scanned])
      ensures |batch| <= scanned && Bytes(batch) <= source.limits.batchBytes
      ensures cursor == if scanned == 0 then at else rest[scanned - 1].at
      ensures scanned > 0 ==> at < cursor <= source.tail && (until.Some? ==> cursor <= until.value)
      ensures !tooLarge && scanned == 0 ==> rest == [] || (until.Some? && rest[0].at > until.value)
      ensures tooLarge ==>
                scanned < |rest| && Matches(root, thread, rest[scanned]) && rest[scanned].size > source.limits.batchBytes
    {
      hide *;
      batch, scanned, cursor, tooLarge := [], 0, at, false;
      var i: nat, size: nat := 0, 0;
      ghost var n := RestIs(events, at, rest);
      GatherStarts(events, rest, n);
      while i < |events|
        invariant i <= |events| && Gathering(events, rest, n, i, batch, scanned, cursor, size)
        decreases |events| - i
      {
        var frame := events[i];
        if frame.at <= cursor {
          GatherSkips(events, rest, n, i, batch, scanned, cursor, size);
          i := i + 1;
          continue;
        }
        if until.Some? && frame.at > until.value {
          break;
        }
        if scanned >= source.limits.batchEvents {
          break;
        }
        GatherTakes(events, rest, n, i, batch, scanned, cursor, size);
        if Matches(root, thread, frame) {
          if frame.size > source.limits.batchBytes {
            tooLarge := true;
            break;
          }
          if size + frame.size > source.limits.batchBytes {
            break;
          }
          batch := batch + [frame];
          size := size + frame.size;
        }
        cursor := frame.at;
        scanned := scanned + 1;
        i := i + 1;
      }
      GatherEnds(events, rest, n, i, batch, scanned, cursor, size, tooLarge);
    }

    /** Where the scan stands before the frame at `i`. */
    ghost predicate Gathering(
      events: seq<Frame>, rest: seq<Frame>, n: nat, i: nat, batch: seq<Frame>, scanned: nat, cursor: nat, size: nat)
      reads this`at, this`until, source`tail
    {
      && Rest(events, at, rest, n) && (forall k :: 0 <= k < |events| ==> events[k].at <= source.tail)
      && i <= |events| && scanned == (if i <= n then 0 else i - n)
      && cursor == (if scanned == 0 then at else events[i - 1].at)
      && Scanned(root, thread, rest, batch, scanned, size)
      && size <= source.limits.batchBytes && scanned <= source.limits.batchEvents
      && (scanned > 0 ==> at < cursor <= source.tail && (until.Some? ==> cursor <= until.value))
    }

    lemma GatherStarts(events: seq<Frame>, rest: seq<Frame>, n: nat)
      requires Rest(events, at, rest, n) && forall k :: 0 <= k < |events| ==> events[k].at <= source.tail
      ensures Gathering(events, rest, n, 0, [], 0, at, 0)
    {
      hide Scanned, Rest;
      ScanStarts(root, thread, rest);
    }

    lemma GatherSkips(
      events: seq<Frame>, rest: seq<Frame>, n: nat, i: nat, batch: seq<Frame>, scanned: nat, cursor: nat, size: nat)
      requires Gathering(events, rest, n, i, batch, scanned, cursor, size) && i < |events| && events[i].at <= cursor
      ensures Gathering(events, rest, n, i + 1, batch, scanned, cursor, size)
    {
      hide Scanned, Rest;
      InRest(events, at, rest, n, i, cursor);
    }

    lemma GatherTakes(
      events: seq<Frame>, rest: seq<Frame>, n: nat, i: nat, batch: seq<Frame>, scanned: nat, cursor: nat, size: nat)
      requires Gathering(events, rest, n, i, batch, scanned, cursor, size) && i < |events| && events[i].at > cursor
      requires until.Some? ==> events[i].at <= until.value
      requires scanned < source.limits.batchEvents
      ensures var f := events[i];
              if !Matches(root, thread, f) then
                Gathering(events, rest, n, i + 1, batch, scanned + 1, f.at, size)
              else
                size + f.size <= source.limits.batchBytes ==>
                  Gathering(events, rest, n, i + 1, batch + [f], scanned + 1, f.at, size + f.size)
    {
      hide Scanned, Rest, Matches;
      InRest(events, at, rest, n, i, cursor);
      ScanStep(root, thread, rest, batch, scanned, size);
    }

    lemma GatherEnds(
      events: seq<Frame>, rest: seq<Frame>, n: nat, i: nat, batch: seq<Frame>, scanned: nat, cursor: nat, size: nat,
      tooLarge: bool)
      requires source.limits.Positive() && Gathering(events, rest, n, i, batch, scanned, cursor, size)
      requires if i == |events| then !tooLarge
               else
                 var f := events[i];
                 && f.at > cursor
                 && if tooLarge then Matches(root, thread, f) && f.size > source.limits.batchBytes
                    else
                      || (until.Some? && f.at > until.value) || scanned >= source.limits.batchEvents
                      || (size + f.size > source.limits.batchBytes && f.size <= source.limits.batchBytes)
      ensures scanned <= |rest| && scanned <= source.limits.batchEvents
      ensures batch == Select(root, thread, rest[..scanned])
      ensures |batch| <= scanned && Bytes(batch) <= source.limits.batchBytes
      ensures cursor == if scanned == 0 then at else rest[scanned - 1].at
      ensures scanned > 0 ==> at < cursor <= source.tail && (until.Some? ==> cursor <= until.value)
      ensures !tooLarge && scanned == 0 ==> rest == [] || (until.Some? && rest[0].at > until.value)
      ensures tooLarge ==>
                scanned < |rest| && Matches(root, thread, rest[scanned]) && rest[scanned].size > source.limits.batchBytes
    {
      hide Scanned, Rest, Matches, Select, Bytes;
      ScanIs(root, thread, rest, batch, scanned, size);
      ScanEnds(events, at, rest, n, i, scanned);
      if i < |events| {
        InRest(events, at, rest, n, i, cursor);
      }
    }

    /** The frames past the cursor are those of the unread rest, in turn. */
    static lemma InRest(events: seq<Frame>, at: nat, rest: seq<Frame>, n: nat, i: nat, cursor: nat)
      requires Rest(events, at, rest, n) && i < |events| && cursor == if i <= n then at else events[i - 1].at
      ensures events[i].at <= cursor <==> i < n
      ensures i >= n ==> i - n < |rest| && rest[i - n] == events[i] && at < events[i].at
    {
    }

    static lemma ScanEnds(events: seq<Frame>, at: nat, rest: seq<Frame>, n: nat, i: nat, scanned: nat)
      requires Rest(events, at, rest, n) && i <= |events| && scanned == if i <= n then 0 else i - n
      ensures scanned <= |rest|
      ensures scanned > 0 ==> i > 0 && rest[scanned - 1] == events[i - 1]
      ensures i == |events| ==> scanned == |rest|
    {
    }

    /** `rest` is what follows the first `n` frames, those at or before the cursor. */
    static ghost predicate Rest(events: seq<Frame>, at: nat, rest: seq<Frame>, n: nat) {
      && Ascending(events) && n + |rest| == |events|
      && (forall i :: 0 <= i < |rest| ==> rest[i] == events[n + i])
      && forall i :: 0 <= i < |events| ==> (events[i].at <= at <==> i < n)
    }

    /** The batch is the filtered image of what has been scanned. */
    static predicate Scanned(
      root: Option<string>, thread: Option<string>, rest: seq<Frame>, batch: seq<Frame>, scanned: nat, size: nat)
    {
      && scanned <= |rest| && |batch| <= scanned
      && batch == Select(root, thread, rest[..scanned]) && size == Bytes(batch)
    }

    static lemma ScanStarts(root: Option<string>, thread: Option<string>, rest: seq<Frame>)
      ensures Scanned(root, thread, rest, [], 0, 0)
    {
      NoFrames(root, thread);
      assert rest[..0] == [];
    }

    static lemma ScanStep(
      root: Option<string>, thread: Option<string>, rest: seq<Frame>, batch: seq<Frame>, scanned: nat, size: nat)
      requires Scanned(root, thread, rest, batch, scanned, size) && scanned < |rest|
      ensures var f := rest[scanned];
              if Matches(root, thread, f) then Scanned(root, thread, rest, batch + [f], scanned + 1, size + f.size)
              else Scanned(root, thread, rest, batch, scanned + 1, size)
    {
      hide Select, Bytes, Matches;
      SelectStep(root, thread, rest, scanned);
      BytesConcat(batch, [rest[scanned]]);
      OneByte(rest[scanned]);
      assert batch + [] == batch;
    }

    static lemma ScanIs(
      root: Option<string>, thread: Option<string>, rest: seq<Frame>, batch: seq<Frame>, scanned: nat, size: nat)
      requires Scanned(root, thread, rest, batch, scanned, size)
      ensures scanned <= |rest| && |batch| <= scanned
      ensures batch == Select(root, thread, rest[..scanned]) && size == Bytes(batch)
      ensures scanned == 0 ==> size == 0
    {
      if scanned == 0 {
        assert rest[..scanned] == [];
        NoFrames(root, thread);
      }
    }

    static lemma RestIs(events: seq<Frame>, at: nat, rest: seq<Frame>) returns (n: nat)
      requires Ascending(events) && rest == After(events, at)
      ensures Rest(events, at, rest, n)
    {
      n := Seen(events, at);
    }

    /**
     The section of `receive` under the lock. A batch strictly advances the
     cursor, within both budgets; an overflowed reader only ever fails; a
     reader with unread frames gets on, closed stream or not; it stops, or waits,
     only at the tail.
     */
    method ReceiveOnce() returns (o: Outcome)
      requires source.Valid() && this in source.subscribed
      requires parked ==> ready
      modifies this`at, this`ready, this`scheduled, this`closed, this`overflowed, this`delivered, this`through,
               this`parked
      modifies source`readers, source`listeners
      ensures source.Valid()
      ensures old(overflowed) ==> o == Overflowed
      ensures !old(overflowed) && old(closed) ==> o == Stopped
      ensures o.Batch? ==>
                && !overflowed && old(at) < at == o.cursor <= source.tail
                && |o.events| <= source.limits.batchEvents && Bytes(o.events) <= source.limits.batchBytes
      ensures delivered == old(delivered) + (if o.Batch? then o.events else [])
      ensures o.Overflowed? ==> overflowed
      ensures o.Overflowed? && !old(overflowed) ==>
                exists f :: f in After(source.events, old(at)) && Matches(root, thread, f) && f.size > source.limits.batchBytes
      ensures !old(overflowed) && !old(closed) && old(at) < source.tail ==> o.Batch? || o.Overflowed?
      ensures o.Batch? ==> (closed <==> until == Some(at))
      ensures o.Stopped? ==> closed && (!old(closed) ==> source.closed && at == old(at) == source.tail)
      ensures o.Parked? ==> !closed && !source.closed && at == old(at) == source.tail
      ensures o.Parked? ==> parked && !ready && !Due(source.tail, source.closed)
    {
      hide Refines, Over, Bytes, After, UpTo, Select, Seen;
      parked := false;
      if overflowed {
        return Overflowed;
      }
      if closed {
        return Stopped;
      }
      if until.Some? && at >= until.value {
        assert false;  // finishing readers are closed as soon as they reach this point
      }
      if at < source.tail {
        o := TakeBatch();
        return;
      }
      if source.closed {
        Close();
        return Stopped;
      }
      ready := false;
      parked := true;
      o := Parked;
    }

    /** A matching frame no batch can carry: the reader stops just before it. */
    method OverflowAt(cursor: nat)
      requires source.Valid() && this in source.readers && !parked
      modifies this`at, this`overflowed, this`scheduled, source`readers, source`listeners
      ensures source.Valid() && overflowed && at == cursor
    {
      hide Refines, Over, Bytes, Sound, Following;
      at := cursor;
      Overflow();
    }

    method TakeBatch() returns (o: Outcome)
      requires source.Valid() && this in source.readers && !parked && at < source.tail
      modifies this`at, this`scheduled, this`closed, this`overflowed, this`delivered, this`through
      modifies source`readers, source`listeners
      ensures source.Valid()
      ensures o.Batch? || (o.Overflowed? && overflowed)
      ensures o.Batch? ==> (closed <==> until == Some(at))
      ensures o.Batch? ==>
                && !overflowed && old(at) < at == o.cursor <= source.tail
                && |o.events| <= source.limits.batchEvents && Bytes(o.events) <= source.limits.batchBytes
      ensures delivered == old(delivered) + (if o.Batch? then o.events else [])
      ensures o.Overflowed? ==>
                exists f :: f in After(source.events, old(at)) && Matches(root, thread, f) && f.size > source.limits.batchBytes
    {
      hide Refines, Over, Bytes, After, UpTo, Select, Seen;
      ghost var rest := After(source.events, at);
      RefinesFacts(source.events, source.floor, source.log);
      var batch, scanned, cursor, tooLarge := Gather(source.events, rest);
      if tooLarge {
        assert rest[scanned] in rest;
        OverflowAt(cursor);
        return Overflowed;
      }
      if scanned == 0 {
        cursor := if until.Some? && until.value < source.tail then until.value else source.tail;
      }
      Settle(rest, scanned, batch, cursor);
      o := Batch(batch, at);
    }

    method Settle(ghost rest: seq<Frame>, ghost scanned: nat, ghost batch: seq<Frame>, cursor: nat)
      requires source.Valid() && this in source.readers && !parked
      requires rest == After(source.events, at) && scanned <= |rest| && batch == Select(root, thread, rest[..scanned])
      requires at < cursor <= source.tail
      requires scanned > 0 ==> cursor == rest[scanned - 1].at
      requires scanned == 0 && rest != [] ==> cursor < rest[0].at
      requires until.Some? ==> cursor <= until.value
      modifies this`at, this`scheduled, this`closed, this`delivered, this`through
      modifies source`readers, source`listeners
      ensures source.Valid() && at == cursor && !overflowed && delivered == old(delivered) + batch
      ensures closed <==> until.Some? && at >= until.value
    {
      hide Refines, Over, Bytes, After, Select, UpTo, StreamReader.Fine;
      WasFine();
      Acquire(rest, scanned, cursor);
      at := cursor;
      delivered, through := delivered + batch, cursor;
      if until.Some? && at >= until.value {
        Close();
      }
      FineAgain(this in source.readers);
    }

    lemma FineAgain(registered: bool)
      requires joined <= |source.log| && Sound(source.log) && through == at
      requires registered <==> !closed && !overflowed
      requires registered ==> Following(source.events, source.floor, source.log)
      requires closed && !left && !overflowed ==> Drained(source.final)
      ensures Fine(source, source.events, source.floor, source.log, source.final, registered)
    {
      hide Sound, Following, Drained;
    }

    lemma WasFine()
      requires source.Core() && this in source.readers && this in source.subscribed
      ensures joined <= |source.log| && Sound(source.log) && through == at && !closed && !overflowed
      ensures Following(source.events, source.floor, source.log) && source.tail == |source.log|
    {
      hide Refines, Bytes, Sound, Following, Drained;
    }

    /** Moving the cursor over scanned frames keeps the reader sound and following. */
    lemma Acquire(rest: seq<Frame>, scanned: nat, cursor: nat)
      requires source.Core() && this in source.readers && this in source.subscribed
      requires rest == After(source.events, at) && scanned <= |rest|
      requires at < cursor <= source.tail
      requires scanned > 0 ==> cursor == rest[scanned - 1].at
      requires scanned == 0 && rest != [] ==> cursor < rest[0].at
      ensures After(source.events, cursor) == After(Feed(source.log), cursor)
      ensures delivered + Select(root, thread, rest[..scanned]) == Select(root, thread, UpTo(Feed(source.log), cursor))
    {
      hide Over, Bytes, Select;
      RefinesFacts(source.events, source.floor, source.log);
      FeedAscends(source.log);
      Scan(source.events, at, scanned, cursor);
      Scan(Feed(source.log), at, scanned, cursor);
      SelectConcat(root, thread, UpTo(Feed(source.log), at), rest[..scanned]);
    }
  }

  // ---------------------------------------------------------------------
  // What the invariant gives a reader
  // ---------------------------------------------------------------------

  /**
   Whatever happened between, the batches of a reader subscribed at the tail
   are exactly the scope-filtered log from there to its last cursor.
   */
  lemma TailReaderSeesLog(r: StreamReader)
    requires r.source.Valid() && r in r.source.subscribed
    requires r.backlog == [] && r.joined <= r.through
    ensures r.delivered == Select(r.root, r.thread, r.source.log[r.joined..r.through])
    ensures !r.overflowed ==> r.through == r.at
  {
    hide CanonicalStream.Valid, Select, UpTo, StreamReader.Sound;
    ReaderFacts(r);
    SoundTail(r, r.source.log);
  }

  /**
   A reader that closed without its owner closing it, and was never overflowed, has
   been delivered all it was owed: up to where it was told to finish, or up to the tail at which the stream
   closed and beyond. With nothing published since, that is its whole feed.
   */
  lemma ClosedReaderIsDrained(r: StreamReader)
    requires r.source.Valid() && r in r.source.subscribed && r.closed && !r.left && !r.overflowed
    ensures r.joined <= |r.source.log|
    ensures r.delivered == Select(r.root, r.thread, UpTo(r.Feed(r.source.log), r.at))
    ensures r.until == Some(r.at) || (r.source.closed && r.source.final.value <= r.at <= |r.source.log|)
    ensures r.until != Some(r.at) && r.source.final == Some(|r.source.log|) ==>
              r.delivered == Select(r.root, r.thread, r.Feed(r.source.log))
  {
    hide CanonicalStream.Valid, Select, UpTo, StreamReader.Sound, StreamReader.Feed;
    ReaderFacts(r);
    ReaderDrained(r);
    SoundFeed(r, r.source.log);
    if r.at == |r.source.log| {
      WholeFeed(r, r.source.log);
    }
  }

  lemma ReaderDrained(r: StreamReader)
    requires r.source.Valid() && r in r.source.subscribed && r.closed && !r.left && !r.overflowed
    ensures r.Drained(r.source.final) && (r.source.final.Some? ==> r.source.closed)
  {
    hide Refines, Over, Bytes, StreamReader.Sound, StreamReader.Following, StreamReader.Awake, StreamReader.Drained;
  }

  lemma SoundFeed(r: StreamReader, log: seq<Frame>)
    requires r.joined <= |log| && r.Sound(log)
    ensures r.through <= |log| && r.delivered == Select(r.root, r.thread, UpTo(r.Feed(log), r.through))
  {
  }

  lemma WholeFeed(r: StreamReader, log: seq<Frame>)
    requires IsLog(log) && r.joined <= |log| && r.Sound(log)
    ensures UpTo(r.Feed(log), |log|) == r.Feed(log)
  {
    hide Seen;
    r.FeedAscends(log);
    SeenIs(r.Feed(log), |log|, |r.Feed(log)|);
  }

  /** What the stream's invariant says of one reader. */
  lemma ReaderFacts(r: StreamReader)
    requires r.source.Valid() && r in r.source.subscribed
    ensures IsLog(r.source.log) && r.joined <= |r.source.log| && r.Sound(r.source.log)
    ensures !r.overflowed ==> r.through == r.at
  {
    hide Refines, Over, Bytes, StreamReader.Sound, StreamReader.Following, StreamReader.Awake;
    RefinesFacts(r.source.events, r.source.floor, r.source.log);
  }

  lemma SoundTail(r: StreamReader, log: seq<Frame>)
    requires IsLog(log) && r.joined <= |log| && r.Sound(log) && r.backlog == [] && r.joined <= r.through
    ensures r.through <= |log| && r.delivered == Select(r.root, r.thread, log[r.joined..r.through])
  {
    hide Select, UpTo, IsLog, Ascending;
    assert r.Feed(log) == log[r.joined..];
    TailUpTo(log, r.joined, r.through);
  }

  lemma TailUpTo(log: seq<Frame>, joined: nat, through: nat)
    requires IsLog(log) && joined <= through <= |log|
    ensures UpTo(log[joined..], through) == log[joined..through]
  {
    hide Seen;
    var feed := log[joined..];
    SeenIs(feed, through, through - joined);
    assert feed[..through - joined] == log[joined..through];
  }

  /** A late reader misses nothing but Part frames whose StepEnd it is owed. */
  lemma LateReaderIsOwed(s: CanonicalStream, c: nat, i: nat)
    requires s.Valid() && s.floor <= c <= i < s.tail
    ensures s.log[i] in After(s.events, c) || (s.log[i].kind.Part? && Follows(After(s.events, c), s.log[i]))
  {
    LateResume(s.events, s.floor, s.log, c, i);
  }
}
