/**
 The value-level specification of the bounded canonical stream: what a reader
 still has to see of a ring, what compaction may drop, and what a reclaimed
 ring must look like. The imperative ring in stream.dfy is proved against it.
 */
module StreamSpec {
  import opened Common

  /** An execution event, as far as retention and scope filtering look at it. */
  datatype Kind =
    | Part(step: string)
    | StepEnd(step: string)
    | ThreadForked(sourceThread: string)
    | Other

  /** A canonical event; `at` is the sequence number of its cursor. */
  datatype Frame = Frame(at: nat, kind: Kind, thread: string, root: Option<string>, size: nat)

  datatype Limits = Limits(events: nat, bytes: nat, batchEvents: nat, batchBytes: nat) {
    predicate Positive() {
      events > 0 && bytes > 0 && batchEvents > 0 && batchBytes > 0
    }
  }

  function Bytes(fs: seq<Frame>): nat {
    if fs == [] then 0 else fs[0].size + Bytes(fs[1..])
  }

  predicate Over(fs: seq<Frame>, limits: Limits) {
    |fs| > limits.events || Bytes(fs) > limits.bytes
  }

  ghost predicate Ascending(fs: seq<Frame>) {
    forall i, j :: 0 <= i < j < |fs| ==> fs[i].at < fs[j].at
  }

  // ---------------------------------------------------------------------
  // Splitting a ring at a cursor
  // ---------------------------------------------------------------------

  /** How many leading frames a reader at cursor `c` has scanned. */
  function Seen(fs: seq<Frame>, c: nat): (n: nat)
    ensures n <= |fs|
    ensures forall i :: 0 <= i < n ==> fs[i].at <= c
    ensures n < |fs| ==> fs[n].at > c
  {
    if fs == [] || fs[0].at > c then 0 else 1 + Seen(fs[1..], c)
  }

  /** The frames a reader at cursor `c` has not scanned. */
  function After(fs: seq<Frame>, c: nat): seq<Frame> {
    fs[Seen(fs, c)..]
  }

  function UpTo(fs: seq<Frame>, c: nat): seq<Frame> {
    fs[..Seen(fs, c)]
  }

  lemma SeenIs(fs: seq<Frame>, c: nat, n: nat)
    requires n <= |fs|
    requires forall i :: 0 <= i < n ==> fs[i].at <= c
    requires n < |fs| ==> fs[n].at > c
    ensures Seen(fs, c) == n
  {
  }

  /** Appending an unread frame appends it to every reader's unread part. */
  lemma AppendUnread(fs: seq<Frame>, more: seq<Frame>, c: nat)
    requires Ascending(fs)
    requires more != [] ==> more[0].at > c
    ensures After(fs + more, c) == After(fs, c) + more
    ensures UpTo(fs + more, c) == UpTo(fs, c)
  {
    var n := Seen(fs, c);
    assert forall i :: 0 <= i < n ==> (fs + more)[i] == fs[i];
    SeenIs(fs + more, c, n);
    assert (fs + more)[n..] == fs[n..] + more;
    assert (fs + more)[..n] == fs[..n];
  }

  /** Evicting a scanned head leaves the unread part alone. */
  lemma EvictSeen(fs: seq<Frame>, c: nat)
    requires fs != [] && fs[0].at <= c
    ensures After(fs[1..], c) == After(fs, c)
  {
  }

  lemma NothingSeen(fs: seq<Frame>, c: nat)
    requires fs != [] ==> fs[0].at > c
    ensures After(fs, c) == fs && UpTo(fs, c) == []
  {
  }

  lemma AfterIsUnread(fs: seq<Frame>, c: nat)
    requires Ascending(fs)
    ensures Ascending(After(fs, c))
    ensures forall i :: 0 <= i < |After(fs, c)| ==> c < After(fs, c)[i].at && After(fs, c)[i] in fs
  {
  }

  /** Scanning `n` more frames moves exactly these from unread to read. */
  lemma Scan(fs: seq<Frame>, c: nat, n: nat, d: nat)
    requires Ascending(fs) && c <= d
    requires n <= |After(fs, c)|
    requires forall i :: 0 <= i < n ==> After(fs, c)[i].at <= d
    requires n < |After(fs, c)| ==> After(fs, c)[n].at > d
    ensures After(fs, d) == After(fs, c)[n..]
    ensures UpTo(fs, d) == UpTo(fs, c) + After(fs, c)[..n]
  {
    hide Seen, Ascending;
    var m, rest := Seen(fs, c), After(fs, c);
    forall i | 0 <= i < m + n ensures fs[i].at <= d {
      if m <= i {
        assert fs[i] == rest[i - m];
      }
    }
    assert n < |rest| ==> fs[m + n] == rest[n];
    SeenIs(fs, d, m + n);
  }

  // ---------------------------------------------------------------------
  // Scope filtering
  // ---------------------------------------------------------------------

  predicate Matches(root: Option<string>, thread: Option<string>, f: Frame) {
    && (root.Some? ==> f.root == root)
    && (thread.Some? ==>
          || thread.value == f.thread
          || (f.kind.ThreadForked? && f.kind.sourceThread == thread.value))
  }

  /** A scope is everything, one root's frames, one thread's with the forks from it, or both at once. */
  lemma MatchesScope(root: string, thread: string, f: Frame)
    ensures Matches(None, None, f)
    ensures Matches(Some(root), None, f) <==> f.root == Some(root)
    ensures Matches(None, Some(thread), f) <==> f.thread == thread || f.kind == ThreadForked(thread)
    ensures Matches(Some(root), Some(thread), f) <==> Matches(Some(root), None, f) && Matches(None, Some(thread), f)
  {
  }

  function Select(root: Option<string>, thread: Option<string>, fs: seq<Frame>): seq<Frame> {
    if fs == [] then []
    else
      var rest := Select(root, thread, fs[..|fs| - 1]);
      if Matches(root, thread, fs[|fs| - 1]) then rest + [fs[|fs| - 1]] else rest
  }

  lemma NoFrames(root: Option<string>, thread: Option<string>)
    ensures Select(root, thread, []) == [] && Bytes([]) == 0
  {
  }

  lemma SelectStep(root: Option<string>, thread: Option<string>, fs: seq<Frame>, n: nat)
    requires n < |fs|
    ensures Select(root, thread, fs[..n + 1])
         == Select(root, thread, fs[..n]) + if Matches(root, thread, fs[n]) then [fs[n]] else []
  {
    assert fs[..n + 1][..n] == fs[..n];
  }

  lemma {:induction false} SelectConcat(root: Option<string>, thread: Option<string>, a: seq<Frame>, b: seq<Frame>)
    ensures Select(root, thread, a + b) == Select(root, thread, a) + Select(root, thread, b)
  {
    if b == [] {
      assert a + b == a;
    } else {
      assert (a + b)[..|a + b| - 1] == a + b[..|b| - 1];
      SelectConcat(root, thread, a, b[..|b| - 1]);
    }
  }

  // ---------------------------------------------------------------------
  // Compaction
  // ---------------------------------------------------------------------

  predicate IsPartOf(f: Frame, step: string) { f.kind == Part(step) }

  predicate IsEndOf(f: Frame, step: string) { f.kind == StepEnd(step) }

  /** The last Part of `step` that no StepEnd of it has closed yet. */
  function Pending(fs: seq<Frame>, step: string): Option<nat> {
    if fs == [] then None
    else
      var f := fs[|fs| - 1];
      if IsPartOf(f, step) then Some(f.at)
      else if IsEndOf(f, step) then None
      else Pending(fs[..|fs| - 1], step)
  }

  /** For each StepEnd of `step` that closed Parts, the last Part it closed. */
  function Bounds(fs: seq<Frame>, step: string): seq<nat> {
    if fs == [] then []
    else
      var init, f := fs[..|fs| - 1], fs[|fs| - 1];
      if IsEndOf(f, step) && Pending(init, step).Some?
      then Bounds(init, step) + [Pending(init, step).value]
      else Bounds(init, step)
  }

  /** `bisect_right`: the number of leading entries not above `x`. */
  function Bisect(bs: seq<nat>, x: nat): (n: nat)
    ensures n <= |bs|
    ensures forall i :: 0 <= i < n ==> bs[i] <= x
    ensures n < |bs| ==> bs[n] > x
  {
    if bs == [] || bs[0] > x then 0 else 1 + Bisect(bs[1..], x)
  }

  /** The newest boundary of `step` that every reader at `floor` has passed. */
  function Consumed(fs: seq<Frame>, step: string, floor: nat): Option<nat> {
    var bs := Bounds(fs, step);
    var n := Bisect(bs, floor);
    if n == 0 then None else Some(bs[n - 1])
  }

  /** What a compaction with boundaries taken from `fs` removes. */
  predicate Gone(fs: seq<Frame>, floor: nat, f: Frame) {
    f.kind.Part? && var c := Consumed(fs, f.kind.step, floor); c.Some? && f.at <= c.value
  }

  function Compact(ring: seq<Frame>, fs: seq<Frame>, floor: nat): seq<Frame> {
    if ring == [] then []
    else if Gone(fs, floor, ring[0]) then Compact(ring[1..], fs, floor)
    else [ring[0]] + Compact(ring[1..], fs, floor)
  }

  /**
   Progress frames that are final and already acquired: the Step ended after
   `f`, and no Part of the Step before that end lies beyond `floor`.
   */
  ghost predicate Disposable(fs: seq<Frame>, floor: nat, f: Frame) {
    && f.kind.Part?
    && exists j :: 0 <= j < |fs| && ClosedBy(fs, floor, f, j)
  }

  ghost predicate ClosedBy(fs: seq<Frame>, floor: nat, f: Frame, j: nat)
    requires f.kind.Part? && j < |fs|
  {
    && IsEndOf(fs[j], f.kind.step)
    && f.at < fs[j].at
    && forall k :: 0 <= k < j && IsPartOf(fs[k], f.kind.step) ==> fs[k].at <= floor
  }

  ghost predicate Follows(fs: seq<Frame>, f: Frame)
    requires f.kind.Part?
  {
    exists j :: 0 <= j < |fs| && IsEndOf(fs[j], f.kind.step) && f.at < fs[j].at
  }

  lemma {:induction false} PendingIsLastPart(fs: seq<Frame>, step: string)
    requires Ascending(fs)
    ensures Pending(fs, step).Some? ==>
              exists i :: 0 <= i < |fs| && IsPartOf(fs[i], step) && fs[i].at == Pending(fs, step).value
    ensures Pending(fs, step).Some? ==>
              forall i :: 0 <= i < |fs| && IsPartOf(fs[i], step) ==> fs[i].at <= Pending(fs, step).value
  {
    if fs != [] {
      var init := fs[..|fs| - 1];
      PendingIsLastPart(init, step);
      assert forall i :: 0 <= i < |init| ==> init[i] == fs[i];
    }
  }

  /** Boundaries ascend, and each one is closed by a later StepEnd. */
  lemma {:induction false} BoundsSound(fs: seq<Frame>, step: string)
    requires Ascending(fs)
    ensures forall i, j :: 0 <= i < j < |Bounds(fs, step)| ==> Bounds(fs, step)[i] < Bounds(fs, step)[j]
    ensures forall b :: b in Bounds(fs, step) ==> Closes(fs, step, b)
    ensures Pending(fs, step).Some? ==> forall b :: b in Bounds(fs, step) ==> b < Pending(fs, step).value
  {
    if fs != [] {
      var init, f := fs[..|fs| - 1], fs[|fs| - 1];
      BoundsSound(init, step);
      PendingIsLastPart(init, step);
      assert forall i :: 0 <= i < |init| ==> init[i] == fs[i];
      var was, bs := Bounds(init, step), Bounds(fs, step);
      forall i, j | 0 <= i < j < |bs| ensures bs[i] < bs[j] {
        if j == |was| {
          assert was[i] in was;
        }
      }
      forall b | b in Bounds(fs, step) ensures Closes(fs, step, b) {
        if b in Bounds(init, step) {
          assert Closes(init, step, b);
          var j :| 0 <= j < |init| && ClosesAt(init, step, b, j);
          assert ClosesAt(fs, step, b, j);
        } else {
          assert ClosesAt(fs, step, b, |fs| - 1);
        }
      }
      forall b | b in Bounds(init, step) ensures b < f.at {
        assert Closes(init, step, b);
        var j :| 0 <= j < |init| && ClosesAt(init, step, b, j);
        assert fs[j].at < f.at;
      }
    }
  }

  ghost predicate ClosesAt(fs: seq<Frame>, step: string, b: nat, j: nat)
    requires j < |fs|
  {
    && IsEndOf(fs[j], step) && b < fs[j].at
    && forall k :: 0 <= k < j && IsPartOf(fs[k], step) ==> fs[k].at <= b
  }

  ghost predicate Closes(fs: seq<Frame>, step: string, b: nat) {
    exists j :: 0 <= j < |fs| && ClosesAt(fs, step, b, j)
  }

  /** Every Part before a StepEnd is covered by a boundary that is itself such a Part. */
  lemma {:induction false} BoundsComplete(fs: seq<Frame>, step: string, i: nat, j: nat)
    requires Ascending(fs)
    requires i < j < |fs| && IsPartOf(fs[i], step) && IsEndOf(fs[j], step)
    ensures exists k :: 0 <= k < j && IsPartOf(fs[k], step) && fs[i].at <= fs[k].at && fs[k].at in Bounds(fs, step)
  {
    var init := fs[..|fs| - 1];
    assert forall k :: 0 <= k < |init| ==> init[k] == fs[k];
    if j < |init| {
      BoundsComplete(init, step, i, j);
    } else {
      PendingIsLastPart(init, step);
      if Pending(init, step).None? {
        var e := ClosingEnd(init, step, i);
        BoundsComplete(init, step, i, e);
      }
    }
  }

  lemma {:induction false} ClosingEnd(fs: seq<Frame>, step: string, i: nat) returns (e: nat)
    requires i < |fs| && IsPartOf(fs[i], step) && Pending(fs, step).None?
    ensures i < e < |fs| && IsEndOf(fs[e], step)
  {
    if IsEndOf(fs[|fs| - 1], step) {
      e := |fs| - 1;
    } else {
      e := ClosingEnd(fs[..|fs| - 1], step, i);
    }
  }

  lemma GoneIsDisposable(fs: seq<Frame>, floor: nat, f: Frame)
    requires Ascending(fs) && Gone(fs, floor, f)
    ensures Disposable(fs, floor, f)
  {
    var step := f.kind.step;
    BoundsSound(fs, step);
    var b := Consumed(fs, step, floor).value;
    assert Closes(fs, step, b);
    var j :| 0 <= j < |fs| && ClosesAt(fs, step, b, j);
    assert ClosedBy(fs, floor, f, j);
  }

  lemma DisposableIsGone(fs: seq<Frame>, floor: nat, i: nat)
    requires Ascending(fs) && i < |fs| && Disposable(fs, floor, fs[i])
    ensures Gone(fs, floor, fs[i])
  {
    var f, step := fs[i], fs[i].kind.step;
    var bs := Bounds(fs, step);
    var j :| 0 <= j < |fs| && ClosedBy(fs, floor, f, j);
    assert i < j;
    BoundsComplete(fs, step, i, j);
    var k :| 0 <= k < j && IsPartOf(fs[k], step) && f.at <= fs[k].at && fs[k].at in bs;
    assert fs[k].at <= floor;
    LastConsumed(fs, step, floor, fs[k].at);
  }

  lemma LastConsumed(fs: seq<Frame>, step: string, floor: nat, b: nat)
    requires Ascending(fs) && b in Bounds(fs, step) && b <= floor
    ensures Consumed(fs, step, floor).Some? && b <= Consumed(fs, step, floor).value
  {
    BoundsSound(fs, step);
    hide Bounds;
    var bs := Bounds(fs, step);
    var m :| 0 <= m < |bs| && bs[m] == b;
    var n := Bisect(bs, floor);
    assert m < n;
  }

  /** The two-pass bookkeeping drops exactly the disposable frames. */
  lemma GoneIffDisposable(fs: seq<Frame>, floor: nat, f: Frame)
    requires Ascending(fs) && f in fs
    ensures Gone(fs, floor, f) <==> Disposable(fs, floor, f)
  {
    if Gone(fs, floor, f) {
      GoneIsDisposable(fs, floor, f);
    } else if Disposable(fs, floor, f) {
      var i :| 0 <= i < |fs| && fs[i] == f;
      DisposableIsGone(fs, floor, i);
    }
  }

  lemma CompactStep(ring: seq<Frame>, fs: seq<Frame>, floor: nat, i: nat)
    requires i < |ring|
    ensures Compact(ring[i..], fs, floor)
         == (if Gone(fs, floor, ring[i]) then [] else [ring[i]]) + Compact(ring[i + 1..], fs, floor)
  {
    assert ring[i..][1..] == ring[i + 1..];
  }

  lemma {:induction false} CompactKeeps(ring: seq<Frame>, fs: seq<Frame>, floor: nat)
    requires Ascending(ring)
    ensures Ascending(Compact(ring, fs, floor)) && |Compact(ring, fs, floor)| <= |ring|
    ensures forall f :: f in Compact(ring, fs, floor) <==> f in ring && !Gone(fs, floor, f)
  {
    if ring != [] {
      CompactKeeps(ring[1..], fs, floor);
      var rest := Compact(ring[1..], fs, floor);
      forall i | 0 <= i < |rest| ensures ring[0].at < rest[i].at {
        assert rest[i] in rest;
      }
    }
  }

  /** Compaction never touches a frame beyond the read floor. */
  lemma {:induction false} CompactUnread(ring: seq<Frame>, fs: seq<Frame>, floor: nat, c: nat)
    requires Ascending(ring) && floor <= c
    ensures After(Compact(ring, fs, floor), c) == After(ring, c)
  {
    hide *;
    if ring == [] {
      NothingCompacted(fs, floor, c);
    } else if ring[0].at > c {
      CompactAll(ring, fs, floor);
    } else {
      RestAscends(ring);
      CompactUnread(ring[1..], fs, floor, c);
      assert ring == [ring[0]] + ring[1..];
      CompactFirst(ring, fs, floor);
      AfterSkips(ring[0], ring[1..], c);
      AfterSkips(ring[0], Compact(ring[1..], fs, floor), c);
    }
  }

  lemma NothingCompacted(fs: seq<Frame>, floor: nat, c: nat)
    ensures Compact([], fs, floor) == [] && After([], c) == []
  {
  }

  lemma CompactFirst(ring: seq<Frame>, fs: seq<Frame>, floor: nat)
    requires ring != []
    ensures Compact(ring, fs, floor) ==
            if Gone(fs, floor, ring[0]) then Compact(ring[1..], fs, floor) else [ring[0]] + Compact(ring[1..], fs, floor)
  {
    hide Gone;
  }

  lemma RestAscends(ring: seq<Frame>)
    requires Ascending(ring) && ring != []
    ensures Ascending(ring[1..])
  {
  }

  /** A frame at or before the cursor is no part of what is unread. */
  lemma AfterSkips(f: Frame, fs: seq<Frame>, c: nat)
    requires f.at <= c
    ensures After([f] + fs, c) == After(fs, c)
  {
    assert ([f] + fs)[1..] == fs;
  }

  lemma {:induction false} CompactAll(ring: seq<Frame>, fs: seq<Frame>, floor: nat)
    requires Ascending(ring) && (ring != [] ==> ring[0].at > floor)
    ensures Compact(ring, fs, floor) == ring
  {
    if ring != [] {
      CompactAll(ring[1..], fs, floor);
    }
  }

  // ---------------------------------------------------------------------
  // Budgets
  // ---------------------------------------------------------------------

  lemma {:induction false} BytesConcat(a: seq<Frame>, b: seq<Frame>)
    ensures Bytes(a + b) == Bytes(a) + Bytes(b)
  {
    if a == [] {
      assert a + b == b;
    } else {
      assert (a + b)[1..] == a[1..] + b;
      BytesConcat(a[1..], b);
    }
  }

  /** The longest suffix within both budgets. */
  function Fit(fs: seq<Frame>, limits: Limits): (r: seq<Frame>)
    ensures !Over(r, limits)
  {
    if Over(fs, limits) then (if fs == [] then [] else Fit(fs[1..], limits)) else fs
  }

  lemma NoBytes()
    ensures Bytes([]) == 0
  {
  }

  lemma CompactNothing(fs: seq<Frame>, floor: nat)
    ensures Compact([], fs, floor) == []
  {
  }

  lemma OneByte(f: Frame)
    ensures Bytes([f]) == f.size
  {
    assert [f][1..] == [];
  }

  lemma FitFits(fs: seq<Frame>, limits: Limits)
    requires !Over(fs, limits)
    ensures Fit(fs, limits) == fs
  {
  }

  lemma Oldest(fs: seq<Frame>, limits: Limits)
    requires Over(fs, limits)
    ensures fs != [] && Bytes(fs) == fs[0].size + Bytes(fs[1..]) && Fit(fs[1..], limits) == Fit(fs, limits)
  {
  }

  lemma AfterFits(fs: seq<Frame>, c: nat, limits: Limits)
    requires !Over(fs, limits)
    ensures !Over(After(fs, c), limits)
  {
    var n := Seen(fs, c);
    BytesConcat(fs[..n], fs[n..]);
    assert fs == fs[..n] + fs[n..];
  }

  // ---------------------------------------------------------------------
  // The ring against the unbounded log
  // ---------------------------------------------------------------------

  ghost predicate IsLog(log: seq<Frame>) {
    forall i :: 0 <= i < |log| ==> log[i].at == i + 1
  }

  ghost predicate Published(f: Frame, log: seq<Frame>) {
    1 <= f.at <= |log| && f == log[f.at - 1]
  }

  ghost predicate FromLog(fs: seq<Frame>, log: seq<Frame>) {
    forall f :: f in fs ==> Published(f, log)
  }

  ghost predicate Has(ring: seq<Frame>, at: nat) {
    exists k :: 0 <= k < |ring| && ring[k].at == at
  }

  /** A published frame is retained, or is a Part whose StepEnd is retained. */
  ghost predicate Covered(ring: seq<Frame>, f: Frame) {
    Has(ring, f.at) || (f.kind.Part? && Follows(ring, f))
  }

  /** The ring holds published frames in order, and covers the log above its floor. */
  ghost predicate Refines(ring: seq<Frame>, floor: nat, log: seq<Frame>) {
    && IsLog(log) && Ascending(ring) && FromLog(ring, log)
    && floor <= |log|
    && (forall i :: 0 <= i < |ring| ==> floor < ring[i].at)
    && (forall i {:trigger Covered(ring, log[i])} :: floor <= i < |log| ==> Covered(ring, log[i]))
  }

  lemma RefinesFacts(ring: seq<Frame>, floor: nat, log: seq<Frame>)
    requires Refines(ring, floor, log)
    ensures IsLog(log) && Ascending(ring) && FromLog(ring, log) && floor <= |log|
    ensures forall i :: 0 <= i < |ring| ==> floor < ring[i].at <= |log|
  {
    forall i | 0 <= i < |ring| ensures ring[i].at <= |log| {
      assert Published(ring[i], log);
    }
  }

  lemma AppendRefines(ring: seq<Frame>, floor: nat, log: seq<Frame>, f: Frame)
    requires Refines(ring, floor, log) && f.at == |log| + 1
    ensures Refines(ring + [f], floor, log + [f])
  {
    var ringNext, logNext := ring + [f], log + [f];
    forall g | g in ringNext ensures Published(g, logNext) {
      assert g in ring ==> Published(g, log);
    }
    RefinesFacts(ring, floor, log);
    forall i {:trigger Covered(ringNext, logNext[i])} | floor <= i < |logNext| ensures Covered(ringNext, logNext[i]) {
      if i == |log| {
        assert ringNext[|ring|].at == f.at;
      } else {
        assert Covered(ring, log[i]);
        CoveredBySuper(ring, ringNext, log[i]);
      }
    }
  }

  /** Coverage survives in a ring that keeps all frames but Parts, or loses only older ones. */
  lemma CoveredBySuper(ring: seq<Frame>, ringNext: seq<Frame>, f: Frame)
    requires Covered(ring, f)
    requires forall k {:trigger ring[k]} :: 0 <= k < |ring| && f.at <= ring[k].at && (ring[k].at == f.at || !ring[k].kind.Part?) ==> ring[k] in ringNext
    ensures Covered(ringNext, f)
  {
    if Has(ring, f.at) {
      var k :| 0 <= k < |ring| && ring[k].at == f.at;
      var m :| 0 <= m < |ringNext| && ringNext[m] == ring[k];
    } else {
      var k :| 0 <= k < |ring| && IsEndOf(ring[k], f.kind.step) && f.at < ring[k].at;
      var m :| 0 <= m < |ringNext| && ringNext[m] == ring[k];
    }
  }

  lemma EvictCovers(ring: seq<Frame>, f: Frame)
    requires ring != [] && ring[0].at < f.at && Covered(ring, f)
    ensures Covered(ring[1..], f)
  {
    if Has(ring, f.at) {
      var k :| 0 <= k < |ring| && ring[k].at == f.at;
      assert ring[1..][k - 1].at == f.at;
    } else {
      var k :| 0 <= k < |ring| && IsEndOf(ring[k], f.kind.step) && f.at < ring[k].at;
      assert IsEndOf(ring[1..][k - 1], f.kind.step);
    }
  }

  lemma EvictRefines(ring: seq<Frame>, floor: nat, log: seq<Frame>)
    requires Refines(ring, floor, log) && ring != []
    ensures Refines(ring[1..], ring[0].at, log)
  {
    var ringNext, floorNext := ring[1..], ring[0].at;
    RefinesFacts(ring, floor, log);
    forall f | f in ringNext ensures Published(f, log) {
      assert f in ring;
    }
    assert forall i :: 0 <= i < |ringNext| ==> floorNext < ringNext[i].at;
    forall i {:trigger Covered(ringNext, log[i])} | floorNext <= i < |log| ensures Covered(ringNext, log[i]) {
      assert Covered(ring, log[i]);
      EvictCovers(ring, log[i]);
    }
  }

  lemma CompactRefines(ring: seq<Frame>, floor: nat, log: seq<Frame>, fs: seq<Frame>, at: nat)
    requires Refines(ring, floor, log) && Ascending(fs) && FromLog(fs, log)
    ensures Refines(Compact(ring, fs, at), floor, log)
  {
    hide Compact, Gone;
    CompactKeeps(ring, fs, at);
    var ringNext := Compact(ring, fs, at);
    forall i | 0 <= i < |ringNext| ensures floor < ringNext[i].at {
      assert ringNext[i] in ringNext;
    }
    forall i {:trigger Covered(ringNext, log[i])} | floor <= i < |log| ensures Covered(ringNext, log[i]) {
      CompactCovers(ring, floor, log, fs, at, i);
    }
  }

  lemma CompactCovers(ring: seq<Frame>, floor: nat, log: seq<Frame>, fs: seq<Frame>, at: nat, i: nat)
    requires Refines(ring, floor, log) && Ascending(fs) && FromLog(fs, log)
    requires floor <= i < |log|
    ensures Covered(Compact(ring, fs, at), log[i])
  {
    var f := log[i];
    assert Covered(ring, f);
    CompactKeeps(ring, fs, at);
    if k :| 0 <= k < |ring| && ring[k].at == f.at && Gone(fs, at, ring[k]) {
      GoneHasEnd(ring, floor, log, fs, at, k);
      assert Published(ring[k], log);
    } else {
      CoveredBySuper(ring, Compact(ring, fs, at), f);
    }
  }

  lemma GoneHasEnd(ring: seq<Frame>, floor: nat, log: seq<Frame>, fs: seq<Frame>, at: nat, k: nat)
    requires Refines(ring, floor, log) && Ascending(fs) && FromLog(fs, log)
    requires k < |ring| && Gone(fs, at, ring[k])
    ensures Follows(Compact(ring, fs, at), ring[k])
  {
    var f := ring[k];
    GoneIsDisposable(fs, at, f);
    var j :| 0 <= j < |fs| && ClosedBy(fs, at, f, j);
    var e := fs[j];
    assert Published(e, log) && Covered(ring, log[e.at - 1]);
    var m :| 0 <= m < |ring| && ring[m].at == e.at;
    assert Published(ring[m], log) && ring[m] == e && e in ring;
    CompactKeeps(ring, fs, at);
    var n :| 0 <= n < |Compact(ring, fs, at)| && Compact(ring, fs, at)[n] == e;
  }

  /**
   A reader may resume at any cursor not below the floor: everything published
   after it is retained except Part frames whose StepEnd is retained.
   */
  lemma LateResume(ring: seq<Frame>, floor: nat, log: seq<Frame>, c: nat, i: nat)
    requires Refines(ring, floor, log)
    requires floor <= c <= i < |log|
    ensures log[i] in After(ring, c) || (log[i].kind.Part? && Follows(After(ring, c), log[i]))
  {
    var n, rest := Seen(ring, c), After(ring, c);
    assert Covered(ring, log[i]);
    if k :| 0 <= k < |ring| && ring[k].at == i + 1 {
      assert Published(ring[k], log);
      assert rest[k - n] == log[i];
    } else {
      var j :| 0 <= j < |ring| && IsEndOf(ring[j], log[i].kind.step) && log[i].at < ring[j].at;
      assert rest[j - n] == ring[j];
    }
  }
}
