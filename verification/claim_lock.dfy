/**
 Shared claim locks: a process claims a path with an atomic hard link of its own
 complete owner file, and reapers remove claims of dead owners. Processes run in
 several kernels that share the directory but not their flock tables, so flock
 serializes reapers only within one kernel. Every filesystem call is one step,
 and steps of different processes interleave freely.
 */
module ClaimLock {
  import opened Common

  type Proc = nat
  type Inode = nat

  /** Where a process stands; `own` is the candidate it is trying to publish. */
  datatype Phase =
    | Idle
    | Claiming(mine: Inode)
    | Snapped(own: Option<Inode>, seen: Inode)
    | Locked(own: Option<Inode>, seen: Inode)
    | Judged(own: Option<Inode>, seen: Inode)
    | Compared(own: Option<Inode>, seen: Inode)
    | Holding(mine: Inode)
    | Releasing(mine: Inode)
    | Unlinking(mine: Inode)
    | Dead

  /**
   `path` is the inode the lock name refers to, `owner` the payload of every
   candidate ever written, `flocks` the exclusive flocks per kernel and inode.
   */
  datatype State = State(
    path: Option<Inode>,
    phases: map<Proc, Phase>,
    owner: map<Inode, Proc>,
    flocks: map<(nat, Inode), Proc>)
  {
    function Of(p: Proc): Phase {
      if p in phases then phases[p] else Idle
    }

    function Move(p: Proc, phase: Phase): State {
      this.(phases := phases[p := phase])
    }

    function Unlock(kernel: nat, i: Inode): State {
      this.(flocks := flocks - {(kernel, i)})
    }
  }

  datatype Step =
    | Create(p: Proc, i: Inode)      // mkstemp, write the owner, flock the candidate
    | Link(p: Proc)                  // link(candidate, path) succeeds
    | Snap(p: Proc)                  // link(path, snapshot): open the current claim
    | Vanished(p: Proc)              // the claim disappeared before the snapshot
    | Flock(p: Proc)                 // flock(snapshot, LOCK_EX | LOCK_NB) succeeds
    | FlockBusy(p: Proc)             // ... or is held in this kernel
    | JudgeDead(p: Proc)             // owner_dead(payload) is true
    | JudgeAlive(p: Proc)            // owner_dead(payload) is false
    | Compare(p: Proc)               // a second snapshot has the same inode
    | Differs(p: Proc)               // ... or another, or none
    | Unlink(p: Proc)                // path.unlink(): removes whatever is there
    | Leave(p: Proc)                 // the critical section ends
    | GiveUp(p: Proc)                // a non-blocking claim is refused
    | Crash(p: Proc)                 // its kernel drops its flocks

  const INITIAL := State(None, map[], map[], map[])

  function Return(own: Option<Inode>): Phase {
    if own.Some? then Claiming(own.value) else Idle
  }

  ghost predicate Enabled(kernel: Proc -> nat, s: State, step: Step) {
    match step
    case Create(p, i) => s.Of(p).Idle? && i !in s.owner
    case Link(p) => s.Of(p).Claiming? && s.path.None?
    case Snap(p) => (s.Of(p).Claiming? || s.Of(p).Idle?) && s.path.Some?
    case Vanished(p) => (s.Of(p).Claiming? || s.Of(p).Idle?) && s.path.None?
    case Flock(p) => s.Of(p).Snapped? && (kernel(p), s.Of(p).seen) !in s.flocks
    case FlockBusy(p) => s.Of(p).Snapped? && (kernel(p), s.Of(p).seen) in s.flocks
    case JudgeDead(p) =>
      // The callback may answer true only for a dead owner of its own kernel.
      && s.Of(p).Locked? && s.Of(p).seen in s.owner
      && var owner := s.owner[s.Of(p).seen];
      s.Of(owner).Dead? && kernel(owner) == kernel(p)
    case JudgeAlive(p) => s.Of(p).Locked?
    case Compare(p) =>
      || (s.Of(p).Judged? && s.path == Some(s.Of(p).seen))
      || (s.Of(p).Releasing? && s.path == Some(s.Of(p).mine))
    case Differs(p) =>
      || (s.Of(p).Judged? && s.path != Some(s.Of(p).seen))
      || (s.Of(p).Releasing? && s.path != Some(s.Of(p).mine))
    case Unlink(p) => s.Of(p).Compared? || s.Of(p).Unlinking?
    case Leave(p) => s.Of(p).Holding?
    case GiveUp(p) => s.Of(p).Claiming?
    case Crash(p) => !s.Of(p).Dead?
  }

  function Apply(kernel: Proc -> nat, s: State, step: Step): State {
    match step
    case Create(p, i) =>
      s.(owner := s.owner[i := p], flocks := s.flocks[(kernel(p), i) := p]).Move(p, Claiming(i))
    case Link(p) =>
      if s.Of(p).Claiming? then s.(path := Some(s.Of(p).mine)).Move(p, Holding(s.Of(p).mine)) else s
    case Snap(p) =>
      if s.path.None? then s
      else s.Move(p, Snapped(if s.Of(p).Claiming? then Some(s.Of(p).mine) else None, s.path.value))
    case Vanished(p) => s
    case Flock(p) =>
      if s.Of(p).Snapped? then
        s.(flocks := s.flocks[(kernel(p), s.Of(p).seen) := p]).Move(p, Locked(s.Of(p).own, s.Of(p).seen))
      else s
    case FlockBusy(p) => if s.Of(p).Snapped? then s.Move(p, Return(s.Of(p).own)) else s
    case JudgeDead(p) => if s.Of(p).Locked? then s.Move(p, Judged(s.Of(p).own, s.Of(p).seen)) else s
    case JudgeAlive(p) =>
      if s.Of(p).Locked? then s.Unlock(kernel(p), s.Of(p).seen).Move(p, Return(s.Of(p).own)) else s
    case Compare(p) =>
      (match s.Of(p)
       case Judged(own, seen) => s.Move(p, Compared(own, seen))
       case Releasing(i) => s.Move(p, Unlinking(i))
       case _ => s)
    case Differs(p) =>
      (match s.Of(p)
       case Judged(own, seen) => s.Unlock(kernel(p), seen).Move(p, Return(own))
       case Releasing(i) => s.Unlock(kernel(p), i).Move(p, Idle)
       case _ => s)
    case Unlink(p) =>
      (match s.Of(p)
       case Compared(own, seen) => s.(path := None).Unlock(kernel(p), seen).Move(p, Return(own))
       case Unlinking(i) => s.(path := None).Unlock(kernel(p), i).Move(p, Idle)
       case _ => s)
    case Leave(p) => if s.Of(p).Holding? then s.Move(p, Releasing(s.Of(p).mine)) else s
    case GiveUp(p) => if s.Of(p).Claiming? then s.Unlock(kernel(p), s.Of(p).mine).Move(p, Idle) else s
    case Crash(p) =>
      s.(flocks := map k | k in s.flocks && s.flocks[k] != p :: s.flocks[k]).Move(p, Dead)
  }

  // ---------------------------------------------------------------------
  // Invariant
  // ---------------------------------------------------------------------

  /** The process has published its claim and not unlinked it. */
  predicate Claims(phase: Phase) {
    phase.Holding? || phase.Releasing? || phase.Unlinking?
  }

  function Candidate(phase: Phase): Option<Inode> {
    match phase
    case Claiming(i) => Some(i)
    case Snapped(own, _) => own
    case Locked(own, _) => own
    case Judged(own, _) => own
    case Compared(own, _) => own
    case _ => None
  }

  predicate Reaping(phase: Phase) {
    phase.Locked? || phase.Judged? || phase.Compared?
  }

  predicate Flocked(kernel: Proc -> nat, s: State, p: Proc, i: Inode) {
    (kernel(p), i) in s.flocks && s.flocks[(kernel(p), i)] == p
  }

  predicate Owns(kernel: Proc -> nat, s: State, p: Proc, i: Inode) {
    i in s.owner && s.owner[i] == p && Flocked(kernel, s, p, i)
  }

  /** A published claim and a candidate are the process's own, and flocked. */
  predicate ClaimOk(kernel: Proc -> nat, s: State, p: Proc) {
    var phase := s.Of(p);
    && (Claims(phase) ==>
          s.path == Some(phase.mine) && Owns(kernel, s, p, phase.mine))
    && (Candidate(phase).Some? ==>
          s.path != Candidate(phase) && Owns(kernel, s, p, Candidate(phase).value))
  }

  /** A reaper flocks the claim it looks at, and judges only dead owners of its kernel. */
  predicate ReapOk(kernel: Proc -> nat, s: State, p: Proc) {
    var phase := s.Of(p);
    && (phase.Snapped? || Reaping(phase) ==> phase.seen in s.owner && phase.own != Some(phase.seen))
    && (Reaping(phase) ==> Flocked(kernel, s, p, phase.seen))
    && (phase.Judged? || phase.Compared? ==>
          var owner := s.owner[phase.seen]; s.Of(owner).Dead? && kernel(owner) == kernel(p))
    && (phase.Compared? ==> s.path == Some(phase.seen))
  }

  ghost predicate ProcOk(kernel: Proc -> nat, s: State, p: Proc) {
    ClaimOk(kernel, s, p) && ReapOk(kernel, s, p)
  }

  ghost predicate Inv(kernel: Proc -> nat, s: State) {
    && (forall p {:trigger ProcOk(kernel, s, p)} :: ProcOk(kernel, s, p))
    && (s.path.Some? ==>
          && s.path.value in s.owner
          && var owner := s.owner[s.path.value];
          s.Of(owner).Dead? || (Claims(s.Of(owner)) && s.Of(owner).mine == s.path.value))
  }

  lemma InitKeeps(kernel: Proc -> nat)
    ensures Inv(kernel, INITIAL)
  {
  }

  lemma OwnKeeps(kernel: Proc -> nat, s: State, step: Step)
    requires Inv(kernel, s) && Enabled(kernel, s, step)
    ensures ProcOk(kernel, Apply(kernel, s, step), step.p)
  {
    hide ClaimOk, ReapOk, Enabled, Apply;
    assert ProcOk(kernel, s, step.p);
    OwnClaim(kernel, s, step);
    OwnReap(kernel, s, step);
  }

  lemma OwnClaim(kernel: Proc -> nat, s: State, step: Step)
    requires ProcOk(kernel, s, step.p) && Enabled(kernel, s, step)
    requires s.path.Some? ==> s.path.value in s.owner
    ensures ClaimOk(kernel, Apply(kernel, s, step), step.p)
  {
    hide Enabled, Apply, Owns, Claims, Candidate, ReapOk, State.Of;
    OwnHeld(kernel, s, step);
    OwnCandidate(kernel, s, step);
  }

  lemma OwnHeld(kernel: Proc -> nat, s: State, step: Step)
    requires ProcOk(kernel, s, step.p) && Enabled(kernel, s, step)
    ensures var t, phase := Apply(kernel, s, step), Apply(kernel, s, step).Of(step.p);
            Claims(phase) ==> t.path == Some(phase.mine) && Owns(kernel, t, step.p, phase.mine)
  {
  }

  lemma OwnCandidate(kernel: Proc -> nat, s: State, step: Step)
    requires ProcOk(kernel, s, step.p) && Enabled(kernel, s, step)
    requires s.path.Some? ==> s.path.value in s.owner
    ensures var t, own := Apply(kernel, s, step), Candidate(Apply(kernel, s, step).Of(step.p));
            own.Some? ==> t.path != own && Owns(kernel, t, step.p, own.value)
  {
  }

  lemma OwnReap(kernel: Proc -> nat, s: State, step: Step)
    requires ProcOk(kernel, s, step.p) && Enabled(kernel, s, step)
    requires s.path.Some? ==> s.path.value in s.owner
    ensures ReapOk(kernel, Apply(kernel, s, step), step.p)
  {
    var sNext, p := Apply(kernel, s, step), step.p;
    assert sNext.Of(p).Judged? ==> sNext.Of(sNext.owner[sNext.Of(p).seen]).Dead?;
  }

  /** Only the holder, or the one reaper serialized by flock, ever moves the path off an inode. */
  lemma PathMoves(kernel: Proc -> nat, s: State, step: Step, q: Proc)
    requires Inv(kernel, s) && Enabled(kernel, s, step) && q != step.p
    requires s.path.Some? && Apply(kernel, s, step).path != s.path
    ensures !Claims(s.Of(q)) && !s.Of(q).Compared?
  {
    assert ProcOk(kernel, s, q) && ProcOk(kernel, s, step.p);
  }

  /** A process only releases flocks it holds itself. */
  lemma FlockKeeps(kernel: Proc -> nat, s: State, step: Step, q: Proc, i: Inode)
    requires ProcOk(kernel, s, step.p) && Enabled(kernel, s, step) && q != step.p
    requires i in s.owner && Flocked(kernel, s, q, i)
    ensures i in Apply(kernel, s, step).owner && Flocked(kernel, Apply(kernel, s, step), q, i)
    ensures Apply(kernel, s, step).owner[i] == s.owner[i]
  {
  }

  lemma DeadStays(kernel: Proc -> nat, s: State, step: Step, q: Proc)
    requires Enabled(kernel, s, step) && s.Of(q).Dead?
    ensures Apply(kernel, s, step).Of(q).Dead?
  {
  }

  lemma OtherKeeps(kernel: Proc -> nat, s: State, step: Step, q: Proc)
    requires Inv(kernel, s) && Enabled(kernel, s, step) && q != step.p
    ensures ProcOk(kernel, Apply(kernel, s, step), q)
  {
    hide ClaimOk, ReapOk, Enabled, Apply, Claims;
    assert ProcOk(kernel, s, step.p) && ProcOk(kernel, s, q);
    if s.path.Some? && Apply(kernel, s, step).path != s.path {
      PathMoves(kernel, s, step, q);
    }
    OtherClaim(kernel, s, step, q);
    OtherReap(kernel, s, step, q);
  }

  lemma OtherClaim(kernel: Proc -> nat, s: State, step: Step, q: Proc)
    requires ProcOk(kernel, s, step.p) && ProcOk(kernel, s, q) && Enabled(kernel, s, step) && q != step.p
    requires s.path.Some? && Apply(kernel, s, step).path != s.path ==> !Claims(s.Of(q)) && !s.Of(q).Compared?
    ensures ClaimOk(kernel, Apply(kernel, s, step), q)
  {
    hide Flocked, ReapOk, Enabled, Apply, State.Of;
    var phase := s.Of(q);
    Unmoved(kernel, s, step, q);
    PathAfter(kernel, s, step);
    if Claims(phase) {
      FlockKeeps(kernel, s, step, q, phase.mine);
    }
    if Candidate(phase).Some? {
      FlockKeeps(kernel, s, step, q, Candidate(phase).value);
    }
  }

  lemma OtherReap(kernel: Proc -> nat, s: State, step: Step, q: Proc)
    requires ProcOk(kernel, s, step.p) && ProcOk(kernel, s, q) && Enabled(kernel, s, step) && q != step.p
    requires s.path.Some? && Apply(kernel, s, step).path != s.path ==> !Claims(s.Of(q)) && !s.Of(q).Compared?
    ensures ReapOk(kernel, Apply(kernel, s, step), q)
  {
    hide Flocked, ClaimOk, Enabled, Apply, State.Of;
    var phase := s.Of(q);
    Unmoved(kernel, s, step, q);
    OwnersStay(kernel, s, step);
    if Reaping(phase) {
      FlockKeeps(kernel, s, step, q, phase.seen);
    }
    if phase.Judged? || phase.Compared? {
      DeadStays(kernel, s, step, s.owner[phase.seen]);
    }
  }

  lemma Unmoved(kernel: Proc -> nat, s: State, step: Step, q: Proc)
    requires q != step.p
    ensures Apply(kernel, s, step).Of(q) == s.Of(q)
  {
  }

  lemma OwnersStay(kernel: Proc -> nat, s: State, step: Step)
    requires Enabled(kernel, s, step)
    ensures var owner := Apply(kernel, s, step).owner;
            forall i :: i in s.owner ==> i in owner && owner[i] == s.owner[i]
  {
  }

  /** The path moves to nothing, or to the mover's own candidate. */
  lemma PathAfter(kernel: Proc -> nat, s: State, step: Step)
    requires ClaimOk(kernel, s, step.p) && Enabled(kernel, s, step)
    ensures var path := Apply(kernel, s, step).path;
            path == s.path || path.None? || (path.value in s.owner && s.owner[path.value] == step.p)
  {
    hide Flocked;
  }

  lemma ClaimKeeps(kernel: Proc -> nat, s: State, step: Step)
    requires Inv(kernel, s) && Enabled(kernel, s, step)
    ensures var sNext := Apply(kernel, s, step);
            sNext.path.Some? ==>
              && sNext.path.value in sNext.owner
              && var owner := sNext.owner[sNext.path.value];
              sNext.Of(owner).Dead? || (Claims(sNext.Of(owner)) && sNext.Of(owner).mine == sNext.path.value)
  {
    hide Enabled, Apply, ReapOk, State.Of;
    assert ProcOk(kernel, s, step.p);
    PathAfter(kernel, s, step);
    OwnersStay(kernel, s, step);
    if Apply(kernel, s, step).path.Some? {
      var owner := s.owner[Apply(kernel, s, step).path.value];
      if owner == step.p {
        PathOwn(kernel, s, step);
      } else {
        assert ProcOk(kernel, s, owner);
        Unmoved(kernel, s, step, owner);
      }
    }
  }

  /** While the path names a mover's own inode, the mover claims it or has died. */
  lemma PathOwn(kernel: Proc -> nat, s: State, step: Step)
    requires ProcOk(kernel, s, step.p) && Enabled(kernel, s, step)
    requires var path := Apply(kernel, s, step).path; path.Some? && path.value in s.owner
    requires var i := Apply(kernel, s, step).path.value;
             s.owner[i] == step.p && (s.path == Some(i) ==>
               s.Of(step.p).Dead? || (Claims(s.Of(step.p)) && s.Of(step.p).mine == i))
    ensures var t := Apply(kernel, s, step);
            t.Of(step.p).Dead? || (Claims(t.Of(step.p)) && t.Of(step.p).mine == t.path.value)
  {
    hide ReapOk, Flocked;
  }

  lemma StepKeeps(kernel: Proc -> nat, s: State, step: Step)
    requires Inv(kernel, s) && Enabled(kernel, s, step)
    ensures Inv(kernel, Apply(kernel, s, step))
  {
    forall q ensures ProcOk(kernel, Apply(kernel, s, step), q) {
      if q == step.p {
        OwnKeeps(kernel, s, step);
      } else {
        OtherKeeps(kernel, s, step, q);
      }
    }
    ClaimKeeps(kernel, s, step);
  }

  // ---------------------------------------------------------------------
  // Safety over every run
  // ---------------------------------------------------------------------

  ghost predicate IsRun(kernel: Proc -> nat, states: seq<State>, steps: seq<Step>) {
    && |states| == |steps| + 1 && states[0] == INITIAL
    && forall i :: 0 <= i < |steps| ==>
         Enabled(kernel, states[i], steps[i]) && states[i + 1] == Apply(kernel, states[i], steps[i])
  }

  lemma {:induction false} RunKeeps(kernel: Proc -> nat, states: seq<State>, steps: seq<Step>, n: nat)
    requires IsRun(kernel, states, steps) && n < |states|
    ensures Inv(kernel, states[n])
  {
    if n == 0 {
      InitKeeps(kernel);
    } else {
      RunKeeps(kernel, states, steps, n - 1);
      StepKeeps(kernel, states[n - 1], steps[n - 1]);
    }
  }

  /** In every reachable state at most one process is inside the critical section. */
  lemma Exclusion(kernel: Proc -> nat, states: seq<State>, steps: seq<Step>, n: nat, p: Proc, q: Proc)
    requires IsRun(kernel, states, steps) && n < |states|
    requires states[n].Of(p).Holding? && states[n].Of(q).Holding?
    ensures p == q
  {
    RunKeeps(kernel, states, steps, n);
    assert ProcOk(kernel, states[n], p) && ProcOk(kernel, states[n], q);
  }

  /**
   An unlink removes exactly the inode compared before it, never a replacement:
   the process's own claim, or the claim of an owner that is dead.
   */
  lemma UnlinkIsOwnOrDead(kernel: Proc -> nat, states: seq<State>, steps: seq<Step>, n: nat)
    requires IsRun(kernel, states, steps) && n < |steps| && steps[n].Unlink?
    ensures var s, phase := states[n], states[n].Of(steps[n].p);
            s.path.Some? && s.path.value in s.owner && states[n + 1].path.None?
            && (if phase.Unlinking? then s.path.value == phase.mine && s.owner[phase.mine] == steps[n].p
                else phase.Compared? && s.path.value == phase.seen && s.Of(s.owner[phase.seen]).Dead?)
  {
    RunKeeps(kernel, states, steps, n);
    assert ProcOk(kernel, states[n], steps[n].p);
  }

  /** A live holder keeps its claim: no step but its own takes the path from it. */
  lemma HolderIsSafe(kernel: Proc -> nat, states: seq<State>, steps: seq<Step>, n: nat, p: Proc)
    requires IsRun(kernel, states, steps) && n < |steps| && steps[n].p != p
    requires states[n].Of(p).Holding?
    ensures states[n + 1].Of(p) == states[n].Of(p) && states[n + 1].path == states[n].path == Some(states[n].Of(p).mine)
  {
    RunKeeps(kernel, states, steps, n);
    RunKeeps(kernel, states, steps, n + 1);
    assert ProcOk(kernel, states[n], p) && ProcOk(kernel, states[n + 1], p);
  }

  /**
   A stale claim never blocks for good: whoever's owner is dead can be reaped by
   any idle process of the owner's kernel once no reaper there holds its flock.
   */
  lemma StaleClaimIsReapable(kernel: Proc -> nat, s: State, r: Proc)
    requires Inv(kernel, s) && s.path.Some? && s.Of(s.owner[s.path.value]).Dead?
    requires s.Of(r).Idle? && kernel(r) == kernel(s.owner[s.path.value])
    requires (kernel(r), s.path.value) !in s.flocks
    ensures var s1 := Apply(kernel, s, Snap(r));
            var s2 := Apply(kernel, s1, Flock(r));
            var s3 := Apply(kernel, s2, JudgeDead(r));
            var s4 := Apply(kernel, s3, Compare(r));
            var s5 := Apply(kernel, s4, Unlink(r));
            && Enabled(kernel, s, Snap(r)) && Enabled(kernel, s1, Flock(r)) && Enabled(kernel, s2, JudgeDead(r))
            && Enabled(kernel, s3, Compare(r)) && Enabled(kernel, s4, Unlink(r))
            && s5.path.None? && s5.Of(r).Idle?
  {
    var i := s.path.value;
    var s1 := Apply(kernel, s, Snap(r));
    assert s1.Of(r) == Snapped(None, i);
    var s2 := Apply(kernel, s1, Flock(r));
    assert s2.Of(r) == Locked(None, i);
    var s3 := Apply(kernel, s2, JudgeDead(r));
    assert s3.Of(r) == Judged(None, i);
    var s4 := Apply(kernel, s3, Compare(r));
    assert s4.Of(r) == Compared(None, i);
  }

  /** A free lock is there for any idle process: its candidate is linked. */
  lemma FreeIsClaimable(kernel: Proc -> nat, s: State, p: Proc, i: Inode)
    requires Inv(kernel, s) && s.path.None? && s.Of(p).Idle? && i !in s.owner
    ensures var s1 := Apply(kernel, s, Create(p, i));
            var s2 := Apply(kernel, s1, Link(p));
            && Enabled(kernel, s, Create(p, i)) && Enabled(kernel, s1, Link(p))
            && s2.Of(p) == Holding(i) && s2.path == Some(i) && i in s2.owner && s2.owner[i] == p
  {
    hide Inv;
    var s1 := Apply(kernel, s, Create(p, i));
    assert s1.Of(p) == Claiming(i) && s1.path.None?;
  }

  /** Leaving frees the lock: the path is gone, and the flock with it. */
  lemma LeavingFrees(kernel: Proc -> nat, s: State, p: Proc)
    requires Inv(kernel, s) && s.Of(p).Holding?
    ensures var s1 := Apply(kernel, s, Leave(p));
            var s2 := Apply(kernel, s1, Compare(p));
            var s3 := Apply(kernel, s2, Unlink(p));
            && Enabled(kernel, s, Leave(p)) && Enabled(kernel, s1, Compare(p)) && Enabled(kernel, s2, Unlink(p))
            && s3.path.None? && s3.Of(p).Idle? && (kernel(p), s.Of(p).mine) !in s3.flocks
  {
    assert ProcOk(kernel, s, p);
    hide Inv;
    var i := s.Of(p).mine;
    var s1 := Apply(kernel, s, Leave(p));
    assert s1.Of(p) == Releasing(i) && s1.path == Some(i);
    var s2 := Apply(kernel, s1, Compare(p));
    assert s2.Of(p) == Unlinking(i);
  }
}
