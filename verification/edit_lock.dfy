/**
 The edit guard of an authored scope: writers create the guard file once and
 for all and hold its lock while they write; a reader first tries without a
 lock, and keeps that result only if the guard still does not exist.
 */
module EditLock {

  type Actor = nat

  datatype Phase =
    | Idle
    | WriteOpened            // the writer has created or opened the guard
    | Writing                // ... and holds its lock
    | Unguarded              // the reader saw no guard
    | Reading(dirty: bool)   // reading without the lock
    | Read(dirty: bool)      // finished, about to look for the guard again
    | Failed                 // the unguarded read raised an I/O error
    | LockWait               // a guard exists: wait for its lock
    | LockedReading(dirty: bool)
    | Returned(dirty: bool)  // the value is returned to the caller
    | Raised

  /** `dirty` records whether any write was in progress during the read. */
  datatype State = State(guard: bool, holder: set<Actor>, phases: map<Actor, Phase>) {
    function Of(a: Actor): Phase {
      if a in phases then phases[a] else Idle
    }

    function Move(a: Actor, phase: Phase): State {
      this.(phases := phases[a := phase])
    }

    ghost predicate SomeoneWrites() {
      exists a :: Of(a).Writing?
    }

    /** A write starting now overlaps every read in progress. */
    function Smear(): State {
      this.(phases := map a | a in phases :: Smeared(phases[a]))
    }
  }

  function Smeared(phase: Phase): Phase {
    match phase
    case Reading(_) => Reading(true)
    case LockedReading(_) => LockedReading(true)
    case _ => phase
  }

  datatype Step =
    | OpenGuard(a: Actor)     // write(): create the guard and open it
    | LockWrite(a: Actor)
    | EndWrite(a: Actor)
    | SeeNoGuard(a: Actor)
    | SeeGuard(a: Actor)
    | StartRead(a: Actor)
    | FinishRead(a: Actor)
    | FailRead(a: Actor)
    | Keep(a: Actor)          // still no guard: return the unguarded result
    | Discard(a: Actor)       // a guard appeared: read again under its lock
    | Reraise(a: Actor)
    | LockRead(a: Actor)
    | EndLockedRead(a: Actor)

  const INITIAL := State(false, {}, map[])

  ghost predicate Enabled(s: State, step: Step) {
    match step
    case OpenGuard(a) => s.Of(a).Idle?
    case LockWrite(a) => s.Of(a).WriteOpened? && s.holder == {}
    case EndWrite(a) => s.Of(a).Writing?
    case SeeNoGuard(a) => s.Of(a).Idle? && !s.guard
    case SeeGuard(a) => s.Of(a).Idle? && s.guard
    case StartRead(a) => s.Of(a).Unguarded?
    case FinishRead(a) => s.Of(a).Reading?
    case FailRead(a) => s.Of(a).Reading?
    case Keep(a) => s.Of(a).Read? && !s.guard
    case Discard(a) => (s.Of(a).Read? || s.Of(a).Failed?) && s.guard
    case Reraise(a) => s.Of(a).Failed? && !s.guard
    case LockRead(a) => s.Of(a).LockWait? && s.holder == {}
    case EndLockedRead(a) => s.Of(a).LockedReading?
  }

  ghost function Apply(s: State, step: Step): State {
    match step
    case OpenGuard(a) => s.(guard := true).Move(a, WriteOpened)
    case LockWrite(a) => s.(holder := {a}).Move(a, Writing).Smear()
    case EndWrite(a) => s.(holder := s.holder - {a}).Move(a, Idle)
    case SeeNoGuard(a) => s.Move(a, Unguarded)
    case SeeGuard(a) => s.Move(a, LockWait)
    case StartRead(a) => s.Move(a, Reading(s.SomeoneWrites()))
    case FinishRead(a) => if s.Of(a).Reading? then s.Move(a, Read(s.Of(a).dirty)) else s
    case FailRead(a) => s.Move(a, Failed)
    case Keep(a) => if s.Of(a).Read? then s.Move(a, Returned(s.Of(a).dirty)) else s
    case Discard(a) => s.Move(a, LockWait)
    case Reraise(a) => s.Move(a, Raised)
    case LockRead(a) => s.(holder := {a}).Move(a, LockedReading(s.SomeoneWrites()))
    case EndLockedRead(a) =>
      if s.Of(a).LockedReading? then s.(holder := s.holder - {a}).Move(a, Returned(s.Of(a).dirty)) else s
  }

  ghost predicate ActorOk(s: State, a: Actor) {
    var phase := s.Of(a);
    && (phase.WriteOpened? || phase.Writing? || phase.LockWait? || phase.LockedReading? ==> s.guard)
    && (phase.Writing? || phase.LockedReading? ==> s.holder == {a})
    && (phase.Reading? || phase.Read? ==> phase.dirty ==> s.guard)
    && (phase.LockedReading? || phase.Returned? ==> !phase.dirty)
  }

  ghost predicate Inv(s: State) {
    forall a {:trigger ActorOk(s, a)} :: ActorOk(s, a)
  }

  lemma StepKeeps(s: State, step: Step)
    requires Inv(s) && Enabled(s, step)
    ensures Inv(Apply(s, step))
  {
    var sNext := Apply(s, step);
    forall b ensures ActorOk(sNext, b) {
      assert ActorOk(s, b) && ActorOk(s, step.a);
      if s.SomeoneWrites() {
        var w :| s.Of(w).Writing?;
        assert ActorOk(s, w);
      }
    }
  }

  ghost predicate IsRun(states: seq<State>, steps: seq<Step>) {
    && |states| == |steps| + 1 && states[0] == INITIAL
    && forall i :: 0 <= i < |steps| ==> Enabled(states[i], steps[i]) && states[i + 1] == Apply(states[i], steps[i])
  }

  lemma {:induction false} RunKeeps(states: seq<State>, steps: seq<Step>, n: nat)
    requires IsRun(states, steps) && n < |states|
    ensures Inv(states[n])
  {
    if n > 0 {
      RunKeeps(states, steps, n - 1);
      StepKeeps(states[n - 1], steps[n - 1]);
    } else {
      forall a ensures ActorOk(states[0], a) {
      }
    }
  }

  /** A read in progress while somebody writes is marked as overlapped. */
  ghost predicate Marked(s: State, a: Actor) {
    s.SomeoneWrites() && (s.Of(a).Reading? || s.Of(a).LockedReading?) ==> s.Of(a).dirty
  }

  lemma StepMarks(s: State, step: Step, a: Actor)
    requires Marked(s, a) && Enabled(s, step)
    ensures Marked(Apply(s, step), a)
  {
    var t := Apply(s, step);
    if t.SomeoneWrites() {
      var w :| t.Of(w).Writing?;
      assert step.LockWrite? || s.Of(w).Writing?;
    }
  }

  /** Over every run a read that has overlapped any write so far is marked, and so is the value it returns. */
  lemma {:induction false} OverlapIsMarked(states: seq<State>, steps: seq<Step>, m: nat, n: nat, a: Actor)
    requires IsRun(states, steps) && m <= n < |states|
    requires states[m].SomeoneWrites() && (states[m].Of(a).Reading? || states[m].Of(a).LockedReading?)
    requires forall k :: m <= k < n ==>
               steps[k].a != a || steps[k].FinishRead? || steps[k].Keep? || steps[k].EndLockedRead?
    ensures InRead(states[n].Of(a)) && states[n].Of(a).dirty
  {
    if n == m {
      AllMarked(states, steps, n, a);
    } else {
      OverlapIsMarked(states, steps, m, n - 1, a);
      var k := n - 1;
      assert Enabled(states[k], steps[k]) && states[k + 1] == Apply(states[k], steps[k]);
      hide IsRun;
      StaysMarked(states[k], steps[k], a);
    }
  }

  /** A mark stays, through the end of the read, to the value returned. */
  lemma StaysMarked(s: State, step: Step, a: Actor)
    requires Enabled(s, step) && InRead(s.Of(a)) && s.Of(a).dirty
    requires step.a != a || step.FinishRead? || step.Keep? || step.EndLockedRead?
    ensures InRead(Apply(s, step).Of(a)) && Apply(s, step).Of(a).dirty
  {
  }

  predicate InRead(phase: Phase) {
    phase.Reading? || phase.LockedReading? || phase.Read? || phase.Returned?
  }

  lemma {:induction false} AllMarked(states: seq<State>, steps: seq<Step>, n: nat, a: Actor)
    requires IsRun(states, steps) && n < |states|
    ensures Marked(states[n], a)
  {
    if n > 0 {
      AllMarked(states, steps, n - 1, a);
      StepMarks(states[n - 1], steps[n - 1], a);
    }
  }

  /** `read` never returns a value whose reading overlapped a write. */
  lemma ReadIsClean(states: seq<State>, steps: seq<Step>, n: nat, a: Actor)
    requires IsRun(states, steps) && n < |states| && states[n].Of(a).Returned?
    ensures !states[n].Of(a).dirty
  {
    RunKeeps(states, steps, n);
    assert ActorOk(states[n], a);
  }

  /** Reads never create the guard: without a writer it never exists. */
  lemma {:induction false} ReadersLeaveNoGuard(states: seq<State>, steps: seq<Step>, n: nat)
    requires IsRun(states, steps) && n < |states|
    requires forall i :: 0 <= i < n ==> !steps[i].OpenGuard?
    ensures !states[n].guard
  {
    if n > 0 {
      ReadersLeaveNoGuard(states, steps, n - 1);
    }
  }

  /** At any moment at most one actor is writing, and none reads under the lock then. */
  lemma WritersExclude(states: seq<State>, steps: seq<Step>, n: nat, a: Actor, b: Actor)
    requires IsRun(states, steps) && n < |states| && a != b && states[n].Of(a).Writing?
    ensures !states[n].Of(b).Writing? && !states[n].Of(b).LockedReading?
  {
    RunKeeps(states, steps, n);
    assert ActorOk(states[n], a) && ActorOk(states[n], b);
  }

  /** With the lock free, a writer gets through and leaves the lock free. */
  lemma WriteGoesThrough(s: State, a: Actor)
    requires Inv(s) && s.Of(a).Idle? && s.holder == {}
    ensures var s1 := Apply(s, OpenGuard(a));
            var s2 := Apply(s1, LockWrite(a));
            var s3 := Apply(s2, EndWrite(a));
            && Enabled(s, OpenGuard(a)) && Enabled(s1, LockWrite(a)) && Enabled(s2, EndWrite(a))
            && s2.Of(a).Writing? && s3.Of(a).Idle? && s3.guard && s3.holder == {}
  {
  }

  /** With the lock free a read returns a clean value: at once where there is no guard, else under the lock. */
  lemma ReadGoesThrough(s: State, a: Actor)
    requires Inv(s) && s.Of(a).Idle? && s.holder == {}
    ensures !s.guard ==>
              var s1 := Apply(s, SeeNoGuard(a));
              var s2 := Apply(s1, StartRead(a));
              var s3 := Apply(s2, FinishRead(a));
              && Enabled(s, SeeNoGuard(a)) && Enabled(s1, StartRead(a)) && Enabled(s2, FinishRead(a))
              && Enabled(s3, Keep(a)) && Apply(s3, Keep(a)).Of(a) == Returned(false)
    ensures s.guard ==>
              var s1 := Apply(s, SeeGuard(a));
              var s2 := Apply(s1, LockRead(a));
              var s3 := Apply(s2, EndLockedRead(a));
              && Enabled(s, SeeGuard(a)) && Enabled(s1, LockRead(a)) && Enabled(s2, EndLockedRead(a))
              && s3.Of(a) == Returned(false) && s3.holder == {}
  {
    NobodyWrites(s);
    if s.guard {
      var s1 := Apply(s, SeeGuard(a));
      StepKeeps(s, SeeGuard(a));
      NobodyWrites(s1);
    } else {
      var s1 := Apply(s, SeeNoGuard(a));
      StepKeeps(s, SeeNoGuard(a));
      NobodyWrites(s1);
    }
  }

  lemma NobodyWrites(s: State)
    requires Inv(s) && s.holder == {}
    ensures !s.SomeoneWrites()
  {
    forall a ensures !s.Of(a).Writing? {
      assert ActorOk(s, a);
    }
  }
}
