/**
 Structural records of a stream client: an insertion-ordered table of Begin and
 End events. This module specifies which tables are well formed, what belongs
 to a whole tree, and the presentation order of a snapshot.
 */
module ClientSpec {
  import opened Common

  datatype Event =
    | RunBegin(run: string, parent: Option<Key>, thread: string, body: string)
    | RunEnd(run: string, body: string)
    | StepBegin(step: Key, body: string)
    | StepEnd(step: Key, body: string)
    | Progress(part: bool, body: string)

  /** The table key of a structural event: its type and its subject. */
  datatype Slot = Slot(begin: bool, key: Key)

  predicate Structural(e: Event) { !e.Progress? }

  predicate IsBegin(e: Event) { e.RunBegin? || e.StepBegin? }

  function KeyOf(e: Event): Key
    requires Structural(e)
  {
    match e
    case RunBegin(run, _, _, _) => RunKey(run)
    case RunEnd(run, _) => RunKey(run)
    case StepBegin(step, _) => step
    case StepEnd(step, _) => step
  }

  function SlotOf(e: Event): Slot
    requires Structural(e)
  {
    Slot(IsBegin(e), KeyOf(e))
  }

  function ParentOf(e: Event): Option<Key>
    requires IsBegin(e)
  {
    if e.RunBegin? then e.parent else Some(Above(e.step))
  }

  // ---------------------------------------------------------------------
  // Well-formed tables
  // ---------------------------------------------------------------------

  predicate AllStructural(rs: seq<Event>) {
    forall i :: 0 <= i < |rs| ==> Structural(rs[i])
  }

  predicate At(rs: seq<Event>, i: nat, slot: Slot) {
    i < |rs| && Structural(rs[i]) && SlotOf(rs[i]) == slot
  }

  ghost predicate Has(rs: seq<Event>, slot: Slot) {
    exists i: nat :: At(rs, i, slot)
  }

  /** `e` may follow `prior`: a new slot, its parent begun, an End after its Begin. */
  ghost predicate Fits(prior: seq<Event>, e: Event) {
    && Structural(e) && !Has(prior, SlotOf(e))
    && (IsBegin(e) && ParentOf(e).Some? ==> Has(prior, Slot(true, ParentOf(e).value)))
    && (!IsBegin(e) ==> Has(prior, Slot(true, KeyOf(e))))
    && (e.StepBegin? ==> e.step.StepKey? && e.step.path != [])
  }

  /** Ancestor-closed, parents before children, one event per slot. */
  ghost predicate Closed(rs: seq<Event>) {
    forall i {:trigger rs[..i]} :: 0 <= i < |rs| ==> Fits(rs[..i], rs[i])
  }

  lemma ClosedPrefix(rs: seq<Event>, n: nat)
    requires Closed(rs) && n <= |rs|
    ensures Closed(rs[..n])
  {
    forall i {:trigger rs[..n][..i]} | 0 <= i < n ensures Fits(rs[..n][..i], rs[..n][i]) {
      assert rs[..n][..i] == rs[..i];
      assert Fits(rs[..i], rs[i]);
    }
  }

  lemma ClosedSnoc(rs: seq<Event>, e: Event)
    ensures Closed(rs + [e]) <==> Closed(rs) && Fits(rs, e)
  {
    if Closed(rs + [e]) {
      ClosedPrefix(rs + [e], |rs|);
      assert (rs + [e])[..|rs|] == rs;
      assert Fits((rs + [e])[..|rs|], e);
    }
    if Closed(rs) && Fits(rs, e) {
      forall i {:trigger (rs + [e])[..i]} | 0 <= i < |rs| + 1 ensures Fits((rs + [e])[..i], (rs + [e])[i]) {
        assert (rs + [e])[..i] == rs[..i];
        assert i < |rs| ==> Fits(rs[..i], rs[i]);
        assert i == |rs| ==> rs[..i] == rs;
      }
    }
  }

  lemma HasConcat(a: seq<Event>, b: seq<Event>, slot: Slot)
    ensures Has(a + b, slot) <==> Has(a, slot) || Has(b, slot)
  {
    if i: nat :| At(a, i, slot) {
      assert At(a + b, i, slot);
    }
    if i: nat :| At(b, i, slot) {
      assert At(a + b, |a| + i, slot);
    }
    if i: nat :| At(a + b, i, slot) {
      assert if i < |a| then At(a, i, slot) else At(b, i - |a|, slot);
    }
  }

  lemma HasOne(e: Event, slot: Slot)
    requires Structural(e)
    ensures Has([e], slot) <==> SlotOf(e) == slot
  {
    assert At([e], 0, SlotOf(e));
  }

  /** Each slot is used once. */
  lemma SlotsUnique(rs: seq<Event>, i: nat, j: nat)
    requires Closed(rs) && i < |rs| && j < |rs| && Structural(rs[i]) && Structural(rs[j])
    requires SlotOf(rs[i]) == SlotOf(rs[j])
    ensures i == j
  {
    if i < j {
      assert Fits(rs[..j], rs[j]);
      assert At(rs[..j], i, SlotOf(rs[j]));
    } else if j < i {
      assert Fits(rs[..i], rs[i]);
      assert At(rs[..i], j, SlotOf(rs[i]));
    }
  }

  // ---------------------------------------------------------------------
  // Whole trees
  // ---------------------------------------------------------------------

  predicate ChildOf(e: Event, runs: set<string>) {
    e.RunBegin? && e.parent.Some? && e.parent.value.run in runs
  }

  /** One pass over the table, adding Runs whose parent's Run is selected. */
  function Pass(rs: seq<Event>, runs: set<string>): set<string> {
    if rs == [] then runs
    else
      var selected := Pass(rs[..|rs| - 1], runs);
      var e := rs[|rs| - 1];
      if ChildOf(e, selected) then selected + {e.run} else selected
  }

  /** No child Run of a selected Run is left out. */
  ghost predicate ChildClosed(rs: seq<Event>, runs: set<string>) {
    forall i :: 0 <= i < |rs| && ChildOf(rs[i], runs) ==> rs[i].run in runs
  }

  lemma {:induction false} PassGrows(rs: seq<Event>, runs: set<string>, n: nat)
    requires n <= |rs|
    ensures runs <= Pass(rs[..n], runs) <= Pass(rs, runs)
  {
    if n == |rs| {
      assert rs[..n] == rs;
      if rs != [] {
        PassGrows(rs[..|rs| - 1], runs, |rs| - 1);
      }
    } else {
      assert rs[..|rs| - 1][..n] == rs[..n];
      PassGrows(rs[..|rs| - 1], runs, n);
    }
  }

  /** A selected Run was asked for, or its Begin is a child of an earlier selection. */
  lemma {:induction false} PassOrigin(rs: seq<Event>, runs: set<string>, run: string) returns (i: nat)
    requires run in Pass(rs, runs) && run !in runs
    ensures i < |rs| && rs[i].RunBegin? && rs[i].run == run && ChildOf(rs[i], Pass(rs[..i], runs))
  {
    var n := |rs| - 1;
    if run in Pass(rs[..n], runs) {
      i := PassOrigin(rs[..n], runs, run);
      assert rs[..n][..i] == rs[..i];
    } else {
      i := n;
    }
  }

  /** The Run of an event's parent begins before the event. */
  lemma {:induction false} RunBeginsBefore(rs: seq<Event>, i: nat) returns (j: nat)
    requires Closed(rs) && i < |rs| && IsBegin(rs[i]) && ParentOf(rs[i]).Some?
    ensures j < i && At(rs, j, Slot(true, RunKey(ParentOf(rs[i]).value.run)))
    decreases i
  {
    assert Fits(rs[..i], rs[i]);
    var p := ParentOf(rs[i]).value;
    var k: nat :| At(rs[..i], k, Slot(true, p));
    if p.RunKey? {
      j := k;
    } else {
      j := RunBeginsBefore(rs, k);
    }
  }

  /** A Run selected anywhere is already selected when its children come up. */
  lemma SelectedInTime(rs: seq<Event>, runs: set<string>, i: nat)
    requires Closed(rs) && i < |rs| && ChildOf(rs[i], Pass(rs, runs))
    ensures rs[i].parent.value.run in Pass(rs[..i], runs)
  {
    hide Pass, Closed, Fits;
    var parent := rs[i].parent.value.run;
    if parent in runs {
      PassGrows(rs[..i], runs, 0);
    } else {
      var o := PassOrigin(rs, runs, parent);
      var j := RunBeginsBefore(rs, i);
      SlotsUnique(rs, o, j);
      PassStep(rs, runs, o);
      PassGrows(rs[..i], runs, o + 1);
      assert rs[..i][..o + 1] == rs[..o + 1];
    }
  }

  lemma PassStep(rs: seq<Event>, runs: set<string>, i: nat)
    requires i < |rs| && ChildOf(rs[i], Pass(rs[..i], runs))
    ensures rs[i].run in Pass(rs[..i + 1], runs)
  {
    assert rs[..i + 1][..i] == rs[..i];
  }

  /** The single pass already yields the least child-closed selection. */
  lemma PassIsClosure(rs: seq<Event>, runs: set<string>)
    requires Closed(rs)
    ensures runs <= Pass(rs, runs) && ChildClosed(rs, Pass(rs, runs))
    ensures forall s :: runs <= s && ChildClosed(rs, s) ==> Pass(rs, runs) <= s
  {
    hide Pass, Closed, Fits;
    PassGrows(rs, runs, 0);
    forall i | 0 <= i < |rs| && ChildOf(rs[i], Pass(rs, runs)) ensures rs[i].run in Pass(rs, runs) {
      SelectedInTime(rs, runs, i);
      PassStep(rs, runs, i);
      PassGrows(rs, runs, i + 1);
    }
    forall s | runs <= s && ChildClosed(rs, s) ensures Pass(rs, runs) <= s {
      PassIsLeast(rs, runs, s);
    }
  }

  lemma {:induction false} PassIsLeast(rs: seq<Event>, runs: set<string>, s: set<string>)
    requires runs <= s && ChildClosed(rs, s)
    ensures Pass(rs, runs) <= s
  {
    if rs != [] {
      PassIsLeast(rs[..|rs| - 1], runs, s);
    }
  }

  function Remove(rs: seq<Event>, runs: set<string>): seq<Event> {
    if rs == [] then []
    else
      var e := rs[|rs| - 1];
      Remove(rs[..|rs| - 1], runs) + if Structural(e) && KeyOf(e).run in runs then [] else [e]
  }

  lemma RemoveSnoc(rs: seq<Event>, e: Event, runs: set<string>)
    ensures Remove(rs + [e], runs) ==
            if Structural(e) && KeyOf(e).run in runs then Remove(rs, runs) else Remove(rs, runs) + [e]
  {
    assert (rs + [e])[..|rs|] == rs;
  }

  lemma {:induction false} RemoveKeeps(rs: seq<Event>, runs: set<string>, slot: Slot)
    ensures Has(Remove(rs, runs), slot) <==> Has(rs, slot) && slot.key.run !in runs
  {
    if rs == [] {
    } else {
      var init, e := rs[..|rs| - 1], rs[|rs| - 1];
      assert rs == init + [e];
      RemoveKeeps(init, runs, slot);
      RemoveSnoc(init, e, runs);
      HasConcat(init, [e], slot);
      HasConcat(Remove(init, runs), [e], slot);
      if Structural(e) {
        HasOne(e, slot);
      } else {
        assert forall i: nat :: !At([e], i, slot);
      }
    }
  }

  /** Removing whole trees leaves no orphan behind. */
  lemma {:induction false} RemoveCloses(rs: seq<Event>, runs: set<string>)
    requires Closed(rs) && ChildClosed(rs, runs)
    ensures Closed(Remove(rs, runs))
  {
    hide Remove, Closed, Has;
    if rs == [] {
      RemoveNone(runs);
    } else {
      var init, e := rs[..|rs| - 1], rs[|rs| - 1];
      assert rs == init + [e];
      ClosedSnoc(init, e);
      assert ChildClosed(init, runs) by {
        assert forall i :: 0 <= i < |init| ==> init[i] == rs[i];
      }
      RemoveCloses(init, runs);
      RemoveSnoc(init, e, runs);
      if KeyOf(e).run !in runs {
        RemoveKeeps(init, runs, SlotOf(e));
        RemoveKeeps(init, runs, Slot(true, KeyOf(e)));
        if IsBegin(e) && ParentOf(e).Some? {
          assert !ChildOf(rs[|rs| - 1], runs);
          RemoveKeeps(init, runs, Slot(true, ParentOf(e).value));
        }
        ClosedSnoc(Remove(init, runs), e);
      }
    }
  }

  lemma RemoveNone(runs: set<string>)
    ensures Remove([], runs) == [] && Closed([])
  {
  }
}
