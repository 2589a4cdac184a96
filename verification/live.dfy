/**
 One root's resident execution tree: nodes and child lists updated in place,
 closed branches pruned, counters carried by every live Run above.
 */
module Live {
  import opened Common
  import opened Money
  import opened LiveSpec

  datatype Outcome = Done | Missing | WrongType | Duplicate | BadInvocation | CostWithoutUsage | CostOverflow

  // ---------------------------------------------------------------------
  // Runs above a node
  // ---------------------------------------------------------------------

  /** What a node's place says about its parent. */
  lemma Up(nodes: map<Id, Node>, children: map<Id, seq<Id>>, above: map<Id, set<Id>>, x: Id)
    requires Shaped(nodes, children, above) && x in nodes
    ensures nodes.Keys == children.Keys == above.Keys && x !in above[x] && above[x] <= nodes.Keys
    ensures nodes[x].parent.None? ==> above[x] == {}
    ensures nodes[x].parent.Some? ==>
              var p := nodes[x].parent.value;
              p in nodes && p !in above[p] && above[x] == above[p] + {p} && x in children[p]
  {
    assert Placed(nodes, children, above, x);
    if nodes[x].parent.Some? {
      assert Placed(nodes, children, above, nodes[x].parent.value);
    }
  }

  /** The live Runs above a node, innermost first. */
  ghost function RunsUp(
    nodes: map<Id, Node>, children: map<Id, seq<Id>>, above: map<Id, set<Id>>, id: Id): seq<Id>
    requires Shaped(nodes, children, above) && id in nodes
    decreases above[id]
  {
    Up(nodes, children, above, id);
    match nodes[id].parent
    case None => []
    case Some(p) =>
      (if nodes[p].RunNode? then [p] else []) + RunsUp(nodes, children, above, p)
  }

  lemma {:induction false} RunsUpAre(
    nodes: map<Id, Node>, children: map<Id, seq<Id>>, above: map<Id, set<Id>>, id: Id)
    requires Shaped(nodes, children, above) && id in nodes
    ensures Distinct(RunsUp(nodes, children, above, id))
    ensures forall r :: r in RunsUp(nodes, children, above, id) <==> r in above[id] && r in nodes && nodes[r].RunNode?
    decreases above[id]
  {
    hide Shaped;
    Up(nodes, children, above, id);
    if nodes[id].parent.Some? {
      RunsUpAre(nodes, children, above, nodes[id].parent.value);
    }
  }

  function Items(ids: seq<Id>): set<Id> {
    set i | 0 <= i < |ids| :: ids[i]
  }

  // ---------------------------------------------------------------------
  // Whole-map updates
  // ---------------------------------------------------------------------

  function CountedAll(nodes: map<Id, Node>, runs: set<Id>, kind: Kind): map<Id, Node>
  {
    map x | x in nodes :: if x in runs && nodes[x].RunNode? then Counted(nodes[x], kind) else nodes[x]
  }

  predicate CanCharge(nodes: map<Id, Node>, runs: set<Id>, cost: Option<Usd>) {
    forall x :: x in nodes && x in runs && nodes[x].RunNode? ==> !Overflows(nodes[x], cost)
  }

  function ChargedAll(
    nodes: map<Id, Node>, runs: set<Id>, usage: Usage, cost: Option<Usd>, approximate: bool): map<Id, Node>
    requires CanCharge(nodes, runs, cost)
  {
    map x | x in nodes ::
      if x in runs && nodes[x].RunNode? then Charged(nodes[x], usage, cost, approximate) else nodes[x]
  }

  lemma CountedStep(nodes: map<Id, Node>, runs: seq<Id>, i: nat, kind: Kind, id: Id, step: Node)
    requires i < |runs| && Distinct(runs) && runs[i] in nodes && nodes[runs[i]].RunNode? && runs[i] != id
    ensures var before := CountedAll(nodes, Items(runs[..i]), kind)[id := step];
            && runs[i] in before && before[runs[i]] == nodes[runs[i]]
            && CountedAll(nodes, Items(runs[..i + 1]), kind)[id := step] ==
               before[runs[i] := Counted(nodes[runs[i]], kind)]
  {
    hide Items, Distinct, Counted;
    ItemsSnoc(runs, i);
  }

  lemma CountedNone(nodes: map<Id, Node>, runs: seq<Id>, kind: Kind)
    ensures runs[..0] == [] && CountedAll(nodes, Items(runs[..0]), kind) == nodes
  {
  }

  lemma CountedAlike(nodes: map<Id, Node>, runs: set<Id>, kind: Kind, id: Id, step: Node)
    requires id in nodes && nodes[id].StepNode? && step.StepNode?
    requires step.parent == nodes[id].parent && step.status == nodes[id].status
    ensures CountedAll(nodes, runs, kind).Keys == nodes.Keys
    ensures var next := CountedAll(nodes, runs, kind)[id := step];
            Alike(nodes, next) && forall x :: x in nodes ==> next[x].status == nodes[x].status
  {
  }

  lemma ChargedStep(
    nodes: map<Id, Node>, runs: seq<Id>, i: nat, usage: Usage, cost: Option<Usd>, approximate: bool,
    id: Id, step: Node)
    requires i < |runs| && Distinct(runs) && runs[i] in nodes && nodes[runs[i]].RunNode? && runs[i] != id
    requires CanCharge(nodes, Items(runs[..i]), cost)
    ensures var before := ChargedAll(nodes, Items(runs[..i]), usage, cost, approximate)[id := step];
            && runs[i] in before && before[runs[i]] == nodes[runs[i]]
            && (!Overflows(nodes[runs[i]], cost) ==>
                  && CanCharge(nodes, Items(runs[..i + 1]), cost)
                  && ChargedAll(nodes, Items(runs[..i + 1]), usage, cost, approximate)[id := step] ==
                     before[runs[i] := Charged(nodes[runs[i]], usage, cost, approximate)])
  {
    hide Items, Distinct, Charged, Overflows;
    ItemsSnoc(runs, i);
  }

  lemma ChargedNone(nodes: map<Id, Node>, runs: seq<Id>, usage: Usage, cost: Option<Usd>, approximate: bool)
    ensures runs[..0] == [] && CanCharge(nodes, Items(runs[..0]), cost)
    ensures ChargedAll(nodes, Items(runs[..0]), usage, cost, approximate) == nodes
  {
  }

  lemma ChargedAlike(
    nodes: map<Id, Node>, runs: set<Id>, usage: Usage, cost: Option<Usd>, approximate: bool, id: Id, step: Node)
    requires id in nodes && nodes[id].StepNode? && step.StepNode? && CanCharge(nodes, runs, cost)
    requires step.parent == nodes[id].parent && step.status == nodes[id].status
    ensures ChargedAll(nodes, runs, usage, cost, approximate).Keys == nodes.Keys
    ensures var next := ChargedAll(nodes, runs, usage, cost, approximate)[id := step];
            Alike(nodes, next) && forall x :: x in nodes ==> next[x].status == nodes[x].status
  {
    hide Overflows;
  }

  /** Same nodes, same parents and kinds of node. */
  ghost predicate Alike(a: map<Id, Node>, b: map<Id, Node>) {
    a.Keys == b.Keys && forall x :: x in a ==> a[x].parent == b[x].parent && a[x].RunNode? == b[x].RunNode?
  }

  lemma AlikeShaped(a: map<Id, Node>, b: map<Id, Node>, children: map<Id, seq<Id>>, above: map<Id, set<Id>>)
    requires Shaped(a, children, above) && Alike(a, b)
    ensures Shaped(b, children, above)
  {
    forall x | x in b ensures Placed(b, children, above, x) {
      assert Placed(a, children, above, x);
    }
  }

  /** Counting an invocation on exactly its Runs keeps every account. */
  lemma CountedLedger(nodes: map<Id, Node>, since: map<Id, nat>, log: seq<Entry>, e: Entry)
    requires Ledger(nodes, since, log) && e.Invoked?
    ensures Ledger(CountedAll(nodes, e.runs, e.kind), since, log + [e])
  {
    hide Owes, Paid, Counted;
    var next := CountedAll(nodes, e.runs, e.kind);
    forall r | r in next && next[r].RunNode? ensures Owes(next[r], Paid(log + [e], since[r], r)) {
      CountedKind(nodes, r, e);
      PaidSnoc(log, since[r], r, e);
      var paid := Paid(log, since[r], r);
      if r in e.runs {
        CountedOwes(nodes[r], paid, e);
      } else {
        assert paid + [] == paid;
      }
    }
  }

  lemma CountedKind(nodes: map<Id, Node>, r: Id, e: Entry)
    requires r in nodes && e.Invoked?
    ensures CountedAll(nodes, e.runs, e.kind)[r].RunNode? <==> nodes[r].RunNode?
  {
  }

  lemma ChargedLedger(nodes: map<Id, Node>, since: map<Id, nat>, log: seq<Entry>, e: Entry)
    requires Ledger(nodes, since, log) && e.Noted? && CanCharge(nodes, e.paid, e.cost) && Charges(e)
    ensures Ledger(ChargedAll(nodes, e.paid, e.usage, e.cost, e.approximate), since, log + [e])
  {
    hide Owes, Paid, Charged, Overflows, Charges;
    var next := ChargedAll(nodes, e.paid, e.usage, e.cost, e.approximate);
    forall r | r in next && next[r].RunNode? ensures Owes(next[r], Paid(log + [e], since[r], r)) {
      ChargedKind(nodes, r, e);
      PaidSnoc(log, since[r], r, e);
      var paid := Paid(log, since[r], r);
      if r in e.paid {
        ChargedOwes(nodes[r], paid, e);
      } else {
        assert paid + [] == paid;
      }
    }
  }

  lemma ChargedKind(nodes: map<Id, Node>, r: Id, e: Entry)
    requires r in nodes && e.Noted? && CanCharge(nodes, e.paid, e.cost)
    ensures ChargedAll(nodes, e.paid, e.usage, e.cost, e.approximate)[r].RunNode? <==> nodes[r].RunNode?
  {
  }

  // ---------------------------------------------------------------------
  // The tree
  // ---------------------------------------------------------------------

  class LiveTree {
    const root: Id
    var nodes: map<Id, Node>
    var children: map<Id, seq<Id>>
    /** Proper ancestors, acceptance positions, and everything ever absorbed. */
    ghost var above: map<Id, set<Id>>
    ghost var since: map<Id, nat>
    ghost var log: seq<Entry>

    ghost predicate Sound()
      reads this
    {
      Shaped(nodes, children, above) && Ledger(nodes, since, log)
    }

    ghost predicate Valid()
      reads this
    {
      Sound() && Lively(nodes, children, root, {})
    }

    constructor (root: Id)
      ensures Valid() && this.root == root && nodes == map[] && log == []
    {
      this.root := root;
      nodes, children := map[], map[];
      above, since, log := map[], map[], [];
    }

    /** Adds a leaf under a resident parent, or a new top. */
    method Add(id: Id, node: Node) returns (outcome: Outcome)
      requires Valid() && !Terminal(node.status)
      requires node.RunNode? ==> Owes(node, [])
      modifies this`nodes, this`children, this`above, this`since
      ensures Valid()
      ensures outcome == if id in old(nodes) then Duplicate
                         else if node.parent.Some? && node.parent.value !in old(nodes) then Missing
                         else Done
      ensures outcome.Done? ==>
                && nodes == old(nodes)[id := node]
                && (node.parent.Some? ==> node.parent.value in old(children))
                && children == Attached(old(children), id, node.parent)
                && since == old(since)[id := |log|]
      ensures !outcome.Done? ==> nodes == old(nodes) && children == old(children) && since == old(since)
    {
      hide Shaped, Ledger, Lively, Owes;
      ShapedKeys(nodes, children, above);
      if id in nodes {
        return Duplicate;
      }
      if node.parent.Some? {
        if node.parent.value !in children {
          return Missing;
        }
      }
      AddShaped(nodes, children, above, id, node);
      AddLedger(nodes, since, log, id, node);
      AddLively(nodes, children, id, node, root);
      above := above[id := Line(above, node.parent)];
      since := since[id := |log|];
      if node.parent.Some? {
        var p := node.parent.value;
        children := children[p := children[p] + [id]];
      }
      nodes := nodes[id := node];
      children := children[id := []];
      outcome := Done;
    }

    /** Accepts a Run; a Run already resident is simply continued. */
    method AcceptRun(id: Id, parent: Option<Id>) returns (outcome: Outcome)
      requires Valid()
      modifies this`nodes, this`children, this`above, this`since
      ensures Valid()
      ensures id in old(nodes) ==>
                outcome.Done? && nodes == old(nodes) && children == old(children) && since == old(since)
      ensures id !in old(nodes) ==>
                if id != root && parent.Some? && parent.value !in old(nodes)
                then outcome.Missing? && nodes == old(nodes) && children == old(children) && since == old(since)
                else
                  && outcome.Done? && nodes == old(nodes)[id := Accepted(if id == root then None else parent)]
                  && since == old(since)[id := |log|]
    {
      hide Shaped, Ledger, Lively, Owes;
      if id in nodes {
        return Done;
      }
      NothingOwed(if id == root then None else parent);
      outcome := Add(id, Accepted(if id == root then None else parent));
    }

    method BeginRun(id: Id) returns (outcome: Outcome)
      requires Valid()
      modifies this`nodes
      ensures Valid()
      ensures outcome == if id !in old(nodes) then Missing else if old(nodes)[id].StepNode? then WrongType else Done
      ensures nodes == if outcome.Done? then old(nodes)[id := WithStatus(old(nodes)[id], Running)] else old(nodes)
    {
      hide Shaped, Ledger, Owes, Lively;
      if id !in nodes {
        return Missing;
      }
      if nodes[id].StepNode? {
        return WrongType;
      }
      SetStatus(id, Running);
      outcome := Done;
    }

    /** `status` is a Step's opening status. */
    method BeginStep(id: Id, parent: Id, kind: Kind, status: Status) returns (outcome: Outcome)
      requires Valid() && !Terminal(status)
      modifies this`nodes, this`children, this`above, this`since
      ensures Valid()
      ensures outcome == if id in old(nodes) then Duplicate else if parent !in old(nodes) then Missing else Done
      ensures nodes == if outcome.Done?
                       then old(nodes)[id := StepNode(Some(parent), status, kind, false, None, None, false)]
                       else old(nodes)
      ensures since == if outcome.Done? then old(since)[id := |log|] else old(since)
    {
      outcome := Add(id, StepNode(Some(parent), status, kind, false, None, None, false));
    }

    method RunsAbove(id: Id) returns (runs: seq<Id>)
      requires Shaped(nodes, children, above) && id in nodes
      ensures runs == RunsUp(nodes, children, above, id)
    {
      hide Shaped;
      ShapedKeys(nodes, children, above);
      runs := [];
      var at := id;
      while nodes[at].parent.Some?
        invariant at in nodes && runs + RunsUp(nodes, children, above, at) == RunsUp(nodes, children, above, id)
        decreases above[at]
      {
        Up(nodes, children, above, at);
        at := nodes[at].parent.value;
        if nodes[at].RunNode? {
          runs := runs + [at];
        }
      }
    }

    /** Counts one model or tool call on every live Run above the Step, once. */
    method Invoke(id: Id, kind: Kind) returns (outcome: Outcome)
      requires Valid()
      modifies this`nodes, this`log
      ensures Valid()
      ensures outcome == if id !in old(nodes) then Missing
                         else if old(nodes)[id].RunNode? then WrongType
                         else if old(nodes)[id].invoked || old(nodes)[id].kind != kind || kind.Action?
                         then BadInvocation
                         else Done
      ensures !outcome.Done? ==> nodes == old(nodes) && log == old(log)
      ensures outcome.Done? ==>
                var runs := Items(RunsUp(old(nodes), children, above, id));
                && log == old(log) + [Invoked(runs, kind)]
                && nodes == CountedAll(old(nodes), runs, kind)[id := old(nodes)[id].(invoked := true)]
    {
      hide Shaped, Ledger, Lively, Owes, Counted, CountedAll, RunsUp, Items, Distinct;
      if id !in nodes {
        return Missing;
      }
      if nodes[id].RunNode? {
        return WrongType;
      }
      if nodes[id].invoked || nodes[id].kind != kind || kind.Action? {
        return BadInvocation;
      }
      ghost var base := nodes;
      ghost var log0 := log;
      var runs := RunsAbove(id);
      RunsUpAre(nodes, children, above, id);
      NotAboveItself(nodes, children, above, id);
      var step := nodes[id].(invoked := true);
      CountedNone(base, runs, kind);
      nodes := nodes[id := step];
      for i := 0 to |runs|
        invariant nodes == CountedAll(base, Items(runs[..i]), kind)[id := step]
        invariant log == log0
      {
        assert runs[i] in runs;
        CountedStep(base, runs, i, kind, id, step);
        nodes := nodes[runs[i] := Counted(nodes[runs[i]], kind)];
      }
      assert runs[..|runs|] == runs;
      ghost var e := Invoked(Items(runs), kind);
      CountedLedger(base, since, log, e);
      CountedAlike(base, Items(runs), kind, id, step);
      StepLedger(CountedAll(base, Items(runs), kind), since, log + [e], id, step);
      AlikeShaped(base, nodes, children, above);
      AlikeLively(base, nodes, children, root);
      log := log + [e];
      outcome := Done;
    }

    /** The position of the first Run that the cost would push past the maximum. */
    static ghost function Limit(nodes: map<Id, Node>, runs: seq<Id>, cost: Option<Usd>): (n: nat)
      ensures n <= |runs|
    {
      if runs == [] || !CanAfford(nodes, runs[0], cost) then 0
      else 1 + Limit(nodes, runs[1..], cost)
    }

    /** Charges the Runs in order and stops at the first one the cost would overflow. */
    method ChargeUp(
      ghost base: map<Id, Node>, id: Id, step: Node, runs: seq<Id>,
      usage: Usage, cost: Option<Usd>, approximate: bool)
      returns (i: nat)
      requires nodes == base[id := step] && Distinct(runs)
      requires forall r :: r in runs ==> r in base && base[r].RunNode? && r != id
      modifies this`nodes
      ensures i == Limit(base, runs, cost) && CanCharge(base, Items(runs[..i]), cost)
      ensures nodes == ChargedAll(base, Items(runs[..i]), usage, cost, approximate)[id := step]
    {
      hide Charged, ChargedAll, CanCharge, Overflows, Items, Distinct, Limit;
      ChargedNone(base, runs, usage, cost, approximate);
      assert runs[0..] == runs;
      i := 0;
      while i < |runs| && CanAfford(nodes, runs[i], cost)
        invariant i <= |runs| && i + Limit(base, runs[i..], cost) == Limit(base, runs, cost)
        invariant CanCharge(base, Items(runs[..i]), cost)
        invariant nodes == ChargedAll(base, Items(runs[..i]), usage, cost, approximate)[id := step]
      {
        assert runs[i] in runs;
        ChargedStep(base, runs, i, usage, cost, approximate, id, step);
        LimitStep(base, runs, i, cost);
        nodes := nodes[runs[i] := Charged(nodes[runs[i]], usage, cost, approximate)];
        i := i + 1;
      }
      LimitStep(base, runs, i, cost);
      if i < |runs| {
        assert runs[i] in runs;
        ChargedStep(base, runs, i, usage, cost, approximate, id, step);
      }
    }

    /**
     Charges one model report to every live Run above the Step. A cost that
     would overflow some Run stops there: the Runs below it are charged, that
     Run and those above it are not.
     */
    method NoteModel(id: Id, usage: Option<Usage>, cost: Option<Usd>, priced: bool, approximate: bool)
      returns (outcome: Outcome)
      requires Valid()
      requires cost.Some? ==> priced
      modifies this`nodes, this`log
      ensures Valid()
      ensures id !in old(nodes) ==> outcome.Missing?
      ensures id in old(nodes) && old(nodes)[id].RunNode? ==> outcome.WrongType?
      ensures outcome.Missing? || outcome.WrongType? ==> nodes == old(nodes) && log == old(log)
      ensures id in old(nodes) && old(nodes)[id].StepNode? ==>
                var step := Reported(old(nodes)[id], usage, cost, approximate);
                if usage.None? then
                  && outcome == (if priced then CostWithoutUsage else Done)
                  && nodes == old(nodes)[id := step] && log == old(log)
                else
                  var runs := RunsUp(old(nodes), children, above, id);
                  var n := Limit(old(nodes), runs, cost);
                  var paid := Items(runs[..n]);
                  && outcome == (if n == |runs| then Done else CostOverflow)
                  && log == old(log) + [Noted(Items(runs), paid, usage.value, cost, approximate)]
                  && CanCharge(old(nodes), paid, cost)
                  && nodes == ChargedAll(old(nodes), paid, usage.value, cost, approximate)[id := step]
    {
      hide Shaped, Ledger, Lively, Owes, Charged, ChargedAll, CanCharge, Overflows, RunsUp, Items, Distinct, Limit,
        Charges, Reported;
      if id !in nodes {
        return Missing;
      }
      if nodes[id].RunNode? {
        return WrongType;
      }
      ghost var base := nodes;
      var step := Reported(nodes[id], usage, cost, approximate);
      nodes := nodes[id := step];
      ReportedKind(base[id], usage, cost, approximate);
      ShapedKeys(base, children, above);
      StepKept(base, children, above, since, log, root, id, step);
      if usage.None? {
        return if priced then CostWithoutUsage else Done;
      }
      StepRunsUp(base, children, above, id, step);
      var runs := RunsAbove(id);
      RunsUpAre(base, children, above, id);
      var i := ChargeUp(base, id, step, runs, usage.value, cost, approximate);
      ghost var e := Noted(Items(runs), Items(runs[..i]), usage.value, cost, approximate);
      LimitCharges(base, runs, e);
      ChargedKept(base, children, above, since, log, root, id, step, e);
      log := log + [e];
      outcome := if i == |runs| then Done else CostOverflow;
    }

    /** Removes everything strictly beneath `id`; its own node stays. */
    method DiscardChildren(id: Id)
      requires Sound() && id in nodes
      modifies this`nodes, this`children, this`above, this`since
      ensures Sound()
      ensures var gone := Beneath(old(nodes), old(above), id);
              && nodes == old(nodes) - gone && above == old(above) - gone && since == old(since) - gone
              && children == (old(children) - gone)[id := []]
      decreases nodes.Keys - above[id], 0
    {
      hide Shaped, Ledger, Beneath, Swept, Unlisted;
      ShapedKeys(nodes, children, above);
      NotAboveItself(nodes, children, above, id);
      SinceKeys(nodes, since, log);
      ghost var nodes0, children0, above0, since0 := nodes, children, above, since;
      var kids := children[id];
      SweepNone(nodes, children, above, id);
      for i := 0 to |kids|
        invariant Sound()
        invariant nodes == nodes0 - Swept(nodes0, above0, kids[..i])
        invariant above == above0 - Swept(nodes0, above0, kids[..i])
        invariant since == since0 - Swept(nodes0, above0, kids[..i])
        invariant children == (children0 - Swept(nodes0, above0, kids[..i]))[id := kids[i..]]
      {
        SweepKid(nodes0, children0, above0, id, i);
        Discard(kids[i]);
      }
      SweepAll(nodes0, children0, above0, id);
    }

    /** Removes `id` with everything beneath it, and no other node. */
    method Discard(id: Id)
      requires Sound() && id in nodes
      modifies this`nodes, this`children, this`above, this`since
      ensures Sound()
      ensures var gone := Beneath(old(nodes), old(above), id) + {id};
              && nodes == old(nodes) - gone && above == old(above) - gone && since == old(since) - gone
              && children == Unlisted(old(children) - gone, id, old(nodes)[id].parent)
      decreases nodes.Keys - above[id], 1
    {
      hide Shaped, Ledger, Beneath;
      ghost var nodes0, children0, above0 := nodes, children, above;
      RemovedSelf(nodes0, children0, above0, id);
      DiscardChildren(id);
      var parent := nodes[id].parent;
      RemoveLeaf(nodes, children, above, id);
      CutLedger(nodes, since, log, {id});
      nodes := nodes - {id};
      children := children - {id};
      above := above - {id};
      since := since - {id};
      if parent.Some? {
        children := children[parent.value := Minus(children[parent.value], id)];
      }
    }

    /** Discarding a childless node takes nothing else with it. */
    method DropLeaf(id: Id)
      requires Sound() && id in nodes && id in children && children[id] == []
      requires nodes.Keys == children.Keys && Lively(nodes, children, root, {id})
      modifies this`nodes, this`children, this`above, this`since
      ensures Sound() && nodes.Keys == children.Keys == above.Keys
      ensures nodes == old(nodes) - {id} && above == old(above) - {id} && since == old(since) - {id}
      ensures children == Unlisted(old(children) - {id}, id, old(nodes)[id].parent)
      ensures Lively(nodes, children, root,
                     if old(nodes)[id].parent.Some? then {old(nodes)[id].parent.value} else {})
    {
      hide Shaped, Ledger, Lively, Unlisted;
      LeafAbove(nodes, children, above, id);
      LeafLively(nodes, children, above, root, id);
      assert Beneath(nodes, above, id) + {id} == {id};
      SinceKeys(nodes, since, log);
      Discard(id);
      ShapedKeys(nodes, children, above);
    }

    /** Climbs from `id`, removing terminal nodes that no longer have children. */
    method Prune(id: Id) returns (ghost gone: set<Id>)
      requires Sound() && id in nodes && Lively(nodes, children, root, {id})
      modifies this`nodes, this`children, this`above, this`since
      ensures Valid()
      ensures nodes == old(nodes) - gone && since == old(since) - gone
      ensures ClosedBranch(old(nodes), old(children), old(above), root, id, gone)
    {
      hide Shaped, Ledger, Lively, Climbed, ClosedBranch, Unlisted;
      gone := {};
      var at := id;
      ghost var nodes0, children0, above0 := nodes, children, above;
      ShapedKeys(nodes, children, above);
      NotClimbed(nodes, children, above, root, id);
      while at != root
        invariant Sound() && nodes.Keys == children.Keys == above.Keys && at in nodes
        invariant Lively(nodes, children, root, {at})
        invariant at == id || at in above0[id]
        invariant since == old(since) - gone
        invariant Climbed(nodes0, children0, above0, root, id, gone, nodes, children, above)
        decreases above[at]
      {
        if !Terminal(nodes[at].status) || children[at] != [] {
          LivelyAt(nodes, children, root, at);
          break;
        }
        var parent := nodes[at].parent;
        Up(nodes, children, above, at);
        ClimbStep(nodes0, children0, above0, root, id, gone, nodes, children, above, at);
        DropLeaf(at);
        gone := gone + {at};
        if parent.None? {
          break;
        }
        at := parent.value;
      }
      if at == root {
        LivelyRoot(nodes, children, root);
      }
      ClimbedIs(nodes0, children0, above0, root, id, gone, nodes, children, above);
    }

    /** Ends a Step; a Step no longer resident is left alone. */
    method EndStep(id: Id, status: Status) returns (ghost gone: set<Id>)
      requires Valid()
      modifies this`nodes, this`children, this`above, this`since
      ensures Valid()
      ensures id !in old(nodes) ==> nodes == old(nodes) && children == old(children)
      ensures id in old(nodes) ==>
                var marked := old(nodes)[id := WithStatus(old(nodes)[id], status)];
                && nodes == marked - gone && since == old(since) - gone
                && ClosedBranch(marked, old(children), old(above), root, id, gone)
    {
      hide Shaped, Ledger, Lively, ClosedBranch;
      gone := {};
      if id !in nodes {
        return;
      }
      SetStatus(id, status);
      ShapedKeys(nodes, children, above);
      LivelyWeaken(nodes, children, root, id, status);
      gone := Prune(id);
    }

    /** Ends a Run: nothing beneath it stays, then closed ancestors go. */
    method EndRun(id: Id, status: Status) returns (outcome: Outcome, ghost gone: set<Id>)
      requires Valid()
      modifies this`nodes, this`children, this`above, this`since
      ensures Valid()
      ensures outcome == if id !in old(nodes) then Missing else if old(nodes)[id].StepNode? then WrongType else Done
      ensures !outcome.Done? ==> nodes == old(nodes) && children == old(children)
      ensures outcome.Done? ==>
                var branch := Beneath(old(nodes), old(above), id);
                var marked := old(nodes)[id := WithStatus(old(nodes)[id], status)] - branch;
                && nodes == marked - gone && since == old(since) - branch - gone
                && ClosedBranch(marked, (old(children) - branch)[id := []], old(above) - branch, root, id, gone)
    {
      hide Shaped, Ledger, Lively, ClosedBranch, Beneath;
      ShapedKeys(nodes, children, above);
      gone := {};
      if id !in nodes {
        return Missing, gone;
      }
      if nodes[id].StepNode? {
        return WrongType, gone;
      }
      ghost var nodes0 := nodes;
      SetStatus(id, status);
      BeneathSame(nodes0, nodes, above, id);
      RemovedSelf(nodes, children, above, id);
      LivelyWeaken(nodes, children, root, id, status);
      LivelyCut(nodes, children, root, id, Beneath(nodes, above, id));
      DiscardChildren(id);
      gone := Prune(id);
      outcome := Done;
    }

    /** The node and everything beneath it, each once, parents first. */
    method Visit(id: Id) returns (ids: seq<Id>)
      requires Shaped(nodes, children, above) && id in nodes
      ensures Distinct(ids) && ids != [] && ids[0] == id
      ensures nodes.Keys == above.Keys && forall x :: x in ids <==> x == id || x in Beneath(nodes, above, id)
      ensures ParentsFirst(nodes, ids)
      decreases nodes.Keys - above[id]
    {
      hide Shaped, Swept, Distinct, ParentsFirst;
      ShapedKeys(nodes, children, above);
      ids := [id];
      var kids := children[id];
      SweepNone(nodes, children, above, id);
      VisitStart(nodes, above, kids, id);
      for i := 0 to |kids|
        invariant Distinct(ids) && ids != [] && ids[0] == id && ParentsFirst(nodes, ids)
        invariant forall x :: x in ids <==> x == id || x in Swept(nodes, above, kids[..i])
      {
        KidsApart(nodes, children, above, id, i, i);
        ShapedAt(nodes, children, above, id);
        assert id !in nodes.Keys - above[kids[i]] && id in nodes.Keys - above[id];
        var part := Visit(kids[i]);
        SweptSnoc(nodes, above, kids, i);
        NotSwept(nodes, children, above, id, i + 1);
        forall x | x in part ensures x !in ids {
          NotShared(nodes, children, above, id, i, x);
        }
        VisitJoin(nodes, ids, part, id);
        ids := ids + part;
      }
      SweepAll(nodes, children, above, id);
    }

    /** The resident tree under the root. */
    method Snapshot() returns (ids: seq<Id>)
      requires Valid() && root in nodes
      ensures Distinct(ids) && ids != [] && ids[0] == root && ParentsFirst(nodes, ids)
      ensures nodes.Keys == above.Keys && forall x :: x in ids <==> x == root || x in Beneath(nodes, above, root)
    {
      ids := Visit(root);
    }

    /**
     What a live Run has consumed. It accounts for everything invoked or reported
     beneath the Run since it was accepted, in branches that are gone too, if and
     only if no report stopped short of it.
     */
    method RunReport(id: Id) returns (r: Result<Node, Outcome>)
      requires Valid()
      ensures r.Ok? <==> id in nodes && nodes[id].RunNode?
      ensures r.Ok? ==> r.value == nodes[id] && Owes(r.value, Paid(log, since[id], id))
      ensures r.Ok? && !Missed(log, since[id], id) ==> Owes(r.value, Heard(log, since[id], id))
      ensures r.Ok? && (r.value.cost.Some? || Weighed(Heard(log, since[id], id))) ==>
                (Owes(r.value, Heard(log, since[id], id)) <==> !Missed(log, since[id], id))
    {
      hide Shaped, Lively, Owes, Heard, Paid, Missed, Charges;
      if id !in nodes {
        return Err(Missing);
      }
      if nodes[id].StepNode? {
        return Err(WrongType);
      }
      Complete(id);
      r := Ok(nodes[id]);
    }

    lemma Complete(id: Id)
      requires Valid() && id in nodes && nodes[id].RunNode?
      ensures Owes(nodes[id], Paid(log, since[id], id))
      ensures !Missed(log, since[id], id) ==> Owes(nodes[id], Heard(log, since[id], id))
      ensures nodes[id].cost.Some? || Weighed(Heard(log, since[id], id)) ==>
                (Owes(nodes[id], Heard(log, since[id], id)) <==> !Missed(log, since[id], id))
    {
      hide Shaped, Lively, Owes, Heard, Paid, Missed, Charges, Weighed;
      HeardWithout(log, since[id], id);
      if nodes[id].cost.Some? || Weighed(Heard(log, since[id], id)) {
        AccountComplete(nodes[id], log, since[id], id);
      }
    }

    method SetStatus(id: Id, status: Status)
      requires Sound() && id in nodes
      requires Lively(nodes, children, root, {})
      modifies this`nodes
      ensures nodes == old(nodes)[id := WithStatus(old(nodes)[id], status)]
      ensures Sound() && Lively(nodes, children, root, if Terminal(status) then {id} else {})
    {
      hide Shaped, Ledger, Owes;
      StatusLedger(nodes, since, log, id, status);
      AlikeShaped(nodes, nodes[id := WithStatus(nodes[id], status)], children, above);
      nodes := nodes[id := WithStatus(nodes[id], status)];
    }
  }

  function Reported(node: Node, usage: Option<Usage>, cost: Option<Usd>, approximate: bool): Node
    requires node.StepNode?
  {
    StepNode(node.parent, node.status, node.kind, node.invoked, usage, cost, approximate)
  }

  lemma ReportedKind(node: Node, usage: Option<Usage>, cost: Option<Usd>, approximate: bool)
    requires node.StepNode?
    ensures var step := Reported(node, usage, cost, approximate);
            step.StepNode? && step.parent == node.parent && step.status == node.status
  {
  }

  /** A Step's own record may change, its place and status apart, without touching the rest. */
  lemma StepKept(
    base: map<Id, Node>, children: map<Id, seq<Id>>, above: map<Id, set<Id>>, since: map<Id, nat>, log: seq<Entry>,
    root: Id, id: Id, step: Node)
    requires Shaped(base, children, above) && Ledger(base, since, log) && id in base && base[id].StepNode?
    requires base.Keys == children.Keys && Lively(base, children, root, {})
    requires step.StepNode? && step.parent == base[id].parent && step.status == base[id].status
    ensures var next := base[id := step];
            && Shaped(next, children, above) && Ledger(next, since, log)
            && next.Keys == children.Keys && Lively(next, children, root, {})
    ensures above.Keys == base.Keys && id !in above[id]
  {
    hide Shaped, Ledger, Lively;
    var next := base[id := step];
    NotAboveItself(base, children, above, id);
    AlikeShaped(base, next, children, above);
    StepLedger(base, since, log, id, step);
    AlikeLively(base, next, children, root);
  }

  /** Charging a report keeps shape, liveliness and every account. */
  lemma ChargedKept(
    base: map<Id, Node>, children: map<Id, seq<Id>>, above: map<Id, set<Id>>, since: map<Id, nat>, log: seq<Entry>,
    root: Id, id: Id, step: Node, e: Entry)
    requires Shaped(base, children, above) && Ledger(base, since, log) && id in base && base[id].StepNode?
    requires base.Keys == children.Keys && Lively(base, children, root, {})
    requires step.StepNode? && step.parent == base[id].parent && step.status == base[id].status
    requires e.Noted? && Charges(e) && CanCharge(base, e.paid, e.cost)
    ensures var next := ChargedAll(base, e.paid, e.usage, e.cost, e.approximate)[id := step];
            && Shaped(next, children, above) && Ledger(next, since, log + [e])
            && next.Keys == children.Keys && Lively(next, children, root, {})
  {
    hide Shaped, Ledger, Lively, Charged, ChargedAll, CanCharge, Charges;
    var charged := ChargedAll(base, e.paid, e.usage, e.cost, e.approximate);
    ChargedLedger(base, since, log, e);
    ChargedAlike(base, e.paid, e.usage, e.cost, e.approximate, id, step);
    StepLedger(charged, since, log + [e], id, step);
    AlikeShaped(base, charged[id := step], children, above);
    AlikeLively(base, charged[id := step], children, root);
  }

  function WithStatus(node: Node, status: Status): (r: Node)
    ensures r.RunNode? == node.RunNode? && r.parent == node.parent && r.status == status
  {
    match node
    case RunNode(parent, _, modelCalls, toolCalls, usage, cost, approximate) =>
      RunNode(parent, status, modelCalls, toolCalls, usage, cost, approximate)
    case StepNode(parent, _, kind, invoked, usage, cost, approximate) =>
      StepNode(parent, status, kind, invoked, usage, cost, approximate)
  }

  lemma StatusLedger(nodes: map<Id, Node>, since: map<Id, nat>, log: seq<Entry>, id: Id, status: Status)
    requires Ledger(nodes, since, log) && id in nodes
    ensures Ledger(nodes[id := WithStatus(nodes[id], status)], since, log)
  {
    hide Paid, Calls, Notes, UsageTotal, CostTotal, Charges;
    var next := nodes[id := WithStatus(nodes[id], status)];
    forall r | r in next && next[r].RunNode? ensures Owes(next[r], Paid(log, since[r], r)) {
      assert Owes(nodes[r], Paid(log, since[r], r));
    }
  }

  lemma StepLedger(nodes: map<Id, Node>, since: map<Id, nat>, log: seq<Entry>, id: Id, step: Node)
    requires Ledger(nodes, since, log) && id in nodes && step.StepNode?
    ensures Ledger(nodes[id := step], since, log)
  {
    hide Owes, Paid, Charges;
  }

  lemma AlikeLively(a: map<Id, Node>, b: map<Id, Node>, children: map<Id, seq<Id>>, root: Id)
    requires a.Keys == b.Keys == children.Keys && Lively(a, children, root, {})
    requires forall x :: x in a ==> b[x].status == a[x].status
    ensures Lively(b, children, root, {})
  {
  }

  lemma NotAboveItself(nodes: map<Id, Node>, children: map<Id, seq<Id>>, above: map<Id, set<Id>>, id: Id)
    requires Shaped(nodes, children, above) && id in nodes
    ensures nodes.Keys == children.Keys == above.Keys && id !in above[id]
  {
    assert Placed(nodes, children, above, id);
  }

  lemma ItemsSnoc(ids: seq<Id>, i: nat)
    requires i < |ids| && Distinct(ids)
    ensures Items(ids[..i + 1]) == Items(ids[..i]) + {ids[i]} && ids[i] !in Items(ids[..i])
    ensures ids[i] in ids
  {
    forall x ensures x in Items(ids[..i + 1]) <==> x in Items(ids[..i]) + {ids[i]} {
      if x in Items(ids[..i]) {
        var k :| 0 <= k < i && ids[..i][k] == x;
        assert ids[..i + 1][k] == x;
      }
      assert ids[..i + 1][i] == ids[i];
      if x in Items(ids[..i + 1]) {
        var k :| 0 <= k < i + 1 && ids[..i + 1][k] == x;
        assert k < i ==> ids[..i][k] == x;
      }
    }
  }

  predicate CanAfford(nodes: map<Id, Node>, r: Id, cost: Option<Usd>) {
    r in nodes && nodes[r].RunNode? ==> !Overflows(nodes[r], cost)
  }

  /** A report that stops short of some Run has a cost to charge. */
  lemma LimitCharges(nodes: map<Id, Node>, runs: seq<Id>, e: Entry)
    requires e.Noted? && e.runs == Items(runs) && e.paid == Items(runs[..LiveTree.Limit(nodes, runs, e.cost)])
    ensures Charges(e)
  {
    var n := LiveTree.Limit(nodes, runs, e.cost);
    assert runs[0..] == runs;
    forall r | r in Items(runs[..n]) ensures r in Items(runs) {
      var i :| 0 <= i < n && runs[..n][i] == r;
      assert runs[i] == r;
    }
    if n < |runs| {
      LimitStops(nodes, runs, e.cost);
    } else {
      assert runs[..n] == runs;
    }
  }

  lemma {:induction false} LimitStops(nodes: map<Id, Node>, runs: seq<Id>, cost: Option<Usd>)
    requires LiveTree.Limit(nodes, runs, cost) < |runs|
    ensures cost.Some? && CostUnits(cost.value) > 0
  {
    if CanAfford(nodes, runs[0], cost) {
      LimitStops(nodes, runs[1..], cost);
    }
  }

  lemma LimitStep(nodes: map<Id, Node>, runs: seq<Id>, i: nat, cost: Option<Usd>)
    requires i <= |runs|
    ensures LiveTree.Limit(nodes, runs[i..], cost) ==
            if i == |runs| || !CanAfford(nodes, runs[i], cost) then 0
            else 1 + LiveTree.Limit(nodes, runs[i + 1..], cost)
  {
    hide Overflows;
    if i < |runs| {
      assert runs[i..][1..] == runs[i + 1..] && runs[i..][0] == runs[i];
    }
  }

  lemma {:induction false} StepRunsUp(
    nodes: map<Id, Node>, children: map<Id, seq<Id>>, above: map<Id, set<Id>>, id: Id, step: Node)
    requires Shaped(nodes, children, above) && id in nodes && nodes[id].StepNode?
    requires step.StepNode? && step.parent == nodes[id].parent
    requires Shaped(nodes[id := step], children, above)
    ensures RunsUp(nodes[id := step], children, above, id) == RunsUp(nodes, children, above, id)
  {
    StepRunsUpFrom(nodes, children, above, id, step, id);
  }

  lemma {:induction false} StepRunsUpFrom(
    nodes: map<Id, Node>, children: map<Id, seq<Id>>, above: map<Id, set<Id>>, id: Id, step: Node, at: Id)
    requires Shaped(nodes, children, above) && id in nodes && nodes[id].StepNode? && at in nodes
    requires step.StepNode? && step.parent == nodes[id].parent
    requires Shaped(nodes[id := step], children, above)
    ensures RunsUp(nodes[id := step], children, above, at) == RunsUp(nodes, children, above, at)
    decreases above[at]
  {
    hide Shaped;
    Up(nodes, children, above, at);
    Up(nodes[id := step], children, above, at);
    if nodes[at].parent.Some? {
      StepRunsUpFrom(nodes, children, above, id, step, nodes[at].parent.value);
    }
  }

  function Attached(children: map<Id, seq<Id>>, id: Id, parent: Option<Id>): map<Id, seq<Id>>
    requires parent.Some? ==> parent.value in children
  {
    match parent
    case None => children[id := []]
    case Some(p) => children[p := children[p] + [id]][id := []]
  }

  ghost function Line(above: map<Id, set<Id>>, parent: Option<Id>): set<Id>
    requires parent.Some? ==> parent.value in above
  {
    match parent case None => {} case Some(p) => above[p] + {p}
  }

  lemma AddHung(nodes: map<Id, Node>, above: map<Id, set<Id>>, id: Id, node: Node, x: Id)
    requires nodes.Keys == above.Keys && id !in nodes && (x == id || x in nodes)
    requires forall y :: y in nodes ==> Hung(nodes, above, y)
    requires node.parent.Some? ==> node.parent.value in nodes
    ensures Hung(nodes[id := node], above[id := Line(above, node.parent)], x)
  {
    hide Hung, Line;
    if x == id {
      if node.parent.Some? {
        assert Hung(nodes, above, node.parent.value);
      }
      HungHere(nodes, above, id, node);
    } else {
      assert Hung(nodes, above, x);
      HungStill(nodes, above, id, node, Line(above, node.parent), x);
    }
  }

  lemma HungHere(nodes: map<Id, Node>, above: map<Id, set<Id>>, id: Id, node: Node)
    requires nodes.Keys == above.Keys && id !in nodes
    requires node.parent.Some? ==> node.parent.value in nodes && Hung(nodes, above, node.parent.value)
    ensures Hung(nodes[id := node], above[id := Line(above, node.parent)], id)
  {
  }

  lemma HungStill(nodes: map<Id, Node>, above: map<Id, set<Id>>, id: Id, node: Node, line: set<Id>, x: Id)
    requires nodes.Keys == above.Keys && id !in nodes && x in nodes && Hung(nodes, above, x)
    ensures Hung(nodes[id := node], above[id := line], x)
  {
  }

  lemma AddListed(nodes: map<Id, Node>, children: map<Id, seq<Id>>, id: Id, node: Node, x: Id)
    requires nodes.Keys == children.Keys && id !in nodes && (x == id || x in nodes)
    requires forall y :: y in nodes ==> Listed(nodes, children, y)
    requires node.parent.Some? ==> node.parent.value in nodes
    ensures Attached(children, id, node.parent).Keys == nodes.Keys + {id}
    ensures Listed(nodes[id := node], Attached(children, id, node.parent), x)
  {
    hide Listed, Attached;
    AttachedKeys(children, id, node.parent);
    if x == id {
      ListedHere(nodes, children, id, node);
    } else {
      assert Listed(nodes, children, x);
      ListedStill(nodes, children, id, node, x);
    }
  }

  lemma ListedHere(nodes: map<Id, Node>, children: map<Id, seq<Id>>, id: Id, node: Node)
    requires nodes.Keys == children.Keys && id !in nodes
    requires node.parent.Some? ==> node.parent.value in nodes
    ensures Attached(children, id, node.parent).Keys == nodes.Keys + {id}
    ensures Listed(nodes[id := node], Attached(children, id, node.parent), id)
  {
    if node.parent.Some? {
      var p := node.parent.value;
      assert Attached(children, id, node.parent)[p][|children[p]|] == id;
    }
  }

  lemma ListedStill(nodes: map<Id, Node>, children: map<Id, seq<Id>>, id: Id, node: Node, x: Id)
    requires nodes.Keys == children.Keys && id !in nodes && x in nodes && Listed(nodes, children, x)
    requires node.parent.Some? ==> node.parent.value in nodes
    ensures Attached(children, id, node.parent).Keys == nodes.Keys + {id}
    ensures Listed(nodes[id := node], Attached(children, id, node.parent), x)
  {
    var kids := Attached(children, id, node.parent);
    assert id !in children[x];
    if nodes[x].parent.Some? {
      var p := nodes[x].parent.value;
      var k :| 0 <= k < |children[p]| && children[p][k] == x;
      assert kids[p][k] == x;
    }
  }

  lemma AddShaped(nodes: map<Id, Node>, children: map<Id, seq<Id>>, above: map<Id, set<Id>>, id: Id, node: Node)
    requires Shaped(nodes, children, above) && id !in nodes
    requires node.parent.Some? ==> node.parent.value in nodes
    ensures Shaped(nodes[id := node], Attached(children, id, node.parent), above[id := Line(above, node.parent)])
  {
    hide Hung, Listed, Attached, Line;
    AttachedKeys(children, id, node.parent);
    var next, kids, up := nodes[id := node], Attached(children, id, node.parent), above[id := Line(above, node.parent)];
    forall x | x in next ensures Placed(next, kids, up, x) {
      assert forall y :: y in nodes ==> Placed(nodes, children, above, y);
      AddHung(nodes, above, id, node, x);
      AddListed(nodes, children, id, node, x);
    }
  }

  lemma AttachedKeys(children: map<Id, seq<Id>>, id: Id, parent: Option<Id>)
    requires parent.Some? ==> parent.value in children
    ensures Attached(children, id, parent).Keys == children.Keys + {id}
  {
  }

  lemma AddLively(nodes: map<Id, Node>, children: map<Id, seq<Id>>, id: Id, node: Node, root: Id)
    requires nodes.Keys == children.Keys && Lively(nodes, children, root, {}) && id !in nodes
    requires node.parent.Some? ==> node.parent.value in nodes
    requires !Terminal(node.status)
    ensures nodes[id := node].Keys == Attached(children, id, node.parent).Keys
    ensures Lively(nodes[id := node], Attached(children, id, node.parent), root, {})
  {
  }

  lemma ShapedKeys(nodes: map<Id, Node>, children: map<Id, seq<Id>>, above: map<Id, set<Id>>)
    requires Shaped(nodes, children, above)
    ensures nodes.Keys == children.Keys == above.Keys
  {
  }

  /** A Run as accepted, with nothing consumed. */
  function Accepted(parent: Option<Id>): Node {
    RunNode(parent, Pending, 0, 0, None, None, false)
  }

  lemma NothingOwed(parent: Option<Id>)
    ensures Owes(Accepted(parent), [])
  {
  }

  lemma AddLedger(nodes: map<Id, Node>, since: map<Id, nat>, log: seq<Entry>, id: Id, node: Node)
    requires Ledger(nodes, since, log) && id !in nodes && (node.RunNode? ==> Owes(node, []))
    ensures Ledger(nodes[id := node], since[id := |log|], log)
  {
    hide Owes;
    assert Paid(log, |log|, id) == [];
  }

  // ---------------------------------------------------------------------
  // Removing branches
  // ---------------------------------------------------------------------

  /** The child lists after `id` has left its parent's. */
  function Unlisted(children: map<Id, seq<Id>>, id: Id, parent: Option<Id>): map<Id, seq<Id>> {
    if parent.Some? && parent.value in children
    then children[parent.value := Minus(children[parent.value], id)]
    else children
  }

  ghost predicate Covers(above: map<Id, set<Id>>, kid: Id, x: Id)
    requires x in above
  {
    kid == x || kid in above[x]
  }

  /** The given children with everything beneath them. */
  ghost function Swept(nodes: map<Id, Node>, above: map<Id, set<Id>>, kids: seq<Id>): set<Id>
    requires nodes.Keys == above.Keys
  {
    set x | x in nodes && exists k :: 0 <= k < |kids| && Covers(above, kids[k], x)
  }

  lemma CutLedger(nodes: map<Id, Node>, since: map<Id, nat>, log: seq<Entry>, gone: set<Id>)
    requires Ledger(nodes, since, log)
    ensures Ledger(nodes - gone, since - gone, log)
  {
    hide Owes, Paid, Charges;
  }

  lemma ShapedAt(nodes: map<Id, Node>, children: map<Id, seq<Id>>, above: map<Id, set<Id>>, x: Id)
    requires Shaped(nodes, children, above) && x in nodes
    ensures nodes.Keys == children.Keys == above.Keys && Hung(nodes, above, x) && Listed(nodes, children, x)
  {
    assert Placed(nodes, children, above, x);
  }

  /** A child is not beneath its sibling, and its parent is beneath neither. */
  lemma KidsApart(nodes: map<Id, Node>, children: map<Id, seq<Id>>, above: map<Id, set<Id>>, id: Id, k: nat, j: nat)
    requires Shaped(nodes, children, above) && id in nodes && k < |children[id]| && j < |children[id]|
    ensures var kid, other := children[id][k], children[id][j];
            && kid in nodes && other in nodes && nodes[kid].parent == Some(id)
            && above[kid] == above[id] + {id}
            && kid != id && kid !in above[id] && kid !in above[other]
  {
    var kid, other := children[id][k], children[id][j];
    ShapedAt(nodes, children, above, id);
    ShapedAt(nodes, children, above, kid);
    ShapedAt(nodes, children, above, other);
  }

  lemma SweptSnoc(nodes: map<Id, Node>, above: map<Id, set<Id>>, kids: seq<Id>, i: nat)
    requires nodes.Keys == above.Keys && i < |kids| && kids[i] in nodes
    ensures Swept(nodes, above, kids[..i + 1]) ==
            Swept(nodes, above, kids[..i]) + {kids[i]} + Beneath(nodes, above, kids[i])
  {
    var less, more := kids[..i], kids[..i + 1];
    forall x | x in nodes
      ensures x in Swept(nodes, above, more) <==> x in Swept(nodes, above, less) || Covers(above, kids[i], x)
    {
      if k :| 0 <= k < |more| && Covers(above, more[k], x) {
        assert k < i ==> Covers(above, less[k], x);
      }
      if k :| 0 <= k < |less| && Covers(above, less[k], x) {
        assert Covers(above, more[k], x);
      }
      assert more[i] == kids[i];
    }
  }

  lemma NotSwept(nodes: map<Id, Node>, children: map<Id, seq<Id>>, above: map<Id, set<Id>>, id: Id, i: nat)
    requires Shaped(nodes, children, above) && id in nodes && i <= |children[id]|
    ensures id !in Swept(nodes, above, children[id][..i])
    ensures i < |children[id]| ==> children[id][i] !in Swept(nodes, above, children[id][..i])
  {
    var kids := children[id];
    ShapedAt(nodes, children, above, id);
    forall k | 0 <= k < i
      ensures kids[..i][k] != id && kids[..i][k] !in above[id]
      ensures i < |kids| ==> kids[..i][k] != kids[i] && kids[..i][k] !in above[kids[i]]
    {
      KidsApart(nodes, children, above, id, k, if i < |kids| then i else k);
    }
  }

  lemma SweepNone(nodes: map<Id, Node>, children: map<Id, seq<Id>>, above: map<Id, set<Id>>, id: Id)
    requires nodes.Keys == children.Keys == above.Keys && id in nodes
    ensures var none := Swept(nodes, above, children[id][..0]);
            nodes - none == nodes && above - none == above
            && (children - none)[id := children[id][0..]] == children
  {
    assert children[id][0..] == children[id];
  }

  lemma SweepKid(nodes: map<Id, Node>, children: map<Id, seq<Id>>, above: map<Id, set<Id>>, id: Id, i: nat)
    requires Shaped(nodes, children, above) && id in nodes && i < |children[id]|
    ensures var kids := children[id];
            var swept, after := Swept(nodes, above, kids[..i]), Swept(nodes, above, kids[..i + 1]);
            var n, c, a := nodes - swept, (children - swept)[id := kids[i..]], above - swept;
            && n.Keys == a.Keys && kids[i] in n && n[kids[i]].parent == Some(id)
            && n.Keys - a[kids[i]] < nodes.Keys - above[id]
            && var gone := Beneath(n, a, kids[i]) + {kids[i]};
               && n - gone == nodes - after && a - gone == above - after
               && Unlisted(c - gone, kids[i], Some(id)) == (children - after)[id := kids[i + 1..]]
  {
    hide Shaped, Swept;
    ShapedKeys(nodes, children, above);
    var kids := children[id];
    KidsApart(nodes, children, above, id, i, i);
    NotSwept(nodes, children, above, id, i);
    NotSwept(nodes, children, above, id, i + 1);
    SweptSnoc(nodes, above, kids, i);
    ShapedAt(nodes, children, above, id);
    assert kids[i..][0] == kids[i] && kids[i..][1..] == kids[i + 1..];
    var swept, after := Swept(nodes, above, kids[..i]), Swept(nodes, above, kids[..i + 1]);
    var n, a := nodes - swept, above - swept;
    var gone := Beneath(n, a, kids[i]) + {kids[i]};
    assert after == swept + gone;
    assert id !in n.Keys - a[kids[i]] && id in nodes.Keys - above[id];
  }

  lemma SweepAll(nodes: map<Id, Node>, children: map<Id, seq<Id>>, above: map<Id, set<Id>>, id: Id)
    requires Shaped(nodes, children, above) && id in nodes
    ensures nodes.Keys == above.Keys == children.Keys
    ensures Swept(nodes, above, children[id][..|children[id]|]) == Beneath(nodes, above, id)
    ensures children[id][|children[id]|..] == []
  {
    hide Shaped;
    ShapedKeys(nodes, children, above);
    var kids := children[id];
    assert kids[..|kids|] == kids;
    forall x | x in nodes ensures x in Swept(nodes, above, kids) <==> id in above[x] {
      if id in above[x] {
        var kid := BeneathChild(nodes, children, above, id, x);
        var k :| 0 <= k < |kids| && kids[k] == kid;
        assert Covers(above, kids[k], x);
      }
      if k :| 0 <= k < |kids| && Covers(above, kids[k], x) {
        KidsApart(nodes, children, above, id, k, k);
        ShapedAt(nodes, children, above, x);
      }
    }
  }

  lemma LeafAbove(nodes: map<Id, Node>, children: map<Id, seq<Id>>, above: map<Id, set<Id>>, id: Id)
    requires Shaped(nodes, children, above) && id in nodes && children[id] == []
    ensures nodes.Keys == above.Keys && Beneath(nodes, above, id) == {}
  {
    hide Shaped;
    ShapedKeys(nodes, children, above);
    if x :| x in nodes && id in above[x] {
      var kid := BeneathChild(nodes, children, above, id, x);
    }
  }

  lemma LeafHung(nodes: map<Id, Node>, above: map<Id, set<Id>>, id: Id, x: Id)
    requires nodes.Keys == above.Keys && id in nodes && x in nodes && x != id
    requires Hung(nodes, above, x) && Beneath(nodes, above, id) == {}
    ensures Hung(nodes - {id}, above - {id}, x)
  {
    assert id in above[x] <==> x in Beneath(nodes, above, id);
  }

  lemma LeafListed(nodes: map<Id, Node>, children: map<Id, seq<Id>>, id: Id, x: Id)
    requires nodes.Keys == children.Keys && id in nodes && x in nodes && x != id && children[id] == []
    requires Listed(nodes, children, x) && Listed(nodes, children, id)
    requires nodes[x].parent.Some? ==> Listed(nodes, children, nodes[x].parent.value)
    ensures Unlisted(children - {id}, id, nodes[id].parent).Keys == nodes.Keys - {id}
    ensures Listed(nodes - {id}, Unlisted(children - {id}, id, nodes[id].parent), x)
  {
    MinusDistinct(children[x], id);
    forall c ensures c in Minus(children[x], id) <==> c in children[x] && c != id {
      MinusHas(children[x], id, c);
    }
    if nodes[x].parent.Some? {
      MinusHas(children[nodes[x].parent.value], id, x);
    }
  }

  /** A childless node can be taken out and the rest stays well shaped. */
  lemma RemoveLeaf(nodes: map<Id, Node>, children: map<Id, seq<Id>>, above: map<Id, set<Id>>, id: Id)
    requires Shaped(nodes, children, above) && id in nodes && children[id] == []
    ensures Shaped(nodes - {id}, Unlisted(children - {id}, id, nodes[id].parent), above - {id})
    ensures nodes[id].parent.Some? ==> nodes[id].parent.value in (children - {id})
  {
    hide Hung, Listed, Unlisted, Beneath;
    ShapedAt(nodes, children, above, id);
    Up(nodes, children, above, id);
    LeafAbove(nodes, children, above, id);
    var n, c, a := nodes - {id}, Unlisted(children - {id}, id, nodes[id].parent), above - {id};
    UnlistedKeys(children - {id}, id, nodes[id].parent);
    assert n.Keys == nodes.Keys - {id} == c.Keys == a.Keys;
    forall x | x in n ensures Placed(n, c, a, x) {
      ShapedAt(nodes, children, above, x);
      Up(nodes, children, above, x);
      if nodes[x].parent.Some? {
        ShapedAt(nodes, children, above, nodes[x].parent.value);
      }
      LeafHung(nodes, above, id, x);
      LeafListed(nodes, children, id, x);
    }
  }

  lemma UnlistedKeys(children: map<Id, seq<Id>>, id: Id, parent: Option<Id>)
    ensures Unlisted(children, id, parent).Keys == children.Keys
  {
  }

  /** Taking out the bare node after its branch equals taking out both at once. */
  lemma RemovedSelf(nodes: map<Id, Node>, children: map<Id, seq<Id>>, above: map<Id, set<Id>>, id: Id)
    requires Shaped(nodes, children, above) && id in nodes
    ensures nodes.Keys == above.Keys && id !in Beneath(nodes, above, id)
    ensures var branch := Beneath(nodes, above, id);
            && nodes - branch - {id} == nodes - (branch + {id})
            && above - branch - {id} == above - (branch + {id})
            && (children - branch)[id := []] - {id} == children - (branch + {id})
  {
    hide Shaped;
    NotAboveItself(nodes, children, above, id);
    ShapedKeys(nodes, children, above);
  }

  // ---------------------------------------------------------------------
  // Pruning
  // ---------------------------------------------------------------------

  /** `gone` lies on the line up from `id`: terminal, never the root, no child left behind. */
  ghost predicate ClosedBranch(
    nodes: map<Id, Node>, children: map<Id, seq<Id>>, above: map<Id, set<Id>>, root: Id, id: Id, gone: set<Id>)
  {
    && id in above
    && forall x :: x in gone ==>
         && x in nodes && x in children && (x == id || x in above[id])
         && x != root && Terminal(nodes[x].status) && forall c :: c in children[x] ==> c in gone
  }

  /** Child lists as before, without the removed. */
  ghost predicate Kept(before: map<Id, seq<Id>>, after: map<Id, seq<Id>>, gone: set<Id>) {
    && after.Keys == before.Keys - gone
    && forall x :: x in after ==> forall c :: c in after[x] <==> c in before[x] && c !in gone
  }

  lemma SinceKeys(nodes: map<Id, Node>, since: map<Id, nat>, log: seq<Entry>)
    requires Ledger(nodes, since, log)
    ensures since.Keys == nodes.Keys
  {
  }

  lemma KeptNone(children: map<Id, seq<Id>>)
    ensures Kept(children, children, {})
  {
  }

  lemma NoBranch(
    nodes: map<Id, Node>, children: map<Id, seq<Id>>, above: map<Id, set<Id>>, root: Id, id: Id)
    requires id in above
    ensures ClosedBranch(nodes, children, above, root, id, {})
  {
  }

  lemma LivelyAt(nodes: map<Id, Node>, children: map<Id, seq<Id>>, root: Id, at: Id)
    requires nodes.Keys == children.Keys && Lively(nodes, children, root, {at}) && at in nodes
    requires !Terminal(nodes[at].status) || children[at] != []
    ensures Lively(nodes, children, root, {})
  {
  }

  lemma LivelyRoot(nodes: map<Id, Node>, children: map<Id, seq<Id>>, root: Id)
    requires nodes.Keys == children.Keys && Lively(nodes, children, root, {root})
    ensures Lively(nodes, children, root, {})
  {
  }

  lemma LivelyWeaken(nodes: map<Id, Node>, children: map<Id, seq<Id>>, root: Id, id: Id, status: Status)
    requires nodes.Keys == children.Keys
    requires Lively(nodes, children, root, if Terminal(status) then {id} else {})
    ensures Lively(nodes, children, root, {id})
  {
  }

  lemma LivelyCut(nodes: map<Id, Node>, children: map<Id, seq<Id>>, root: Id, id: Id, gone: set<Id>)
    requires nodes.Keys == children.Keys && Lively(nodes, children, root, {id}) && id in nodes && id !in gone
    ensures (nodes - gone).Keys == (children - gone)[id := []].Keys
    ensures Lively(nodes - gone, (children - gone)[id := []], root, {id})
  {
  }

  lemma BeneathSame(a: map<Id, Node>, b: map<Id, Node>, above: map<Id, set<Id>>, id: Id)
    requires a.Keys == b.Keys == above.Keys
    ensures Beneath(a, above, id) == Beneath(b, above, id)
  {
  }

  /** Taking a leaf out can only leave its parent newly childless. */
  lemma LeafLively(nodes: map<Id, Node>, children: map<Id, seq<Id>>, above: map<Id, set<Id>>, root: Id, at: Id)
    requires Shaped(nodes, children, above) && at in nodes && nodes.Keys == children.Keys
    requires Lively(nodes, children, root, {at})
    ensures var next := Unlisted(children - {at}, at, nodes[at].parent);
            && (nodes - {at}).Keys == next.Keys
            && Lively(nodes - {at}, next, root,
                      if nodes[at].parent.Some? then {nodes[at].parent.value} else {})
  {
    hide Shaped;
  }

  lemma GrowBranch(
    nodes: map<Id, Node>, children: map<Id, seq<Id>>, above: map<Id, set<Id>>, root: Id, id: Id, gone: set<Id>,
    now: map<Id, seq<Id>>, at: Id)
    requires ClosedBranch(nodes, children, above, root, id, gone) && Kept(children, now, gone)
    requires at in nodes && at in now && now[at] == [] && (at == id || at in above[id])
    requires at != root && Terminal(nodes[at].status)
    ensures ClosedBranch(nodes, children, above, root, id, gone + {at})
  {
    forall c | c in children[at] ensures c in gone {
      assert c in now[at] <==> c in children[at] && c !in gone;
    }
  }

  lemma KeptLeaf(
    nodes: map<Id, Node>, children: map<Id, seq<Id>>, above: map<Id, set<Id>>,
    now: map<Id, seq<Id>>, gone: set<Id>, at: Id)
    requires Shaped(nodes, children, above) && Kept(children, now, gone) && at in nodes && at in now
    requires forall x :: x in now ==> Distinct(now[x])
    ensures Kept(children, Unlisted(now - {at}, at, nodes[at].parent), gone + {at})
  {
    hide Shaped;
    ShapedKeys(nodes, children, above);
    var next := Unlisted(now - {at}, at, nodes[at].parent);
    forall x | x in next ensures forall c :: c in next[x] <==> c in children[x] && c !in gone + {at} {
      ShapedAt(nodes, children, above, x);
      forall c ensures c in Minus(now[x], at) <==> c in now[x] && c != at {
        MinusHas(now[x], at, c);
      }
    }
  }

  /** Where a climb stands: `gone` removed from the first maps gives the second. */
  ghost predicate Climbed(
    nodes0: map<Id, Node>, children0: map<Id, seq<Id>>, above0: map<Id, set<Id>>, root: Id, id: Id, gone: set<Id>,
    nodes: map<Id, Node>, children: map<Id, seq<Id>>, above: map<Id, set<Id>>)
  {
    && Shaped(nodes0, children0, above0) && id in nodes0
    && nodes == nodes0 - gone && above == above0 - gone
    && Kept(children0, children, gone) && ClosedBranch(nodes0, children0, above0, root, id, gone)
  }

  lemma NotClimbed(nodes: map<Id, Node>, children: map<Id, seq<Id>>, above: map<Id, set<Id>>, root: Id, id: Id)
    requires Shaped(nodes, children, above) && id in nodes
    ensures Climbed(nodes, children, above, root, id, {}, nodes, children, above)
  {
    hide Shaped;
    ShapedKeys(nodes, children, above);
    KeptNone(children);
    NoBranch(nodes, children, above, root, id);
  }

  lemma ClimbedIs(
    nodes0: map<Id, Node>, children0: map<Id, seq<Id>>, above0: map<Id, set<Id>>, root: Id, id: Id, gone: set<Id>,
    nodes: map<Id, Node>, children: map<Id, seq<Id>>, above: map<Id, set<Id>>)
    requires Climbed(nodes0, children0, above0, root, id, gone, nodes, children, above)
    ensures nodes == nodes0 - gone && ClosedBranch(nodes0, children0, above0, root, id, gone)
  {
  }

  lemma ClimbStep(
    nodes0: map<Id, Node>, children0: map<Id, seq<Id>>, above0: map<Id, set<Id>>, root: Id, id: Id, gone: set<Id>,
    nodes: map<Id, Node>, children: map<Id, seq<Id>>, above: map<Id, set<Id>>, at: Id)
    requires Climbed(nodes0, children0, above0, root, id, gone, nodes, children, above)
    requires Shaped(nodes, children, above) && at in nodes && at in children && children[at] == []
    requires id in above0 && (at == id || at in above0[id]) && at != root && Terminal(nodes[at].status)
    ensures Climbed(nodes0, children0, above0, root, id, gone + {at},
                    nodes - {at}, Unlisted(children - {at}, at, nodes[at].parent), above - {at})
    ensures nodes[at].parent.Some? ==> nodes[at].parent.value in above0[id]
  {
    hide Shaped, Kept, ClosedBranch, Unlisted;
    GrowBranch(nodes0, children0, above0, root, id, gone, children, at);
    ListsDistinct(nodes, children, above);
    KeptLeaf(nodes0, children0, above0, children, gone, at);
    LineUp(nodes0, children0, above0, id, at);
  }

  lemma ListsDistinct(nodes: map<Id, Node>, children: map<Id, seq<Id>>, above: map<Id, set<Id>>)
    requires Shaped(nodes, children, above)
    ensures forall x :: x in children ==> Distinct(children[x])
  {
    forall x | x in children ensures Distinct(children[x]) {
      assert Placed(nodes, children, above, x);
    }
  }

  lemma LineUp(nodes: map<Id, Node>, children: map<Id, seq<Id>>, above: map<Id, set<Id>>, id: Id, at: Id)
    requires Shaped(nodes, children, above) && id in nodes && (at == id || at in above[id]) && at in nodes
    ensures nodes[at].parent.Some? ==> nodes[at].parent.value in above[id]
  {
    hide Shaped;
    ShapedAt(nodes, children, above, id);
    ShapedAt(nodes, children, above, at);
  }

  // ---------------------------------------------------------------------
  // Visiting
  // ---------------------------------------------------------------------

  /** The parent of the node at `i` comes before it. */
  predicate Led(nodes: map<Id, Node>, ids: seq<Id>, i: nat)
    requires i < |ids|
  {
    ids[i] in nodes && nodes[ids[i]].parent.Some? && nodes[ids[i]].parent.value in ids[..i]
  }

  predicate ParentsFirst(nodes: map<Id, Node>, ids: seq<Id>) {
    forall i :: 0 < i < |ids| ==> Led(nodes, ids, i)
  }

  lemma VisitStart(nodes: map<Id, Node>, above: map<Id, set<Id>>, kids: seq<Id>, id: Id)
    requires nodes.Keys == above.Keys
    ensures Distinct([id]) && ParentsFirst(nodes, [id]) && Swept(nodes, above, kids[..0]) == {}
  {
  }

  lemma JoinDistinct(a: seq<Id>, b: seq<Id>)
    requires Distinct(a) && Distinct(b) && forall x :: x in b ==> x !in a
    ensures Distinct(a + b)
  {
    forall i, j | 0 <= i < j < |a + b| ensures (a + b)[i] != (a + b)[j] {
      assert i < |a| ==> (a + b)[i] in a;
      assert j >= |a| ==> (a + b)[j] in b;
    }
  }

  lemma VisitJoin(nodes: map<Id, Node>, ids: seq<Id>, part: seq<Id>, id: Id)
    requires Distinct(ids) && Distinct(part) && forall x :: x in part ==> x !in ids
    requires ParentsFirst(nodes, ids) && ParentsFirst(nodes, part)
    requires ids != [] && ids[0] == id && part != []
    requires part[0] in nodes && nodes[part[0]].parent == Some(id)
    ensures Distinct(ids + part) && ParentsFirst(nodes, ids + part)
  {
    var all := ids + part;
    JoinDistinct(ids, part);
    hide Distinct;
    forall i | 0 < i < |all| ensures Led(nodes, all, i) {
      if i < |ids| {
        assert Led(nodes, ids, i);
        assert all[..i] == ids[..i] && all[i] == ids[i];
      } else if i == |ids| {
        assert all[..i] == ids && all[i] == part[0];
        assert ids[0] in ids;
      } else {
        var j := i - |ids|;
        assert Led(nodes, part, j);
        assert all[..i] == ids + part[..j] && all[i] == part[j];
        assert forall x :: x in part[..j] ==> x in ids + part[..j];
      }
    }
  }

  /** Two siblings share nothing. */
  lemma {:induction false} NotShared(
    nodes: map<Id, Node>, children: map<Id, seq<Id>>, above: map<Id, set<Id>>, id: Id, i: nat, x: Id)
    requires Shaped(nodes, children, above) && id in nodes && i < |children[id]| && x in nodes
    requires Covers(above, children[id][i], x)
    ensures x != id && x !in Swept(nodes, above, children[id][..i])
  {
    hide Shaped;
    ShapedKeys(nodes, children, above);
    var kids := children[id];
    KidsApart(nodes, children, above, id, i, i);
    ShapedAt(nodes, children, above, id);
    forall k | 0 <= k < i ensures !Covers(above, kids[..i][k], x) {
      KidsApart(nodes, children, above, id, k, i);
      KidsApart(nodes, children, above, id, i, k);
      ApartBelow(nodes, children, above, kids[i], kids[k], x);
    }
  }

  lemma {:induction false} ApartBelow(
    nodes: map<Id, Node>, children: map<Id, seq<Id>>, above: map<Id, set<Id>>, a: Id, b: Id, x: Id)
    requires Shaped(nodes, children, above) && a in nodes && b in nodes && x in nodes
    requires a != b && a !in above[b] && b !in above[a] && Covers(above, a, x)
    ensures !Covers(above, b, x)
    decreases above[x]
  {
    hide Shaped;
    Up(nodes, children, above, x);
    if a != x && nodes[x].parent.Some? {
      ApartBelow(nodes, children, above, a, b, nodes[x].parent.value);
    }
  }

  // ---------------------------------------------------------------------
  // When the forest is one tree, and when every Run is charged
  // ---------------------------------------------------------------------

  lemma {:induction false} TopOf(nodes: map<Id, Node>, children: map<Id, seq<Id>>, above: map<Id, set<Id>>, x: Id)
    returns (top: Id)
    requires Shaped(nodes, children, above) && x in nodes
    ensures top in nodes && nodes[top].parent.None? && (top == x || top in above[x])
    decreases above[x]
  {
    hide Shaped;
    Up(nodes, children, above, x);
    if nodes[x].parent.None? {
      top := x;
    } else {
      top := TopOf(nodes, children, above, nodes[x].parent.value);
    }
  }

  /** Everything resident hangs under the root exactly when no other Run was accepted without a parent. */
  lemma OneTree(nodes: map<Id, Node>, children: map<Id, seq<Id>>, above: map<Id, set<Id>>, root: Id)
    requires Shaped(nodes, children, above)
    ensures nodes.Keys == above.Keys
    ensures (forall x :: x in nodes ==> x == root || root in above[x]) <==>
            (forall x :: x in nodes && nodes[x].parent.None? ==> x == root)
  {
    hide Shaped;
    ShapedKeys(nodes, children, above);
    forall x | x in nodes ensures nodes[x].parent.None? ==> above[x] == {} {
      Up(nodes, children, above, x);
    }
    if forall x :: x in nodes && nodes[x].parent.None? ==> x == root {
      forall x | x in nodes ensures x == root || root in above[x] {
        var top := TopOf(nodes, children, above, x);
        assert top == root;
      }
    }
  }

  /** A report reaches every Run above exactly when it overflows none of them. */
  lemma {:induction false} LimitFull(nodes: map<Id, Node>, runs: seq<Id>, cost: Option<Usd>)
    ensures LiveTree.Limit(nodes, runs, cost) == |runs|
            <==> forall i :: 0 <= i < |runs| ==> CanAfford(nodes, runs[i], cost)
  {
    hide Overflows;
    if runs != [] {
      LimitFull(nodes, runs[1..], cost);
      forall i | 0 < i < |runs| ensures runs[i] == runs[1..][i - 1] {
      }
    }
  }

  /** A Run is charged exactly when the cost overflows neither it nor a Run beneath it on the line. */
  lemma {:induction false} ChargedUpTo(nodes: map<Id, Node>, runs: seq<Id>, cost: Option<Usd>, j: nat)
    requires j < |runs|
    ensures j < LiveTree.Limit(nodes, runs, cost) <==> forall i :: 0 <= i <= j ==> CanAfford(nodes, runs[i], cost)
  {
    hide Overflows;
    if j > 0 {
      ChargedUpTo(nodes, runs[1..], cost, j - 1);
      forall i | 0 < i <= j ensures runs[i] == runs[1..][i - 1] {
      }
    }
  }

  const MOST: Usd := MAX_MICROS as real / MICROS_PER_USD
  const CENT: Usd := 0.01
  const USED := Usage(1, 1, None, None)

  lemma Amounts()
    ensures CostUnits(MOST) == MAX_MICROS && CostUnits(CENT) == 10000 && !Addable(MOST, CENT)
  {
    SettledUnits(MAX_MICROS);
  }

  /** Runs above a Step of a root, and above a Step of a Run launched by a Step of a root. */
  lemma TwoRuns(nodes: map<Id, Node>, children: map<Id, seq<Id>>, above: map<Id, set<Id>>, step: Id, deep: bool)
    requires Shaped(nodes, children, above) && step in nodes
    requires "r" in nodes && nodes["r"].RunNode? && nodes["r"].parent.None?
    requires nodes[step].parent == Some(if deep then "c" else "r")
    requires deep ==> "c" in nodes && nodes["c"].RunNode? && nodes["c"].parent == Some("s")
    requires deep ==> "s" in nodes && nodes["s"].StepNode? && nodes["s"].parent == Some("r")
    ensures RunsUp(nodes, children, above, step) == if deep then ["c", "r"] else ["r"]
  {
    hide Shaped;
    Up(nodes, children, above, step);
    Up(nodes, children, above, "r");
    assert RunsUp(nodes, children, above, "r") == [];
    if deep {
      Up(nodes, children, above, "c");
      Up(nodes, children, above, "s");
      assert RunsUp(nodes, children, above, "s") == ["r"] + [];
      assert RunsUp(nodes, children, above, "c") == [] + ["r"];
      assert RunsUp(nodes, children, above, step) == ["c"] + ["r"];
    } else {
      assert RunsUp(nodes, children, above, step) == ["r"] + [];
    }
  }

  lemma LimitOne(nodes: map<Id, Node>, run: Id, cost: Option<Usd>)
    requires CanAfford(nodes, run, cost)
    ensures LiveTree.Limit(nodes, [run], cost) == 1 && [run][..1] == [run] && Items([run]) == {run}
  {
    hide Overflows;
    assert [run][1..] == [];
    assert LiveTree.Limit(nodes, [], cost) == 0;
    assert [run][0] == run;
  }

  lemma LimitTwo(nodes: map<Id, Node>, inner: Id, outer: Id, cost: Option<Usd>)
    requires CanAfford(nodes, inner, cost) && !CanAfford(nodes, outer, cost)
    ensures LiveTree.Limit(nodes, [inner, outer], cost) == 1 && [inner, outer][..1] == [inner]
    ensures Items([inner]) == {inner} && Items([inner, outer]) == {inner, outer}
  {
    hide Overflows;
    assert [inner, outer][1..] == [outer];
    assert LiveTree.Limit(nodes, [outer], cost) == 0;
    assert [inner][0] == inner && [inner, outer][0] == inner && [inner, outer][1] == outer;
  }

  lemma IsShaped(tree: LiveTree)
    requires tree.Valid()
    ensures Shaped(tree.nodes, tree.children, tree.above)
  {
    hide Shaped, Ledger, Lively;
  }

  const FIRST := StepNode(Some("r"), Running, Model, false, Some(USED), Some(MOST), false)
  const LAUNCH := StepNode(Some("r"), Running, Action, false, None, None, false)
  const OUTER := RunNode(None, Pending, 0, 0, Some(USED), Some(MOST), false)

  /** A root Run whose first report costs the maximum. */
  method AtMaximum() returns (tree: LiveTree)
    ensures fresh(tree) && tree.Valid() && tree.root == "r"
    ensures tree.nodes == map["r" := OUTER, "a" := FIRST] && tree.since == map["r" := 0, "a" := 0]
    ensures tree.log == [Noted({"r"}, {"r"}, USED, Some(MOST), false)]
  {
    hide LiveTree.Valid, Ledger, Shaped, Lively, RunsUp, LiveTree.Limit, Items;
    Amounts();
    tree := new LiveTree("r");
    NoSince(tree);
    var done := tree.AcceptRun("r", None);
    done := tree.BeginStep("a", "r", Model, Running);
    IsShaped(tree);
    TwoRuns(tree.nodes, tree.children, tree.above, "a", false);
    LimitOne(tree.nodes, "r", Some(MOST));
    done := tree.NoteModel("a", Some(USED), Some(MOST), true, false);
  }

  /** A second Run accepted without a parent: it is resident, and a snapshot of the tree misses it. */
  method SecondTop() returns (tree: LiveTree, ids: seq<Id>)
    ensures tree.Valid() && tree.root == "r"
    ensures tree.nodes == map["r" := Accepted(None), "x" := Accepted(None)]
    ensures tree.nodes.Keys == tree.above.Keys && Beneath(tree.nodes, tree.above, "r") == {}
    ensures ids == ["r"]
  {
    hide LiveTree.Valid, Ledger, Shaped, Lively;
    tree := new LiveTree("r");
    var done := tree.AcceptRun("r", None);
    done := tree.AcceptRun("x", None);
    IsShaped(tree);
    Up(tree.nodes, tree.children, tree.above, "r");
    Up(tree.nodes, tree.children, tree.above, "x");
    ids := tree.Snapshot();
    OnlyOne(ids, "r");
  }

  lemma OnlyOne(ids: seq<Id>, id: Id)
    requires Distinct(ids) && ids != [] && forall x :: x in ids <==> x == id
    ensures ids == [id]
  {
    var n := |ids| - 1;
    assert ids[0] in ids && ids[n] in ids;
  }

  lemma NoSince(tree: LiveTree)
    requires tree.Valid() && tree.nodes == map[]
    ensures tree.since == map[]
  {
    hide Shaped, Lively;
  }

  /** Beneath it a Step that launched a Run, which is at its first model call. */
  method InnerFresh() returns (tree: LiveTree)
    ensures fresh(tree) && tree.Valid()
    ensures tree.nodes == map["r" := OUTER, "a" := FIRST, "s" := LAUNCH, "c" := Accepted(Some("s")),
                              "m" := StepNode(Some("c"), Running, Model, false, None, None, false)]
    ensures tree.since == map["r" := 0, "a" := 0, "s" := 1, "c" := 1, "m" := 1]
    ensures tree.log == [Noted({"r"}, {"r"}, USED, Some(MOST), false)]
  {
    hide LiveTree.Valid, Ledger, Shaped, Lively;
    tree := AtMaximum();
    var done := tree.BeginStep("s", "r", Action, Running);
    done := tree.AcceptRun("c", Some("s"));
    done := tree.BeginStep("m", "c", Model, Running);
  }

  /**
   An inner Run is charged for its report, and the outer Run, already at the
   maximum, is not: its account no longer covers what was reported beneath it.
   */
  method OverflowSplits() returns (tree: LiveTree)
    ensures tree.Valid() && "r" in tree.nodes && "c" in tree.nodes && "r" in tree.since && "c" in tree.since
    ensures tree.nodes["r"] == OUTER
    ensures tree.nodes["c"] == RunNode(Some("s"), Pending, 0, 0, Some(USED), Some(CENT), false)
    ensures Missed(tree.log, tree.since["r"], "r") && !Missed(tree.log, tree.since["c"], "c")
  {
    hide LiveTree.Valid, Ledger, Shaped, Lively, RunsUp, LiveTree.Limit, Items;
    Amounts();
    tree := InnerFresh();
    IsShaped(tree);
    TwoRuns(tree.nodes, tree.children, tree.above, "m", true);
    LimitTwo(tree.nodes, "c", "r", Some(CENT));
    var done := tree.NoteModel("m", Some(USED), Some(CENT), true, false);
    assert tree.log[1] == Noted({"c", "r"}, {"c"}, USED, Some(CENT), false);
  }
}
