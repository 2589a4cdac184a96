/**
 The resident tree of live Runs and Steps as maps, and the ledger that says
 what each Run has consumed: everything ever invoked beneath it since it was
 accepted, whether or not the branch is still resident.
 */
module LiveSpec {
  import opened Common
  import opened Money

  type Id = string

  datatype Status = Pending | Running | Succeeded | Failed | Canceled

  predicate Terminal(s: Status) {
    s.Succeeded? || s.Failed? || s.Canceled?
  }

  datatype Kind = Model | Tool | Action

  datatype Usage = Usage(input: nat, output: nat, cacheRead: Option<nat>, reasoning: Option<nat>)

  datatype Node =
    | RunNode(parent: Option<Id>, status: Status, modelCalls: nat, toolCalls: nat,
              usage: Option<Usage>, cost: Option<Usd>, approximate: bool)
    | StepNode(parent: Option<Id>, status: Status, kind: Kind, invoked: bool,
               usage: Option<Usage>, cost: Option<Usd>, approximate: bool)

  // ---------------------------------------------------------------------
  // Shape
  // ---------------------------------------------------------------------

  predicate Distinct(s: seq<Id>) {
    forall i, j :: 0 <= i < j < |s| ==> s[i] != s[j]
  }

  /** `above` lists the proper ancestors of `x`: its parent's, and its parent. */
  ghost predicate Hung(nodes: map<Id, Node>, above: map<Id, set<Id>>, x: Id)
    requires nodes.Keys == above.Keys && x in nodes
  {
    && x !in above[x] && above[x] <= nodes.Keys
    && (forall a :: a in above[x] ==> above[a] + {a} <= above[x])
    && match nodes[x].parent
       case None => above[x] == {}
       case Some(p) => p in nodes && above[x] == above[p] + {p}
  }

  /** `x` is listed by its parent, and lists its children once each. */
  ghost predicate Listed(nodes: map<Id, Node>, children: map<Id, seq<Id>>, x: Id)
    requires nodes.Keys == children.Keys && x in nodes
  {
    && (nodes[x].parent.Some? ==> nodes[x].parent.value in nodes && x in children[nodes[x].parent.value])
    && Distinct(children[x])
    && forall c :: c in children[x] ==> c in nodes && nodes[c].parent == Some(x)
  }

  ghost predicate Placed(nodes: map<Id, Node>, children: map<Id, seq<Id>>, above: map<Id, set<Id>>, x: Id)
    requires nodes.Keys == children.Keys == above.Keys && x in nodes
  {
    Hung(nodes, above, x) && Listed(nodes, children, x)
  }

  /** A forest: every parent is resident, no cycles, child lists exact. */
  ghost predicate Shaped(nodes: map<Id, Node>, children: map<Id, seq<Id>>, above: map<Id, set<Id>>) {
    && nodes.Keys == children.Keys == above.Keys
    && forall x :: x in nodes ==> Placed(nodes, children, above, x)
  }

  ghost function Beneath(nodes: map<Id, Node>, above: map<Id, set<Id>>, id: Id): set<Id>
    requires nodes.Keys == above.Keys
  {
    set x | x in nodes && id in above[x]
  }

  function Minus(s: seq<Id>, id: Id): seq<Id> {
    if s == [] then [] else if s[0] == id then s[1..] else [s[0]] + Minus(s[1..], id)
  }

  lemma {:induction false} MinusHas(s: seq<Id>, id: Id, x: Id)
    requires Distinct(s)
    ensures x in Minus(s, id) <==> x in s && x != id
  {
    if s != [] {
      assert s == [s[0]] + s[1..];
      MinusHas(s[1..], id, x);
      assert s[0] !in s[1..];
    }
  }

  lemma {:induction false} MinusDistinct(s: seq<Id>, id: Id)
    requires Distinct(s)
    ensures Distinct(Minus(s, id))
  {
    if s != [] && s[0] != id {
      MinusDistinct(s[1..], id);
      MinusHas(s[1..], id, s[0]);
      assert s[0] !in s[1..];
    }
  }

  /** Something beneath a node lies at or beneath one of its children. */
  lemma {:induction false} BeneathChild(
    nodes: map<Id, Node>, children: map<Id, seq<Id>>, above: map<Id, set<Id>>, id: Id, x: Id)
    returns (kid: Id)
    requires Shaped(nodes, children, above) && x in nodes && id in above[x]
    ensures id in nodes && kid in children[id] && (kid == x || kid in above[x])
    decreases above[x]
  {
    assert Placed(nodes, children, above, x);
    var p := nodes[x].parent.value;
    if p == id {
      kid := x;
    } else {
      assert Placed(nodes, children, above, p);
      kid := BeneathChild(nodes, children, above, id, p);
    }
  }

  /** Every terminal node other than the root and `except` still has a child. */
  ghost predicate Lively(nodes: map<Id, Node>, children: map<Id, seq<Id>>, root: Id, except: set<Id>)
    requires nodes.Keys == children.Keys
  {
    forall x :: x in nodes && x != root && x !in except && Terminal(nodes[x].status) ==> children[x] != []
  }

  // ---------------------------------------------------------------------
  // Ledger
  // ---------------------------------------------------------------------

  /** One invocation or report, the live Runs above it, and of a report those charged for it. */
  datatype Entry =
    | Invoked(runs: set<Id>, kind: Kind)
    | Noted(runs: set<Id>, paid: set<Id>, usage: Usage, cost: Option<Usd>, approximate: bool)

  function Payers(e: Entry): set<Id> {
    if e.Invoked? then e.runs else e.paid
  }

  /** Everything invoked or reported beneath Run `r` from log position `since` on. */
  function Heard(log: seq<Entry>, since: nat, r: Id): seq<Entry> {
    if |log| <= since then []
    else
      var n := |log| - 1;
      Heard(log[..n], since, r) + if r in log[n].runs then [log[n]] else []
  }

  /** The part of it that Run `r` was charged for. */
  function Paid(log: seq<Entry>, since: nat, r: Id): seq<Entry> {
    if |log| <= since then []
    else
      var n := |log| - 1;
      Paid(log[..n], since, r) + if r in Payers(log[n]) then [log[n]] else []
  }

  lemma PaidSnoc(log: seq<Entry>, since: nat, r: Id, e: Entry)
    requires since <= |log|
    ensures Paid(log + [e], since, r) == Paid(log, since, r) + if r in Payers(e) then [e] else []
  {
    assert (log + [e])[..|log|] == log;
  }

  /** A report beneath `r` was not charged to it. */
  predicate Missed(log: seq<Entry>, since: nat, r: Id) {
    exists i :: since <= i < |log| && r in log[i].runs && r !in Payers(log[i])
  }

  /** Only Runs above a report are charged, and it skips a Run only for a cost of at least a micro-unit. */
  predicate Charges(e: Entry) {
    Payers(e) <= e.runs && (Payers(e) != e.runs ==> e.Noted? && e.cost.Some? && CostUnits(e.cost.value) > 0)
  }

  function Calls(es: seq<Entry>, kind: Kind): nat {
    if es == [] then 0
    else
      var n := |es| - 1;
      Calls(es[..n], kind) + if es[n].Invoked? && es[n].kind == kind then 1 else 0
  }

  function Notes(es: seq<Entry>): (notes: seq<Entry>)
    ensures forall i :: 0 <= i < |notes| ==> notes[i].Noted?
  {
    if es == [] then []
    else
      var n := |es| - 1;
      Notes(es[..n]) + if es[n].Noted? then [es[n]] else []
  }

  function Total(ns: seq<Entry>, f: Entry -> nat): nat {
    if ns == [] then 0 else Total(ns[..|ns| - 1], f) + f(ns[|ns| - 1])
  }

  function InputOf(e: Entry): nat { if e.Noted? then e.usage.input else 0 }

  function OutputOf(e: Entry): nat { if e.Noted? then e.usage.output else 0 }

  function CacheReadOf(e: Entry): nat {
    if e.Noted? && e.usage.cacheRead.Some? then e.usage.cacheRead.value else 0
  }

  function ReasoningOf(e: Entry): nat {
    if e.Noted? && e.usage.reasoning.Some? then e.usage.reasoning.value else 0
  }

  function UnitsOf(e: Entry): nat {
    if e.Noted? && e.cost.Some? then CostUnits(e.cost.value) else 0
  }

  predicate Priced(e: Entry) { e.Noted? && e.cost.Some? }

  predicate CacheKnown(e: Entry) { e.Noted? && e.usage.cacheRead.Some? }

  predicate ReasoningKnown(e: Entry) { e.Noted? && e.usage.reasoning.Some? }

  predicate Rough(e: Entry) { e.Noted? && e.approximate }

  predicate Every(ns: seq<Entry>, p: Entry -> bool) {
    forall i :: 0 <= i < |ns| ==> p(ns[i])
  }

  /** A partial total is known exactly when every part is, and is then their sum. */
  predicate PartTotal(part: Option<nat>, ns: seq<Entry>, known: Entry -> bool, f: Entry -> nat) {
    && (part.Some? <==> Every(ns, known))
    && (part.Some? ==> part.value == Total(ns, f))
  }

  predicate CostTotal(cost: Option<Usd>, ns: seq<Entry>) {
    && (cost.Some? <==> ns != [] && Every(ns, Priced))
    && (cost.Some? ==> CostUnits(cost.value) == Total(ns, UnitsOf))
  }

  predicate UsageTotal(usage: Option<Usage>, ns: seq<Entry>) {
    match usage
    case None => ns == []
    case Some(u) =>
      && ns != []
      && u.input == Total(ns, InputOf) && u.output == Total(ns, OutputOf)
      && PartTotal(u.cacheRead, ns, CacheKnown, CacheReadOf)
      && PartTotal(u.reasoning, ns, ReasoningKnown, ReasoningOf)
  }

  /** The Run's counters account for exactly the entries `es`. */
  predicate Owes(node: Node, es: seq<Entry>)
    requires node.RunNode?
  {
    var notes := Notes(es);
    && node.modelCalls == Calls(es, Model) && node.toolCalls == Calls(es, Tool)
    && UsageTotal(node.usage, notes) && CostTotal(node.cost, notes)
    && (node.approximate <==> exists i :: 0 <= i < |notes| && Rough(notes[i]))
  }

  ghost predicate Ledger(nodes: map<Id, Node>, since: map<Id, nat>, log: seq<Entry>) {
    && since.Keys == nodes.Keys
    && (forall r :: r in nodes && nodes[r].RunNode? ==>
          since[r] <= |log| && Owes(nodes[r], Paid(log, since[r], r)))
    && forall i :: 0 <= i < |log| ==> Charges(log[i])
  }

  function AddUsage(left: Option<Usage>, right: Usage): Usage {
    match left
    case None => right
    case Some(u) =>
      Usage(u.input + right.input, u.output + right.output,
            if u.cacheRead.Some? && right.cacheRead.Some?
            then Some(u.cacheRead.value + right.cacheRead.value) else None,
            if u.reasoning.Some? && right.reasoning.Some?
            then Some(u.reasoning.value + right.reasoning.value) else None)
  }

  /** The one sum a report can make impossible: two known costs past the maximum. */
  predicate Overflows(node: Node, cost: Option<Usd>)
    requires node.RunNode?
  {
    node.usage.Some? && node.cost.Some? && cost.Some? && !Addable(node.cost.value, cost.value)
  }

  function Counted(node: Node, kind: Kind): Node
    requires node.RunNode?
  {
    node.(modelCalls := node.modelCalls + if kind.Model? then 1 else 0,
          toolCalls := node.toolCalls + if kind.Tool? then 1 else 0)
  }

  function Charged(node: Node, usage: Usage, cost: Option<Usd>, approximate: bool): Node
    requires node.RunNode? && !Overflows(node, cost)
  {
    RunNode(node.parent, node.status, node.modelCalls, node.toolCalls,
            Some(AddUsage(node.usage, usage)),
            if node.usage.None? then cost
            else if node.cost.Some? && cost.Some? then Some(AddCost(node.cost.value, cost.value))
            else None,
            node.approximate || approximate)
  }

  lemma EntriesSnoc(es: seq<Entry>, e: Entry)
    ensures Calls(es + [e], Model) == Calls(es, Model) + if e.Invoked? && e.kind.Model? then 1 else 0
    ensures Calls(es + [e], Tool) == Calls(es, Tool) + if e.Invoked? && e.kind.Tool? then 1 else 0
    ensures Notes(es + [e]) == Notes(es) + if e.Noted? then [e] else []
  {
    assert (es + [e])[..|es|] == es;
  }

  lemma TotalSnoc(ns: seq<Entry>, e: Entry, f: Entry -> nat)
    ensures Total(ns + [e], f) == Total(ns, f) + f(e)
  {
    assert (ns + [e])[..|ns|] == ns;
  }

  lemma EverySnoc(ns: seq<Entry>, e: Entry, p: Entry -> bool)
    ensures Every(ns + [e], p) <==> Every(ns, p) && p(e)
  {
    if Every(ns + [e], p) {
      assert (ns + [e])[|ns|] == e;
      forall i | 0 <= i < |ns| ensures p(ns[i]) {
        assert (ns + [e])[i] == ns[i];
      }
    }
  }

  lemma CountedOwes(node: Node, es: seq<Entry>, e: Entry)
    requires node.RunNode? && Owes(node, es) && e.Invoked?
    ensures Owes(Counted(node, e.kind), es + [e])
  {
    EntriesSnoc(es, e);
    assert Notes(es) + [] == Notes(es);
  }

  /** A known total grows by a known part, and is lost with an unknown one. */
  lemma PartSnoc(part: Option<nat>, more: Option<nat>, ns: seq<Entry>, e: Entry, known: Entry -> bool, f: Entry -> nat)
    requires PartTotal(part, ns, known, f)
    requires known(e) <==> more.Some?
    requires more.Some? ==> f(e) == more.value
    ensures PartTotal(if part.Some? && more.Some? then Some(part.value + more.value) else None, ns + [e], known, f)
  {
    hide Total, Every;
    TotalSnoc(ns, e, f);
    EverySnoc(ns, e, known);
  }

  lemma PartNone(known: Entry -> bool, f: Entry -> nat)
    ensures PartTotal(Some(0), [], known, f)
  {
  }

  lemma ChargedUsage(usage: Option<Usage>, ns: seq<Entry>, e: Entry)
    requires UsageTotal(usage, ns) && e.Noted?
    ensures UsageTotal(Some(AddUsage(usage, e.usage)), ns + [e])
  {
    hide Total, Every, PartTotal;
    var before := if usage.Some? then usage.value else Usage(0, 0, Some(0), Some(0));
    if usage.None? {
      NoTotal(InputOf);
      NoTotal(OutputOf);
      PartNone(CacheKnown, CacheReadOf);
      PartNone(ReasoningKnown, ReasoningOf);
    }
    TotalSnoc(ns, e, InputOf);
    TotalSnoc(ns, e, OutputOf);
    PartSnoc(before.cacheRead, e.usage.cacheRead, ns, e, CacheKnown, CacheReadOf);
    PartSnoc(before.reasoning, e.usage.reasoning, ns, e, ReasoningKnown, ReasoningOf);
    Summed(usage, e.usage);
  }

  lemma Summed(usage: Option<Usage>, more: Usage)
    ensures var before := if usage.Some? then usage.value else Usage(0, 0, Some(0), Some(0));
            var sum := AddUsage(usage, more);
            && sum.input == before.input + more.input && sum.output == before.output + more.output
            && sum.cacheRead == (if before.cacheRead.Some? && more.cacheRead.Some?
                                 then Some(before.cacheRead.value + more.cacheRead.value) else None)
            && sum.reasoning == (if before.reasoning.Some? && more.reasoning.Some?
                                 then Some(before.reasoning.value + more.reasoning.value) else None)
  {
  }

  lemma ChargedOwes(node: Node, es: seq<Entry>, e: Entry)
    requires node.RunNode? && Owes(node, es) && e.Noted? && !Overflows(node, e.cost)
    ensures Owes(Charged(node, e.usage, e.cost, e.approximate), es + [e])
  {
    hide Total, Every, Calls, UsageTotal, AddUsage;
    EntriesSnoc(es, e);
    var ns := Notes(es);
    UsageEmpty(node.usage, ns);
    ChargedUsage(node.usage, ns, e);
    TotalSnoc(ns, e, UnitsOf);
    EverySnoc(ns, e, Priced);
    if ns == [] {
      NoTotal(UnitsOf);
      EveryNone(Priced);
    }
    assert (ns + [e])[|ns|] == e;
    forall i | 0 <= i < |ns| ensures (ns + [e])[i] == ns[i] {
    }
  }

  lemma UsageEmpty(usage: Option<Usage>, ns: seq<Entry>)
    requires UsageTotal(usage, ns)
    ensures usage.None? <==> ns == []
  {
  }

  lemma NoTotal(f: Entry -> nat)
    ensures Total([], f) == 0
  {
  }

  lemma EveryNone(p: Entry -> bool)
    ensures Every([], p)
  {
  }

  // ---------------------------------------------------------------------
  // When a Run's account is complete
  // ---------------------------------------------------------------------

  function TokensOf(e: Entry): nat { InputOf(e) + OutputOf(e) }

  lemma {:induction false} TokensTotal(ns: seq<Entry>)
    ensures Total(ns, TokensOf) == Total(ns, InputOf) + Total(ns, OutputOf)
  {
    if ns != [] {
      TokensTotal(ns[..|ns| - 1]);
    }
  }

  /** Every report among the entries carries tokens. */
  predicate Weighed(es: seq<Entry>) {
    forall i :: 0 <= i < |es| && es[i].Noted? ==> TokensOf(es[i]) > 0
  }

  lemma {:induction false} HeardWithout(log: seq<Entry>, since: nat, r: Id)
    requires forall i :: 0 <= i < |log| ==> Charges(log[i])
    ensures Missed(log, since, r) <==> Paid(log, since, r) != Heard(log, since, r)
    ensures |Paid(log, since, r)| <= |Heard(log, since, r)|
    ensures Missed(log, since, r) ==> |Paid(log, since, r)| < |Heard(log, since, r)|
  {
    if |log| > since {
      var init, e := log[..|log| - 1], log[|log| - 1];
      assert log == init + [e];
      assert forall i :: 0 <= i < |init| ==> init[i] == log[i];
      HeardWithout(init, since, r);
      MissedSnoc(init, since, r, e);
      assert Charges(log[|log| - 1]);
      hide Missed;
    }
  }

  lemma NoteAdded(es: seq<Entry>, e: Entry, taken: bool, f: Entry -> nat)
    ensures Total(Notes(es + if taken then [e] else []), f) ==
            Total(Notes(es), f) + if taken && e.Noted? then f(e) else 0
  {
    hide Total, Notes;
    if taken {
      EntriesSnoc(es, e);
      TotalSnoc(Notes(es), e, f);
      assert Notes(es) + [] == Notes(es);
    } else {
      assert es + [] == es;
    }
  }

  lemma HeardSnoc(log: seq<Entry>, since: nat, r: Id, e: Entry)
    requires since <= |log|
    ensures Heard(log + [e], since, r) == Heard(log, since, r) + if r in e.runs then [e] else []
  {
    assert (log + [e])[..|log|] == log;
  }

  /** One more entry changes the two accounts by the same note, or only what was heard. */
  lemma NotesSnoc(init: seq<Entry>, since: nat, r: Id, e: Entry, f: Entry -> nat)
    requires since <= |init|
    ensures var add := if e.Noted? then f(e) else 0;
            && Total(Notes(Heard(init + [e], since, r)), f) ==
               Total(Notes(Heard(init, since, r)), f) + (if r in e.runs then add else 0)
            && Total(Notes(Paid(init + [e], since, r)), f) ==
               Total(Notes(Paid(init, since, r)), f) + if r in Payers(e) then add else 0
  {
    hide Total, Notes, Heard, Paid, Payers;
    HeardSnoc(init, since, r, e);
    PaidSnoc(init, since, r, e);
    NoteAdded(Heard(init, since, r), e, r in e.runs, f);
    NoteAdded(Paid(init, since, r), e, r in Payers(e), f);
  }

  lemma {:induction false} PaidTotal(log: seq<Entry>, since: nat, r: Id, f: Entry -> nat)
    requires forall i :: 0 <= i < |log| ==> Charges(log[i])
    ensures Total(Notes(Paid(log, since, r)), f) <= Total(Notes(Heard(log, since, r)), f)
  {
    if |log| > since {
      var init, e := log[..|log| - 1], log[|log| - 1];
      assert log == init + [e];
      assert forall i :: 0 <= i < |init| ==> init[i] == log[i];
      PaidTotal(init, since, r, f);
      assert Charges(log[|log| - 1]);
      hide Total, Notes, Heard, Paid;
      NotesSnoc(init, since, r, e, f);
    }
  }

  lemma MissedSnoc(init: seq<Entry>, since: nat, r: Id, e: Entry)
    requires since <= |init|
    ensures Missed(init + [e], since, r) <==> Missed(init, since, r) || (r in e.runs && r !in Payers(e))
  {
    var log := init + [e];
    assert log[|init|] == e;
    forall i | since <= i < |init| ensures log[i] == init[i] {
    }
  }

  /** What a missed report weighs shows in the totals. */
  lemma {:induction false} MissedTotal(log: seq<Entry>, since: nat, r: Id, f: Entry -> nat)
    requires forall i :: 0 <= i < |log| ==> Charges(log[i])
    requires Missed(log, since, r)
    requires forall i :: since <= i < |log| && r in log[i].runs && r !in Payers(log[i]) ==> f(log[i]) > 0
    ensures Total(Notes(Paid(log, since, r)), f) < Total(Notes(Heard(log, since, r)), f)
  {
    var init, e := log[..|log| - 1], log[|log| - 1];
    assert log == init + [e];
    assert forall i :: 0 <= i < |init| ==> init[i] == log[i];
    assert Charges(log[|log| - 1]);
    hide Total, Notes, Heard, Paid;
    MissedSnoc(init, since, r, e);
    NotesSnoc(init, since, r, e, f);
    PaidTotal(init, since, r, f);
    if Missed(init, since, r) {
      MissedTotal(init, since, r, f);
    }
  }

  lemma {:induction false} HeardAt(log: seq<Entry>, since: nat, r: Id, i: nat)
    requires since <= i < |log| && r in log[i].runs
    ensures log[i] in Heard(log, since, r)
  {
    var init := log[..|log| - 1];
    if i < |init| {
      assert init[i] == log[i];
      HeardAt(init, since, r, i);
    }
  }

  /**
   A Run's counters account for everything reported beneath it exactly when no
   report missed it. A missed report always shows while the Run's cost is known,
   and otherwise as soon as reports carry tokens.
   */
  lemma AccountComplete(node: Node, log: seq<Entry>, since: nat, r: Id)
    requires node.RunNode? && Owes(node, Paid(log, since, r))
    requires forall i :: 0 <= i < |log| ==> Charges(log[i])
    requires node.cost.Some? || Weighed(Heard(log, since, r))
    ensures Owes(node, Heard(log, since, r)) <==> !Missed(log, since, r)
  {
    hide Heard, Paid, Notes, Calls, Total, Every, PartTotal;
    HeardWithout(log, since, r);
    if Missed(log, since, r) {
      if node.cost.Some? {
        MissedTotal(log, since, r, UnitsOf);
      } else {
        forall i | since <= i < |log| && r in log[i].runs && r !in Payers(log[i]) ensures TokensOf(log[i]) > 0 {
          HeardAt(log, since, r, i);
          assert Charges(log[i]);
        }
        MissedTotal(log, since, r, TokensOf);
        TokensTotal(Notes(Paid(log, since, r)));
        TokensTotal(Notes(Heard(log, since, r)));
      }
    }
  }
}
