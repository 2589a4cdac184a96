/**
 Filtering stored messages down to whole tool exchanges, and taking the most
 recent of them within a message limit.
 */
module History {

  datatype Role = User | Assistant | Tool | System

  /** A message, with the ids of its tool calls and of its tool results. */
  datatype Message = Message(role: Role, calls: seq<string>, results: seq<string>, body: string)

  // ---------------------------------------------------------------------
  // What a group is
  // ---------------------------------------------------------------------

  function Results(ts: seq<Message>): seq<string> {
    if ts == [] then [] else Results(ts[..|ts| - 1]) + ts[|ts| - 1].results
  }

  predicate Distinct(ids: seq<string>) {
    forall i, j :: 0 <= i < j < |ids| ==> ids[i] != ids[j]
  }

  predicate Exchange(turn: seq<Message>) {
    && |turn| > 1 && turn[0].role == Assistant
    && Distinct(turn[0].calls) && turn[0].calls != [] && "" !in turn[0].calls
    && (forall i :: 1 <= i < |turn| ==> turn[i].role == Tool && turn[i].results != [])
    && multiset(Results(turn[1..])) == multiset(turn[0].calls)
  }

  predicate Calls(m: Message) {
    m.role == Assistant && m.calls != []
  }

  /** One message that asks for nothing, or one assistant message with exactly its results. */
  predicate Whole(group: seq<Message>) {
    (|group| == 1 && group[0].role != Tool && !Calls(group[0])) || Exchange(group)
  }

  function ToolRun(ms: seq<Message>): (n: nat)
    ensures n <= |ms|
    ensures forall i :: 0 <= i < n ==> ms[i].role == Tool
    ensures n < |ms| ==> ms[n].role != Tool
  {
    if ms == [] || ms[0].role != Tool then 0 else 1 + ToolRun(ms[1..])
  }

  function TurnEnd(ms: seq<Message>): (n: nat)
    requires ms != []
    ensures 0 < n <= |ms|
  {
    1 + ToolRun(ms[1..])
  }

  /** What survives of one turn: a message and the tool messages right after it. */
  function Kept(turn: seq<Message>): seq<seq<Message>>
    requires turn != []
  {
    if !Calls(turn[0]) then [turn[..1]] else if Exchange(turn) then [turn] else []
  }

  /** The groups, turn by turn; tool messages before the first turn are dropped. */
  function Groups(ms: seq<Message>): seq<seq<Message>> {
    if ms == [] then []
    else if ms[0].role == Tool then Groups(ms[1..])
    else Kept(ms[..TurnEnd(ms)]) + Groups(ms[TurnEnd(ms)..])
  }

  function Flatten(gs: seq<seq<Message>>): seq<Message> {
    if gs == [] then [] else gs[0] + Flatten(gs[1..])
  }

  predicate AllWhole(gs: seq<seq<Message>>) {
    forall i :: 0 <= i < |gs| ==> Whole(gs[i])
  }

  // ---------------------------------------------------------------------
  // Laws
  // ---------------------------------------------------------------------

  lemma {:induction false} GroupsWhole(ms: seq<Message>)
    ensures AllWhole(Groups(ms))
  {
    if ms != [] {
      if ms[0].role == Tool {
        GroupsWhole(ms[1..]);
      } else {
        GroupsWhole(ms[1 + ToolRun(ms[1..])..]);
      }
    }
  }

  /** `picks` are increasing positions of `ms` that spell `part`. */
  ghost predicate Spells(picks: seq<nat>, part: seq<Message>, ms: seq<Message>) {
    && |picks| == |part|
    && (forall i :: 0 <= i < |picks| ==> picks[i] < |ms| && ms[picks[i]] == part[i])
    && forall i, j :: 0 <= i < j < |picks| ==> picks[i] < picks[j]
  }

  function Shift(picks: seq<nat>, n: nat): (r: seq<nat>)
    ensures |r| == |picks| && forall i :: 0 <= i < |picks| ==> r[i] == picks[i] + n
  {
    seq(|picks|, i requires 0 <= i < |picks| => picks[i] + n)
  }

  lemma SpellsLater(picks: seq<nat>, part: seq<Message>, ms: seq<Message>, n: nat)
    requires n <= |ms| && Spells(picks, part, ms[n..])
    ensures Spells(Shift(picks, n), part, ms)
  {
    forall i | 0 <= i < |picks| ensures picks[i] + n < |ms| && ms[picks[i] + n] == part[i] {
      assert ms[n..][picks[i]] == ms[picks[i] + n];
    }
  }

  lemma SpellsJoin(g: seq<Message>, picks: seq<nat>, part: seq<Message>, ms: seq<Message>, n: nat)
    requires |g| <= n <= |ms| && g == ms[..|g|] && Spells(picks, part, ms[n..])
    ensures Spells(seq(|g|, i => i) + Shift(picks, n), g + part, ms)
  {
    SpellsLater(picks, part, ms, n);
    var all := seq(|g|, i => i) + Shift(picks, n);
    forall i | 0 <= i < |all| ensures all[i] < |ms| && ms[all[i]] == (g + part)[i] {
      assert i >= |g| ==> all[i] == Shift(picks, n)[i - |g|];
    }
  }

  /** Order is preserved: what is kept is a subsequence of what was stored. */
  lemma {:induction false} GroupsInOrder(ms: seq<Message>) returns (picks: seq<nat>)
    ensures Spells(picks, Flatten(Groups(ms)), ms)
  {
    hide Exchange, Spells, Shift, Groups, Flatten, Kept, TurnEnd;
    if ms == [] {
      picks := [];
      NothingSpelt(ms);
    } else if ms[0].role == Tool {
      GroupsSkip(ms);
      var rest := GroupsInOrder(ms[1..]);
      SpellsLater(rest, Flatten(Groups(ms)), ms, 1);
      picks := Shift(rest, 1);
    } else {
      var n := TurnEnd(ms);
      var rest := GroupsInOrder(ms[n..]);
      GroupsHead(ms);
      KeptFront(ms, n);
      var kept, part := Kept(ms[..n]), Flatten(Groups(ms[n..]));
      if kept == [] {
        SpellsLater(rest, part, ms, n);
        picks := Shift(rest, n);
        assert kept + Groups(ms[n..]) == Groups(ms[n..]);
      } else {
        SpellsJoin(kept[0], rest, part, ms, n);
        picks := seq(|kept[0]|, i => i) + Shift(rest, n);
        FlattenJoin(kept[0], Groups(ms[n..]));
      }
    }
  }

  lemma NothingSpelt(ms: seq<Message>)
    ensures Flatten(Groups([])) == [] && Spells([], [], ms)
  {
  }

  lemma FlattenJoin(g: seq<Message>, gs: seq<seq<Message>>)
    ensures Flatten([g] + gs) == g + Flatten(gs)
  {
    assert ([g] + gs)[1..] == gs;
  }

  /** What a kept turn keeps is a prefix of it. */
  lemma KeptFront(ms: seq<Message>, n: nat)
    requires 0 < n <= |ms|
    ensures |Kept(ms[..n])| <= 1
    ensures Kept(ms[..n]) != [] ==>
              var g := Kept(ms[..n])[0];
              |g| <= n && g == ms[..|g|] && Kept(ms[..n]) == [g]
  {
    hide Exchange;
    assert ms[..n][..1] == ms[..1];
  }

  lemma GroupsSkip(ms: seq<Message>)
    requires ms != [] && ms[0].role == Tool
    ensures Groups(ms) == Groups(ms[1..])
  {
  }

  lemma GroupsHead(ms: seq<Message>)
    requires ms != [] && ms[0].role != Tool
    ensures Groups(ms) == Kept(ms[..TurnEnd(ms)]) + Groups(ms[TurnEnd(ms)..])
  {
    hide TurnEnd, Kept;
  }

  lemma GroupsTurn(ms: seq<Message>)
    requires ms != []
    ensures ms[0].role == Tool ==> Groups(ms) == Groups(ms[1..])
    ensures ms[0].role != Tool ==>
              var n := 1 + ToolRun(ms[1..]);
              Groups(ms) == Kept(ms[..n]) + Groups(ms[n..])
  {
    hide ToolRun, Kept, Groups;
    if ms[0].role == Tool {
      GroupsSkip(ms);
    } else {
      GroupsHead(ms);
    }
  }

  lemma FirstNotTool(gs: seq<seq<Message>>)
    requires AllWhole(gs) && gs != []
    ensures Flatten(gs) != [] && Flatten(gs)[0].role != Tool
  {
  }

  lemma {:induction false} ToolRunStops(ts: seq<Message>, rest: seq<Message>)
    requires forall i :: 0 <= i < |ts| ==> ts[i].role == Tool
    requires rest == [] || rest[0].role != Tool
    ensures ToolRun(ts + rest) == |ts|
  {
    if ts == [] {
      assert ts + rest == rest;
    } else {
      assert (ts + rest)[1..] == ts[1..] + rest;
      ToolRunStops(ts[1..], rest);
    }
  }

  /** Whole groups, laid end to end, group back into themselves. */
  lemma {:induction false} Regroups(gs: seq<seq<Message>>)
    requires AllWhole(gs)
    ensures Groups(Flatten(gs)) == gs
  {
    hide Whole, Groups;
    if gs == [] {
      NoGroups();
    } else {
      Regroups(gs[1..]);
      if gs[1..] != [] {
        FirstNotTool(gs[1..]);
      }
      GroupsLaid(gs[0], Flatten(gs[1..]));
      assert gs == [gs[0]] + gs[1..];
    }
  }

  /** A whole group in front of another turn is that turn's neighbour, nothing more. */
  lemma GroupsLaid(g: seq<Message>, rest: seq<Message>)
    requires Whole(g) && (rest == [] || rest[0].role != Tool)
    ensures Groups(g + rest) == [g] + Groups(rest)
  {
    hide Whole, Groups, ToolRun, Kept;
    WholeShape(g);
    WholeKept(g);
    var all := g + rest;
    assert all[1..] == g[1..] + rest && all[0] == g[0];
    ToolRunStops(g[1..], rest);
    GroupsTurn(all);
    assert all[..|g|] == g && all[|g|..] == rest;
  }

  lemma WholeKept(g: seq<Message>)
    requires Whole(g)
    ensures g != [] && Kept(g) == [g]
  {
    hide Exchange;
    WholeShape(g);
    assert |g| == 1 ==> g[..1] == g;
  }

  lemma WholeShape(g: seq<Message>)
    requires Whole(g)
    ensures g != [] && g[0].role != Tool && (forall i :: 0 <= i < |g| - 1 ==> g[1..][i].role == Tool)
    ensures Calls(g[0]) <==> Exchange(g)
    ensures !Calls(g[0]) ==> |g| == 1
  {
  }

  lemma Idempotent(ms: seq<Message>)
    ensures Groups(Flatten(Groups(ms))) == Groups(ms)
  {
    GroupsWhole(ms);
    Regroups(Groups(ms));
  }

  // ---------------------------------------------------------------------
  // The grouping loop
  // ---------------------------------------------------------------------

  predicate Fit(ts: seq<Message>, calls: seq<string>) {
    && (forall i :: 0 <= i < |ts| ==> ts[i].results != [])
    && Distinct(Results(ts)) && forall id :: id in Results(ts) ==> id in calls
  }

  function SetOf(ids: seq<string>): (s: set<string>)
    ensures forall id :: id in s <==> id in ids
  {
    set id | id in ids
  }

  lemma DistinctJoin(a: seq<string>, b: seq<string>)
    ensures Distinct(a + b) <==> Distinct(a) && Distinct(b) && forall id :: id in b ==> id !in a
  {
    var all := a + b;
    if Distinct(all) {
      forall i, j | 0 <= i < j < |a| ensures a[i] != a[j] {
        assert all[i] == a[i] && all[j] == a[j];
      }
      forall i, j | 0 <= i < j < |b| ensures b[i] != b[j] {
        assert all[|a| + i] == b[i] && all[|a| + j] == b[j];
      }
      forall id | id in b ensures id !in a {
        var j :| 0 <= j < |b| && b[j] == id;
        forall i | 0 <= i < |a| ensures a[i] != id {
          assert all[i] == a[i] && all[|a| + j] == b[j];
        }
      }
    }
    if Distinct(a) && Distinct(b) && forall id :: id in b ==> id !in a {
      forall i, j | 0 <= i < j < |all| ensures all[i] != all[j] {
        assert i < |a| ==> all[i] in a;
        assert j >= |a| ==> all[j] in b;
      }
    }
  }

  /** One more tool message fits when its ids are new, expected and not repeated. */
  lemma FitSnoc(ts: seq<Message>, t: Message, calls: seq<string>)
    ensures Fit(ts + [t], calls) <==>
              && Fit(ts, calls) && t.results != [] && Distinct(t.results)
              && SetOf(t.results) <= SetOf(calls) - SetOf(Results(ts))
    ensures Results(ts + [t]) == Results(ts) + t.results
  {
    hide Distinct;
    var all := ts + [t];
    assert all[..|ts|] == ts && all[|ts|] == t;
    DistinctJoin(Results(ts), t.results);
    if Fit(all, calls) {
      forall i | 0 <= i < |ts| ensures ts[i].results != [] {
        assert all[i] == ts[i];
      }
      forall id | id in Results(ts) ensures id in calls {
        assert id in Results(ts) + t.results;
      }
      forall id | id in SetOf(t.results) ensures id in SetOf(calls) - SetOf(Results(ts)) {
        assert id in Results(ts) + t.results;
      }
    }
    if Fit(ts, calls) && t.results != [] && SetOf(t.results) <= SetOf(calls) - SetOf(Results(ts)) {
      forall id | id in t.results ensures id in calls && id !in Results(ts) {
        assert id in SetOf(t.results);
      }
    }
  }

  lemma {:induction false} CountOnce(ids: seq<string>, id: string)
    requires Distinct(ids)
    ensures multiset(ids)[id] == if id in ids then 1 else 0
  {
    if ids != [] {
      var init := ids[..|ids| - 1];
      assert ids == init + [ids[|ids| - 1]];
      CountOnce(init, id);
    }
  }

  lemma {:induction false} CountTwice(ids: seq<string>, i: nat, j: nat)
    requires i < j < |ids| && ids[i] == ids[j]
    ensures multiset(ids)[ids[i]] >= 2
  {
    assert ids == ids[..j] + [ids[j]] + ids[j + 1..];
    assert ids[..j][i] == ids[i];
    assert ids[i] in multiset(ids[..j]);
  }

  /** The set bookkeeping ends empty exactly when the results partition the calls. */
  lemma PartitionIs(ts: seq<Message>, calls: seq<string>)
    requires Distinct(calls)
    ensures multiset(Results(ts)) == multiset(calls) <==>
            Distinct(Results(ts)) && SetOf(Results(ts)) == SetOf(calls)
  {
    var rs := Results(ts);
    if Distinct(rs) && SetOf(rs) == SetOf(calls) {
      forall id ensures multiset(rs)[id] == multiset(calls)[id] {
        CountOnce(rs, id);
        CountOnce(calls, id);
        assert id in SetOf(rs) <==> id in SetOf(calls);
      }
    }
    if multiset(rs) == multiset(calls) {
      forall id ensures id in rs <==> id in calls {
        assert id in rs <==> id in multiset(rs);
        assert id in calls <==> id in multiset(calls);
      }
      forall i, j | 0 <= i < j < |rs| ensures rs[i] != rs[j] {
        CountOnce(calls, rs[i]);
        if rs[i] == rs[j] {
          CountTwice(rs, i, j);
        }
      }
    }
  }

  lemma ExchangeIs(head: Message, ts: seq<Message>)
    requires Calls(head) && Distinct(head.calls) && "" !in head.calls
    requires forall i :: 0 <= i < |ts| ==> ts[i].role == Tool
    ensures Exchange([head] + ts) <==> Fit(ts, head.calls) && SetOf(head.calls) - SetOf(Results(ts)) == {}
  {
    hide Distinct, Results;
    var turn := [head] + ts;
    assert turn[1..] == ts;
    PartitionIs(ts, head.calls);
    forall i | 1 <= i < |turn| ensures turn[i] == ts[i - 1] {
    }
    assert (forall i :: 1 <= i < |turn| ==> turn[i].results != []) <==>
           (forall i :: 0 <= i < |ts| ==> ts[i].results != []) by {
      forall i | 0 <= i < |ts| ensures ts[i] == turn[i + 1] {
      }
    }
    SetsAgree(Results(ts), head.calls);
    if ts == [] {
      NoResults();
      assert head.calls[0] in head.calls;
    }
  }

  lemma NoResults()
    ensures Results([]) == []
  {
  }

  lemma SetsAgree(a: seq<string>, b: seq<string>)
    ensures SetOf(a) == SetOf(b) <==> (forall id :: id in a ==> id in b) && SetOf(b) - SetOf(a) == {}
  {
    if SetOf(a) == SetOf(b) {
      forall id | id in a ensures id in b {
        assert id in SetOf(a);
      }
    }
    if (forall id :: id in a ==> id in b) && SetOf(b) - SetOf(a) == {} {
      forall id ensures id in SetOf(a) <==> id in SetOf(b) {
        assert id in SetOf(b) && id !in SetOf(a) ==> id in SetOf(b) - SetOf(a);
      }
    }
  }

  predicate Unique(ids: seq<string>)
    ensures Unique(ids) <==> Distinct(ids)
  {
    DistinctSize(ids);
    |SetOf(ids)| == |ids|
  }

  lemma {:induction false} DistinctSize(ids: seq<string>)
    ensures |SetOf(ids)| <= |ids| && (|SetOf(ids)| == |ids| <==> Distinct(ids))
  {
    if ids == [] {
      assert SetOf(ids) == {};
    } else {
      var init, last := ids[..|ids| - 1], ids[|ids| - 1];
      DistinctSize(init);
      assert ids == init + [last];
      assert SetOf(ids) == SetOf(init) + {last};
      if last in init {
        var i :| 0 <= i < |init| && init[i] == last;
        assert ids[i] == ids[|ids| - 1];
        assert SetOf(ids) == SetOf(init);
      }
    }
  }

  lemma SkipTools(ms: seq<Message>, n: nat)
    requires n <= ToolRun(ms)
    ensures Groups(ms[n..]) == Groups(ms) && ToolRun(ms[n..]) == ToolRun(ms) - n
    decreases n
  {
    if n == 0 {
      assert ms[0..] == ms;
    } else {
      SkipTools(ms, n - 1);
      assert ms[n - 1..][1..] == ms[n..];
    }
  }

  lemma CollectNext(ts: seq<Message>, t: Message, calls: seq<string>, remaining: set<string>)
    requires "" !in calls
    requires Fit(ts, calls) ==> remaining == SetOf(calls) - SetOf(Results(ts))
    ensures Fit(ts + [t], calls) ==>
              && Fit(ts, calls) && t.results != [] && "" !in t.results && Unique(t.results)
              && SetOf(t.results) <= remaining
              && remaining - SetOf(t.results) == SetOf(calls) - SetOf(Results(ts + [t]))
    ensures Fit(ts, calls) && t.results != [] && Unique(t.results) && SetOf(t.results) <= remaining ==>
              Fit(ts + [t], calls)
  {
    hide Fit, Results, Distinct, Unique;
    FitSnoc(ts, t, calls);
    NoBlank(t.results, remaining, calls);
    forall id ensures id in SetOf(Results(ts) + t.results) <==> id in SetOf(Results(ts)) || id in SetOf(t.results) {
    }
  }

  lemma FitNone(calls: seq<string>)
    ensures Fit([], calls) && SetOf(calls) - SetOf(Results([])) == SetOf(calls)
  {
    NoResults();
    assert SetOf([]) == {};
  }

  /** The tool messages after `index` are read until one is not a tool message. */
  method CollectExchange(ms: seq<Message>, index: nat) returns (group: seq<Message>, whole: bool, cursor: nat)
    requires index < |ms| && Calls(ms[index])
    requires Distinct(ms[index].calls) && "" !in ms[index].calls
    ensures index < cursor <= |ms| && cursor == index + 1 + ToolRun(ms[index + 1..])
    ensures whole <==> Exchange(ms[index..cursor])
    ensures whole ==> group == ms[index..cursor]
  {
    hide Fit, Results, Distinct, SetOf, Unique, Exchange, ToolRun;
    var head, calls := ms[index], ms[index].calls;
    group := [head];
    var remaining := SetOf(calls);
    whole := true;
    cursor := index + 1;
    ghost var ts: seq<Message> := [];
    FitNone(calls);
    while cursor < |ms| && ms[cursor].role == Tool
      invariant index < cursor <= |ms| && ts == ms[index + 1..cursor]
      invariant forall i :: 0 <= i < |ts| ==> ts[i].role == Tool
      invariant whole <==> Fit(ts, calls)
      invariant whole ==> remaining == SetOf(calls) - SetOf(Results(ts)) && group == [head] + ts
    {
      var results := ms[cursor].results;
      var matched := SetOf(results);
      CollectNext(ts, ms[cursor], calls, remaining);
      if results == [] || "" in results || !Unique(results) || !(matched <= remaining) {
        whole := false;
      } else {
        group := group + [ms[cursor]];
        remaining := remaining - matched;
      }
      ts := ts + [ms[cursor]];
      cursor := cursor + 1;
    }
    assert ms[index + 1..] == ts + ms[cursor..];
    ToolRunStops(ts, ms[cursor..]);
    assert ms[index..cursor] == [head] + ts;
    ExchangeIs(head, ts);
    whole := whole && remaining == {};
  }

  lemma NoBlank(results: seq<string>, remaining: set<string>, calls: seq<string>)
    requires "" !in calls
    ensures SetOf(results) <= SetOf(calls) ==> "" !in results
  {
    assert "" in results <==> "" in SetOf(results);
  }

  lemma TurnStep(ms: seq<Message>, index: nat)
    requires index < |ms|
    ensures ms[index].role == Tool ==> Groups(ms[index..]) == Groups(ms[index + 1..])
    ensures ms[index].role != Tool ==>
              var n := 1 + ToolRun(ms[index + 1..]);
              && index + n <= |ms| && ms[index..index + n][0] == ms[index]
              && Groups(ms[index..]) == Kept(ms[index..index + n]) + Groups(ms[index + n..])
              && Groups(ms[index + 1..]) == Groups(ms[index + n..])
  {
    hide Kept, Groups, ToolRun;
    GroupsTurn(ms[index..]);
    var rest, n := ms[index..], 1 + ToolRun(ms[index + 1..]);
    assert rest[0] == ms[index] && rest[1..] == ms[index + 1..];
    assert rest[n..] == ms[index + n..] && rest[..n] == ms[index..index + n];
    SkipTools(ms[index + 1..], n - 1);
    assert ms[index + 1..][n - 1..] == ms[index + n..];
  }

  /** A message that asks for nothing is a group of its own; tool messages after it are skipped. */
  lemma KeptAlone(ms: seq<Message>, index: nat)
    requires index < |ms| && ms[index].role != Tool && !Calls(ms[index])
    ensures Groups(ms[index..]) == [[ms[index]]] + Groups(ms[index + 1..])
  {
    hide Groups, ToolRun;
    TurnStep(ms, index);
    var turn := ms[index..index + 1 + ToolRun(ms[index + 1..])];
    assert turn[..1] == [ms[index]];
  }

  /** Calls with blank or repeated ids can never be answered. */
  lemma NeverKept(ms: seq<Message>, index: nat)
    requires index < |ms| && Calls(ms[index])
    requires "" in ms[index].calls || !Distinct(ms[index].calls)
    ensures Groups(ms[index..]) == Groups(ms[index + 1..])
  {
    hide Groups, ToolRun;
    TurnStep(ms, index);
    var turn := ms[index..index + 1 + ToolRun(ms[index + 1..])];
    assert Kept(turn) == [];
  }

  lemma KeptWhole(ms: seq<Message>, index: nat, cursor: nat)
    requires index < cursor <= |ms| && Calls(ms[index])
    requires cursor == index + 1 + ToolRun(ms[index + 1..])
    ensures Groups(ms[index..]) ==
            (if Exchange(ms[index..cursor]) then [ms[index..cursor]] else []) + Groups(ms[cursor..])
  {
    hide Groups, ToolRun, Exchange;
    TurnStep(ms, index);
  }

  /** The index loop groups exactly the surviving turns. */
  method ValidModelHistoryGroups(ms: seq<Message>) returns (groups: seq<seq<Message>>)
    ensures groups == Groups(ms)
  {
    hide Exchange, Distinct, Groups, ToolRun, Kept, TurnEnd, Whole, Unique;
    groups := [];
    var index := 0;
    assert ms[0..] == ms;
    while index < |ms|
      invariant index <= |ms|
      invariant groups + Groups(ms[index..]) == Groups(ms)
      decreases |ms| - index
    {
      var message := ms[index];
      if message.role == Tool {
        TurnStep(ms, index);
        index := index + 1;
        continue;
      }
      if message.role != Assistant || message.calls == [] {
        KeptAlone(ms, index);
        groups := groups + [[message]];
        index := index + 1;
        continue;
      }
      if "" in message.calls || !Unique(message.calls) {
        NeverKept(ms, index);
        index := index + 1;
        continue;
      }
      var group, whole, cursor := CollectExchange(ms, index);
      KeptWhole(ms, index, cursor);
      if whole {
        groups := groups + [group];
      }
      index := cursor;
    }
    assert ms[index..] == [];
    NoGroups();
  }

  lemma NoGroups()
    ensures Groups([]) == []
  {
  }

  // ---------------------------------------------------------------------
  // The recent part
  // ---------------------------------------------------------------------

  function Size(gs: seq<seq<Message>>): nat {
    if gs == [] then 0 else |gs[0]| + Size(gs[1..])
  }

  /** `gs[k..]` is the longest suffix within `limit`, or only the newest group. */
  predicate Recent(gs: seq<seq<Message>>, limit: int, k: nat) {
    && k <= |gs| && (k == |gs| <==> gs == [])
    && (k + 1 >= |gs| || Size(gs[k..]) <= limit)
    && (k > 0 ==> Size(gs[k - 1..]) > limit)
  }

  lemma {:induction false} SizeGrows(gs: seq<seq<Message>>, i: nat, j: nat)
    requires i <= j <= |gs|
    ensures Size(gs[i..]) >= Size(gs[j..])
    decreases j - i
  {
    if i < j {
      SizeGrows(gs, i + 1, j);
      assert gs[i..][1..] == gs[i + 1..];
    }
  }

  /** There is only one such cut. */
  lemma RecentUnique(gs: seq<seq<Message>>, limit: int, k: nat, j: nat)
    requires Recent(gs, limit, k) && Recent(gs, limit, j)
    ensures k == j
  {
    if k < j {
      SizeGrows(gs, k, j - 1);
    } else if j < k {
      SizeGrows(gs, j, k - 1);
    }
  }

  lemma {:induction false} SizeSplit(gs: seq<seq<Message>>, k: nat)
    requires k < |gs|
    ensures Size(gs[k..]) == |gs[k]| + Size(gs[k + 1..])
  {
    assert gs[k..][1..] == gs[k + 1..];
  }

  method RecentValidModelHistory(ms: seq<Message>, limit: int) returns (recent: seq<Message>, ghost k: nat)
    ensures limit <= 0 ==> recent == []
    ensures limit > 0 ==> Recent(Groups(ms), limit, k) && recent == Flatten(Groups(ms)[k..])
    ensures limit > 0 ==> Groups(recent) == Groups(ms)[k..]
  {
    hide *;
    k := 0;
    if limit <= 0 {
      return [], 0;
    }
    var groups := ValidModelHistoryGroups(ms);
    GroupsWhole(ms);
    var selected: seq<seq<Message>> := [];
    var count: nat := 0;
    var at: nat := |groups|;
    NoneSelected(groups, limit);
    while at > 0
      invariant at <= |groups| && Selected(groups, limit, at, selected, count)
      invariant Selecting(groups, limit, at, selected, count)
    {
      SelectionIs(groups, limit, at, selected, count);
      var group := groups[at - 1];
      if selected != [] && count + |group| > limit {
        break;
      }
      OneMore(groups, limit, at, selected, count);
      selected := [group] + selected;
      count := count + |group|;
      at := at - 1;
      if count >= limit {
        break;
      }
    }
    k := at;
    SelectionEnds(groups, limit, at, selected, count);
    recent := Flatten(selected);
  }

  /** The selection is `gs[at..]`; more may be taken as long as `count` is below the limit. */
  predicate Selected(gs: seq<seq<Message>>, limit: int, at: nat, selected: seq<seq<Message>>, count: nat) {
    && at <= |gs| && selected == gs[at..] && count == Size(gs[at..])
    && (at < |gs| - 1 ==> count <= limit)
  }

  predicate Selecting(gs: seq<seq<Message>>, limit: int, at: nat, selected: seq<seq<Message>>, count: nat) {
    Selected(gs, limit, at, selected, count) && (at < |gs| ==> count < limit)
  }

  lemma NoneSelected(gs: seq<seq<Message>>, limit: int)
    ensures Selected(gs, limit, |gs|, [], 0) && Selecting(gs, limit, |gs|, [], 0)
  {
  }

  lemma SelectionIs(gs: seq<seq<Message>>, limit: int, at: nat, selected: seq<seq<Message>>, count: nat)
    requires Selecting(gs, limit, at, selected, count)
    ensures selected == [] <==> at == |gs|
  {
    hide Size;
  }

  /** The newest group is always taken, an older one only if it fits. */
  lemma OneMore(gs: seq<seq<Message>>, limit: int, at: nat, selected: seq<seq<Message>>, count: nat)
    requires Selecting(gs, limit, at, selected, count) && 0 < at <= |gs|
    requires selected == [] || count + |gs[at - 1]| <= limit
    ensures Selected(gs, limit, at - 1, [gs[at - 1]] + selected, count + |gs[at - 1]|)
    ensures count + |gs[at - 1]| < limit ==>
              Selecting(gs, limit, at - 1, [gs[at - 1]] + selected, count + |gs[at - 1]|)
  {
    hide Size;
    SizeSplit(gs, at - 1);
  }

  /** The loop ends at the start, at a group that does not fit, or with the limit reached. */
  lemma SelectionEnds(gs: seq<seq<Message>>, limit: int, at: nat, selected: seq<seq<Message>>, count: nat)
    requires AllWhole(gs) && limit > 0 && Selected(gs, limit, at, selected, count)
    requires at > 0 ==> count >= limit || (selected != [] && count + |gs[at - 1]| > limit)
    ensures Recent(gs, limit, at) && selected == gs[at..] && Groups(Flatten(selected)) == gs[at..]
  {
    hide Groups, Flatten, Whole;
    if at > 0 {
      SizeSplit(gs, at - 1);
      WholeNotEmpty(gs[at - 1]);
    }
    Regroups(gs[at..]);
  }

  lemma WholeNotEmpty(g: seq<Message>)
    requires Whole(g)
    ensures |g| > 0
  {
  }
}
