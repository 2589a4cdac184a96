/**
 Delta-encoded model calls of one Run. Each captured model Step stores only the
 messages added since the preceding call, and names the Step (its head) that
 recorded the complete baseline. A StepRef enters through its rank in the
 Run's execution order, so that `head <= ref` is the order of index paths.
 */
module ModelCalls {
  import opened Common

  datatype Message = Message(meta: string, content: string)

  datatype Row =
    | Other(ref: int)
    | Model(ref: int, head: int, delta: seq<Message>)

  datatype Error = NotModel | InvalidHead | DeltaTooLong | MetadataDiffers | HeadNotEarlier | NotContinuing | Incomplete

  ghost predicate Sorted(steps: seq<Row>) {
    forall i, j :: 0 <= i < j < |steps| ==> steps[i].ref < steps[j].ref
  }

  // ---------------------------------------------------------------------
  // Specification
  // ---------------------------------------------------------------------

  ghost predicate Baseline(steps: seq<Row>, head: int) {
    exists row :: row in steps && row.Model? && row.ref == row.head == head
  }

  predicate InSpan(row: Row, lo: int, hi: int) {
    row.Model? && lo <= row.ref <= hi
  }

  /** The stored chain of `row` is whole: every model Step from its head on continues that head. */
  ghost predicate Whole(steps: seq<Row>, row: Row) {
    && row.Model? && row.head <= row.ref && Baseline(steps, row.head)
    && forall r :: r in steps && InSpan(r, row.head, row.ref) ==> r.head == row.head
  }

  /** The deltas of all model Steps ranked `lo` to `hi`, in order. */
  function Deltas(steps: seq<Row>, lo: int, hi: int): seq<Message> {
    if steps == [] then []
    else
      var row := steps[|steps| - 1];
      Deltas(steps[..|steps| - 1], lo, hi) + if InSpan(row, lo, hi) then row.delta else []
  }

  function Rebuilt(steps: seq<Row>, row: Row): seq<Message>
    requires row.Model?
  {
    Deltas(steps, row.head, row.ref)
  }

  lemma {:induction false} DeltasPrefix(steps: seq<Row>, n: nat, lo: int, hi: int)
    requires n <= |steps| && forall i :: n <= i < |steps| ==> !InSpan(steps[i], lo, hi)
    ensures Deltas(steps, lo, hi) == Deltas(steps[..n], lo, hi)
  {
    if n == |steps| {
      assert steps[..n] == steps;
    } else {
      DeltasPrefix(steps[..|steps| - 1], n, lo, hi);
      assert steps[..|steps| - 1][..n] == steps[..n];
    }
  }

  lemma DeltasStep(steps: seq<Row>, k: nat, lo: int, hi: int)
    requires k < |steps|
    ensures Deltas(steps[..k + 1], lo, hi)
         == Deltas(steps[..k], lo, hi) + if InSpan(steps[k], lo, hi) then steps[k].delta else []
  {
    assert steps[..k + 1][..k] == steps[..k];
  }

  lemma DeltasSnoc(steps: seq<Row>, row: Row, lo: int, hi: int)
    ensures Deltas(steps + [row], lo, hi) == Deltas(steps, lo, hi) + if InSpan(row, lo, hi) then row.delta else []
    ensures Deltas([], lo, hi) == []
  {
    assert (steps + [row])[..|steps|] == steps;
  }

  // ---------------------------------------------------------------------
  // Batched rebuild
  // ---------------------------------------------------------------------

  /** The greatest requested rank below each head. */
  ghost predicate EndsOf(requested: seq<Row>, ends: map<int, int>) {
    && (forall r :: r in requested ==> r.Model? && r.head in ends && r.ref <= ends[r.head])
    && (forall h :: h in ends ==> exists r :: r in requested && r.Model? && r.head == h && r.ref == ends[h])
  }

  method CheckHeads(steps: seq<Row>, requested: seq<Row>) returns (r: Result<map<int, int>, Error>)
    requires Sorted(steps) && forall q :: q in requested ==> q in steps
    ensures r.Ok? ==> EndsOf(requested, r.value) && forall q :: q in requested ==> q.head <= q.ref && Baseline(steps, q.head)
    ensures r.Err? ==> exists q :: q in requested && !Whole(steps, q)
  {
    var ends: map<int, int> := map[];
    var i := 0;
    while i < |requested|
      invariant 0 <= i <= |requested|
      invariant forall q :: q in requested[..i] ==> q.Model? && q.head <= q.ref && Baseline(steps, q.head)
      invariant EndsOf(requested[..i], ends)
    {
      var q := requested[i];
      if !q.Model? {
        assert !Whole(steps, q);
        return Err(NotModel);
      }
      if q.head > q.ref || !exists row | row in steps :: row.Model? && row.ref == row.head == q.head {
        assert !Whole(steps, q);
        return Err(InvalidHead);
      }
      ghost var before := ends;
      ends := ends[q.head := if q.head in ends && ends[q.head] > q.ref then ends[q.head] else q.ref];
      i := i + 1;
      assert requested[..i] == requested[..i - 1] + [q];
      forall h | h in ends ensures exists r :: r in requested[..i] && r.Model? && r.head == h && r.ref == ends[h] {
        if h == q.head && ends[h] == q.ref {
          assert q in requested[..i];
        } else {
          var w :| w in requested[..i - 1] && w.Model? && w.head == h && w.ref == before[h];
          assert w in requested[..i];
        }
      }
    }
    assert requested[..i] == requested;
    r := Ok(ends);
  }

  /** `head` is the last baseline ranked `first` or later among `steps`. */
  ghost predicate Current(steps: seq<Row>, first: int, head: Option<int>) {
    && (head.Some? ==> head.value >= first && Baseline(steps, head.value))
    && forall r :: r in steps && r.Model? && r.ref == r.head && first <= r.ref ==> head.Some? && r.ref <= head.value
  }

  /** Rows of the active chain up to its last requested Step all continue it. */
  ghost predicate Continues(steps: seq<Row>, head: int, end: int) {
    forall r :: r in steps && InSpan(r, head, end) ==> r.head == head
  }

  /**
   Expand each chain once and share it between the requested calls. The batch
   succeeds exactly when every requested chain is whole, and then each call is
   the concatenation of its deltas, so it equals rebuilding each call alone.
   */
  method Rebuild(steps: seq<Row>, requested: seq<Row>) returns (r: Result<map<int, seq<Message>>, Error>)
    requires Sorted(steps) && forall q :: q in requested ==> q in steps
    ensures r.Ok? <==> forall q :: q in requested ==> Whole(steps, q)
    ensures r.Ok? ==>
              && r.value.Keys == (set q | q in requested :: q.ref)
              && forall q :: q in requested ==> q.ref in r.value && r.value[q.ref] == Rebuilt(steps, q)
  {
    var checked := CheckHeads(steps, requested);
    if checked.Err? {
      return Err(checked.error);
    }
    var ends := checked.value;
    if requested == [] {
      return Ok(map[]);
    }
    r := Expand(steps, requested, ends);
  }

  /** The pass over the Run's rows that serves every requested call. */
  method Expand(steps: seq<Row>, requested: seq<Row>, ends: map<int, int>)
    returns (r: Result<map<int, seq<Message>>, Error>)
    requires Sorted(steps) && requested != [] && EndsOf(requested, ends)
    requires forall q :: q in requested ==> q in steps && q.head <= q.ref && Baseline(steps, q.head)
    ensures r.Ok? ==>
              && r.value.Keys <= (set q | q in requested :: q.ref)
              && forall q :: q in requested ==> Served(steps, q, r.value)
    ensures r.Err? ==> exists q :: q in requested && !Whole(steps, q)
  {
    hide Whole, Deltas, Baseline, Continues, Current, Served, Sorted;
    var first := FirstHead(requested);
    var calls: map<int, seq<Message>> := map[];
    var messages: seq<Message> := [];
    var head: Option<int> := None;
    var last := LastIndex(steps, requested);
    var k := 0;
    NoRows(steps, first);
    ghost var asked := set q | q in requested :: q.ref;
    while k < last
      invariant 0 <= k <= last
      invariant Current(steps[..k], first, head)
      invariant head.Some? && head.value in ends ==>
                  && messages == Deltas(steps[..k], head.value, ends[head.value])
                  && Continues(steps[..k], head.value, ends[head.value])
      invariant forall i :: 0 <= i < k && steps[i] in requested ==> Served(steps, steps[i], calls)
      invariant calls.Keys <= asked
    {
      var row := steps[k];
      assert steps[k] in requested ==> first <= row.head <= row.ref;
      k := k + 1;
      if row.ref < first || !row.Model? {
        SkipRow(steps, k - 1, first, head, ends);
        continue;
      }
      if row.head == row.ref {
        head := Some(row.ref);
        messages := [];
        FreshChain(steps, k, row.ref, if row.ref in ends then ends[row.ref] else row.ref);
      }
      NextRow(steps, k - 1, first, head, ends);
      if head.None? || head.value !in ends || row.ref > ends[head.value] {
        if row in requested {
          NotReachable(steps, k, first, head, row);
          return Err(InvalidHead);
        }
        continue;
      }
      if row.head != head.value {
        ghost var q :| q in requested && q.Model? && q.head == head.value && q.ref == ends[head.value];
        NotWhole(steps, row, q);
        return Err(InvalidHead);
      }
      KeepRow(steps, k - 1, head.value, ends[head.value]);
      messages := messages + row.delta;
      if row in requested {
        Reached(steps, k, row, ends[head.value]);
        StillServed(steps, requested, k - 1, calls, messages);
        calls := calls[row.ref := messages];
      }
    }
    forall q | q in requested ensures Served(steps, q, calls) {
      var i :| 0 <= i < |steps| && steps[i] == q;
    }
    r := Ok(calls);
  }

  lemma StillServed(steps: seq<Row>, requested: seq<Row>, k: nat, calls: map<int, seq<Message>>, messages: seq<Message>)
    requires Sorted(steps) && k < |steps|
    requires forall i :: 0 <= i < k && steps[i] in requested ==> Served(steps, steps[i], calls)
    requires Whole(steps, steps[k]) && messages == Rebuilt(steps, steps[k])
    ensures forall i :: 0 <= i <= k && steps[i] in requested ==> Served(steps, steps[i], calls[steps[k].ref := messages])
  {
    hide Whole, Rebuilt;
  }

  /** One past the last requested row. */
  method LastIndex(steps: seq<Row>, requested: seq<Row>) returns (last: nat)
    ensures last <= |steps| && forall i :: last <= i < |steps| ==> steps[i] !in requested
  {
    last := |steps|;
    while last > 0 && steps[last - 1] !in requested
      invariant last <= |steps|
      invariant forall i :: last <= i < |steps| ==> steps[i] !in requested
    {
      last := last - 1;
    }
  }

  lemma NoRows(steps: seq<Row>, first: int)
    ensures Current(steps[..0], first, None)
  {
  }

  lemma SkipRow(steps: seq<Row>, k: nat, first: int, head: Option<int>, ends: map<int, int>)
    requires k < |steps| && (steps[k].Other? || steps[k].ref < first)
    requires Current(steps[..k], first, head)
    ensures Current(steps[..k + 1], first, head)
    ensures head.Some? && head.value in ends ==>
              && Deltas(steps[..k + 1], head.value, ends[head.value]) == Deltas(steps[..k], head.value, ends[head.value])
              && (Continues(steps[..k], head.value, ends[head.value]) ==> Continues(steps[..k + 1], head.value, ends[head.value]))
  {
    assert steps[..k + 1] == steps[..k] + [steps[k]];
    if head.Some? && head.value in ends {
      SkipSpan(steps, k, head.value, ends[head.value]);
    }
  }

  lemma SkipSpan(steps: seq<Row>, k: nat, lo: int, hi: int)
    requires k < |steps| && !InSpan(steps[k], lo, hi)
    ensures Deltas(steps[..k + 1], lo, hi) == Deltas(steps[..k], lo, hi)
    ensures Continues(steps[..k], lo, hi) ==> Continues(steps[..k + 1], lo, hi)
  {
    DeltasStep(steps, k, lo, hi);
    assert steps[..k + 1] == steps[..k] + [steps[k]];
  }

  lemma KeepRow(steps: seq<Row>, k: nat, head: int, end: int)
    requires k < |steps| && InSpan(steps[k], head, end) && steps[k].head == head && Continues(steps[..k], head, end)
    ensures Continues(steps[..k + 1], head, end)
    ensures Deltas(steps[..k + 1], head, end) == Deltas(steps[..k], head, end) + steps[k].delta
  {
    DeltasStep(steps, k, head, end);
    assert steps[..k + 1] == steps[..k] + [steps[k]];
  }

  /** The active baseline after a model row: the row itself, or the one before. */
  lemma NextRow(steps: seq<Row>, k: nat, first: int, head: Option<int>, ends: map<int, int>)
    requires Sorted(steps) && k < |steps| && steps[k].Model? && first <= steps[k].ref
    requires if steps[k].head == steps[k].ref then head == Some(steps[k].ref) else Current(steps[..k], first, head)
    ensures Current(steps[..k + 1], first, head)
    ensures head.Some? ==> head.value <= steps[k].ref
    ensures head.Some? && head.value in ends && steps[k].ref > ends[head.value] ==>
              && Deltas(steps[..k + 1], head.value, ends[head.value]) == Deltas(steps[..k], head.value, ends[head.value])
              && (Continues(steps[..k], head.value, ends[head.value]) ==> Continues(steps[..k + 1], head.value, ends[head.value]))
  {
    hide Deltas, Continues;
    var row := steps[k];
    if head.Some? && head.value in ends && row.ref > ends[head.value] {
      SkipSpan(steps, k, head.value, ends[head.value]);
    }
    assert steps[..k + 1] == steps[..k] + [row];
    if row.head == row.ref {
      assert row in steps[..k + 1] && Baseline(steps[..k + 1], row.ref);
    } else if head.Some? {
      var b :| b in steps[..k] && b.Model? && b.ref == b.head == head.value;
      assert b in steps[..k + 1];
      var i :| 0 <= i < k && steps[i] == b;
    }
  }

  ghost predicate Served(steps: seq<Row>, q: Row, calls: map<int, seq<Message>>) {
    Whole(steps, q) && q.ref in calls && calls[q.ref] == Rebuilt(steps, q)
  }

  method FirstHead(requested: seq<Row>) returns (first: int)
    requires requested != [] && forall q :: q in requested ==> q.Model?
    ensures forall q :: q in requested ==> first <= q.head
  {
    first := requested[0].head;
    var i := 1;
    while i < |requested|
      invariant 1 <= i <= |requested|
      invariant forall q :: q in requested[..i] ==> first <= q.head
    {
      if requested[i].head < first {
        first := requested[i].head;
      }
      i := i + 1;
    }
    assert requested[..i] == requested;
  }

  /** Before a new baseline nothing belongs to its chain. */
  lemma FreshChain(steps: seq<Row>, k: nat, head: int, end: int)
    requires Sorted(steps) && 0 < k <= |steps| && steps[k - 1].ref == head
    ensures Deltas(steps[..k - 1], head, end) == [] && Continues(steps[..k - 1], head, end)
  {
    DeltasPrefix(steps[..k - 1], 0, head, end);
  }

  lemma NotReachable(steps: seq<Row>, k: nat, first: int, head: Option<int>, row: Row)
    requires Sorted(steps) && 0 < k <= |steps| && row == steps[k - 1] && row.Model? && first <= row.head
    requires Current(steps[..k], first, head) && head != Some(row.head)
    ensures !Whole(steps, row)
  {
    if row.head <= row.ref && Baseline(steps, row.head) {
      var b :| b in steps && b.Model? && b.ref == b.head == row.head;
      var i :| 0 <= i < |steps| && steps[i] == b;
      assert steps[..k][i] == b;
      assert head.Some? && b.ref <= head.value;
      var c :| c in steps[..k] && c.Model? && c.ref == c.head == head.value;
      var j :| 0 <= j < k && steps[..k][j] == c;
      NotWhole(steps, c, row);
    }
  }

  lemma NotWhole(steps: seq<Row>, row: Row, q: Row)
    requires row in steps && q.Model? && InSpan(row, q.head, q.ref) && row.head != q.head
    ensures !Whole(steps, q)
  {
  }

  lemma Reached(steps: seq<Row>, k: nat, row: Row, end: int)
    requires Sorted(steps) && 0 < k <= |steps| && row == steps[k - 1] && row.Model?
    requires row.head <= row.ref <= end && Baseline(steps, row.head)
    requires Continues(steps[..k], row.head, end)
    ensures Whole(steps, row) && Deltas(steps[..k], row.head, end) == Rebuilt(steps, row)
  {
    forall r | r in steps && InSpan(r, row.head, row.ref) ensures r.head == row.head {
      var i :| 0 <= i < |steps| && steps[i] == r;
      assert steps[..k][i] == r && InSpan(r, row.head, end);
    }
    DeltasPrefix(steps, k, row.head, row.ref);
    SameSpan(steps[..k], row.head, end, row.ref);
  }

  lemma {:induction false} SameSpan(steps: seq<Row>, lo: int, hi: int, hiNext: int)
    requires forall r :: r in steps ==> InSpan(r, lo, hi) == InSpan(r, lo, hiNext)
    ensures Deltas(steps, lo, hi) == Deltas(steps, lo, hiNext)
  {
    if steps != [] {
      SameSpan(steps[..|steps| - 1], lo, hi, hiNext);
    }
  }
  // ---------------------------------------------------------------------
  // Capture
  // ---------------------------------------------------------------------

  /** The last model row ranked below `ref`. */
  function Preceding(steps: seq<Row>, ref: int): (p: Option<Row>)
    ensures p.Some? ==> p.value.Model? && p.value in steps
  {
    if steps == [] then None
    else
      var row := steps[|steps| - 1];
      if row.Model? && row.ref < ref then Some(row) else Preceding(steps[..|steps| - 1], ref)
  }

  /** The first model row ranked above `ref`. */
  function Following(steps: seq<Row>, ref: int): (n: Option<Row>)
    ensures n.Some? ==> n.value.Model? && n.value in steps
  {
    if steps == [] then None
    else if steps[0].Model? && steps[0].ref > ref then Some(steps[0]) else Following(steps[1..], ref)
  }

  function Metas(messages: seq<Message>): seq<string> {
    seq(|messages|, i requires 0 <= i < |messages| => messages[i].meta)
  }

  function Suffix(messages: seq<Message>, n: nat): seq<Message>
    requires n <= |messages|
  {
    messages[|messages| - n..]
  }

  /** The checks of `capture_model_call`, in its order. */
  function Admit(steps: seq<Row>, ref: int, head: int, templates: seq<string>, call: seq<Message>): Result<Row, Error> {
    if |templates| > |call| then Err(DeltaTooLong)
    else
      var added := Suffix(call, |templates|);
      if Metas(added) != templates then Err(MetadataDiffers)
      else if head > ref then Err(HeadNotEarlier)
      else if head != ref then
        var previous := Preceding(steps, ref);
        if previous.None? || previous.value.head != head then Err(NotContinuing)
        else Ok(Model(ref, head, added))
      else if |templates| != |call| then Err(Incomplete)
      else Ok(Model(ref, head, added))
  }

  /** The templates are the metadata of the last messages of the call. */
  predicate Describes(templates: seq<string>, call: seq<Message>) {
    && |templates| <= |call|
    && forall i :: 0 <= i < |templates| ==> templates[i] == call[|call| - |templates| + i].meta
  }

  /** Of the model rows ranked before `ref`, the last one has this head. */
  ghost predicate FollowsHead(steps: seq<Row>, ref: int, head: int) {
    exists row :: row in steps && LastBefore(steps, ref, row) && row.head == head
  }

  predicate LastBefore(steps: seq<Row>, ref: int, row: Row) {
    && row.Model? && row.ref < ref
    && forall other :: other in steps && other.Model? && other.ref < ref ==> other.ref <= row.ref
  }

  /** Which captures are admitted, and which of the refusals any other gets. */
  lemma AdmitExactly(steps: seq<Row>, ref: int, head: int, templates: seq<string>, call: seq<Message>)
    requires Sorted(steps)
    ensures var r := Admit(steps, ref, head, templates, call);
            && (r.Ok? <==>
                  && Describes(templates, call)
                  && ((head == ref && |templates| == |call|) || (head < ref && FollowsHead(steps, ref, head))))
            && (r.Ok? ==> r.value == Model(ref, head, call[|call| - |templates|..]))
            && (r == Err(DeltaTooLong) <==> |templates| > |call|)
            && (r == Err(MetadataDiffers) <==> |templates| <= |call| && !Describes(templates, call))
            && (r == Err(HeadNotEarlier) <==> Describes(templates, call) && head > ref)
            && (r == Err(NotContinuing) <==> Describes(templates, call) && head < ref && !FollowsHead(steps, ref, head))
            && (r == Err(Incomplete) <==> Describes(templates, call) && head == ref && |templates| != |call|)
  {
    hide Preceding, Sorted, FollowsHead;
    if |templates| <= |call| {
      MetasDescribe(templates, call);
    }
    PrecedingFollows(steps, ref, head);
  }

  lemma PrecedingFollows(steps: seq<Row>, ref: int, head: int)
    requires Sorted(steps)
    ensures FollowsHead(steps, ref, head) <==>
            Preceding(steps, ref).Some? && Preceding(steps, ref).value.head == head
  {
    hide Preceding, Sorted;
    PrecedingLast(steps, ref);
    if FollowsHead(steps, ref, head) {
      var row :| row in steps && LastBefore(steps, ref, row) && row.head == head;
      OneLast(steps, ref, row, Preceding(steps, ref).value);
    }
  }

  lemma MetasDescribe(templates: seq<string>, call: seq<Message>)
    requires |templates| <= |call|
    ensures Metas(Suffix(call, |templates|)) == templates <==> Describes(templates, call)
  {
    var metas := Metas(Suffix(call, |templates|));
    assert |metas| == |templates|;
    if metas == templates {
      forall i | 0 <= i < |templates| ensures templates[i] == call[|call| - |templates| + i].meta {
        assert metas[i] == templates[i];
      }
    }
  }

  /** `Preceding` finds the last model row before a rank. */
  lemma {:induction false} PrecedingLast(steps: seq<Row>, ref: int)
    requires Sorted(steps)
    ensures var p := Preceding(steps, ref);
            && (p.None? ==> forall row :: row in steps && row.Model? ==> row.ref >= ref)
            && (p.Some? ==> LastBefore(steps, ref, p.value))
  {
    if steps != [] {
      var init, row := steps[..|steps| - 1], steps[|steps| - 1];
      assert steps == init + [row];
      PrecedingLast(init, ref);
    }
  }

  lemma OneLast(steps: seq<Row>, ref: int, a: Row, b: Row)
    requires Sorted(steps) && a in steps && b in steps && LastBefore(steps, ref, a) && LastBefore(steps, ref, b)
    ensures a == b
  {
    var i :| 0 <= i < |steps| && steps[i] == a;
    var j :| 0 <= j < |steps| && steps[j] == b;
  }

  function Insert(steps: seq<Row>, row: Row): seq<Row> {
    if steps == [] then [row]
    else if steps[|steps| - 1].ref < row.ref then steps + [row]
    else Insert(steps[..|steps| - 1], row) + [steps[|steps| - 1]]
  }

  /** A non-head call is the preceding call followed by its own delta. */
  ghost predicate ExtendsPrevious(steps: seq<Row>, captured: map<int, seq<Message>>, ref: int, head: int,
                                  delta: nat, call: seq<Message>)
  {
    head != ref ==>
      var p := Preceding(steps, ref);
      && p.Some? && p.value.ref in captured && delta <= |call|
      && call == captured[p.value.ref] + Suffix(call, delta)
  }

  /** Every stored chain is whole and rebuilds the messages captured for it. */
  ghost predicate Exact(steps: seq<Row>, captured: map<int, seq<Message>>) {
    forall r :: r in steps && r.Model? ==> RowExact(steps, captured, r)
  }

  ghost predicate RowExact(steps: seq<Row>, captured: map<int, seq<Message>>, r: Row) {
    Whole(steps, r) && r.ref in captured && Rebuilt(steps, r) == captured[r.ref]
  }

  /**
   A capture lands safely unless the next model row already continues a chain
   that the new row would cut, or into which it would add messages.
   */
  predicate LandsSafely(steps: seq<Row>, row: Row) {
    var next := Following(steps, row.ref);
    || next.None?
    || next.value.head == next.value.ref
    || (row.Model? && row.head != row.ref && row.delta == [])
  }

  lemma {:induction false} PrecedingIs(steps: seq<Row>, ref: int)
    requires Sorted(steps)
    ensures Preceding(steps, ref).Some? ==>
              var p := Preceding(steps, ref).value;
              p.ref < ref && forall r :: r in steps && r.Model? && r.ref < ref ==> r.ref <= p.ref
    ensures Preceding(steps, ref).None? ==> forall r :: r in steps && r.Model? ==> r.ref >= ref
  {
    if steps != [] {
      PrecedingIs(steps[..|steps| - 1], ref);
      assert steps == steps[..|steps| - 1] + [steps[|steps| - 1]];
    }
  }

  lemma {:induction false} FollowingIs(steps: seq<Row>, ref: int)
    requires Sorted(steps)
    ensures Following(steps, ref).Some? ==>
              var n := Following(steps, ref).value;
              n.ref > ref && forall r :: r in steps && r.Model? && r.ref > ref ==> n.ref <= r.ref
    ensures Following(steps, ref).None? ==> forall r :: r in steps && r.Model? ==> r.ref <= ref
  {
    if steps != [] {
      FollowingIs(steps[1..], ref);
      assert steps == [steps[0]] + steps[1..];
    }
  }

  lemma {:induction false} InsertIs(steps: seq<Row>, row: Row)
    requires Sorted(steps) && forall r :: r in steps ==> r.ref != row.ref
    ensures Sorted(Insert(steps, row))
    ensures forall r :: r in Insert(steps, row) <==> r in steps || r == row
  {
    if steps != [] && steps[|steps| - 1].ref >= row.ref {
      var init, last := steps[..|steps| - 1], steps[|steps| - 1];
      InsertIs(init, row);
      assert steps == init + [last];
      var front := Insert(init, row);
      forall i | 0 <= i < |front| ensures front[i].ref < last.ref {
        assert front[i] in front;
      }
    }
  }

  /** Inserting a row splices its delta into every span that contains it. */
  lemma {:induction false} InsertDeltas(steps: seq<Row>, row: Row, lo: int, hi: int)
    requires Sorted(steps) && forall r :: r in steps ==> r.ref != row.ref
    ensures !InSpan(row, lo, hi) ==> Deltas(Insert(steps, row), lo, hi) == Deltas(steps, lo, hi)
    ensures InSpan(row, lo, hi) ==>
              && |Deltas(Insert(steps, row), lo, hi)| == |Deltas(steps, lo, hi)| + |row.delta|
              && (row.delta == [] ==> Deltas(Insert(steps, row), lo, hi) == Deltas(steps, lo, hi))
    ensures row.Model? && row.ref == hi && lo <= hi ==>
              Deltas(Insert(steps, row), lo, hi) == Deltas(steps, lo, hi) + row.delta
  {
    hide Deltas;
    if steps == [] {
      DeltasSnoc([], row, lo, hi);
      assert [] + [row] == [row];
    } else {
      var init, last := steps[..|steps| - 1], steps[|steps| - 1];
      assert steps == init + [last] && last in steps;
      if last.ref < row.ref {
        DeltasSnoc(steps, row, lo, hi);
      } else {
        InsertDeltas(init, row, lo, hi);
        DeltasSnoc(init, last, lo, hi);
        DeltasSnoc(Insert(init, row), last, lo, hi);
      }
    }
  }

  /** Rows not spanning the new one keep their chain and their rebuilt call. */
  lemma OutsideKeeps(steps: seq<Row>, row: Row, r: Row)
    requires Sorted(steps) && (forall q :: q in steps ==> q.ref != row.ref)
    requires r in steps && Whole(steps, r) && row.Model?
    requires InSpan(row, r.head, r.ref) ==> row.head == r.head && row.delta == []
    ensures Whole(Insert(steps, row), r) && Rebuilt(Insert(steps, row), r) == Rebuilt(steps, r)
  {
    InsertIs(steps, row);
    InsertDeltas(steps, row, r.head, r.ref);
    var b :| b in steps && b.Model? && b.ref == b.head == r.head;
    assert b in Insert(steps, row);
  }

  lemma NewRowIsExact(steps: seq<Row>, captured: map<int, seq<Message>>, ref: int, head: int,
                      templates: seq<string>, call: seq<Message>)
    requires Sorted(steps) && Exact(steps, captured) && forall r :: r in steps ==> r.ref != ref
    requires Admit(steps, ref, head, templates, call).Ok?
    requires ExtendsPrevious(steps, captured, ref, head, |templates|, call)
    ensures var row := Admit(steps, ref, head, templates, call).value;
            Whole(Insert(steps, row), row) && Rebuilt(Insert(steps, row), row) == call
  {
    hide Deltas, Insert;
    var row := Admit(steps, ref, head, templates, call).value;
    InsertIs(steps, row);
    InsertDeltas(steps, row, head, ref);
    if head == ref {
      assert row in Insert(steps, row);
      NothingAt(steps, ref);
    } else {
      PrecedingIs(steps, ref);
      var p := Preceding(steps, ref).value;
      assert RowExact(steps, captured, p) && p.head == head;
      var b :| b in steps && b.Model? && b.ref == b.head == head;
      assert b in Insert(steps, row);
      SameSpan(steps, head, ref, p.ref);
    }
  }

  lemma NothingAt(steps: seq<Row>, ref: int)
    requires forall r :: r in steps ==> r.ref != ref
    ensures Deltas(steps, ref, ref) == []
  {
    DeltasPrefix(steps, 0, ref, ref);
  }

  /**
   When each call extends the preceding one by its delta, a capture keeps every
   stored call exactly rebuildable if and only if it lands safely. Captures in
   execution order always do.
   */
  lemma CaptureKeepsExact(steps: seq<Row>, captured: map<int, seq<Message>>, ref: int, head: int,
                          templates: seq<string>, call: seq<Message>)
    requires Sorted(steps) && Exact(steps, captured) && forall r :: r in steps ==> r.ref != ref
    requires Admit(steps, ref, head, templates, call).Ok?
    requires ExtendsPrevious(steps, captured, ref, head, |templates|, call)
    ensures var row := Admit(steps, ref, head, templates, call).value;
            Exact(Insert(steps, row), captured[ref := call]) <==> LandsSafely(steps, row)
  {
    hide Deltas, Insert, Whole, Rebuilt, Preceding;
    var row := Admit(steps, ref, head, templates, call).value;
    var stepsNext := Insert(steps, row);
    InsertIs(steps, row);
    FollowingIs(steps, ref);
    if LandsSafely(steps, row) {
      forall r | r in stepsNext && r.Model? ensures RowExact(stepsNext, captured[ref := call], r) {
        if r == row {
          NewRowIsExact(steps, captured, ref, head, templates, call);
        } else {
          assert RowExact(steps, captured, r);
          SafeForOther(steps, captured, row, r);
          OutsideKeeps(steps, row, r);
        }
      }
    } else {
      var next := Following(steps, ref).value;
      Unsafe(steps, captured, row, next);
      assert next in stepsNext;
    }
  }

  lemma SafeForOther(steps: seq<Row>, captured: map<int, seq<Message>>, row: Row, r: Row)
    requires Sorted(steps) && Exact(steps, captured) && (forall q :: q in steps ==> q.ref != row.ref)
    requires row.Model? && LandsSafely(steps, row) && r in steps && r.Model?
    requires row.head != row.ref ==> Preceding(steps, row.ref).Some? && Preceding(steps, row.ref).value.head == row.head
    ensures InSpan(row, r.head, r.ref) ==> row.head == r.head && row.delta == []
  {
    if InSpan(row, r.head, r.ref) {
      FollowingIs(steps, row.ref);
      PrecedingIs(steps, row.ref);
      var next := Following(steps, row.ref).value;
      assert RowExact(steps, captured, r) && RowExact(steps, captured, next) && InSpan(next, r.head, r.ref);
      var b :| b in steps && b.Model? && b.ref == b.head == r.head;
      var p := Preceding(steps, row.ref).value;
      assert InSpan(p, r.head, r.ref);
    }
  }

  lemma Unsafe(steps: seq<Row>, captured: map<int, seq<Message>>, row: Row, next: Row)
    requires Sorted(steps) && Exact(steps, captured) && (forall q :: q in steps ==> q.ref != row.ref)
    requires row.Model? && next in steps && next.Model? && next.ref > row.ref && next.head != next.ref
    requires forall q :: q in steps && q.Model? && q.ref > row.ref ==> next.ref <= q.ref
    requires row.head == row.ref || row.delta != []
    ensures !(Whole(Insert(steps, row), next) && Rebuilt(Insert(steps, row), next) == captured[next.ref])
  {
    InsertIs(steps, row);
    InsertDeltas(steps, row, next.head, next.ref);
    assert RowExact(steps, captured, next);
    var b :| b in steps && b.Model? && b.ref == b.head == next.head;
    assert InSpan(row, next.head, next.ref) && row in Insert(steps, row);
  }

  /** The step table of one Run. The ghost map remembers every captured call. */
  class ModelCallStore {
    var steps: seq<Row>
    ghost var captured: map<int, seq<Message>>

    ghost predicate Valid()
      reads this
    {
      Sorted(steps)
    }

    constructor ()
      ensures Valid() && Exact(steps, captured)
    {
      steps, captured := [], map[];
    }

    method Capture(ref: int, head: int, templates: seq<string>, call: seq<Message>) returns (r: Result<Row, Error>)
      requires Valid() && forall row :: row in steps ==> row.ref != ref
      modifies this
      ensures Valid()
      ensures r.Ok? <==>
                && Describes(templates, call)
                && ((head == ref && |templates| == |call|) || (head < ref && FollowsHead(old(steps), ref, head)))
      ensures r.Ok? ==> r.value == Model(ref, head, call[|call| - |templates|..])
      ensures r == Admit(old(steps), ref, head, templates, call)
      ensures r.Err? ==> steps == old(steps) && captured == old(captured)
      ensures r.Ok? ==> steps == Insert(old(steps), r.value) && captured == old(captured)[ref := call]
      ensures r.Ok? && old(Exact(steps, captured)) && ExtendsPrevious(old(steps), old(captured), ref, head, |templates|, call)
              ==> (Exact(steps, captured) <==> LandsSafely(old(steps), r.value))
    {
      r := Admit(steps, ref, head, templates, call);
      AdmitExactly(steps, ref, head, templates, call);
      hide FollowsHead, Describes, Admit;
      if r.Ok? {
        InsertIs(steps, r.value);
        if Exact(steps, captured) && ExtendsPrevious(steps, captured, ref, head, |templates|, call) {
          CaptureKeepsExact(steps, captured, ref, head, templates, call);
        }
        steps, captured := Insert(steps, r.value), captured[ref := call];
      }
    }

    /** Rebuilding any batch of captured calls gives back exactly what was captured. */
    method RebuildCaptured(requested: seq<Row>) returns (r: Result<map<int, seq<Message>>, Error>)
      requires Valid() && Exact(steps, captured)
      requires forall q :: q in requested ==> q in steps && q.Model?
      ensures r.Ok? && forall q :: q in requested ==> q.ref in r.value && r.value[q.ref] == captured[q.ref]
    {
      forall q | q in requested ensures RowExact(steps, captured, q) {
      }
      r := Rebuild(steps, requested);
    }
  }

  /** The unsafe case is real: captured late, an earlier Step changes a later call. */
  lemma LateCaptureChangesLaterCall(a: Message, b: Message, c: Message)
    ensures var steps := [Model(1, 1, [a]), Model(3, 1, [b])];
            var row := Model(2, 1, [c]);
            && Admit(steps, 2, 1, [c.meta], [a, c]) == Ok(row)
            && Whole(steps, steps[1]) && Whole(Insert(steps, row), steps[1])
            && Rebuilt(steps, steps[1]) == [a, b] && Rebuilt(Insert(steps, row), steps[1]) == [a, c, b]
  {
    hide Deltas, Admit, Preceding;
    LateAdmitted(a, b, c);
    var first, row, last := Model(1, 1, [a]), Model(2, 1, [c]), Model(3, 1, [b]);
    var steps := [first, last];
    assert steps[..1] == [first];
    assert Insert([first], row) == [first, row];
    var stepsNext := Insert(steps, row);
    assert stepsNext == [first, row, last];
    assert first in steps && first in stepsNext;
    DeltasSnoc([], first, 1, 3);
    DeltasSnoc([first], row, 1, 3);
    DeltasSnoc([first], last, 1, 3);
    DeltasSnoc([first, row], last, 1, 3);
    assert [] + [first] == [first] && [first] + [last] == steps && [first, row] + [last] == stepsNext;
  }

  lemma LateAdmitted(a: Message, b: Message, c: Message)
    ensures Admit([Model(1, 1, [a]), Model(3, 1, [b])], 2, 1, [c.meta], [a, c]) == Ok(Model(2, 1, [c]))
  {
    var steps := [Model(1, 1, [a]), Model(3, 1, [b])];
    assert steps[..1] == [Model(1, 1, [a])];
    assert Preceding(steps, 2) == Some(Model(1, 1, [a]));
    assert Suffix([a, c], 1) == [c] && Metas([c]) == [c.meta];
  }
}
