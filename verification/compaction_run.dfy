/**
 The durable side of compaction: the loop that drives the state machine records
 every batch as a read Step followed by a model Step, and a checkpoint accepts
 such a record only when its succeeded pairs tile the unit manifest. Whatever
 the provider answers and wherever the process stops, the loop ends and the
 record it leaves can be resumed without repeating or losing a unit.
 */
module CompactionRun {
  import opened Common
  import opened Compaction

  datatype Status = Running | Succeeded | Failed | Canceled

  /** A position among the Steps of the compacting Run. */
  type Place = nat

  /** What a read returns: the units it read, their roots, and the call that carries their content. */
  datatype Reading = Reading(roots: seq<string>, units: seq<Ref>, content: Place)

  /** A model Step with its captured call; `text` is its usable output. */
  datatype Capture = Capture(ref: Place, model: string, setup: string, head: Place, tools: bool, text: Option<string>)

  /** `Read` is a call of the runtime's own read tool for these units. */
  datatype Step =
    | Read(units: seq<Ref>, status: Status, output: Option<Reading>)
    | Model(status: Status, call: Capture)
    | Other

  /** What the compacting Run was asked for: a stretch of units, the summary to go on from, and the policy. */
  datatype Request = Request(
    units: seq<Ref>, begin: nat, stop: nat, summary: string, model: string, setup: string, root: Ref -> string)

  datatype Refusal = MissingRead | InvalidPair | NotContiguous | InvalidContent | InvalidOutput

  predicate Counted(s: Step) {
    s.Model? && s.status.Succeeded?
  }

  /** A succeeded read, and a call made as the request says and starting its own messages. */
  predicate AsAsked(q: Request, read: Step, call: Capture) {
    && read.Read? && read.status.Succeeded?
    && call.model == q.model && call.setup == q.setup && call.head == call.ref
  }

  function Named(q: Request, batch: seq<Ref>, content: Place): Reading {
    Reading(seq(|batch|, i requires 0 <= i < |batch| => q.root(batch[i])), batch, content)
  }

  /** The read names its units and the call that follows it. */
  predicate Refers(q: Request, read: Step, call: Capture)
    requires read.Read?
  {
    read.output == Some(Named(q, read.units, call.ref))
  }

  /** Text, from a call that was offered no tools. */
  predicate Textual(call: Capture) {
    !call.tools && call.text.Some?
  }

  /** The units of all succeeded batches, in order. */
  function Covered(steps: seq<Step>): seq<Ref> {
    if steps == [] then []
    else
      var n := |steps| - 1;
      Covered(steps[..n]) + if Counted(steps[n]) && n > 0 && steps[n - 1].Read? then steps[n - 1].units else []
  }

  /** The summary to go on from: the last succeeded batch's, or the one the run began with. */
  function Latest(steps: seq<Step>, first: string): string {
    if steps == [] then first
    else
      var n := |steps| - 1;
      if Counted(steps[n]) && steps[n].call.text.Some? then steps[n].call.text.value else Latest(steps[..n], first)
  }

  lemma LatestSnoc(steps: seq<Step>, step: Step, first: string)
    ensures Latest(steps + [step], first) ==
            if Counted(step) && step.call.text.Some? then step.call.text.value else Latest(steps, first)
  {
    assert (steps + [step])[..|steps|] == steps;
  }

  /** The pair ending at `i` was captured as requested and continues the manifest at `cursor`. */
  predicate PairAt(q: Request, steps: seq<Step>, i: nat, cursor: nat)
    requires i < |steps|
  {
    && i > 0 && steps[i].Model? && AsAsked(q, steps[i - 1], steps[i].call)
    && Continues(q, steps[i - 1].units, cursor)
    && Refers(q, steps[i - 1], steps[i].call) && Textual(steps[i].call)
  }

  predicate Continues(q: Request, batch: seq<Ref>, cursor: nat) {
    batch != [] && cursor + |batch| <= q.stop <= |q.units| && batch == q.units[cursor..cursor + |batch|]
  }

  ghost predicate Sound(q: Request, steps: seq<Step>) {
    forall i :: 0 <= i < |steps| ==> SoundAt(q, steps, i)
  }

  ghost predicate SoundAt(q: Request, steps: seq<Step>, i: nat)
    requires i < |steps|
  {
    Counted(steps[i]) ==> PairAt(q, steps, i, q.begin + |Covered(steps[..i])|)
  }

  /** Validate a record against its manifest, and find where it stops and with which summary. */
  method ReadCheckpoint(q: Request, steps: seq<Step>) returns (r: Result<(nat, string), Refusal>)
    requires q.stop <= |q.units|
    ensures r.Ok? <==> Sound(q, steps)
    ensures r.Ok? ==> r.value == (q.begin + |Covered(steps)|, Latest(steps, q.summary))
  {
    hide Covered, SoundAt, Latest;
    CoveredNothing(q.summary);
    var cursor, summary := q.begin, q.summary;
    var i := 0;
    while i < |steps|
      invariant 0 <= i <= |steps|
      invariant cursor == q.begin + |Covered(steps[..i])| && summary == Latest(steps[..i], q.summary)
      invariant forall j :: 0 <= j < i ==> SoundAt(q, steps, j)
    {
      CoveredStep(steps, i);
      SoundAtIs(q, steps, i);
      assert steps[..i + 1] == steps[..i] + [steps[i]];
      LatestSnoc(steps[..i], steps[i], q.summary);
      var step := steps[i];
      if Counted(step) {
        if i == 0 {
          return Err(MissingRead);
        }
        var read, call := steps[i - 1], step.call;
        if !read.Read? || !read.status.Succeeded?
           || call.model != q.model || call.setup != q.setup || call.head != call.ref {
          return Err(InvalidPair);
        }
        var batch := read.units;
        if batch == [] || cursor + |batch| > q.stop || batch != q.units[cursor..cursor + |batch|] {
          return Err(NotContiguous);
        }
        var roots := seq(|batch|, i requires 0 <= i < |batch| => q.root(batch[i]));
        if read.output != Some(Reading(roots, batch, call.ref)) {
          return Err(InvalidContent);
        }
        if call.tools || call.text.None? {
          return Err(InvalidOutput);
        }
        cursor, summary := cursor + |batch|, call.text.value;
      }
      i := i + 1;
    }
    assert steps[..i] == steps;
    r := Ok((cursor, summary));
  }

  /** An accepted record covers one contiguous stretch of the manifest, each unit once. */
  lemma {:induction false} CheckpointTiles(q: Request, steps: seq<Step>)
    requires Sound(q, steps)
    ensures Covered(steps) == [] || q.begin + |Covered(steps)| <= q.stop <= |q.units|
    ensures Covered(steps) != [] ==> Covered(steps) == q.units[q.begin..q.begin + |Covered(steps)|]
  {
    if steps == [] {
      CoveredNothing("");
    } else {
      hide Covered;
      var n := |steps| - 1;
      SoundPrefix(q, steps, n);
      CheckpointTiles(q, steps[..n]);
      assert steps[..n + 1] == steps;
      CoveredStep(steps, n);
      assert SoundAt(q, steps, n);
    }
  }

  lemma CoveredNothing(first: string)
    ensures Covered([]) == [] && Latest([], first) == first
  {
  }

  lemma SoundAtIs(q: Request, steps: seq<Step>, i: nat)
    requires i < |steps|
    ensures SoundAt(q, steps, i)
       <==> (Counted(steps[i]) ==> PairAt(q, steps, i, q.begin + |Covered(steps[..i])|))
  {
  }

  lemma CoveredStep(steps: seq<Step>, i: nat)
    requires i < |steps|
    ensures Covered(steps[..i + 1]) == Covered(steps[..i])
         + if Counted(steps[i]) && i > 0 && steps[i - 1].Read? then steps[i - 1].units else []
  {
    assert steps[..i + 1][..i] == steps[..i];
  }

  lemma SoundPrefix(q: Request, steps: seq<Step>, n: nat)
    requires Sound(q, steps) && n <= |steps|
    ensures Sound(q, steps[..n])
  {
    forall i | 0 <= i < n ensures SoundAt(q, steps[..n], i) {
      assert steps[..n][..i] == steps[..i];
      assert SoundAt(q, steps, i);
    }
  }

  lemma AppendKeeps(q: Request, steps: seq<Step>, step: Step)
    requires Sound(q, steps)
    requires SoundAt(q, steps + [step], |steps|)
    ensures Sound(q, steps + [step])
  {
    forall i | 0 <= i < |steps| ensures SoundAt(q, steps + [step], i) {
      assert (steps + [step])[..i] == steps[..i];
      assert SoundAt(q, steps, i);
    }
  }

  /** Steps that do not succeed, and reads alone, change nothing. */
  lemma AppendUncounted(q: Request, steps: seq<Step>, step: Step)
    requires Sound(q, steps) && !Counted(step)
    ensures Sound(q, steps + [step]) && Covered(steps + [step]) == Covered(steps)
    ensures Latest(steps + [step], q.summary) == Latest(steps, q.summary)
  {
    hide Sound, Latest;
    LatestSnoc(steps, step, q.summary);
    AppendKeeps(q, steps, step);
    assert (steps + [step])[..|steps|] == steps;
  }

  /** The call captured for a request that goes into the next model Step. */
  function Asked(q: Request, place: Place, text: Option<string>): Capture {
    Capture(place, q.model, q.setup, place, false, text)
  }

  lemma AppendPair(q: Request, steps: seq<Step>, batch: seq<Ref>, place: Place, text: string)
    requires Sound(q, steps) && Continues(q, batch, q.begin + |Covered(steps)|)
    ensures var stepsNext := steps + [Read(batch, Succeeded, Some(Named(q, batch, place)))]
                             + [Model(Succeeded, Asked(q, place, Some(text)))];
            && Sound(q, stepsNext) && Covered(stepsNext) == Covered(steps) + batch
            && Latest(stepsNext, q.summary) == text
  {
    hide Sound, Named, Continues, Latest;
    var one := Read(batch, Succeeded, Some(Named(q, batch, place)));
    var read := steps + [one];
    var stepsNext := read + [Model(Succeeded, Asked(q, place, Some(text)))];
    AppendUncounted(q, steps, one);
    assert stepsNext[..|read|] == read;
    AppendKeeps(q, read, Model(Succeeded, Asked(q, place, Some(text))));
    LatestSnoc(read, Model(Succeeded, Asked(q, place, Some(text))), q.summary);
    assert stepsNext[..|read| + 1] == stepsNext;
    CoveredStep(stepsNext, |read|);
  }

  lemma NotCounted(step: Step)
    requires step.Read? || (step.Model? && step.status != Succeeded)
    ensures !Counted(step)
  {
  }

  /** Steps left running by an earlier process are canceled before going on. */
  function Settled(s: Step): Step {
    match s
    case Read(units, Running, output) => Read(units, Canceled, output)
    case Model(Running, call) => Model(Canceled, call)
    case _ => s
  }

  /** What was still running has been canceled. */
  function Stopped(status: Status): (after: Status)
    ensures after != Running && (status != Running ==> after == status)
  {
    if status == Running then Canceled else status
  }

  method SettleAll(steps: seq<Step>) returns (r: seq<Step>)
    ensures |r| == |steps| && forall i :: 0 <= i < |r| ==> r[i] == Settled(steps[i])
    ensures forall i :: 0 <= i < |r| ==>
              && (steps[i].Other? ==> r[i].Other?)
              && (steps[i].Read? ==> r[i] == Read(steps[i].units, Stopped(steps[i].status), steps[i].output))
              && (steps[i].Model? ==> r[i] == Model(Stopped(steps[i].status), steps[i].call))
  {
    r := seq(|steps|, i requires 0 <= i < |steps| => Settled(steps[i]));
  }

  lemma {:induction false} SettledCovers(steps: seq<Step>, settled: seq<Step>)
    requires |settled| == |steps| && forall i :: 0 <= i < |steps| ==> settled[i] == Settled(steps[i])
    ensures Covered(settled) == Covered(steps)
    ensures forall first :: Latest(settled, first) == Latest(steps, first)
  {
    if steps != [] {
      SettledCovers(steps[..|steps| - 1], settled[..|steps| - 1]);
    }
  }

  lemma SettledAt(q: Request, steps: seq<Step>, settled: seq<Step>, i: nat)
    requires |settled| == |steps| && i < |steps|
    requires forall i :: 0 <= i < |steps| ==> settled[i] == Settled(steps[i])
    requires SoundAt(q, steps, i)
    ensures SoundAt(q, settled, i)
  {
    SettledCovers(steps[..i], settled[..i]);
    hide Covered;
    if i > 0 {
      assert settled[i - 1] == Settled(steps[i - 1]);
    }
  }

  lemma SettledSound(q: Request, steps: seq<Step>, settled: seq<Step>)
    requires |settled| == |steps| && forall i :: 0 <= i < |steps| ==> settled[i] == Settled(steps[i])
    requires Sound(q, steps)
    ensures Sound(q, settled) && Covered(settled) == Covered(steps)
    ensures forall first :: Latest(settled, first) == Latest(steps, first)
  {
    SettledCovers(steps, settled);
    forall i | 0 <= i < |settled| ensures SoundAt(q, settled, i) {
      SettledAt(q, steps, settled, i);
    }
  }

  // ---------------------------------------------------------------------
  // The driving loop
  // ---------------------------------------------------------------------

  /** What happens to one request: an answer, an error, or the end of the process at some point of it. */
  datatype Reply =
    | Refused
    | ReadFails
    | CrashInRead
    | CrashBetween
    | Answer(response: Response)
    | Overflow(usage: Option<nat>)
    | OtherError
    | CrashInModel
    | CrashBeforeAccept(response: Response)

  function Refs(batch: seq<Unit>): seq<Ref> {
    seq(|batch|, i requires 0 <= i < |batch| => batch[i].ref)
  }

  // ---------------------------------------------------------------------
  // What a reply leads to
  // ---------------------------------------------------------------------

  /** What every request of the loop is made under. */
  datatype Settings = Settings(summary: string, target: nat, retries: nat, scale: real)

  /** A request as it was made: its units, what they are sent as, and its estimate. */
  datatype Ask = Ask(under: Settings, batch: seq<Unit>, sent: seq<string>, estimate: nat)

  /** The request is admitted, and is for these units under these settings. */
  predicate Admitted(env: Env, ask: Ask) {
    && ask.batch != [] && |ask.sent| == |ask.batch|
    && ask.estimate == env.base(Call(ask.under.summary, ask.sent, ask.under.target))
    && env.Fits(ask.estimate, ask.under.scale)
  }

  predicate Accepted(env: Env, ask: Ask, response: Response) {
    Usable(env, ask.under.target, ask.under.scale, ask.estimate, response)
  }

  /** The scale after an overflow: calibrated, and doubled for a lone unit. */
  function Raised(ask: Ask, usage: Option<nat>): real {
    Calibrated(ask.under.scale, ask.estimate, usage) * if |ask.batch| == 1 then 2.0 else 1.0
  }

  /**
   The loop goes on after the reply: a usable summary, one too large with a retry
   left, or an overflow of more than one unit or of one that can be shortened.
   */
  ghost predicate Goes(env: Env, ask: Ask, reply: Reply)
    requires Admitted(env, ask)
  {
    match reply
    case Answer(response) => Accepted(env, ask, response) || (response.text.Some? && ask.under.retries < 2)
    case Overflow(usage) =>
      |ask.batch| == 1 ==>
        Terms(env, ask.under.summary, ask.under.target, Raised(ask, usage)).Shortens(ask.sent[0])
    case _ => false
  }

  function Halved(target: nat): nat {
    if target / 2 < 1 then 1 else target / 2
  }

  /** What the next request is made under, where the loop goes on. */
  function Following(env: Env, ask: Ask, reply: Reply): Settings {
    match reply
    case Answer(response) =>
      if Accepted(env, ask, response) && response.text.Some?
      then Settings(response.text.value, ask.under.target, 0,
                    Calibrated(ask.under.scale, ask.estimate, response.usage))
      else Settings(ask.under.summary, Halved(ask.under.target), ask.under.retries + 1, ask.under.scale)
    case Overflow(usage) => ask.under.(scale := Raised(ask, usage))
    case _ => ask.under
  }

  /** The settings after some requests and the replies to them. */
  function Reached(env: Env, start: Settings, asks: seq<Ask>, replies: nat -> Reply): Settings {
    if asks == [] then start else Following(env, asks[|asks| - 1], replies(|asks| - 1))
  }

  /** Requests made one after the other, each under what the reply before it led to. */
  ghost predicate Led(env: Env, start: Settings, asks: seq<Ask>, replies: nat -> Reply) {
    forall i {:trigger asks[i]} :: 0 <= i < |asks| ==>
      && Admitted(env, asks[i]) && asks[i].under == Reached(env, start, asks[..i], replies)
      && Goes(env, asks[i], replies(i))
  }

  lemma LedSnoc(env: Env, start: Settings, asks: seq<Ask>, ask: Ask, replies: nat -> Reply)
    requires Led(env, start, asks, replies) && Admitted(env, ask) && Goes(env, ask, replies(|asks|))
    requires ask.under == Reached(env, start, asks, replies)
    ensures Led(env, start, asks + [ask], replies)
    ensures Reached(env, start, asks + [ask], replies) == Following(env, ask, replies(|asks|))
  {
    hide Admitted, Goes, Following;
    var all := asks + [ask];
    forall i {:trigger all[i]} | 0 <= i < |all|
      ensures Admitted(env, all[i]) && all[i].under == Reached(env, start, all[..i], replies)
      ensures Goes(env, all[i], replies(i))
    {
      assert all[..i] == asks[..i];
      if i == |asks| {
        assert asks[..i] == asks;
      }
    }
  }

  /** How the loop ends: with everything covered, unable to make a request, or given up after a reply. */
  datatype Ending = Finished | Unfit | GivenUp

  /** A unit, as it is or as far as it was shortened, that cannot begin a request under these settings. */
  predicate Unsendable(env: Env, under: Settings, text: string, cost: nat) {
    var t := Terms(env, under.summary, under.target, under.scale);
    !t.Shortens(text) && (!t.Alone(text) || !t.Room(cost))
  }

  /** Which ending it is, given what was asked and what came back. */
  ghost predicate Ends(env: Env, start: Settings, asks: seq<Ask>, replies: nat -> Reply, ending: Ending) {
    match ending
    case Finished => Led(env, start, asks, replies)
    case Unfit =>
      && Led(env, start, asks, replies)
      && exists text, cost :: Unsendable(env, Reached(env, start, asks, replies), text, cost)
    case GivenUp =>
      && asks != []
      && var n := |asks| - 1;
         && Led(env, start, asks[..n], replies) && Admitted(env, asks[n])
         && asks[n].under == Reached(env, start, asks[..n], replies) && !Goes(env, asks[n], replies(n))
  }

  // ---------------------------------------------------------------------
  // Replies that serve
  // ---------------------------------------------------------------------

  /** A text that fits the caller and leaves room to go on, with no measured usage to calibrate by. */
  predicate Serves(env: Env, target: nat, reply: Reply) {
    reply.Answer? && reply.response.usage.None? && Usable(env, target, 1.0, 0, reply.response)
  }

  /** Under every summary of the run each unit fits as it is, and every reply serves. */
  ghost predicate AllServe(env: Env, q: Request, start: Settings, replies: nat -> Reply) {
    && start.scale == 1.0
    && (forall k :: Serves(env, start.target, replies(k)))
    && AllFit(env, q, start.summary, start.target)
    && forall k :: replies(k).Answer? && replies(k).response.text.Some? ==>
         AllFit(env, q, replies(k).response.text.value, start.target)
  }

  ghost predicate AllFit(env: Env, q: Request, summary: string, target: nat) {
    forall r :: r in q.units ==> Terms(env, summary, target, 1.0).Easy(r)
  }

  /** What one request leaves in the record, from its reply; `place` is its model Step. */
  function Trail(env: Env, q: Request, ask: Ask, place: Place, reply: Reply): seq<Step> {
    var batch := Refs(ask.batch);
    var read := Read(batch, Succeeded, Some(Named(q, batch, place)));
    match reply
    case Refused => []
    case ReadFails => [Read(batch, Failed, None)]
    case CrashInRead => [Read(batch, Running, None)]
    case CrashBetween => [read]
    case CrashInModel => [read, Model(Running, Asked(q, place, None))]
    case Answer(response) => [read, Outcome(env, q, ask, place, response)]
    case CrashBeforeAccept(response) => [read, Outcome(env, q, ask, place, response)]
    case Overflow(_) => [read, Model(Failed, Asked(q, place, None))]
    case OtherError => [read, Model(Failed, Asked(q, place, None))]
  }

  /** A usable summary is recorded as succeeded, any other answer as failed. */
  function Outcome(env: Env, q: Request, ask: Ask, place: Place, response: Response): Step {
    if Accepted(env, ask, response) then Model(Succeeded, Asked(q, place, response.text))
    else Model(Failed, Asked(q, place, None))
  }

  /** What all requests leave, from a record of this length on. */
  function Trails(env: Env, q: Request, before: nat, asks: seq<Ask>, replies: nat -> Reply): seq<Step> {
    if asks == [] then []
    else
      var n := |asks| - 1;
      var sofar := Trails(env, q, before, asks[..n], replies);
      sofar + Trail(env, q, asks[n], before + |sofar| + 1, replies(n))
  }

  lemma TrailsNone(env: Env, q: Request, before: nat, replies: nat -> Reply)
    ensures Trails(env, q, before, [], replies) == []
  {
  }

  lemma TrailsSnoc(env: Env, q: Request, before: nat, asks: seq<Ask>, ask: Ask, replies: nat -> Reply)
    ensures var sofar := Trails(env, q, before, asks, replies);
            Trails(env, q, before, asks + [ask], replies) ==
            sofar + Trail(env, q, ask, before + |sofar| + 1, replies(|asks|))
  {
    hide Trail;
    var all := asks + [ask];
    assert all[..|asks|] == asks && all[|asks|] == ask;
  }

  // ---------------------------------------------------------------------
  // The loop
  // ---------------------------------------------------------------------

  function SettingsOf(c: Compactor): Settings
    reads c`summary, c`target, c`retries, c`scale
  {
    Settings(c.summary, c.target, c.retries, c.scale)
  }

  ghost function AskOf(c: Compactor): Ask
    reads c, c.reader
    requires c.Valid()
  {
    Ask(SettingsOf(c), c.batch, Contents(c.serialized, c.batch), c.estimate)
  }

  lemma AskAdmitted(c: Compactor)
    requires c.Valid() && c.pending.Some?
    ensures Admitted(c.env, AskOf(c)) && AskOf(c).under == SettingsOf(c)
  {
    hide Env.Fits;
  }

  /**
   One process working on a compaction: read the checkpoint, go on from its
   summary, and drive the state machine until it is done, cannot make a request,
   or gives up. It ends for every sequence of replies, and the record it leaves is
   again a sound checkpoint that has only grown; when it finishes, exactly the
   manifest up to `stop` is covered, and the result is the summary a checkpoint
   would give. It gives up only after a reply it cannot go on from, and where every
   reply serves it finishes.
   */
  method Execute(env: Env, q: Request, size: nat, record: seq<Step>, replies: nat -> Reply)
      returns (steps: seq<Step>, ending: Ending, summary: string, ghost start: Settings, ghost asks: seq<Ask>)
    requires env.Valid() && size > 0 && q.begin <= q.stop <= |q.units|
    requires Sound(q, record)
    ensures Sound(q, steps)
    ensures Covered(record) <= Covered(steps)
    ensures |record| <= |steps| && forall i :: 0 <= i < |record| ==> steps[i] == Settled(record[i])
    ensures steps[|record|..] == Trails(env, q, |record|, asks, replies)
    ensures ending.Finished? ==> q.begin + |Covered(steps)| == q.stop && Covered(steps) == q.units[q.begin..q.stop]
    ensures ending.Finished? ==> summary == Latest(steps, q.summary)
    ensures start == Settings(Latest(record, q.summary), FirstTarget(env, size), 0, 1.0)
    ensures Ends(env, start, asks, replies, ending)
    ensures AllServe(env, q, start, replies) ==> ending.Finished?
  {
    CheckpointTiles(q, record);
    var checkpoint := ReadCheckpoint(q, record);
    hide *;
    var cursor := checkpoint.value.0;
    steps := SettleAll(record);
    SettledSound(q, record, steps);
    var reducer := new Compactor(env, q.units[cursor..q.stop], size, checkpoint.value.1);
    start := SettingsOf(reducer);
    steps, ending, asks := Drive(reducer, q, cursor, steps, replies);
    summary := reducer.summary;
  }

  method Drive(reducer: Compactor, q: Request, cursor: nat, record: seq<Step>, replies: nat -> Reply)
      returns (steps: seq<Step>, ending: Ending, ghost asks: seq<Ask>)
    requires reducer.Valid() && q.begin <= cursor <= q.stop <= |q.units|
    requires reducer.pending.None? && reducer.Plain()
    requires reducer.reader.refs == q.units[cursor..q.stop]
    requires Sound(q, record) && q.begin + |Covered(record)| == cursor + reducer.accepted
    requires reducer.summary == Latest(record, q.summary)
    modifies reducer, reducer.reader
    ensures Sound(q, steps) && Covered(record) <= Covered(steps)
    ensures steps == record + Trails(reducer.env, q, |record|, asks, replies)
    ensures ending.Finished? ==> q.begin + |Covered(steps)| == q.stop && Covered(steps) == q.units[q.begin..q.stop]
    ensures ending.Finished? ==> reducer.summary == Latest(steps, q.summary)
    ensures Ends(reducer.env, old(SettingsOf(reducer)), asks, replies, ending)
    ensures AllServe(reducer.env, q, old(SettingsOf(reducer)), replies) ==> ending.Finished?
  {
    hide *;
    steps, asks := record, [];
    ghost var start := SettingsOf(reducer);
    ghost var serve := AllServe(reducer.env, q, start, replies);
    if serve {
      ServedAtFirst(reducer.env, q, start, replies);
    }
    Begins(reducer, q, cursor, record, start, replies);
    var k := 0;
    while true
      invariant reducer.Valid() && reducer.pending.None? && k == |asks|
      invariant Kept(reducer.env, q, record, start, steps, asks, replies)
      invariant Abreast(reducer, q, cursor, start, steps, asks, replies)
      invariant serve ==> reducer.Plain() && Served(reducer.env, q, start, SettingsOf(reducer))
      decreases reducer.Measure().0, reducer.Measure().1, reducer.Measure().2, reducer.Measure().3
    {
      ghost var was := reducer.Measure();
      var ended;
      steps, ended, asks := Round(reducer, q, cursor, record, start, steps, asks, replies, k);
      if ended.Some? {
        ending := ended.value;
        return;
      }
      BelowMeans(reducer.Measure(), was, was);
      k := k + 1;
    }
  }

  /** The record so far: sound, grown from the one the process found by what its requests leave. */
  ghost predicate Kept(env: Env, q: Request, record: seq<Step>, start: Settings,
                       steps: seq<Step>, asks: seq<Ask>, replies: nat -> Reply)
  {
    && Sound(q, steps) && Covered(record) <= Covered(steps)
    && steps == record + Trails(env, q, |record|, asks, replies) && Led(env, start, asks, replies)
  }

  /** The state machine stands where the record does. */
  ghost predicate Abreast(c: Compactor, q: Request, cursor: nat, start: Settings,
                          steps: seq<Step>, asks: seq<Ask>, replies: nat -> Reply)
    reads c
  {
    && q.begin + |Covered(steps)| == cursor + c.accepted && c.summary == Latest(steps, q.summary)
    && SettingsOf(c) == Reached(c.env, start, asks, replies)
  }

  lemma Begins(c: Compactor, q: Request, cursor: nat, record: seq<Step>, start: Settings, replies: nat -> Reply)
    requires Sound(q, record) && q.begin + |Covered(record)| == cursor + c.accepted
    requires c.summary == Latest(record, q.summary) && start == SettingsOf(c)
    ensures Kept(c.env, q, record, start, record, [], replies) && Abreast(c, q, cursor, start, record, [], replies)
  {
    hide Sound, Covered, Latest, SettingsOf, Led, Reached, Trails;
    LedNothing(c.env, start, replies);
    TrailsNone(c.env, q, |record|, replies);
    assert record + [] == record;
  }

  lemma KeptIs(env: Env, q: Request, record: seq<Step>, start: Settings,
               steps: seq<Step>, asks: seq<Ask>, replies: nat -> Reply)
    requires Kept(env, q, record, start, steps, asks, replies)
    ensures Sound(q, steps) && Covered(record) <= Covered(steps) && Led(env, start, asks, replies)
    ensures steps == record + Trails(env, q, |record|, asks, replies)
    ensures |steps| == |record| + |Trails(env, q, |record|, asks, replies)|
  {
    hide Sound, Covered, Led, Trails;
  }

  lemma AbreastIs(c: Compactor, q: Request, cursor: nat, start: Settings,
                  steps: seq<Step>, asks: seq<Ask>, replies: nat -> Reply)
    ensures Abreast(c, q, cursor, start, steps, asks, replies) <==>
            && q.begin + |Covered(steps)| == cursor + c.accepted && c.summary == Latest(steps, q.summary)
            && SettingsOf(c) == Reached(c.env, start, asks, replies)
  {
  }

  /** What one more request leaves in the record. */
  lemma Leaves(env: Env, q: Request, record: seq<Step>, start: Settings, steps: seq<Step>, more: seq<Step>,
               asks: seq<Ask>, ask: Ask, replies: nat -> Reply)
    requires Kept(env, q, record, start, steps, asks, replies)
    requires more == steps + Trail(env, q, ask, |steps| + 1, replies(|asks|))
    requires Sound(q, more) && Covered(steps) <= Covered(more)
    ensures Covered(record) <= Covered(more)
    ensures more == record + Trails(env, q, |record|, asks + [ask], replies)
    ensures Led(env, start, asks + [ask], replies) ==> Kept(env, q, record, start, more, asks + [ask], replies)
  {
    hide Sound, Covered, Led, Trails, Trail;
    TrailsSnoc(env, q, |record|, asks, ask, replies);
  }

  /** One request: asked, answered and recorded, or the reason why there is none. */
  method Round(reducer: Compactor, q: Request, cursor: nat, ghost record: seq<Step>, ghost start: Settings,
               before: seq<Step>, ghost asked: seq<Ask>, replies: nat -> Reply, k: nat)
      returns (steps: seq<Step>, ended: Option<Ending>, ghost asks: seq<Ask>)
    requires reducer.Valid() && reducer.pending.None? && q.begin <= cursor <= q.stop <= |q.units|
    requires reducer.reader.refs == q.units[cursor..q.stop] && k == |asked|
    requires Kept(reducer.env, q, record, start, before, asked, replies)
    requires Abreast(reducer, q, cursor, start, before, asked, replies)
    requires AllServe(reducer.env, q, start, replies) ==>
               reducer.Plain() && Served(reducer.env, q, start, SettingsOf(reducer))
    modifies reducer, reducer.reader
    ensures Sound(q, steps) && Covered(record) <= Covered(steps)
    ensures steps == record + Trails(reducer.env, q, |record|, asks, replies)
    ensures ended.None? ==>
              && reducer.Valid() && reducer.pending.None? && |asks| == k + 1
              && Kept(reducer.env, q, record, start, steps, asks, replies)
              && Abreast(reducer, q, cursor, start, steps, asks, replies)
              && Below(reducer.Measure(), old(reducer.Measure()))
    ensures ended.None? && AllServe(reducer.env, q, start, replies) ==>
              reducer.Plain() && Served(reducer.env, q, start, SettingsOf(reducer))
    ensures ended.Some? ==>
              && Ends(reducer.env, start, asks, replies, ended.value)
              && (AllServe(reducer.env, q, start, replies) ==> ended.value.Finished?)
    ensures ended == Some(Finished) ==>
              && q.begin + |Covered(steps)| == q.stop && Covered(steps) == q.units[q.begin..q.stop]
              && reducer.summary == Latest(steps, q.summary)
  {
    hide *;
    ghost var serve := AllServe(reducer.env, q, start, replies);
    steps, asks, ended := before, asked, None;
    KeptIs(reducer.env, q, record, start, steps, asks, replies);
    AbreastIs(reducer, q, cursor, start, steps, asks, replies);
    if serve {
      ServedEasy(reducer, q, start, cursor);
    }
    WhyUnfit(reducer);
    ghost var was := reducer.Measure();
    var next := reducer.NextCall();
    if next.Err? {
      EndsUnfit(reducer.env, start, asks, replies);
      return steps, Some(Unfit), asks;
    }
    if next.value.None? {
      CheckpointTiles(q, steps);
      EndsFinished(reducer.env, start, asks, replies);
      return steps, Some(Finished), asks;
    }
    AbreastIs(reducer, q, cursor, start, steps, asks, replies);
    steps, ended, asks := Answered(reducer, q, cursor, record, start, before, asked, replies, k, was);
  }

  /** The request made gets its reply. */
  method Answered(reducer: Compactor, q: Request, cursor: nat, ghost record: seq<Step>, ghost start: Settings,
                  before: seq<Step>, ghost asked: seq<Ask>, replies: nat -> Reply, k: nat,
                  ghost was: (nat, nat, nat, nat))
      returns (steps: seq<Step>, ended: Option<Ending>, ghost asks: seq<Ask>)
    requires reducer.Valid() && reducer.pending.Some? && cursor <= q.stop <= |q.units|
    requires reducer.reader.refs == q.units[cursor..q.stop] && k == |asked|
    requires Kept(reducer.env, q, record, start, before, asked, replies)
    requires Abreast(reducer, q, cursor, start, before, asked, replies)
    requires AllServe(reducer.env, q, start, replies) ==>
               reducer.Plain() && Served(reducer.env, q, start, SettingsOf(reducer))
    requires reducer.Measure() == was || Below(reducer.Measure(), was)
    modifies reducer, reducer.reader
    ensures Sound(q, steps) && Covered(record) <= Covered(steps)
    ensures steps == record + Trails(reducer.env, q, |record|, asks, replies)
    ensures ended.None? ==>
              && reducer.Valid() && reducer.pending.None? && |asks| == k + 1
              && Kept(reducer.env, q, record, start, steps, asks, replies)
              && Abreast(reducer, q, cursor, start, steps, asks, replies)
              && Below(reducer.Measure(), was)
    ensures ended.None? && AllServe(reducer.env, q, start, replies) ==>
              reducer.Plain() && Served(reducer.env, q, start, SettingsOf(reducer))
    ensures ended.Some? ==> ended.value.GivenUp? && Ends(reducer.env, start, asks, replies, GivenUp)
    ensures ended.Some? ==> !AllServe(reducer.env, q, start, replies)
  {
    hide *;
    ghost var serve := AllServe(reducer.env, q, start, replies);
    KeptIs(reducer.env, q, record, start, before, asked, replies);
    AbreastIs(reducer, q, cursor, start, before, asked, replies);
    AskAdmitted(reducer);
    ghost var ask, now := AskOf(reducer), reducer.Measure();
    if serve {
      ServedGoes(reducer.env, q, start, replies, ask, k);
    }
    var more;
    steps, more := Attempt(reducer, q, cursor, before, replies(k));
    asks := asked + [ask];
    Leaves(reducer.env, q, record, start, before, steps, asked, ask, replies);
    if !more {
      ended := Some(GivenUp);
      EndsGivenUp(reducer.env, start, asked, ask, replies);
      return;
    }
    ended := None;
    BelowChain(reducer.Measure(), now, was);
    LedSnoc(reducer.env, start, asked, ask, replies);
    AbreastIs(reducer, q, cursor, start, steps, asks, replies);
  }

  lemma SettingsAre(c: Compactor)
    ensures SettingsOf(c) == Settings(c.summary, c.target, c.retries, c.scale)
    ensures c.Now() == Terms(c.env, c.summary, c.target, c.scale)
  {
  }

  lemma LedNothing(env: Env, start: Settings, replies: nat -> Reply)
    ensures Led(env, start, [], replies) && Reached(env, start, [], replies) == start
  {
  }

  lemma EndsFinished(env: Env, start: Settings, asks: seq<Ask>, replies: nat -> Reply)
    requires Led(env, start, asks, replies)
    ensures Ends(env, start, asks, replies, Finished)
  {
  }

  lemma EndsUnfit(env: Env, start: Settings, asks: seq<Ask>, replies: nat -> Reply)
    requires Led(env, start, asks, replies)
    requires exists text, cost :: Unsendable(env, Reached(env, start, asks, replies), text, cost)
    ensures Ends(env, start, asks, replies, Unfit)
  {
  }

  lemma EndsGivenUp(env: Env, start: Settings, asks: seq<Ask>, ask: Ask, replies: nat -> Reply)
    requires Led(env, start, asks, replies) && Admitted(env, ask) && !Goes(env, ask, replies(|asks|))
    requires ask.under == Reached(env, start, asks, replies)
    ensures Ends(env, start, asks + [ask], replies, GivenUp)
  {
    hide Led, Admitted, Goes, Reached;
    assert (asks + [ask])[..|asks|] == asks;
  }

  lemma WhyUnfit(c: Compactor)
    requires c.Valid()
    ensures c.CannotGoOn() ==> exists text, cost :: Unsendable(c.env, SettingsOf(c), text, cost)
  {
    hide Terms.Alone, Terms.Room, Terms.Shortens, Env.Fits, Contents;
    if c.CannotGoOn() {
      var unit := if c.batch != [] then c.batch[0] else c.NextUnit();
      assert Unsendable(c.env, SettingsOf(c), c.Text(unit), c.Cost(unit));
    }
  }

  /** While every reply serves, requests stay at the first scale and target, and every unit fits. */
  ghost predicate Served(env: Env, q: Request, start: Settings, now: Settings) {
    now.scale == 1.0 && now.target == start.target && AllFit(env, q, now.summary, now.target)
  }

  lemma ServedAtFirst(env: Env, q: Request, start: Settings, replies: nat -> Reply)
    requires AllServe(env, q, start, replies)
    ensures Served(env, q, start, start)
  {
    hide AllFit;
  }

  lemma ServedEasy(c: Compactor, q: Request, start: Settings, cursor: nat)
    requires cursor <= q.stop <= |q.units| && c.reader.refs == q.units[cursor..q.stop]
    requires Served(c.env, q, start, SettingsOf(c))
    ensures c.Easy()
  {
    hide Terms.Easy;
  }

  lemma ServedGoes(env: Env, q: Request, start: Settings, replies: nat -> Reply, ask: Ask, k: nat)
    requires AllServe(env, q, start, replies) && Served(env, q, start, ask.under) && Admitted(env, ask)
    ensures replies(k).Answer? && Goes(env, ask, replies(k))
    ensures Served(env, q, start, Following(env, ask, replies(k)))
  {
    hide AllFit, Admitted, Env.Fits;
    assert Serves(env, start.target, replies(k));
  }

  /** What is recorded for a reply, in terms of the state machine. */
  lemma TrailIs(c: Compactor, ask: Ask, q: Request, place: Place, reply: Reply)
    requires c.Valid() && ask == AskOf(c)
    ensures var batch := Refs(c.batch);
            var read := Read(batch, Succeeded, Some(Named(q, batch, place)));
            var failed := Model(Failed, Asked(q, place, None));
            var trail := Trail(c.env, q, ask, place, reply);
            && (reply.Refused? ==> trail == [])
            && (reply.ReadFails? ==> trail == [Read(batch, Failed, None)])
            && (reply.CrashInRead? ==> trail == [Read(batch, Running, None)])
            && (reply.CrashBetween? ==> trail == [read])
            && (reply.CrashInModel? ==> trail == [read] + [Model(Running, Asked(q, place, None))])
            && (reply.Overflow? || reply.OtherError? ==> trail == [read] + [failed])
            && (reply.Answer? || reply.CrashBeforeAccept? ==>
                  trail == [read] + [if Usable(c.env, c.target, c.scale, c.estimate, reply.response)
                                     then Model(Succeeded, Asked(q, place, reply.response.text)) else failed])
  {
    hide Named, Usable;
  }

  /** What the state machine does with a reply, in terms of the request. */
  lemma Onward(c: Compactor, ask: Ask, reply: Reply)
    requires c.Valid() && c.pending.Some? && ask == AskOf(c) && Admitted(c.env, ask)
    ensures !reply.Answer? && !reply.Overflow? ==> !Goes(c.env, ask, reply)
    ensures reply.Answer? ==>
              var usable := Usable(c.env, c.target, c.scale, c.estimate, reply.response);
              && (Goes(c.env, ask, reply) <==> usable || (reply.response.text.Some? && c.retries < 2))
              && (usable ==> reply.response.text.Some?)
              && Following(c.env, ask, reply) ==
                 if usable
                 then Settings(reply.response.text.value, c.target, 0,
                               Calibrated(c.scale, c.estimate, reply.response.usage))
                 else Settings(c.summary, if c.target / 2 < 1 then 1 else c.target / 2, c.retries + 1, c.scale)
    ensures reply.Overflow? ==>
              var raised := Calibrated(c.scale, c.estimate, reply.usage) * if |c.batch| == 1 then 2.0 else 1.0;
              && Following(c.env, ask, reply) == Settings(c.summary, c.target, c.retries, raised)
              && c.batch != []
              && (Goes(c.env, ask, reply) <==>
                    (|c.batch| == 1 ==> Terms(c.env, c.summary, c.target, raised).Shortens(c.Text(c.batch[0]))))
  {
    hide Admitted, Env.Fits, Terms.Shortens, Calibrated;
  }

  lemma BatchIsNext(reducer: Compactor, q: Request, cursor: nat)
    requires reducer.Valid() && cursor <= q.stop <= |q.units| && reducer.reader.refs == q.units[cursor..q.stop]
    requires reducer.pending.Some?
    ensures reducer.batch != [] && |Refs(reducer.batch)| == |reducer.batch|
    ensures Continues(q, Refs(reducer.batch), cursor + reducer.accepted)
  {
    var c := cursor + reducer.accepted;
    forall i | 0 <= i < |reducer.batch| ensures Refs(reducer.batch)[i] == q.units[c..c + |reducer.batch|][i] {
      assert reducer.batch[i] == reducer.env.load(reducer.reader.refs[reducer.accepted + i]);
    }
  }

  /** Record one batch, ask for its summary, and feed the reply to the state machine. */
  method Attempt(reducer: Compactor, q: Request, cursor: nat, record: seq<Step>, reply: Reply)
      returns (steps: seq<Step>, more: bool)
    requires reducer.Valid() && reducer.pending.Some?
    requires Sound(q, record) && q.begin + |Covered(record)| == cursor + reducer.accepted
    requires cursor <= q.stop <= |q.units| && reducer.reader.refs == q.units[cursor..q.stop]
    requires reducer.summary == Latest(record, q.summary)
    modifies reducer, reducer.reader
    ensures reducer.Valid()
    ensures Sound(q, steps) && Covered(record) <= Covered(steps)
    ensures steps == record + Trail(reducer.env, q, old(AskOf(reducer)), |record| + 1, reply)
    ensures more ==> q.begin + |Covered(steps)| == cursor + reducer.accepted
    ensures more ==> reducer.summary == Latest(steps, q.summary)
    ensures more ==> Below(reducer.Measure(), old(reducer.Measure())) && reducer.pending.None?
    ensures Admitted(reducer.env, old(AskOf(reducer)))
    ensures more <==> Goes(reducer.env, old(AskOf(reducer)), reply)
    ensures more ==> SettingsOf(reducer) == Following(reducer.env, old(AskOf(reducer)), reply)
    ensures reply.Answer? && old(reducer.Plain()) ==> reducer.Plain()
  {
    hide *;
    AskAdmitted(reducer);
    ghost var ask := AskOf(reducer);
    Onward(reducer, ask, reply);
    TrailIs(reducer, ask, q, |record| + 1, reply);
    var batch := Refs(reducer.batch);
    BatchIsNext(reducer, q, cursor);
    var place := |record| + 1;
    more := false;
    if reply.Refused? {
      return record, false;
    }
    if reply.ReadFails? || reply.CrashInRead? {
      var read := Read(batch, if reply.ReadFails? then Failed else Running, None);
      NotCounted(read);
      AppendUncounted(q, record, read);
      steps := record + [read];
      return;
    }
    var read := Read(batch, Succeeded, Some(Named(q, batch, place)));
    NotCounted(read);
    AppendUncounted(q, record, read);
    steps := record + [read];
    if reply.CrashBetween? {
      return;
    }
    var status, text := Failed, None;
    match reply {
      case Answer(response) =>
        var validated := reducer.ValidateSummary(response);
        if validated.Ok? {
          status, text := Succeeded, Some(validated.value);
          AppendPair(q, record, batch, place, validated.value);
          var accepted := reducer.Accept(response);
          more := accepted.Ok?;
        } else if validated.error.SummaryTooLarge? {
          more := reducer.RetrySummary();
        }
      case CrashBeforeAccept(response) =>
        var validated := reducer.ValidateSummary(response);
        if validated.Ok? {
          status, text := Succeeded, Some(validated.value);
          AppendPair(q, record, batch, place, validated.value);
        }
      case Overflow(usage) =>
        var rejected := reducer.Reject(true, usage);
        more := rejected.Ok?;
      case CrashInModel =>
        status := Running;
      case _ =>
    }
    SettingsAre(reducer);
    var model := Model(status, Asked(q, place, text));
    if status != Succeeded {
      NotCounted(model);
      AppendUncounted(q, steps, model);
    }
    steps := steps + [model];
  }
}
