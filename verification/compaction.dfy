/**
 The batching state machine of history compaction. Source units are read in
 order through a rewindable cursor, grouped into bounded model calls, and
 accepted, rejected or retried until everything is summarized.

 The tokenizer, the JSON shortener and the caller's summary budget are
 parameters; the estimate correction and the adaptive scale are read as reals.
 */
module Compaction {
  import opened Common

  type Ref = nat

  datatype Unit = Unit(ref: Ref, json: string)

  /** A reducer request: everything else in it is fixed text. */
  datatype Call = Call(summary: string, contents: seq<string>, target: nat)

  /** A provider's answer; `text` is None when it is not a usable text. */
  datatype Response = Response(text: Option<string>, usage: Option<nat>)

  datatype Error = CannotFit | NotText | SummaryTooLarge | NotOverflow | InvalidRewind

  /** Everything the state machine asks of its surroundings. */
  datatype Env = Env(
    capacity: nat,
    correction: real,
    load: Ref -> Unit,
    base: Call -> nat,               // corrected token estimate of a call
    textTokens: string -> nat,
    shorten: (string, nat) -> string, // bounded leaves, marked as truncated
    excerpt: string -> string,        // one marked textual excerpt
    summaryFits: string -> bool)
  {
    ghost predicate Valid() {
      && correction > 0.0
      && (forall c :: base(c) >= 1)
      && forall r :: load(r).ref == r
    }

    function Budget(): real {
      capacity as real * 0.8
    }

    /** The admission bound of every request. */
    predicate Fits(estimate: int, scale: real) {
      estimate as real * scale <= Budget()
    }
  }

  function Ceil(x: real): int {
    -((-x).Floor)
  }

  function Calibrated(scale: real, estimate: nat, usage: Option<nat>): (r: real)
    ensures r >= scale
  {
    if estimate > 0 && usage.Some? && usage.value > 0 then
      var measured := usage.value as real / estimate as real;
      if measured > scale then measured else scale
    else scale
  }

  /** A summary is asked for at the given size, or a quarter of the capacity if that is less. */
  function FirstTarget(env: Env, size: nat): (target: nat)
    ensures target <= size && (target == size || target <= 1 || 4 * target <= env.capacity)
  {
    var quarter := if env.capacity / 4 < 1 then 1 else env.capacity / 4;
    if size < quarter then size else quarter
  }

  /** A request is admitted if its scaled estimate leaves a fifth of the capacity free. */
  lemma FitsIs(env: Env, estimate: int, scale: real)
    ensures env.Fits(estimate, scale) <==> 5.0 * (estimate as real * scale) <= 4.0 * env.capacity as real
  {
  }

  lemma CeilIs(x: real)
    ensures (Ceil(x) as real) - 1.0 < x <= Ceil(x) as real
  {
  }

  /** Calibration takes the least scale, no lower than before, at which the estimate covers what was measured. */
  lemma CalibratedCovers(scale: real, estimate: nat, usage: Option<nat>)
    requires estimate > 0
    ensures var r := Calibrated(scale, estimate, usage);
            var measured := if usage.Some? then usage.value as real else 0.0;
            && (scale >= 0.0 ==> r * estimate as real >= measured)
            && (r == scale || (r > scale && r * estimate as real == measured))
  {
  }

  // ---------------------------------------------------------------------
  // Shortening one unit
  // ---------------------------------------------------------------------

  /** What requests are measured under. */
  datatype Terms = Terms(env: Env, summary: string, target: nat, scale: real) {
    /** One unit with this content makes an admitted request. */
    predicate Alone(content: string) {
      env.Fits(env.base(Call(summary, [content], target)), scale)
    }

    /** Units of so many tokens are still estimated to fit. */
    predicate Room(tokens: nat) {
      env.Fits(env.base(Call(summary, [], target)) + Ceil(tokens as real * env.correction), scale)
    }

    /** A request for these units, sent as they are, is admitted. */
    predicate Admits(sent: map<Ref, string>, units: seq<Unit>) {
      && (forall u :: u in units ==> u.ref in sent)
      && env.Fits(env.base(Call(summary, Contents(sent, units), target)), scale)
    }

    /** The unit fits alone as it is, and there is room for it by its estimate. */
    ghost predicate Easy(r: Ref) {
      Alone(env.load(r).json) && Room(env.textTokens(env.load(r).json))
    }

    /** Some way of shortening the content makes it fit alone. */
    predicate Shortens(content: string) {
      exists c :: c in Tries(env, content) && Alone(c)
    }
  }

  /** A text that fits the caller, and leaves room for a next request at the scale it calibrates. */
  predicate Usable(env: Env, target: nat, scale: real, estimate: nat, response: Response) {
    && response.text.Some? && env.summaryFits(response.text.value)
    && env.Fits(env.base(Call(response.text.value, [], target)) + 256, Calibrated(scale, estimate, response.usage))
  }

  function Halved(limit: nat): nat {
    if limit / 2 > 64 then limit / 2 else 64
  }

  lemma HalvedIs(limit: nat)
    ensures Halved(limit) == if limit / 2 > 64 then limit / 2 else 64
  {
  }

  /** Contents tried in turn: ever shorter leaves, then an excerpt, unless the last shortening changes nothing. */
  function TriesFrom(env: Env, original: string, limit: nat, current: string): seq<string>
    requires limit >= 64
    decreases limit
  {
    var content := env.shorten(original, limit);
    if limit > 64 then [content] + TriesFrom(env, original, Halved(limit), content)
    else if content == current then []
    else [content, env.excerpt(original)]
  }

  function Tries(env: Env, original: string): seq<string> {
    TriesFrom(env, original, Halved(|original|), original)
  }

  // ---------------------------------------------------------------------
  // Doublings left
  // ---------------------------------------------------------------------

  /** How often a scale can double before it alone exceeds the budget. */
  function Doublings(scale: real, budget: real): nat
    requires scale >= 1.0
    decreases (budget - scale).Floor
  {
    if scale > budget then 0 else 1 + Doublings(2.0 * scale, budget)
  }

  lemma {:induction false} DoublingsFall(a: real, b: real, budget: real)
    requires 1.0 <= a <= b
    ensures Doublings(b, budget) <= Doublings(a, budget)
    decreases (budget - b).Floor
  {
    if b <= budget {
      DoublingsFall(2.0 * a, 2.0 * b, budget);
    }
  }

  // ---------------------------------------------------------------------
  // Reader
  // ---------------------------------------------------------------------

  class HistoryReader {
    const env: Env
    const refs: seq<Ref>
    var index: nat
    var pending: Option<Unit>

    ghost predicate Valid()
      reads this
    {
      index <= |refs| && (pending.Some? ==> index < |refs| && pending.value == env.load(refs[index]))
    }

    constructor (env: Env, refs: seq<Ref>)
      ensures Valid() && this.env == env && this.refs == refs && index == 0
    {
      this.env, this.refs := env, refs;
      index, pending := 0, None;
    }

    method Peek() returns (u: Option<Unit>)
      requires Valid()
      modifies this`pending
      ensures Valid()
      ensures u == if index == |refs| then None else Some(env.load(refs[index]))
      ensures u.Some? ==> pending == u
    {
      if index == |refs| {
        return None;
      }
      if pending.None? {
        pending := Some(env.load(refs[index]));
      }
      u := pending;
    }

    method Advance()
      requires Valid() && pending.Some?
      modifies this
      ensures Valid() && index == old(index) + 1
    {
      index := index + 1;
      pending := None;
    }

    /** Makes the last `count` units unread again. */
    method Rewind(count: int) returns (ok: bool)
      requires Valid()
      modifies this
      ensures Valid() && (ok <==> 0 < count <= old(index))
      ensures index == old(index) - (if ok then count else 0)
    {
      if !(0 < count <= index) {
        return false;
      }
      index := index - count;
      pending := None;
      ok := true;
    }
  }

  function Contents(serialized: map<Ref, string>, units: seq<Unit>): seq<string>
    requires forall u :: u in units ==> u.ref in serialized
  {
    seq(|units|, i requires 0 <= i < |units| => serialized[units[i].ref])
  }

  lemma NoContents(serialized: map<Ref, string>)
    ensures Contents(serialized, []) == []
  {
  }

  lemma OneContent(serialized: map<Ref, string>, u: Unit)
    requires u.ref in serialized
    ensures Contents(serialized, [u]) == [serialized[u.ref]]
  {
  }

  /** The tokens of some units. */
  function Tokens(known: map<Ref, nat>, units: seq<Unit>): nat
    requires forall u :: u in units ==> u.ref in known
  {
    if units == [] then 0 else Tokens(known, units[..|units| - 1]) + known[units[|units| - 1].ref]
  }

  lemma NoTokens(known: map<Ref, nat>)
    ensures Tokens(known, []) == 0
  {
  }

  lemma TokensSnoc(known: map<Ref, nat>, units: seq<Unit>, u: Unit)
    requires (forall u :: u in units ==> u.ref in known) && u.ref in known
    ensures (forall v :: v in units + [u] ==> v.ref in known)
    ensures Tokens(known, units + [u]) == Tokens(known, units) + known[u.ref]
  {
    assert (units + [u])[..|units|] == units;
  }

  lemma {:induction false} TokensKept(a: map<Ref, nat>, b: map<Ref, nat>, units: seq<Unit>)
    requires forall u :: u in units ==> u.ref in a && u.ref in b && a[u.ref] == b[u.ref]
    ensures Tokens(a, units) == Tokens(b, units)
  {
    if units != [] {
      TokensKept(a, b, units[..|units| - 1]);
    }
  }

  // ---------------------------------------------------------------------
  // The state machine
  // ---------------------------------------------------------------------

  class Compactor {
    const env: Env
    const reader: HistoryReader
    var summary: string
    var target: nat
    var retries: nat
    var scale: real
    var batch: seq<Unit>
    var estimate: nat
    var serialized: map<Ref, string>
    var unitTokens: map<Ref, nat>
    var pending: Option<Call>
    /** Units covered by accepted summaries. */
    ghost var accepted: nat

    /** Accepted units, the current batch and the unread suffix tile the source. */
    ghost predicate Tiles()
      reads this`accepted, this`batch, reader`index
    {
      && accepted + |batch| == reader.index <= |reader.refs|
      && forall i :: 0 <= i < |batch| ==> batch[i] == env.load(reader.refs[accepted + i])
    }

    ghost predicate Valid()
      reads this, reader
    {
      && env.Valid() && reader.env == env && reader.Valid()
      && Tiles() && scale >= 1.0 && retries <= 2
      && (forall u :: u in batch ==> u.ref in serialized)
      && (forall r :: r in serialized ==> r in unitTokens)
      && (pending.Some? ==>
            && batch != [] && pending.value == Request(batch)
            && estimate == env.base(pending.value) && env.Fits(estimate, scale))
    }

    /** What requests are measured under at the moment. */
    function Now(): Terms
      reads this`summary, this`target, this`scale
    {
      Terms(env, summary, target, scale)
    }

    /** Nothing has been shortened. */
    ghost predicate Plain()
      reads this`serialized, this`unitTokens
    {
      forall r :: r in serialized && r in unitTokens ==>
        serialized[r] == env.load(r).json && unitTokens[r] == env.textTokens(env.load(r).json)
    }

    ghost predicate Easy()
      reads this`summary, this`target, this`scale
    {
      forall r :: r in reader.refs ==> Now().Easy(r)
    }

    /** What a unit would be sent as, and its token count. */
    function Text(unit: Unit): string
      reads this`serialized
    {
      if unit.ref in serialized then serialized[unit.ref] else unit.json
    }

    function Cost(unit: Unit): nat
      reads this`serialized, this`unitTokens
    {
      if unit.ref in serialized && unit.ref in unitTokens then unitTokens[unit.ref] else env.textTokens(unit.json)
    }

    /** The next unread unit. */
    function NextUnit(): Unit
      reads reader`index
      requires reader.index < |reader.refs|
    {
      env.load(reader.refs[reader.index])
    }

    /** The unit opens an empty batch as it is, or shortened. */
    predicate Opens(unit: Unit)
      reads this`serialized, this`unitTokens, this`summary, this`target, this`scale
    {
      Now().Room(Cost(unit)) || Now().Shortens(Text(unit))
    }

    function Request(units: seq<Unit>): Call
      reads this`summary, this`target, this`serialized
      requires forall u :: u in units ==> u.ref in serialized
    {
      Call(summary, Contents(serialized, units), target)
    }

    /** Lexicographic progress of the protocol: see `Below`. */
    ghost function Measure(): (nat, nat, nat, nat)
      reads this, reader
      requires Valid()
    {
      (|reader.refs| - accepted,
       Doublings(scale, env.Budget()),
       if batch == [] then |reader.refs| - accepted + 1 else |batch|,
       2 - retries)
    }

    constructor (env: Env, refs: seq<Ref>, size: nat, summary: string)
      requires env.Valid() && size > 0
      ensures Valid() && fresh(reader)
      ensures this.env == env && reader.refs == refs && this.summary == summary
      ensures accepted == 0 && batch == [] && pending == None && scale == 1.0
      ensures target == FirstTarget(env, size) && retries == 0 && Plain()
    {
      this.env := env;
      reader := new HistoryReader(env, refs);
      this.summary := summary;
      var quarter := if env.capacity / 4 < 1 then 1 else env.capacity / 4;
      target := if size < quarter then size else quarter;
      retries, scale, batch, estimate := 0, 1.0, [], 0;
      serialized, unitTokens, pending, accepted := map[], map[], None, 0;
    }

    method FitsCall(call: Call) returns (ok: bool)
      modifies this`estimate
      ensures estimate == env.base(call) && (ok <==> env.Fits(estimate, scale))
    {
      estimate := env.base(call);
      ok := env.Fits(estimate, scale);
    }

    /** Shorten one unit until it fits alone, halving the leaf limit down to 64. */
    method Truncate(unit: Unit) returns (ok: bool)
      requires Valid() && pending.None? && unit.ref in serialized
      modifies this`serialized, this`unitTokens, this`estimate
      ensures Valid() && serialized.Keys == old(serialized.Keys)
      ensures forall r :: r in serialized && r != unit.ref ==> serialized[r] == old(serialized[r])
      ensures ok <==> Now().Shortens(old(serialized)[unit.ref])
      ensures unitTokens == if ok then old(unitTokens)[unit.ref := env.textTokens(serialized[unit.ref])] else old(unitTokens)
      ensures ok ==> estimate == env.base(Request([unit])) && env.Fits(estimate, scale)
      ensures ok ==> Now().Alone(serialized[unit.ref])
    {
      hide *;
      var original := serialized[unit.ref];
      var limit := if |original| / 2 > 64 then |original| / 2 else 64;
      HalvedIs(|original|);
      TriesStart(original, limit);
      while true
        invariant limit >= 64 && Valid()
        invariant unit.ref in serialized && unitTokens == old(unitTokens)
        invariant serialized == old(serialized)[unit.ref := serialized[unit.ref]]
        invariant StillToTry(original, limit, serialized[unit.ref])
        decreases limit
      {
        var content := env.shorten(original, limit);
        NextTry(original, limit, serialized[unit.ref]);
        if content == serialized[unit.ref] && limit == 64 {
          return false;
        }
        ok := Replace(unit, content);
        if ok {
          return;
        }
        if limit == 64 {
          ok := Replace(unit, env.excerpt(original));
          return;
        }
        HalvedIs(limit);
        limit := if limit / 2 > 64 then limit / 2 else 64;
      }
    }

    /** Nothing tried so far fits: it is up to the rest. */
    ghost predicate StillToTry(original: string, limit: nat, current: string)
      requires limit >= 64
      reads this`summary, this`target, this`scale
    {
      Now().Shortens(original) <==> exists c :: c in TriesFrom(env, original, limit, current) && Now().Alone(c)
    }

    lemma TriesStart(original: string, limit: nat)
      requires limit == Halved(|original|)
      ensures StillToTry(original, limit, original)
    {
      hide Terms.Alone, TriesFrom;
    }

    lemma NextTry(original: string, limit: nat, current: string)
      requires limit >= 64 && StillToTry(original, limit, current)
      ensures var content := env.shorten(original, limit);
              if limit == 64 && content == current then !Now().Shortens(original)
              else
                && (Now().Alone(content) ==> Now().Shortens(original))
                && (!Now().Alone(content) ==>
                      if limit == 64 then Now().Shortens(original) <==> Now().Alone(env.excerpt(original))
                      else StillToTry(original, Halved(limit), content))
    {
      hide Terms.Alone, Terms.Shortens;
      var content := env.shorten(original, limit);
      var tries := TriesFrom(env, original, limit, current);
      if limit > 64 {
        var rest := TriesFrom(env, original, Halved(limit), content);
        assert tries == [content] + rest;
        forall c ensures c in tries <==> c == content || c in rest {
        }
      } else if content != current {
        forall c ensures c in tries <==> c == content || c == env.excerpt(original) {
        }
      }
    }

    /** Give a unit new content, and see whether it fits alone. */
    method Replace(unit: Unit, content: string) returns (ok: bool)
      requires Valid() && pending.None? && unit.ref in serialized
      modifies this`serialized, this`unitTokens, this`estimate
      ensures Valid() && serialized == old(serialized)[unit.ref := content]
      ensures estimate == env.base(Request([unit])) && (ok <==> env.Fits(estimate, scale))
      ensures ok <==> Now().Alone(content)
      ensures unitTokens == if ok then old(unitTokens)[unit.ref := env.textTokens(content)] else old(unitTokens)
    {
      hide Env.Fits;
      assert Contents(serialized[unit.ref := content], [unit]) == [content];
      serialized := serialized[unit.ref := content];
      ok := FitsCall(Request([unit]));
      if ok {
        unitTokens := unitTokens[unit.ref := env.textTokens(content)];
      }
    }

    /** Move one unit from the reader to the batch. */
    method Take(unit: Unit)
      requires Valid() && pending.None? && reader.pending == Some(unit) && unit.ref in serialized
      modifies this`batch, reader
      ensures Valid() && batch == old(batch) + [unit] && reader.index == old(reader.index) + 1
    {
      hide Env.Fits, Contents;
      batch := batch + [unit];
      reader.Advance();
    }

    /** Give the last unit of the batch back to the reader. */
    method PutBack()
      requires Valid() && pending.None? && |batch| > 1
      modifies this`batch, reader
      ensures Valid() && batch == old(batch)[..|old(batch)| - 1]
    {
      hide Env.Fits, Contents;
      batch := batch[..|batch| - 1];
      var rewound := reader.Rewind(1);
    }

    method Serialize(unit: Unit)
      requires Valid() && pending.None?
      modifies this`serialized, this`unitTokens
      ensures Valid() && unit.ref in serialized
      ensures serialized == if unit.ref in old(serialized) then old(serialized) else old(serialized)[unit.ref := unit.json]
      ensures unitTokens == if unit.ref in old(serialized) then old(unitTokens)
                            else old(unitTokens)[unit.ref := env.textTokens(unit.json)]
      ensures old(Plain()) && unit == env.load(unit.ref) ==> Plain()
    {
      hide Env.Fits, Contents;
      if unit.ref !in serialized {
        serialized := serialized[unit.ref := unit.json];
        unitTokens := unitTokens[unit.ref := env.textTokens(unit.json)];
      }
    }

    /** The tokens counted so far are those of the batch. */
    ghost predicate Counted(total: nat)
      reads this`batch, this`unitTokens
    {
      (forall u :: u in batch ==> u.ref in unitTokens) && total == Tokens(unitTokens, batch)
    }

    lemma CountNothing()
      requires batch == []
      ensures Counted(0) && forall total :: Counted(total) ==> total == 0
    {
      NoTokens(unitTokens);
    }

    lemma CountOne(before: seq<Unit>, unit: Unit, total: nat)
      requires (forall u :: u in before ==> u.ref in unitTokens) && total == Tokens(unitTokens, before)
      requires unit.ref in unitTokens && batch == before + [unit]
      ensures Counted(total + unitTokens[unit.ref])
    {
      TokensSnoc(unitTokens, before, unit);
    }

    /** Is there room for one more unit? A first unit is shortened to make room. */
    method MakeRoom(unit: Unit, base: nat, total: nat, ghost room: bool, ghost text: string)
      returns (ok: bool, tokens: nat)
      requires Valid() && pending.None? && base == env.base(Call(summary, [], target)) && Counted(total)
      requires if batch == [] then room == Now().Room(Cost(unit)) && text == Text(unit) else Opened(batch[0], room, text)
      modifies this`serialized, this`unitTokens, this`estimate
      ensures Valid() && Counted(total)
      ensures unit.ref in serialized && unit.ref in unitTokens && (ok ==> tokens == unitTokens[unit.ref])
      ensures ok <==> if batch == [] then old(Opens(unit)) else old(Now().Room(total + Cost(unit)))
      ensures batch != [] ==> Cost(unit) == old(Cost(unit))
      ensures batch != [] || ok ==> Opened(if batch == [] then unit else batch[0], room, text)
      ensures old(Plain()) && unit == env.load(unit.ref) && (batch == [] ==> Now().Easy(unit.ref)) ==>
                Plain() && (batch == [] ==> ok)
    {
      hide Ceil, Contents, Env.Fits, Env.Budget, Tries, Terms.Shortens, Terms.Alone, Tokens, Plain, Terms.Easy;
      if Plain() && unit == env.load(unit.ref) && Now().Easy(unit.ref) {
        PlainRoom(unit);
      }
      NoTokens(unitTokens);
      ghost var earlier := unitTokens;
      Serialize(unit);
      TokensKept(earlier, unitTokens, batch);
      tokens := unitTokens[unit.ref];
      var added := Ceil((total + tokens) as real * env.correction);
      ok := env.Fits(base + added, scale);
      if !ok && batch == [] {
        ok := Truncate(unit);
        NoTokens(unitTokens);
        tokens := unitTokens[unit.ref];
      }
    }

    lemma PlainRoom(unit: Unit)
      requires Plain() && unit == env.load(unit.ref) && Now().Easy(unit.ref)
      ensures Now().Room(Cost(unit)) && Opens(unit)
    {
      hide Terms.Room, Terms.Alone, Terms.Shortens;
    }

    /** The next unread unit, if any. */
    method PeekUnit() returns (next: Option<Unit>)
      requires Valid()
      modifies reader`pending
      ensures Valid() && reader.index <= |reader.refs|
      ensures if reader.index < |reader.refs| then next == Some(NextUnit()) && reader.pending == next else next == None
    {
      hide Env.Fits, Contents;
      next := reader.Peek();
    }

    /** A taken unit. */
    method TakeCounted(unit: Unit, total: nat, tokens: nat)
      requires Valid() && pending.None? && reader.pending == Some(unit) && Counted(total)
      requires unit.ref in serialized && unit.ref in unitTokens && tokens == unitTokens[unit.ref]
      modifies this`batch, reader
      ensures Valid() && batch == old(batch) + [unit] && reader.index == old(reader.index) + 1
      ensures Counted(total + tokens)
    {
      hide *;
      ghost var before := batch;
      WasCounted(total);
      Take(unit);
      CountOne(before, unit, total);
    }

    lemma WasCounted(total: nat)
      requires Counted(total)
      ensures (forall u :: u in batch ==> u.ref in unitTokens) && total == Tokens(unitTokens, batch)
    {
    }

    /** Take a unit into the batch if there is room for it. */
    method TakeNext(unit: Unit, base: nat, total: nat, ghost room: bool, ghost text: string)
      returns (ok: bool, tokens: nat)
      requires Valid() && pending.None? && base == env.base(Call(summary, [], target)) && Counted(total)
      requires reader.pending == Some(unit) && unit == env.load(unit.ref)
      requires if batch == [] then room == Now().Room(Cost(unit)) && text == Text(unit) else Opened(batch[0], room, text)
      modifies this`batch, this`serialized, this`unitTokens, this`estimate, reader
      ensures Valid() && Counted(if ok then total + tokens else total)
      ensures old(batch) == [] ==> (ok <==> old(Opens(unit)))
      ensures batch == old(batch) + if ok then [unit] else []
      ensures reader.index == old(reader.index) + if ok then 1 else 0
      ensures batch != [] ==> Opened(batch[0], room, text) && (ok || Full(Now(), unitTokens, batch, Cost(unit)))
      ensures old(Plain()) && (old(batch) == [] ==> Now().Easy(unit.ref)) ==> Plain() && (old(batch) == [] ==> ok)
    {
      hide *;
      ok, tokens := MakeRoom(unit, base, total, room, text);
      if ok {
        TakeCounted(unit, total, tokens);
      } else if batch != [] {
        IsFull(unit, total);
      }
    }

    lemma EmptyRequest()
      ensures Request([]) == Call(summary, [], target)
    {
      NoContents(serialized);
    }

    lemma EasyNext()
      requires Valid() && reader.index < |reader.refs|
      ensures NextUnit() == env.load(NextUnit().ref) && (Easy() ==> Now().Easy(NextUnit().ref))
    {
      hide Terms.Easy, Contents, Env.Fits;
    }

    lemma NothingRead()
      requires Valid() && batch == []
      ensures accepted == reader.index
    {
    }

    /**
     Read units into an empty batch while the estimate fits. Filling fails only on
     a first unit that does not fit even shortened, and stops only at the end or
     before a unit there is no room for.
     */
    method Fill() returns (ok: bool)
      requires Valid() && batch == [] && pending.None?
      modifies this`batch, this`serialized, this`unitTokens, this`estimate, reader
      ensures Valid() && (ok && batch == [] ==> accepted == old(reader.index) == |reader.refs|)
      ensures ok <==> (old(reader.index) < |reader.refs| ==> old(Opens(NextUnit())))
      ensures ok && reader.index < |reader.refs| ==> batch != [] && Full(Now(), unitTokens, batch, Cost(NextUnit()))
      ensures ok && batch != [] ==>
                old(reader.index) < |reader.refs| && batch[0] == old(NextUnit())
                && Opened(batch[0], old(Now().Room(Cost(NextUnit()))), old(Text(NextUnit())))
      ensures old(Plain()) && Easy() ==> ok && Plain()
    {
      hide *;
      ghost var plain := Plain() && Easy();
      var base := env.base(Request([]));
      var total := 0;
      EmptyRequest();
      ghost var more := reader.index < |reader.refs|;
      ghost var first := if more then NextUnit() else Unit(0, "");
      ghost var opens, room, text := Opens(first), Now().Room(Cost(first)), Text(first);
      CountNothing();
      NothingRead();
      while true
        invariant Valid() && pending.None? && base == env.base(Call(summary, [], target)) && Counted(total)
        invariant batch == [] ==>
                    reader.index == old(reader.index) && serialized == old(serialized) && unitTokens == old(unitTokens)
        invariant batch != [] ==> more && opens && batch[0] == first && Opened(first, room, text)
        invariant plain ==> Plain() && Easy()
        decreases |reader.refs| - reader.index
      {
        var next := PeekUnit();
        if next.None? {
          return true;
        }
        EasyNext();
        var taken, tokens := TakeNext(next.value, base, total, room, text);
        if !taken {
          return batch != [];
        }
        total := total + tokens;
      }
    }

    /** There is no room beside these units for another of this cost. */
    static predicate Full(t: Terms, known: map<Ref, nat>, units: seq<Unit>, cost: nat) {
      (forall u :: u in units ==> u.ref in known) && !t.Room(Tokens(known, units) + cost)
    }

    lemma IsFull(unit: Unit, total: nat)
      requires Counted(total) && !Now().Room(total + Cost(unit))
      ensures Full(Now(), unitTokens, batch, Cost(unit))
    {
    }

    /** The next unit does not fit beside the batch, by its estimate or as a whole request. */
    predicate Closed()
      reads this`serialized, this`unitTokens, this`summary, this`target, this`scale, this`batch, reader`index
    {
      reader.index < |reader.refs| ==>
        || Full(Now(), unitTokens, batch, Cost(NextUnit()))
        || !Now().Admits(serialized, batch + [NextUnit()])
    }

    /** The longest part of a full batch is closed too. */
    lemma ClosedBatch(was: seq<Unit>)
      requires Valid() && batch <= was && Longest(Now(), serialized, was, |batch|)
      requires accepted + |was| <= |reader.refs|
      requires forall i :: 0 <= i < |was| ==> was[i] == env.load(reader.refs[accepted + i])
      requires var n := accepted + |was|;
               n < |reader.refs| ==> Full(Now(), unitTokens, was, Cost(env.load(reader.refs[n])))
      ensures Closed()
    {
      hide Full, Terms.Admits, Env.Fits, Contents;
      if |batch| < |was| {
        assert was[..|batch| + 1] == batch + [was[|batch|]];
      } else {
        assert batch == was;
      }
    }

    /** A first unit is sent as it is, if there was room for it, or shortened until it fits alone. */
    ghost predicate Opened(first: Unit, room: bool, text: string)
      reads this`serialized, this`summary, this`target, this`scale
    {
      && first.ref in serialized
      && if room then serialized[first.ref] == text else Now().Alone(serialized[first.ref])
    }

    /** What is already sent for the first unit cannot be made to fit alone. */
    predicate Stuck(unit: Unit)
      reads this`serialized, this`summary, this`target, this`scale
    {
      !Now().Alone(Text(unit)) && !Now().Shortens(Text(unit))
    }

    /** Why there is no next request: the unit it would begin with does not fit, even shortened. */
    predicate CannotGoOn()
      reads this, reader`index
    {
      if batch != [] then Stuck(batch[0])
      else reader.index < |reader.refs|
           && (Stuck(NextUnit()) || !Opens(NextUnit()))
    }

    /**
     The next request, or None when everything is accepted. Whatever is
     returned satisfies the admission bound and covers exactly the batch. There is
     none only if the unit it would begin with does not fit, even shortened.
     */
    method NextCall() returns (r: Result<Option<Call>, Error>)
      requires Valid()
      modifies this`batch, this`serialized, this`unitTokens, this`estimate, this`pending, reader
      ensures Valid() && (old(batch) != [] ==> batch != [] && batch <= old(batch))
      ensures r.Err? ==> old(pending).None? && old(CannotGoOn())
      ensures r.Ok? && old(pending).None? && old(batch) == [] && old(reader.index) < |reader.refs| ==>
                old(Opens(NextUnit()))
      ensures old(Plain()) && Easy() ==> r.Ok? && Plain()
      ensures r.Err? ==> pending.None?
      ensures r == Ok(None) ==> batch == [] && accepted == |reader.refs|
      ensures r.Ok? && r.value.Some? ==>
                pending == r.value && r.value.value == Request(batch) && env.Fits(env.base(r.value.value), scale)
      ensures old(pending).Some? ==> r == Ok(old(pending)) && batch == old(batch) && reader.index == old(reader.index)
      ensures Measure() == old(Measure()) || Below(Measure(), old(Measure()))
      ensures r.Ok? && old(pending).None? && old(batch) == [] && batch != [] ==>
                Closed() || (|batch| == 1 && var unit := batch[0]; SentOtherwise(unit, old(Text(unit))))
    {
      hide Env.Fits, Env.Budget, Contents, Terms.Alone, Terms.Shortens, Terms.Room, Plain, Easy, Doublings, Closed,
        SentOtherwise, Opens, Stuck;
      if pending.Some? {
        return Ok(pending);
      }
      if batch == [] {
        r := OpenBatch();
      } else {
        r := FitBatch();
      }
    }

    predicate SentOtherwise(unit: Unit, text: string)
      reads this`serialized
    {
      unit.ref in serialized && serialized[unit.ref] != text
    }

    lemma CannotOpen()
      requires batch == [] && reader.index < |reader.refs|
      ensures CannotGoOn() <==> Stuck(NextUnit()) || !Opens(NextUnit())
      ensures Stuck(NextUnit()) <==> !Now().Alone(Text(NextUnit())) && !Now().Shortens(Text(NextUnit()))
    {
      hide Terms.Alone, Terms.Shortens;
    }

    lemma Filled()
      requires Valid() && batch != []
      ensures accepted + |batch| == reader.index <= |reader.refs| && batch[0].ref in serialized
      ensures forall i :: 0 <= i < |batch| ==> batch[i] == env.load(reader.refs[accepted + i])
      ensures reader.index < |reader.refs| ==> NextUnit() == env.load(reader.refs[accepted + |batch|])
    {
      hide Env.Fits, Contents;
    }

    lemma StillStuck(first: Unit, room: bool, text: string)
      requires Opened(first, room, text)
      ensures first.ref in serialized && (room ==> serialized[first.ref] == text)
      ensures !room ==> Now().Alone(serialized[first.ref])
      ensures Stuck(first) ==> room && !Now().Alone(text) && !Now().Shortens(text)
    {
      hide Terms.Alone, Terms.Shortens;
    }

    lemma Resent(first: Unit, sent: map<Ref, string>, room: bool, text: string)
      requires Changed(sent, first) && (if room then sent[first.ref] == text else Now().Alone(sent[first.ref]))
      requires !Now().Alone(sent[first.ref])
      ensures SentOtherwise(first, text)
    {
    }

    /** A request for a new batch: as many of the unread units as fit. */
    method OpenBatch() returns (r: Result<Option<Call>, Error>)
      requires Valid() && pending.None? && batch == []
      modifies this`batch, this`serialized, this`unitTokens, this`estimate, this`pending, reader
      ensures Valid()
      ensures r.Err? ==> old(CannotGoOn()) && pending.None?
      ensures r.Ok? && old(reader.index) < |reader.refs| ==> old(Opens(NextUnit()))
      ensures old(Plain()) && Easy() ==> r.Ok? && Plain()
      ensures r == Ok(None) ==> batch == [] && accepted == |reader.refs|
      ensures r.Ok? && r.value.Some? ==>
                && pending == r.value && batch != []
                && r.value.value == Request(batch) && env.Fits(env.base(r.value.value), scale)
      ensures r.Ok? && batch != [] ==>
                Closed() || (|batch| == 1 && var unit := batch[0]; SentOtherwise(unit, old(Text(unit))))
    {
      hide *;
      ghost var more := reader.index < |reader.refs|;
      ghost var first := if more then NextUnit() else Unit(0, "");
      ghost var room, text := Now().Room(Cost(first)), Text(first);
      if more {
        CannotOpen();
      }
      var filled := Fill();
      if !filled {
        return Err(CannotFit);
      }
      if batch == [] {
        return Ok(None);
      }
      ghost var was, sent, known := batch, serialized, unitTokens;
      Filled();
      StillStuck(first, room, text);
      r := FitBatch();
      if r.Ok? {
        if serialized == sent && unitTokens == known {
          ClosedBatch(was);
        } else {
          assert batch == [batch[0]];
          NotAlone(sent, batch[0]);
          Resent(first, sent, room, text);
        }
      }
    }

    /** The request for the batch, and whether it is admitted. */
    ghost predicate Measured(call: Call, fits: bool)
      reads this`batch, this`serialized, this`summary, this`target, this`scale, this`estimate
    {
      && (forall u :: u in batch ==> u.ref in serialized)
      && call == Request(batch) && estimate == env.base(call) && (fits <==> env.Fits(estimate, scale))
    }

    method MeasureBatch() returns (call: Call, fits: bool)
      requires Valid() && pending.None?
      modifies this`estimate
      ensures Valid() && Measured(call, fits) && (fits <==> Now().Admits(serialized, batch))
    {
      hide Env.Fits, Contents, Tiles, HistoryReader.Valid, Env.Valid;
      call := Request(batch);
      fits := FitsCall(call);
    }

    /** No longer part of the batch fits as it is. */
    static ghost predicate Longest(t: Terms, sent: map<Ref, string>, was: seq<Unit>, n: nat) {
      forall m :: n < m <= |was| ==> !t.Admits(sent, was[..m])
    }

    static lemma Shorter(t: Terms, sent: map<Ref, string>, was: seq<Unit>, n: nat)
      requires Longest(t, sent, was, n) && 0 < n <= |was| && !t.Admits(sent, was[..n])
      ensures Longest(t, sent, was, n - 1)
    {
      hide Terms.Admits;
    }

    static lemma AllOfIt(t: Terms, sent: map<Ref, string>, was: seq<Unit>)
      ensures Longest(t, sent, was, |was|) && was <= was
    {
    }

    /** One unit: its request is what it is sent as, alone. */
    lemma JustOne(unit: Unit, fits: bool)
      requires unit.ref in serialized && (fits <==> Now().Admits(serialized, [unit]))
      ensures fits <==> Now().Alone(serialized[unit.ref])
      ensures Stuck(unit) <==> !fits && !Now().Shortens(serialized[unit.ref])
    {
      hide Env.Fits, Terms.Shortens;
      OneContent(serialized, unit);
    }

    lemma BatchSent()
      requires Valid()
      ensures forall u :: u in batch ==> u.ref in serialized
    {
    }

    lemma Requested(call: Call)
      requires Valid() && pending.None? && batch != [] && Measured(call, true)
      ensures call == Request(batch) && env.Fits(env.base(call), scale)
      ensures WouldBeValid(call)
    {
      hide Env.Fits, Contents, Tiles, HistoryReader.Valid;
    }

    /** With this request pending the state is again valid. */
    ghost predicate WouldBeValid(call: Call)
      reads this`accepted, this`batch, this`retries, this`scale, this`serialized, this`unitTokens, this`estimate,
            this`summary, this`target, reader
    {
      && env.Valid() && reader.env == env && reader.Valid()
      && Tiles() && scale >= 1.0 && retries <= 2
      && (forall u :: u in batch ==> u.ref in serialized)
      && (forall r :: r in serialized ==> r in unitTokens)
      && batch != [] && call == Request(batch) && estimate == env.base(call) && env.Fits(estimate, scale)
    }

    lemma ValidAgain(call: Call)
      requires WouldBeValid(call) && pending == Some(call)
      ensures Valid()
    {
      hide Env.Fits, Contents, Tiles, HistoryReader.Valid;
    }

    /** A unit that has not been shortened and fits alone is never stuck. */
    lemma EasyBatch()
      requires Valid() && batch != [] && Plain() && Easy()
      ensures Now().Alone(serialized[batch[0].ref])
    {
      hide Terms.Alone, Terms.Room, Contents, Env.Fits;
      var r := reader.refs[accepted];
      assert batch[0] == env.load(r) && Now().Easy(r);
      assert batch[0] in batch;
    }

    lemma NotAlone(sent: map<Ref, string>, unit: Unit)
      requires unit.ref in sent && !Now().Admits(sent, [unit])
      ensures !Now().Alone(sent[unit.ref])
    {
      hide Env.Fits;
      OneContent(sent, unit);
    }

    static lemma SomeFits(t: Terms, sent: map<Ref, string>, was: seq<Unit>, n: nat)
      requires 0 < n <= |was| && t.Admits(sent, was[..n])
      ensures !Longest(t, sent, was, 0)
    {
      hide Terms.Admits;
    }

    /** A batch that is not admitted loses its last unit, or has its only one shortened. */
    method Shrink() returns (ok: bool)
      requires Valid() && pending.None? && batch != [] && !Now().Admits(serialized, batch)
      modifies this`batch, this`serialized, this`unitTokens, this`estimate, reader
      ensures Valid()
      ensures |old(batch)| > 1 ==> ok && batch == old(batch)[..|old(batch)| - 1]
      ensures |old(batch)| > 1 ==> serialized == old(serialized) && unitTokens == old(unitTokens)
      ensures |old(batch)| == 1 ==>
                && batch == old(batch) && (ok <==> !old(Stuck(batch[0])))
                && (ok ==> Now().Admits(serialized, batch) && Changed(old(serialized), batch[0]))
      ensures old(Plain()) && Easy() ==> ok && Plain()
    {
      hide *;
      ghost var sent := serialized;
      BatchSent();
      if |batch| == 1 {
        assert batch == [batch[0]];
        JustOne(batch[0], false);
        if Plain() && Easy() {
          EasyBatch();
        }
        ok := Truncate(batch[0]);
        if ok {
          AloneAdmits(batch[0]);
          NowFits(sent, batch[0]);
        }
      } else {
        PutBack();
        ok := true;
      }
    }

    /** The unit is not sent as it was. */
    predicate Changed(sent: map<Ref, string>, unit: Unit)
      reads this`serialized
    {
      unit.ref in sent && unit.ref in serialized && serialized[unit.ref] != sent[unit.ref]
    }

    lemma NowFits(sent: map<Ref, string>, unit: Unit)
      requires unit.ref in sent && unit.ref in serialized
      requires !Now().Admits(sent, [unit]) && Now().Alone(serialized[unit.ref])
      ensures Changed(sent, unit)
    {
      hide Env.Fits;
      OneContent(sent, unit);
    }

    lemma AloneAdmits(unit: Unit)
      requires unit.ref in serialized && Now().Alone(serialized[unit.ref])
      ensures Now().Admits(serialized, [unit])
    {
      hide Env.Fits;
      OneContent(serialized, unit);
    }

    /**
     Shrink the batch, and at last its only unit, until the whole request fits:
     what is kept is the longest part of it whose request fits, or one unit.
     */
    method FitBatch() returns (r: Result<Option<Call>, Error>)
      requires Valid() && pending.None? && batch != []
      modifies this`batch, this`serialized, this`unitTokens, this`estimate, this`pending, reader
      ensures Valid() && batch != [] && batch <= old(batch)
      ensures Longest(Now(), old(serialized), old(batch), |batch|)
      ensures r.Ok? ==> (serialized == old(serialized) && unitTokens == old(unitTokens))
                        || (|batch| == 1 && Changed(old(serialized), batch[0]) && !Now().Admits(old(serialized), batch))
      ensures r.Err? ==> old(Stuck(batch[0])) && Longest(Now(), old(serialized), old(batch), 0)
      ensures r.Ok? ==> !(old(Stuck(batch[0])) && Longest(Now(), old(serialized), old(batch), 0))
      ensures r.Err? ==> pending.None?
      ensures r.Ok? ==>
                && r.value.Some? && pending == r.value
                && r.value.value == Request(batch) && env.Fits(env.base(r.value.value), scale)
      ensures old(Plain()) && Easy() ==> r.Ok? && Plain()
    {
      hide *;
      ghost var plain := Plain() && Easy();
      var call, fits := MeasureBatch();
      ghost var was, sent, stuck := batch, serialized, Stuck(batch[0]);
      AllOfIt(Now(), sent, was);
      while !fits
        invariant Valid() && pending.None? && batch != [] && batch <= was && Measured(call, fits)
        invariant fits <==> Now().Admits(serialized, batch)
        invariant Longest(Now(), sent, was, |batch|)
        invariant serialized == sent || (|batch| == 1 && fits && !stuck)
        invariant (serialized == sent && unitTokens == old(unitTokens))
                  || (|batch| == 1 && fits && Changed(sent, batch[0]) && !Now().Admits(sent, batch))
        invariant plain ==> Plain() && Easy()
        decreases |batch|, !fits
      {
        assert batch == was[..|batch|];
        Shorter(Now(), sent, was, |batch|);
        var shrunk := Shrink();
        if !shrunk {
          return Err(CannotFit);
        }
        call, fits := MeasureBatch();
      }
      Requested(call);
      if serialized == sent {
        assert batch == was[..|batch|];
        SomeFits(Now(), sent, was, |batch|);
      }
      pending := Some(call);
      ValidAgain(call);
      r := Ok(pending);
    }

    /** The summary can be adopted: it fits the caller and leaves room to go on. */
    method ValidateSummary(response: Response) returns (r: Result<string, Error>)
      requires Valid()
      ensures r.Ok? <==> Usable(env, target, scale, estimate, response)
      ensures r.Ok? ==> response.text == Some(r.value)
      ensures r.Err? ==> r.error == if response.text.None? then NotText else SummaryTooLarge
    {
      if response.text.None? {
        return Err(NotText);
      }
      var text := response.text.value;
      if !env.summaryFits(text) {
        return Err(SummaryTooLarge);
      }
      if !env.Fits(env.base(Call(text, [], target)) + 256, Calibrated(scale, estimate, response.usage)) {
        return Err(SummaryTooLarge);
      }
      r := Ok(text);
    }

    /** A summary that is too large may be asked for again, at half the size, twice. */
    method RetrySummary() returns (ok: bool)
      requires Valid()
      modifies this`retries, this`target, this`pending
      ensures Valid() && (ok <==> old(retries) < 2)
      ensures ok ==> pending.None? && Below(Measure(), old(Measure()))
      ensures ok ==> retries == old(retries) + 1 && target == if old(target) / 2 < 1 then 1 else old(target) / 2
      ensures !ok ==> retries == old(retries) && pending == old(pending) && target == old(target)
    {
      if retries >= 2 {
        return false;
      }
      retries := retries + 1;
      target := if target / 2 < 1 then 1 else target / 2;
      pending := None;
      ok := true;
    }

    /** The batch is summarized: its units are never read again. */
    method Accept(response: Response) returns (r: Result<(), Error>)
      requires Valid()
      modifies this`summary, this`scale, this`serialized, this`unitTokens, this`batch, this`pending, this`retries,
               this`accepted
      ensures Valid() && scale >= old(scale)
      ensures r.Ok? <==> old(Usable(env, target, scale, estimate, response))
      ensures old(Plain()) ==> Plain()
      ensures r.Ok? ==>
                && response.text == Some(summary) && batch == [] && pending.None? && retries == 0
                && accepted == old(accepted) + |old(batch)|
                && scale == Calibrated(old(scale), estimate, response.usage)
                && (old(batch) != [] ==> Below(Measure(), old(Measure())))
                && forall u :: u in old(batch) ==> u.ref !in serialized
      ensures r.Err? ==> scale == old(scale) && summary == old(summary)
      ensures r.Err? ==> accepted == old(accepted) && batch == old(batch) && pending == old(pending)
    {
      hide Env.Fits, Contents, Calibrated, Doublings, Usable;
      var validated := ValidateSummary(response);
      if validated.Err? {
        return Err(validated.error);
      }
      summary := validated.value;
      RetireBatch(Calibrated(scale, estimate, response.usage));
      r := Ok(());
    }

    method RetireBatch(newScale: real)
      requires Tiles() && env.Valid() && reader.env == env && reader.Valid() && newScale >= 1.0
      requires forall r :: r in serialized ==> r in unitTokens
      modifies this`scale, this`serialized, this`unitTokens, this`batch, this`pending, this`retries, this`accepted
      ensures Valid() && scale == newScale && batch == [] && pending.None? && retries == 0
      ensures accepted == old(accepted) + |old(batch)|
      ensures old(Plain()) ==> Plain()
      ensures forall u :: u in old(batch) ==> u.ref !in serialized
    {
      hide Env.Fits, Contents;
      scale := newScale;
      var done := set u | u in batch :: u.ref;
      serialized, unitTokens := serialized - done, unitTokens - done;
      accepted := accepted + |batch|;
      batch := [];
      pending := None;
      retries := 0;
    }

    /** An admitted request leaves the scale itself within the budget. */
    lemma AdmittedBelowBudget(estimate: nat, scale: real)
      requires estimate >= 1 && scale >= 1.0 && env.Fits(estimate, scale)
      ensures scale <= env.Budget() && Doublings(2.0 * scale, env.Budget()) < Doublings(scale, env.Budget())
    {
      assert estimate as real * scale >= scale;
    }

    /** A context overflow: halve the batch, or double the scale and shorten a lone unit. */
    method Reject(overflow: bool, usage: Option<nat>) returns (r: Result<(), Error>)
      requires Valid()
      modifies this`scale, this`pending, this`serialized, this`unitTokens, this`estimate, this`batch, reader
      ensures Valid() && scale >= old(scale)
      ensures !overflow ==> r == Err(NotOverflow) && pending == old(pending) && scale == old(scale)
      ensures overflow ==>
                scale == Calibrated(old(scale), old(estimate), usage) * if |old(batch)| == 1 then 2.0 else 1.0
      ensures r.Ok? ==> pending.None? && batch != [] && batch <= old(batch)
      ensures r.Ok? && |old(batch)| > 1 ==> |batch| == |old(batch)| / 2
      ensures r.Ok? && old(pending).Some? ==> Below(Measure(), old(Measure()))
      ensures r.Ok? <==> overflow && old(batch) != [] &&
                         (|old(batch)| == 1 ==> Now().Shortens(old(Text(batch[0]))))
    {
      if !overflow {
        return Err(NotOverflow);
      }
      hide Env.Fits, Contents, Doublings, Tiles, Terms.Shortens, Terms.Alone, Calibrated;
      RaiseScale(usage);
      if |batch| == 1 {
        var truncated := Truncate(batch[0]);
        return if truncated then Ok(()) else Err(CannotFit);
      }
      var halved := HalveBatch();
      r := if halved then Ok(()) else Err(InvalidRewind);
    }

    method RaiseScale(usage: Option<nat>)
      requires Valid()
      modifies this`scale, this`pending
      ensures Valid() && pending.None?
      ensures scale >= old(scale) && (|batch| == 1 ==> scale >= 2.0 * old(scale))
      ensures scale == Calibrated(old(scale), estimate, usage) * if |batch| == 1 then 2.0 else 1.0
      ensures Doublings(scale, env.Budget()) <= Doublings(old(scale), env.Budget())
      ensures |batch| == 1 && old(pending).Some? ==>
                Doublings(scale, env.Budget()) < Doublings(old(scale), env.Budget())
    {
      hide Env.Fits, Contents, Calibrated, Tiles;
      if pending.Some? {
        AdmittedBelowBudget(estimate, scale);
      }
      ghost var before := scale;
      scale := Calibrated(scale, estimate, usage);
      pending := None;
      DoublingsFall(before, scale, env.Budget());
      if |batch| == 1 {
        scale := scale * 2.0;
        DoublingsFall(2.0 * before, scale, env.Budget());
        DoublingsFall(before, scale, env.Budget());
      }
    }

    method HalveBatch() returns (ok: bool)
      requires Valid() && pending.None? && |batch| != 1
      modifies this`batch, reader
      ensures Valid() && (ok <==> old(batch) != [])
      ensures batch <= old(batch) && (ok ==> batch != [] && |batch| < |old(batch)| && |batch| == |old(batch)| / 2)
    {
      hide Env.Fits, Env.Budget, Contents;
      var midpoint := if |batch| / 2 < 1 then 1 else |batch| / 2;
      ok := reader.Rewind(|batch| - midpoint);
      if ok {
        batch := batch[..midpoint];
      }
    }
  }

  /** `a` is lexicographically smaller than `b`. */
  predicate Below(a: (nat, nat, nat, nat), b: (nat, nat, nat, nat)) {
    || a.0 < b.0
    || (a.0 == b.0 && a.1 < b.1)
    || (a.0 == b.0 && a.1 == b.1 && a.2 < b.2)
    || (a.0 == b.0 && a.1 == b.1 && a.2 == b.2 && a.3 < b.3)
  }

  lemma BelowChain(a: (nat, nat, nat, nat), b: (nat, nat, nat, nat), c: (nat, nat, nat, nat))
    requires Below(a, b) && (b == c || Below(b, c))
    ensures Below(a, c)
  {
  }

  lemma BelowMeans(a: (nat, nat, nat, nat), b: (nat, nat, nat, nat), c: (nat, nat, nat, nat))
    requires Below(a, b) && (b == c || Below(b, c))
    ensures || a.0 < c.0
            || (a.0 == c.0 && a.1 < c.1)
            || (a.0 == c.0 && a.1 == c.1 && a.2 < c.2)
            || (a.0 == c.0 && a.1 == c.1 && a.2 == c.2 && a.3 < c.3)
  {
  }
}
