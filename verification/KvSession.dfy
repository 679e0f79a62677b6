/** The decode/prefill session: its position, the device it drives, and three caches of
    recorded graphs with different keys. */
module KvSession {
  import opened KvCache
  import opened KvDevice
  import opened KvExec
  import opened KvOps
  import opened KvReference
  import opened Prelude

  datatype DecodeMode = Prepared | Graph | PerOp | FlashMode

  /** The prefill graph recorded at position 0 for `t` tokens. */
  datatype PrefillRecording = PrefillRecording(t: nat, ops: seq<Op>)

  /** `n` decode steps recorded from position `start`. */
  datatype UnrolledRecording = UnrolledRecording(start: nat, n: nat, ops: seq<Op>)

  /** The host's argmax over downloaded logits. */
  function Sampled(m: Mem, s: Scratch): Tok {
    if At(m, Of(s, Logits)).LogitRow? then Greedy(At(m, Of(s, Logits)).x) else Unset
  }

  /** A token with an embedding: an argmax, or an id that is a row of the table. */
  ghost predicate Known(token: Tok, vocab: nat) { token.Greedy? || (token.Prompt? && token.id < vocab) }

  /** What one greedy step submits, by mode. */
  ghost function StepLists(cfg: Config, mode: DecodeMode, fused: bool, pos: nat): seq<seq<Op>> {
    match mode
    case Prepared | Graph => [DecodeOps(cfg, fused, pos, 0, false)]
    case FlashMode => PerOpSubmissions(cfg, FlashRow, pos)
    case PerOp => PerOpSubmissions(cfg, if fused then Fused else Composed, pos)
  }

  ghost function Stepper(cfg: Config, mode: DecodeMode, fused: bool): nat -> seq<seq<Op>> {
    (pos: nat) => StepLists(cfg, mode, fused, pos)
  }

  /** `n` steps, one after the other. */
  ghost function Steps<T>(step: nat -> seq<T>, start: nat, n: nat): seq<T> {
    if n == 0 then [] else Steps(step, start, n - 1) + step(start + n - 1)
  }

  /** The log after `n` steps. */
  ghost predicate StepsLogged<T>(step: nat -> seq<T>, start: nat, n: nat, log: seq<T>, trace: seq<T>) {
    trace == log + Steps(step, start, n)
  }

  lemma StepsGrow<T>(step: nat -> seq<T>, start: nat, n: nat, log: seq<T>, trace: seq<T>, pos: nat)
    requires StepsLogged(step, start, n, log, trace) && pos == start + n
    ensures StepsLogged(step, start, n + 1, log, trace + step(pos))
  {
    assert Steps(step, start, n + 1) == Steps(step, start, n) + step(pos);
  }

  /** `n` steps from history `h` and log `log`, taken one by one: all of them, or as many as
      fit, or none for a token without an embedding. */
  ghost predicate Stepwise(cfg: Config, mode: DecodeMode, fused: bool, vocab: nat, h: seq<Tok>, log: seq<seq<Op>>,
                           token: Tok, n: nat, generated: Option<seq<Tok>>, history: seq<Tok>, trace: seq<seq<Op>>)
    requires |h| <= cfg.tMax
  {
    var done := if generated.Some? then n else if Known(token, vocab) then cfg.tMax - |h| else 0;
    && (generated.Some? <==> |h| + n <= cfg.tMax && (n == 0 || Known(token, vocab)))
    && (generated.Some? ==> generated.value == Produced(cfg.layers, h, token, n))
    && Taken(cfg, mode, fused, h, log, token, done, history, trace)
  }

  ghost predicate Taken(cfg: Config, mode: DecodeMode, fused: bool, h: seq<Tok>, log: seq<seq<Op>>, token: Tok, n: nat,
                        history: seq<Tok>, trace: seq<seq<Op>>)
  {
    history == h + Fed(cfg.layers, h, token, n) && StepsLogged(Stepper(cfg, mode, fused), |h|, n, log, trace)
  }

  /** After `n` of those steps: the token that comes next and all tokens so far. */
  ghost predicate Going(cfg: Config, mode: DecodeMode, fused: bool, h: seq<Tok>, log: seq<seq<Op>>, token: Tok, n: nat,
                        history: seq<Tok>, trace: seq<seq<Op>>, next: Tok, tokens: seq<Tok>)
  {
    && Taken(cfg, mode, fused, h, log, token, n, history, trace)
    && next == Feed(cfg.layers, h, token, n) && tokens == Produced(cfg.layers, h, token, n)
  }

  lemma StillGoing(cfg: Config, mode: DecodeMode, fused: bool, h: seq<Tok>, log: seq<seq<Op>>, token: Tok, n: nat,
                   history: seq<Tok>, trace: seq<seq<Op>>, next: Tok, tokens: seq<Tok>, step: Tok, pos: nat)
    requires Going(cfg, mode, fused, h, log, token, n, history, trace, next, tokens) && pos == |h| + n
    requires step == Next(cfg.layers, history + [next])
    ensures Going(cfg, mode, fused, h, log, token, n + 1, history + [next], trace + Stepper(cfg, mode, fused)(pos),
                  step, tokens + [step])
  {
    FedGrows(cfg.layers, h, token, n);
    StepsGrow(Stepper(cfg, mode, fused), |h|, n, log, trace, pos);
  }

  lemma NotGone(cfg: Config, mode: DecodeMode, fused: bool, h: seq<Tok>, log: seq<seq<Op>>, token: Tok)
    ensures Going(cfg, mode, fused, h, log, token, 0, h, log, token, [])
  {
    NothingFed(cfg.layers, h, token);
  }

  lemma AllGone(cfg: Config, mode: DecodeMode, fused: bool, vocab: nat, h: seq<Tok>, log: seq<seq<Op>>, token: Tok,
                n: nat, history: seq<Tok>, trace: seq<seq<Op>>, next: Tok, tokens: seq<Tok>)
    requires Going(cfg, mode, fused, h, log, token, n, history, trace, next, tokens)
    requires |h| + n <= cfg.tMax && (n > 0 ==> Known(token, vocab))
    ensures Stepwise(cfg, mode, fused, vocab, h, log, token, n, Some(tokens), history, trace)
  {}

  lemma StoppedShort(cfg: Config, mode: DecodeMode, fused: bool, vocab: nat, h: seq<Tok>, log: seq<seq<Op>>, token: Tok,
                     n: nat, i: nat, history: seq<Tok>, trace: seq<seq<Op>>, next: Tok, tokens: seq<Tok>)
    requires Going(cfg, mode, fused, h, log, token, i, history, trace, next, tokens)
    requires i < n && |h| + i <= cfg.tMax && (i > 0 ==> Known(token, vocab) && Known(next, vocab))
    requires |h| + i == cfg.tMax || !Known(next, vocab)
    ensures Stepwise(cfg, mode, fused, vocab, h, log, token, n, None, history, trace)
  {}

  class Session {
    const cfg: Config
    const mode: DecodeMode
    const fused: bool
    /** Whether the model and device admit f16 prefill activations. */
    const actF16: bool
    /** Rows of the embedding table. */
    const vocab: nat

    /** Tokens in the caches. */
    var pos: nat
    /** Device memory: caches, activations, the token cell and the prompt ids. */
    var mem: Mem
    /** The position cell prepared decode graphs read. */
    var cell: nat
    var scratch: Option<Scratch>
    var generations: nat
    var prefillPrepared: Option<PrefillRecording>
    var decodePrepared: Option<seq<Op>>
    var decodeUnrolled: Option<UnrolledRecording>

    /** The token of each position. */
    ghost var history: seq<Tok>
    /** The op lists submitted so far, positions resolved. */
    ghost var trace: seq<seq<Op>>

    /** The scratch has the activations its width gets. */
    ghost predicate ScratchFits()
      reads this
    {
      scratch.Some? ==> scratch.value.PrefillScratch? && scratch.value.generation < generations
                        && scratch.value.actF16 == (actF16 && scratch.value.t >= 128 && scratch.value.t % 64 == 0)
    }

    /** Every recording is the list the builders produce for its key, and the
        prefill recording names the scratch that exists now. */
    ghost predicate Recorded()
      reads this
    {
      && (prefillPrepared.Some? ==> scratch.Some? && scratch.value.Width() == prefillPrepared.value.t
                                    && prefillPrepared.value.ops == PrefillOps(cfg, scratch.value, 0))
      && (decodePrepared.Some? ==> decodePrepared.value == RelativeStep(cfg))
      && (decodeUnrolled.Some? ==>
            decodeUnrolled.value.ops == UnrolledOps(cfg, decodeUnrolled.value.start, decodeUnrolled.value.n))
    }

    /** The invariant of every reachable session: in every layer, head and lane the caches
        hold the reference streams of the tokens so far, and no recording is stale. */
    ghost predicate Valid()
      reads this
    {
      cfg.Valid() && pos == |history| && Stored(cfg, mem.kt, mem.v, history) && ScratchFits() && Recorded()
    }

    /** f16 activations need the plain products of wide prefills and their row alignment. */
    predicate ActFor(t: nat) { actF16 && t >= 128 && t % 64 == 0 }

    /** Zeroed caches, nothing recorded. */
    constructor (cfg: Config, mode: DecodeMode, fused: bool, actF16: bool, vocab: nat)
      requires cfg.Valid()
      ensures Valid() && pos == 0 && history == [] && trace == []
      ensures this.cfg == cfg && this.mode == mode && this.fused == fused && this.actF16 == actF16
      ensures this.vocab == vocab
      ensures prefillPrepared.None? && decodePrepared.None? && decodeUnrolled.None? && scratch.None?
    {
      this.cfg, this.mode, this.fused, this.actF16, this.vocab := cfg, mode, fused, actF16, vocab;
      pos, cell, generations := 0, 0, 0;
      mem := Mem(ZeroCaches(cfg), ZeroCaches(cfg), map[], Unset, []);
      scratch, prefillPrepared, decodePrepared, decodeUnrolled := None, None, None, None;
      history, trace := [], [];
      new;
      ZeroStores(cfg);
    }

    /** Re-zeroes the caches and rewinds; recordings stay. */
    method Reset()
      requires Valid()
      modifies this`pos, this`mem, this`history
      ensures Valid() && pos == 0 && history == []
      ensures mem == old(mem).(kt := ZeroCaches(cfg), v := ZeroCaches(cfg))
    {
      mem := mem.(kt := ZeroCaches(cfg), v := ZeroCaches(cfg));
      pos := 0;
      history := [];
      ZeroStores(cfg);
    }

    /** Drops every recording. */
    method DropPrepared()
      requires Valid()
      modifies this`prefillPrepared, this`decodePrepared, this`decodeUnrolled
      ensures Valid() && prefillPrepared.None? && decodePrepared.None? && decodeUnrolled.None?
    {
      prefillPrepared, decodePrepared, decodeUnrolled := None, None, None;
    }

    // ---- Submissions -----------------------------------------------------

    /** Executes a recorded list with the position cell's current value. */
    method Submit(ops: seq<Op>)
      modifies this`mem, this`trace
      ensures mem == Run(cfg, Resolve(ops, cell), old(mem))
      ensures trace == old(trace) + [Resolve(ops, cell)]
    {
      mem := Run(cfg, Resolve(ops, cell), mem);
      trace := trace + [Resolve(ops, cell)];
    }

    /** A list with its positions baked in executes as it is. */
    method SubmitBaked(ops: seq<Op>)
      requires AllIgnore(ops)
      modifies this`mem, this`trace
      ensures mem == Run(cfg, ops, old(mem)) && trace == old(trace) + [ops]
    {
      IgnoredCell(ops, cell);
      Submit(ops);
    }

    /** Lists submitted one after the other. */
    method SubmitEach(lists: seq<seq<Op>>)
      requires AllIgnore(Flat(lists, |lists|))
      modifies this`mem, this`trace
      ensures mem == Run(cfg, Flat(lists, |lists|), old(mem)) && trace == old(trace) + lists
    {
      ghost var states := States(cfg, lists, |lists|, mem);
      PartsIgnore(lists, |lists|);
      FlatRuns(cfg, lists, |lists|, mem);
      for i := 0 to |lists|
        invariant mem == states[i] && trace == old(trace) + lists[..i]
      {
        SubmitBaked(lists[i]);
      }
    }

    /** The embedding of a token goes to the buffer that decode reads first. */
    method Upload(token: Tok)
      modifies this`mem
      ensures mem == Put(old(mem), Of(DecodeScratch, XA), Stream([Embed(token)]))
      ensures Stored(cfg, old(mem).kt, old(mem).v, history) ==> Primed(cfg, mem, history, token)
    {
      mem := Put(mem, Of(DecodeScratch, XA), Stream([Embed(token)]));
    }

    /** The host's position after `toks` have been stored. */
    method MoveOn(ghost toks: seq<Tok>, n: nat)
      requires cfg.Valid() && pos == |history| && n == |toks| && ScratchFits() && Recorded()
      requires Stored(cfg, mem.kt, mem.v, history + toks)
      modifies this`pos, this`history
      ensures Valid() && pos == old(pos) + n && history == old(history) + toks
    {
      history := history + toks;
      pos := pos + n;
    }

    // ---- Prefill ---------------------------------------------------------

    /** A scratch of width `t`; a new one invalidates the recording that names the old. */
    method EnsureScratch(t: nat)
      requires ScratchFits() && Recorded()
      modifies this`scratch, this`generations, this`prefillPrepared
      ensures ScratchFits() && Recorded() && scratch.Some? && scratch.value.Width() == t
      ensures prefillPrepared == old(prefillPrepared) || prefillPrepared.None?
      ensures old(scratch.Some? && scratch.value.Width() == t) ==>
                scratch == old(scratch) && prefillPrepared == old(prefillPrepared)
    {
      if scratch.None? || scratch.value.Width() != t {
        prefillPrepared := None;
        scratch := Some(PrefillScratch(t, ActFor(t), generations));
        generations := generations + 1;
      }
    }

    /** Runs the prefill graph of the current scratch, from its recording at position 0
        when there is one. */
    method SubmitPrefill(t: nat)
      requires Valid() && scratch.Some? && scratch.value.Width() == t
      modifies this`mem, this`trace, this`prefillPrepared
      ensures Recorded() && mem == Run(cfg, PrefillOps(cfg, scratch.value, pos), old(mem))
      ensures trace == old(trace) + [PrefillOps(cfg, scratch.value, pos)]
      ensures pos == 0 ==> prefillPrepared.Some? && prefillPrepared.value.t == t
    {
      PrefillIgnores(cfg, scratch.value, pos);
      if pos == 0 && prefillPrepared.Some? && prefillPrepared.value.t == t {
        SubmitBaked(prefillPrepared.value.ops);
      } else {
        var ops := PrefillOps(cfg, scratch.value, pos);
        SubmitBaked(ops);
        if pos == 0 { prefillPrepared := Some(PrefillRecording(t, ops)); }
      }
    }

    /** Prefills `tokens` at the current position and returns the greedy token after them.
        Whether it replays or records, what executes is the list the builder makes now. */
    method Prefill(tokens: seq<Tok>) returns (next: Option<Tok>)
      requires Valid()
      modifies this`pos, this`mem, this`history, this`trace, this`scratch, this`generations, this`prefillPrepared
      ensures Valid()
      ensures next.Some? <==> 0 < |tokens| && old(pos) + |tokens| <= cfg.tMax
      ensures next.Some? ==> history == old(history) + tokens && next.value == Next(cfg.layers, history)
                             && Extended(cfg, old(mem), mem, old(history), tokens)
      ensures next.Some? ==> scratch.Some? && scratch.value.PrefillScratch? && scratch.value.t == |tokens|
                             && scratch.value.actF16 == (actF16 && |tokens| >= 128 && |tokens| % 64 == 0)
                             && trace == old(trace) + [PrefillOps(cfg, scratch.value, old(pos))]
      ensures next.Some? && old(pos) == 0 ==> prefillPrepared.Some? && prefillPrepared.value.t == |tokens|
      ensures next.None? ==> pos == old(pos) && mem == old(mem) && history == old(history) && trace == old(trace)
    {
      var t := |tokens|;
      if t == 0 || pos + t > cfg.tMax { return None; }
      EnsureScratch(t);
      RunPrompt(tokens);
      MoveOn(tokens, t);
      return Some(mem.token);
    }

    /** Writes the prompt and runs its graph; the host's position is still the old one. */
    method RunPrompt(tokens: seq<Tok>)
      requires Valid() && scratch.Some? && scratch.value.Width() == |tokens| > 0 && pos + |tokens| <= cfg.tMax
      modifies this`mem, this`trace, this`prefillPrepared
      ensures Recorded() && Extended(cfg, old(mem), mem, history, tokens)
              && mem.token == Next(cfg.layers, history + tokens)
      ensures trace == old(trace) + [PrefillOps(cfg, scratch.value, pos)]
      ensures pos == 0 ==> prefillPrepared.Some? && prefillPrepared.value.t == |tokens|
    {
      PrefillStores(cfg, scratch.value, mem, history, tokens);
      mem := mem.(ids := tokens);
      SubmitPrefill(|tokens|);
    }

    /** The list a prefill would submit now, without submitting it. It may replace the
        scratch, and then drops the recording. */
    method PrefillGraph(t: nat) returns (ops: Option<seq<Op>>)
      requires Valid()
      modifies this`scratch, this`generations, this`prefillPrepared
      ensures Valid()
      ensures ops.Some? <==> 0 < t && pos + t <= cfg.tMax
      ensures ops.Some? ==> scratch.Some? && scratch.value.PrefillScratch? && scratch.value.t == t
                            && scratch.value.actF16 == (actF16 && t >= 128 && t % 64 == 0)
                            && ops.value == PrefillOps(cfg, scratch.value, pos)
    {
      if t == 0 || pos + t > cfg.tMax { return None; }
      EnsureScratch(t);
      return Some(PrefillOps(cfg, scratch.value, pos));
    }

    // ---- Decode ----------------------------------------------------------

    /** The host looks the token up in its own copy of the table. */
    predicate Embeds(token: Tok) {
      match token
      case Prompt(id) => id < vocab
      case Greedy(_) => true
      case Unset => false
    }

    /** One step as a graph recorded for this position. */
    method DecodeGraph(token: Tok) returns (next: Option<Tok>)
      requires Valid()
      modifies this`pos, this`mem, this`history, this`trace
      ensures Valid() && (next.Some? <==> old(pos) < cfg.tMax && Known(token, vocab))
      ensures next.Some? ==> history == old(history) + [token] && next.value == Next(cfg.layers, history)
                             && Extended(cfg, old(mem), mem, old(history), [token])
                             && trace == old(trace) + [DecodeOps(cfg, fused, old(pos), 0, false)]
      ensures next.None? ==> pos == old(pos) && mem == old(mem) && history == old(history) && trace == old(trace)
    {
      if pos >= cfg.tMax || !Embeds(token) { return None; }
      RunGraph(token);
      var sampled := Sample(token, old(mem));
      return Some(sampled);
    }

    method RunGraph(token: Tok)
      requires Valid() && pos < cfg.tMax
      modifies this`mem, this`trace
      ensures Sampleable(cfg, old(mem), mem, history, token)
      ensures trace == old(trace) + [DecodeOps(cfg, fused, pos, 0, false)]
    {
      Upload(token);
      DecodeStores(cfg, fused, false, old(mem), mem, history, token, pos);
      DecodeWithin(cfg, fused, pos, 0, false);
      SubmitBaked(DecodeOps(cfg, fused, pos, 0, false));
    }

    /** The host takes the greedy token from the logits and moves on. */
    method Sample(ghost token: Tok, ghost before: Mem) returns (next: Tok)
      requires cfg.Valid() && pos == |history| && ScratchFits() && Recorded()
      requires Sampleable(cfg, before, mem, history, token)
      modifies this`pos, this`history
      ensures Valid() && history == old(history) + [token] && next == Next(cfg.layers, history)
      ensures Extended(cfg, before, mem, old(history), [token])
    {
      MoveOn([token], 1);
      return Sampled(mem, DecodeScratch);
    }

    /** One step submitted op by op. */
    method DecodePerOp(token: Tok) returns (next: Option<Tok>)
      requires Valid()
      modifies this`pos, this`mem, this`history, this`trace
      ensures Valid() && (next.Some? <==> old(pos) < cfg.tMax && Known(token, vocab))
      ensures next.Some? ==> history == old(history) + [token] && next.value == Next(cfg.layers, history)
                             && Extended(cfg, old(mem), mem, old(history), [token])
                             && trace == old(trace) + PerOpSubmissions(cfg, if mode == FlashMode then FlashRow
                                                                            else if fused then Fused
                                                                            else Composed, old(pos))
      ensures next.None? ==> pos == old(pos) && mem == old(mem) && history == old(history) && trace == old(trace)
    {
      if pos >= cfg.tMax || !Embeds(token) { return None; }
      RunOps(token);
      var sampled := Sample(token, old(mem));
      return Some(sampled);
    }

    /** The ops of a step at the current position, one submission after the other. */
    method RunOps(token: Tok)
      requires Valid() && pos < cfg.tMax
      modifies this`mem, this`trace
      ensures Sampleable(cfg, old(mem), mem, history, token)
      ensures trace == old(trace) + PerOpSubmissions(cfg, PerOpKind(), pos)
    {
      Upload(token);
      PerOpStores(cfg, PerOpKind(), old(mem), mem, history, token);
      PerOpIgnores(cfg, PerOpKind(), pos);
      SubmissionsFlat(cfg, PerOpKind(), pos);
      SubmitEach(PerOpSubmissions(cfg, PerOpKind(), pos));
    }

    function PerOpKind(): Attention {
      if mode == FlashMode then FlashRow else if fused then Fused else Composed
    }

    /** One greedy step. */
    method Decode(token: Tok) returns (next: Option<Tok>)
      requires Valid()
      modifies this`pos, this`mem, this`history, this`trace
      ensures Valid() && (next.Some? <==> old(pos) < cfg.tMax && Known(token, vocab))
      ensures next.Some? ==> history == old(history) + [token] && next.value == Next(cfg.layers, history)
                             && trace == old(trace) + StepLists(cfg, mode, fused, old(pos))
      ensures next.None? ==> pos == old(pos) && mem == old(mem) && history == old(history) && trace == old(trace)
    {
      if mode == Graph || mode == Prepared { next := DecodeGraph(token); } else { next := DecodePerOp(token); }
    }

    /** The per-token fallback: it stops at the first step that does not fit, or at once on
        an unknown token, keeping the steps already taken but returning no token. */
    method DecodeEach(token: Tok, n: nat) returns (generated: Option<seq<Tok>>)
      requires Valid()
      modifies this`pos, this`mem, this`history, this`trace
      ensures Valid() && old(pos) == |old(history)| <= cfg.tMax
      ensures Stepwise(cfg, mode, fused, vocab, old(history), old(trace), token, n, generated, history, trace)
    {
      var next, tokens := token, [];
      NotGone(cfg, mode, fused, history, trace, token);
      for i := 0 to n
        invariant Valid() && pos == old(pos) + i && (i > 0 ==> Known(token, vocab) && Known(next, vocab))
        invariant Going(cfg, mode, fused, old(history), old(trace), token, i, history, trace, next, tokens)
      {
        var step := DecodeNext(token, i, next, tokens, old(history), old(trace));
        if step.None? {
          StoppedShort(cfg, mode, fused, vocab, old(history), old(trace), token, n, i, history, trace, next, tokens);
          return None;
        }
        next := step.value;
        tokens := tokens + [next];
      }
      AllGone(cfg, mode, fused, vocab, old(history), old(trace), token, n, history, trace, next, tokens);
      return Some(tokens);
    }

    method DecodeNext(ghost first: Tok, ghost i: nat, token: Tok, ghost tokens: seq<Tok>, ghost h: seq<Tok>,
                      ghost log: seq<seq<Op>>)
      returns (next: Option<Tok>)
      requires Valid() && pos == |h| + i
      requires Going(cfg, mode, fused, h, log, first, i, history, trace, token, tokens)
      modifies this`pos, this`mem, this`history, this`trace
      ensures Valid() && (next.Some? <==> old(pos) < cfg.tMax && Known(token, vocab))
      ensures next.Some? ==>
                && pos == old(pos) + 1 && Known(next.value, vocab)
                && Going(cfg, mode, fused, h, log, first, i + 1, history, trace, next.value, tokens + [next.value])
      ensures next.None? ==> pos == old(pos) && history == old(history) && trace == old(trace)
    {
      ghost var before, lists, p := history, trace, pos;
      next := Decode(token);
      if next.Some? {
        StillGoing(cfg, mode, fused, h, log, first, i, before, lists, token, tokens, next.value, p);
      }
    }

    /** `n` greedy steps. In prepared mode the position-relative recording is replayed with
        the cell set before each run, every replay executing the list for its position; a
        request that does not fit changes nothing. Otherwise the steps are taken one by one. */
    method DecodeMany(token: Tok, n: nat) returns (generated: Option<seq<Tok>>)
      requires Valid()
      modifies this`pos, this`mem, this`history, this`trace, this`cell, this`decodePrepared
      ensures Valid()
      ensures mode == Prepared && fused ==>
                && (generated.Some? <==> old(pos) + n <= cfg.tMax && Known(token, vocab))
                && (generated.Some? ==> generated.value == Produced(cfg.layers, old(history), token, n)
                                        && history == old(history) + Fed(cfg.layers, old(history), token, n)
                                        && trace == old(trace) + ClosedSteps(cfg, old(pos), n, true))
                && (generated.None? ==> mem == old(mem) && history == old(history) && trace == old(trace))
      ensures |old(history)| <= cfg.tMax && (mode != Prepared || !fused ==>
                Stepwise(cfg, mode, fused, vocab, old(history), old(trace), token, n, generated, history, trace))
    {
      if mode != Prepared || !fused {
        generated := DecodeEach(token, n);
      } else {
        generated := DecodeReplayed(token, n);
      }
    }

    /** The replayed form embeds its first token even when no step is asked for. */
    method DecodeReplayed(token: Tok, n: nat) returns (generated: Option<seq<Tok>>)
      requires Valid()
      modifies this`pos, this`mem, this`history, this`trace, this`cell, this`decodePrepared
      ensures Valid() && (generated.Some? <==> old(pos) + n <= cfg.tMax && Known(token, vocab))
      ensures generated.Some? ==> generated.value == Produced(cfg.layers, old(history), token, n)
                                  && history == old(history) + Fed(cfg.layers, old(history), token, n)
                                  && trace == old(trace) + ClosedSteps(cfg, old(pos), n, true)
      ensures generated.None? ==> mem == old(mem) && history == old(history) && trace == old(trace)
    {
      if pos + n > cfg.tMax { return None; }
      RecordRelative();
      if !Embeds(token) { return None; }
      Upload(token);
      var tokens := ReplayMany(token, n);
      MoveOn(Fed(cfg.layers, history, token, n), n);
      return Some(tokens);
    }

    /** Records the position-relative step once. */
    method RecordRelative()
      requires Recorded()
      modifies this`decodePrepared
      ensures Recorded() && decodePrepared.Some?
      ensures old(decodePrepared).Some? ==> decodePrepared == old(decodePrepared)
    {
      if decodePrepared.None? { decodePrepared := Some(RelativeStep(cfg)); }
    }

    /** Replays the position-relative recording for positions pos .. pos + n, reading the
        token cell after each; the host's position moves only afterwards. */
    method ReplayMany(token: Tok, n: nat) returns (tokens: seq<Tok>)
      requires cfg.Valid() && Recorded() && decodePrepared.Some? && pos == |history| && pos + n <= cfg.tMax
      requires Primed(cfg, mem, history, token)
      modifies this`mem, this`trace, this`cell
      ensures Decoded(cfg, mem, history, token, n) && tokens == Produced(cfg.layers, history, token, n)
      ensures trace == old(trace) + ClosedSteps(cfg, pos, n, true)
    {
      tokens := [];
      NothingFed(cfg.layers, history, token);
      for i := 0 to n
        invariant Decoded(cfg, mem, history, token, i) && tokens == Produced(cfg.layers, history, token, i)
        invariant Logged(cfg, pos, i, old(trace), trace)
      {
        tokens := ReplayNext(token, i, tokens, old(trace));
      }
    }

    method ReplayNext(ghost token: Tok, i: nat, tokens: seq<Tok>, ghost before: seq<seq<Op>>) returns (more: seq<Tok>)
      requires cfg.Valid() && Recorded() && decodePrepared.Some? && pos == |history| && pos + i < cfg.tMax
      requires Decoded(cfg, mem, history, token, i) && tokens == Produced(cfg.layers, history, token, i)
      requires Logged(cfg, pos, i, before, trace)
      modifies this`mem, this`trace, this`cell
      ensures Decoded(cfg, mem, history, token, i + 1) && more == Produced(cfg.layers, history, token, i + 1)
      ensures Logged(cfg, pos, i + 1, before, trace)
    {
      ghost var fed, last := history + Fed(cfg.layers, history, token, i), Feed(cfg.layers, history, token, i);
      DecodedPrimed(cfg, mem, history, token, i, fed, last);
      var start, p := pos, pos + i;
      ghost var log := trace;
      var next, entry := ReplayStep(p, fed, last);
      LogGrows(cfg, start, i, p, before, log, entry);
      Replayed(cfg, mem, history, token, i, fed + [last], next, tokens);
      more := tokens + [next];
    }

    /** One replay, with the position in the cell: what executes is the list for that
        position, on the fixed attention grid. */
    method ReplayStep(p: nat, ghost filled: seq<Tok>, ghost token: Tok)
      returns (next: Tok, ghost entry: seq<Op>)
      requires cfg.Valid() && Recorded() && decodePrepared.Some? && p == |filled| < cfg.tMax
      requires Primed(cfg, mem, filled, token)
      modifies this`mem, this`trace, this`cell
      ensures next == Next(cfg.layers, filled + [token]) == mem.token && Primed(cfg, mem, filled + [token], next)
      ensures entry == ClosedStep(cfg, true, p, 0, true) && trace == old(trace) + [entry]
    {
      cell := p;
      ReplayIsRerecording(cfg, 0, cfg.addr, p);
      ClosedStepStores(cfg, true, true, mem, filled, token, p);
      Submit(decodePrepared.value);
      return mem.token, ClosedStep(cfg, true, p, 0, true);
    }

    /** `n` steps in one submission with their positions baked in, reusing the recording
        made for the same start and count; only the last token comes back. */
    method DecodeUnrolled(token: Tok, n: nat) returns (generated: Option<seq<Tok>>)
      requires Valid()
      modifies this`pos, this`mem, this`history, this`trace, this`cell, this`decodePrepared, this`decodeUnrolled
      ensures Valid()
      ensures mode == Prepared && fused ==>
                && (generated.Some? <==> old(pos) + n <= cfg.tMax && Known(token, vocab))
                && (generated.Some? ==>
                      && generated.value == (if n == 0 then [] else [Feed(cfg.layers, old(history), token, n)])
                      && history == old(history) + Fed(cfg.layers, old(history), token, n))
                && (generated.Some? && n == 0 ==> trace == old(trace))
                && (generated.Some? && n > 0 ==>
                      && trace == old(trace) + [UnrolledOps(cfg, old(pos), n)]
                      && decodeUnrolled == Some(UnrolledRecording(old(pos), n, UnrolledOps(cfg, old(pos), n))))
                && (generated.None? ==> mem == old(mem) && history == old(history) && trace == old(trace))
      ensures |old(history)| <= cfg.tMax && (mode != Prepared || !fused ==>
                Stepwise(cfg, mode, fused, vocab, old(history), old(trace), token, n, generated, history, trace))
    {
      if mode != Prepared || !fused || n == 0 {
        NothingFed(cfg.layers, history, token);
        generated := DecodeMany(token, n);
      } else {
        generated := UnrollOnce(token, n);
      }
    }

    method UnrollOnce(token: Tok, n: nat) returns (generated: Option<seq<Tok>>)
      requires Valid() && n > 0
      modifies this`pos, this`mem, this`history, this`trace, this`decodeUnrolled
      ensures Valid() && (generated.Some? <==> old(pos) + n <= cfg.tMax && Known(token, vocab))
      ensures generated.Some? ==>
                && generated.value == [Feed(cfg.layers, old(history), token, n)]
                && history == old(history) + Fed(cfg.layers, old(history), token, n)
                && trace == old(trace) + [UnrolledOps(cfg, old(pos), n)]
                && decodeUnrolled == Some(UnrolledRecording(old(pos), n, UnrolledOps(cfg, old(pos), n)))
      ensures generated.None? ==> mem == old(mem) && history == old(history) && trace == old(trace)
    {
      if pos + n > cfg.tMax { return None; }
      RecordUnrolled(n);
      if !Embeds(token) { return None; }
      RunUnrolled(token, n);
      var last := mem.token;
      MoveOn(Fed(cfg.layers, history, token, n), n);
      return Some([last]);
    }

    method RunUnrolled(token: Tok, n: nat)
      requires Valid() && pos + n <= cfg.tMax
      requires decodeUnrolled == Some(UnrolledRecording(pos, n, UnrolledOps(cfg, pos, n)))
      modifies this`mem, this`trace
      ensures Decoded(cfg, mem, history, token, n) && trace == old(trace) + [UnrolledOps(cfg, pos, n)]
    {
      Upload(token);
      UnrolledDecodes(cfg, mem, history, token, n);
      UnrolledIgnores(cfg, pos, n);
      SubmitBaked(decodeUnrolled.value.ops);
    }

    /** Keeps the unrolled recording exactly when its start and count match. */
    method RecordUnrolled(n: nat)
      requires Recorded()
      modifies this`decodeUnrolled
      ensures Recorded()
      ensures decodeUnrolled == Some(UnrolledRecording(pos, n, UnrolledOps(cfg, pos, n)))
    {
      var reuse := decodeUnrolled.Some? && decodeUnrolled.value.start == pos && decodeUnrolled.value.n == n;
      if !reuse { decodeUnrolled := Some(UnrolledRecording(pos, n, UnrolledOps(cfg, pos, n))); }
    }
  }

  /** However its tokens got there, whole or chunked prefill, any decode mode, replays or
      unrolled runs, a session's history determines its caches up to its position. */
  lemma HistoryDetermines(a: Session, b: Session)
    requires a.Valid() && b.Valid() && a.cfg == b.cfg && a.history == b.history
    ensures SameBelow(a.cfg, a.mem, b.mem, a.pos)
  {
    StoredAgree(a.cfg, a.mem, b.mem, a.history);
  }

  function ZeroCache(cfg: Config): (c: Cache)
    ensures |c| == Size(cfg)
  {
    seq(Size(cfg), _ => Zero)
  }

  function ZeroCaches(cfg: Config): (c: seq<Cache>)
    ensures |c| == cfg.layers && forall l :: 0 <= l < cfg.layers ==> c[l] == ZeroCache(cfg)
  {
    seq(cfg.layers, _ => ZeroCache(cfg))
  }

  lemma ZeroStores(cfg: Config)
    requires cfg.Valid()
    ensures Stored(cfg, ZeroCaches(cfg), ZeroCaches(cfg), [])
  {
    forall l: nat | l < cfg.layers ensures Holds(cfg, ZeroCaches(cfg), ZeroCaches(cfg), l, [], 0) {}
  }

  lemma NothingFed(layers: nat, h: seq<Tok>, tok: Tok)
    ensures h + Fed(layers, h, tok, 0) == h && Produced(layers, h, tok, 0) == [] && Feed(layers, h, tok, 0) == tok
  {}

  lemma Replayed(cfg: Config, m: Mem, h: seq<Tok>, tok: Tok, n: nat, fed: seq<Tok>, next: Tok, tokens: seq<Tok>)
    requires fed == h + Fed(cfg.layers, h, tok, n) + [Feed(cfg.layers, h, tok, n)]
    requires Primed(cfg, m, fed, next) && m.token == next == Next(cfg.layers, fed)
    requires tokens == Produced(cfg.layers, h, tok, n)
    ensures Decoded(cfg, m, h, tok, n + 1) && tokens + [next] == Produced(cfg.layers, h, tok, n + 1)
  {
    DecodedNext(cfg, m, h, tok, n, fed);
    FedGrows(cfg.layers, h, tok, n);
  }

  /** `log` is `before` and n closed steps from `start`. */
  ghost predicate Logged(cfg: Config, start: nat, n: nat, before: seq<seq<Op>>, log: seq<seq<Op>>) {
    log == before + ClosedSteps(cfg, start, n, true)
  }

  lemma LogGrows(cfg: Config, start: nat, n: nat, p: nat, before: seq<seq<Op>>, log: seq<seq<Op>>, entry: seq<Op>)
    requires Logged(cfg, start, n, before, log) && p == start + n && entry == ClosedStep(cfg, true, p, 0, true)
    ensures Logged(cfg, start, n + 1, before, log + [entry])
  {
    assert ClosedSteps(cfg, start, n + 1, true)
           == ClosedSteps(cfg, start, n, true) + [ClosedStep(cfg, true, start + n, 0, true)];
  }
}
