/** Speculative decoding: draft a run, verify it against the target, repeat. */
module Speculative {
  import opened Arith
  import opened Sums
  import opened Models

  /** How a token at the front of the context is chosen: the `pos`-th proposal of a
      round is up for acceptance, or the run is used up and the target adds its own. */
  datatype Mode = Proposal(pos: nat) | Bonus

  /** One verified run. */
  datatype SpeculationResult = SpeculationResult(tokens: seq<TokenId>, accepted: nat, drafted: nat)

  /** A whole generation, with the counts behind its acceptance rate. */
  datatype Generation = Generation(tokens: seq<TokenId>, accepted: nat, drafted: nat, rounds: nat)

  // ---- Rounds, whatever a round is ----

  predicate Ended(eos: TokenId, kept: seq<TokenId>) {
    kept != [] && kept[|kept| - 1] == eos
  }

  /** What the inner loop of `generate` keeps of a round: up to `n` tokens, up to eos. */
  function Kept(eos: TokenId, tokens: seq<TokenId>, n: nat): (kept: seq<TokenId>)
    ensures |kept| <= n
    decreases n
  {
    if n == 0 || tokens == [] then []
    else if tokens[0] == eos then [tokens[0]]
    else [tokens[0]] + Kept(eos, tokens[1..], n - 1)
  }

  /** One stretch of rounds after another. */
  function Join(g: Generation, h: Generation): Generation {
    Generation(g.tokens + h.tokens, g.accepted + h.accepted, g.drafted + h.drafted, g.rounds + h.rounds)
  }

  lemma JoinAssociates(f: Generation, g: Generation, h: Generation)
    ensures Join(Join(f, g), h) == Join(f, Join(g, h))
  {
    Associate(f.tokens, g.tokens, h.tokens);
  }

  /** The outer loop of `generate`: round after round until eos or the limit. A round
      that emits nothing would never end it; `SizedRound` rules that out. */
  ghost function Repeat(round: seq<TokenId> -> SpeculationResult, eos: TokenId, context: seq<TokenId>, n: nat): Generation
    decreases n
  {
    if n == 0 then Generation([], 0, 0, 0)
    else
      var r := round(context);
      var kept := Kept(eos, r.tokens, n);
      var head := Generation(kept, r.accepted, r.drafted, 1);
      if kept == [] || Ended(eos, kept) then head
      else Join(head, Repeat(round, eos, context + kept, n - |kept|))
  }

  ghost predicate SizedRound(r: SpeculationResult, eos: TokenId, lookahead: nat) {
    && r.accepted <= r.drafted <= lookahead && r.tokens != []
    && (|r.tokens| == r.accepted + 1 || (|r.tokens| == r.accepted && Ended(eos, r.tokens)))
  }

  lemma KeptSome(eos: TokenId, tokens: seq<TokenId>, n: nat)
    requires n > 0 && tokens != []
    ensures Kept(eos, tokens, n) != []
  {
  }

  lemma {:induction false} KeptShorter(eos: TokenId, tokens: seq<TokenId>, n: nat)
    ensures |Kept(eos, tokens, n)| <= |tokens|
    decreases n
  {
    if n > 0 && tokens != [] && tokens[0] != eos {
      KeptShorter(eos, tokens[1..], n - 1);
    }
  }

  /** At least one token a round, and never more accepted than drafted. */
  lemma {:induction false} RoundsMakeProgress(
    round: seq<TokenId> -> SpeculationResult, eos: TokenId, lookahead: nat, context: seq<TokenId>, n: nat)
    requires forall c :: SizedRound(round(c), eos, lookahead)
    ensures var g := Repeat(round, eos, context, n);
      g.rounds <= |g.tokens| <= n && g.accepted <= g.drafted && (n > 0 ==> g.rounds > 0)
    decreases n
  {
    if n > 0 {
      var kept := Kept(eos, round(context).tokens, n);
      KeptSome(eos, round(context).tokens, n);
      if !Ended(eos, kept) {
        RoundsMakeProgress(round, eos, lookahead, context + kept, n - |kept|);
      }
    }
  }

  lemma OneMore(x: nat, rest: nat, rounds: nat, b: nat)
    requires x <= b && rest <= rounds * b
    ensures x + rest <= (1 + rounds) * b
    ensures x + rest == (1 + rounds) * b ==> x == b && rest == rounds * b
  {
    Distribute(1, rounds, b);
  }

  /** At most `lookahead` proposals and `lookahead + 1` tokens a round. */
  lemma {:induction false} RoundsBoundTokens(
    round: seq<TokenId> -> SpeculationResult, eos: TokenId, lookahead: nat, context: seq<TokenId>, n: nat)
    requires forall c :: SizedRound(round(c), eos, lookahead)
    ensures var g := Repeat(round, eos, context, n);
      |g.tokens| <= g.rounds * (lookahead + 1) && g.drafted <= g.rounds * lookahead
    decreases n
  {
    if n > 0 {
      var r := round(context);
      var kept := Kept(eos, r.tokens, n);
      KeptShorter(eos, r.tokens, n);
      KeptSome(eos, r.tokens, n);
      if !Ended(eos, kept) {
        var rest := Repeat(round, eos, context + kept, n - |kept|);
        RoundsBoundTokens(round, eos, lookahead, context + kept, n - |kept|);
        OneMore(|kept|, |rest.tokens|, rest.rounds, lookahead + 1);
        OneMore(r.drafted, rest.drafted, rest.rounds, lookahead);
      }
    }
  }

  lemma {:induction false} KeptAll(eos: TokenId, tokens: seq<TokenId>, n: nat)
    requires eos !in Kept(eos, tokens, n)
    ensures |Kept(eos, tokens, n)| == if |tokens| < n then |tokens| else n
    ensures |tokens| <= n ==> Kept(eos, tokens, n) == tokens
    decreases n
  {
    if n > 0 && tokens != [] {
      assert Kept(eos, tokens, n)[0] == tokens[0];
      assert Kept(eos, tokens, n) == [tokens[0]] + Kept(eos, tokens[1..], n - 1);
      KeptAll(eos, tokens[1..], n - 1);
    }
  }

  /** The round emitted all it could: a whole lookahead and the bonus, or up to eos. */
  ghost predicate Lands(r: SpeculationResult, eos: TokenId, lookahead: nat) {
    |r.tokens| == lookahead + 1 || Ended(eos, r.tokens)
  }

  ghost predicate EachLands(
    round: seq<TokenId> -> SpeculationResult, eos: TokenId, lookahead: nat, context: seq<TokenId>, n: nat)
    decreases n
  {
    n > 0 ==>
      var r := round(context);
      var kept := Kept(eos, r.tokens, n);
      && Lands(r, eos, lookahead)
      && (kept != [] && !Ended(eos, kept) ==> EachLands(round, eos, lookahead, context + kept, n - |kept|))
  }

  /** With as many accepted as all rounds could draft, each round lands. */
  lemma {:induction false} FullLookaheadsLand(
    round: seq<TokenId> -> SpeculationResult, eos: TokenId, lookahead: nat, context: seq<TokenId>, n: nat)
    requires forall c :: SizedRound(round(c), eos, lookahead)
    requires var g := Repeat(round, eos, context, n); g.accepted == g.rounds * lookahead
    ensures EachLands(round, eos, lookahead, context, n)
    decreases n
  {
    if n > 0 {
      var r := round(context);
      var kept := Kept(eos, r.tokens, n);
      KeptSome(eos, r.tokens, n);
      if !Ended(eos, kept) {
        var rest := Repeat(round, eos, context + kept, n - |kept|);
        RoundsBoundTokens(round, eos, lookahead, context + kept, n - |kept|);
        RoundsMakeProgress(round, eos, lookahead, context + kept, n - |kept|);
        OneMore(r.accepted, rest.accepted, rest.rounds, lookahead);
        FullLookaheadsLand(round, eos, lookahead, context + kept, n - |kept|);
      }
    }
  }

  /** With as many accepted as drafted, each round lands that lands when it accepts its
      whole draft. */
  lemma {:induction false} FullDraftsLand(
    round: seq<TokenId> -> SpeculationResult, eos: TokenId, lookahead: nat, context: seq<TokenId>, n: nat)
    requires forall c :: SizedRound(round(c), eos, lookahead)
    requires forall c :: round(c).accepted == round(c).drafted ==> Lands(round(c), eos, lookahead)
    requires var g := Repeat(round, eos, context, n); g.accepted == g.drafted
    ensures EachLands(round, eos, lookahead, context, n)
    decreases n
  {
    if n > 0 {
      var r := round(context);
      var kept := Kept(eos, r.tokens, n);
      KeptSome(eos, r.tokens, n);
      if !Ended(eos, kept) {
        RoundsMakeProgress(round, eos, lookahead, context + kept, n - |kept|);
        FullDraftsLand(round, eos, lookahead, context + kept, n - |kept|);
      }
    }
  }

  /** A landed round of which no eos was kept used up the limit or a whole lookahead. */
  lemma KeptOfLanded(r: SpeculationResult, eos: TokenId, lookahead: nat, n: nat)
    requires SizedRound(r, eos, lookahead) && Lands(r, eos, lookahead) && n > 0
    requires eos !in Kept(eos, r.tokens, n)
    ensures var kept := Kept(eos, r.tokens, n);
      kept != [] && !Ended(eos, kept) && (|kept| == n <= lookahead + 1 || |kept| == lookahead + 1 < n)
  {
    KeptSome(eos, r.tokens, n);
    KeptAll(eos, r.tokens, n);
  }

  /** When every round lands and no eos comes out, the number of rounds is the limit
      divided by `lookahead + 1`, rounded up. */
  lemma {:induction false} FullAcceptanceRounds(
    round: seq<TokenId> -> SpeculationResult, eos: TokenId, lookahead: nat, context: seq<TokenId>, n: nat)
    requires forall c :: SizedRound(round(c), eos, lookahead)
    requires EachLands(round, eos, lookahead, context, n) && eos !in Repeat(round, eos, context, n).tokens
    ensures Repeat(round, eos, context, n).rounds == Blocks(n, lookahead + 1)
    decreases n
  {
    if n > 0 {
      var r := round(context);
      var kept := Kept(eos, r.tokens, n);
      KeptSome(eos, r.tokens, n);
      RepeatNext(round, eos, context, n, r, kept);
      var rest := Repeat(round, eos, context + kept, n - |kept|);
      assert !Ended(eos, kept);
      NotInParts(eos, kept, rest.tokens);
      KeptOfLanded(r, eos, lookahead, n);
      FullAcceptanceRounds(round, eos, lookahead, context + kept, n - |kept|);
      OneMoreBlock(n, |kept|, lookahead + 1);
    }
  }

  lemma NotInParts<T>(x: T, a: seq<T>, b: seq<T>)
    requires x !in a + b
    ensures x !in a && x !in b
  {
    assert forall t :: t in a || t in b ==> t in a + b;
  }

  lemma OneMoreBlock(n: nat, k: nat, b: pos)
    requires k > 0 && (k == n <= b || k == b < n)
    ensures Blocks(n, b) == 1 + Blocks(n - k, b)
  {
  }

  /** Part way through absorbing a round: `done` is out, none of it eos. */
  ghost predicate Absorbing(eos: TokenId, tokens: seq<TokenId>, room: nat, done: seq<TokenId>, i: nat) {
    && i <= |tokens| && |done| == i <= room && !Ended(eos, done)
    && Kept(eos, tokens, room) == done + Kept(eos, tokens[i..], room - i)
  }

  lemma AbsorbingStarts(eos: TokenId, ctx: seq<TokenId>, generated: seq<TokenId>, tokens: seq<TokenId>, room: nat)
    ensures ctx + [] == ctx && generated + [] == generated
    ensures Absorbing(eos, tokens, room, [], 0)
  {
    assert tokens[0..] == tokens && [] + Kept(eos, tokens, room) == Kept(eos, tokens, room);
  }

  lemma AbsorbingContinues(eos: TokenId, tokens: seq<TokenId>, room: nat, done: seq<TokenId>, i: nat)
    requires i < |tokens| && Absorbing(eos, tokens, room, done, i)
    ensures i == room ==> Kept(eos, tokens, room) == done
    ensures i < room && tokens[i] == eos ==> Kept(eos, tokens, room) == done + [tokens[i]]
    ensures i < room && tokens[i] != eos ==> Absorbing(eos, tokens, room, done + [tokens[i]], i + 1)
  {
    assert tokens[i..][0] == tokens[i] && tokens[i..][1..] == tokens[i + 1..];
    if i < room {
      Associate(done, [tokens[i]], Kept(eos, tokens[i + 1..], room - i - 1));
    }
  }

  /** Draft greedily, at most `lookahead` tokens, stopping after the draft's eos. */
  method DraftRun(draft: Model, lookahead: nat, context: seq<TokenId>) returns (run: seq<TokenId>)
    ensures run == Greedy(draft, context, lookahead)
  {
    var ctx := context;
    run := [];
    ghost var whole := Greedy(draft, context, lookahead);
    GreedyStarts(draft, context, lookahead);
    for i := 0 to lookahead
      invariant ctx == context + run
      invariant Drafting(draft, context, run, whole, lookahead - i)
    {
      GreedyContinues(draft, context, run, whole, lookahead - i);
      var logits := draft.forward(ctx);
      var tok := Argmax(logits);
      Associate(context, run, [tok]);
      run := run + [tok];
      ctx := ctx + [tok];
      if tok == draft.eos {
        return;
      }
    }
    assert run + [] == run;
  }

  /** The inner loop of `generate`: push the tokens of a round. */
  method Absorb(eos: TokenId, ctx: seq<TokenId>, generated: seq<TokenId>, tokens: seq<TokenId>, maxNew: nat)
    returns (ctx': seq<TokenId>, generated': seq<TokenId>, stopped: bool)
    requires |generated| <= maxNew
    ensures var kept := Kept(eos, tokens, maxNew - |generated|);
      ctx' == ctx + kept && generated' == generated + kept && stopped == Ended(eos, kept)
  {
    ctx', generated', stopped := ctx, generated, false;
    ghost var room := maxNew - |generated|;
    ghost var done: seq<TokenId> := [];
    AbsorbingStarts(eos, ctx, generated, tokens, room);
    for i := 0 to |tokens|
      invariant Absorbing(eos, tokens, room, done, i)
      invariant ctx' == ctx + done && generated' == generated + done
    {
      AbsorbingContinues(eos, tokens, room, done, i);
      if |generated'| >= maxNew {
        return;
      }
      Associate(ctx, done, [tokens[i]]);
      Associate(generated, done, [tokens[i]]);
      ctx' := ctx' + [tokens[i]];
      generated' := generated' + [tokens[i]];
      done := done + [tokens[i]];
      if tokens[i] == eos {
        stopped := true;
        return;
      }
    }
  }

  /** The pair of models. `accepts(context, pos, token)` stands for the comparison of the
      acceptance draw with the probability ratio; nothing is assumed about it. */
  datatype Decoder = Decoder(
    draft: Model,
    target: Model,
    lookahead: pos,
    accepts: (seq<TokenId>, nat, TokenId) -> bool)
  {
    // ---- The code's structure: runs, rounds ----

    /** Verify the rest of a run from position `pos` on. */
    ghost function Verify(context: seq<TokenId>, at: nat, run: seq<TokenId>): (seq<TokenId>, nat)
      decreases |run|
    {
      if run == [] || !accepts(context, at, run[0]) then ([target.Next(context)], 0)
      else if run[0] == target.eos then ([run[0]], 1)
      else
        var (tokens, accepted) := Verify(context + [run[0]], at + 1, run[1..]);
        ([run[0]] + tokens, accepted + 1)
    }

    ghost function Round(context: seq<TokenId>): SpeculationResult {
      var run := Greedy(draft, context, lookahead);
      var (tokens, accepted) := Verify(context, 0, run);
      SpeculationResult(tokens, accepted, |run|)
    }

    ghost function RoundOf(): seq<TokenId> -> SpeculationResult {
      (context: seq<TokenId>) => Round(context)
    }

    ghost function Rounds(context: seq<TokenId>, n: nat): Generation {
      Repeat(RoundOf(), target.eos, context, n)
    }

    // ---- The reference: one token at a time ----

    /** The proposal on the table is accepted. */
    ghost predicate Takes(context: seq<TokenId>, mode: Mode) {
      mode.Proposal? && accepts(context, mode.pos, draft.Next(context))
    }

    ghost function Emit(context: seq<TokenId>, mode: Mode): TokenId {
      if Takes(context, mode) then draft.Next(context) else target.Next(context)
    }

    ghost function After(context: seq<TokenId>, mode: Mode): Mode {
      if !Takes(context, mode) then Proposal(0)
      else if draft.Next(context) == draft.eos || mode.pos + 1 >= lookahead then Bonus
      else Proposal(mode.pos + 1)
    }

    ghost function Walk(context: seq<TokenId>, mode: Mode, n: nat): (tokens: seq<TokenId>)
      decreases n
    {
      if n == 0 then []
      else
        var t := Emit(context, mode);
        if t == target.eos then [t] else [t] + Walk(context + [t], After(context, mode), n - 1)
    }

    /** On the target's own greedy path, no proposal that differs from the target's token
        is ever accepted. */
    ghost predicate NoBadAcceptance(context: seq<TokenId>, mode: Mode, n: nat)
      decreases n
    {
      n > 0 ==>
        var t := target.Next(context);
        && !(Takes(context, mode) && draft.Next(context) != t)
        && (t != target.eos ==> NoBadAcceptance(context + [t], After(context, mode), n - 1))
    }

    // ---- The methods ----

    /** Accept proposals until the first rejection or the target's eos; replace a rejected
        one by the target's argmax, or add a bonus token after a full run. */
    method VerifyRun(context: seq<TokenId>, run: seq<TokenId>) returns (out: seq<TokenId>, accepted: nat)
      ensures (out, accepted) == Verify(context, 0, run)
    {
      out, accepted := [], 0;
      var ctx := context;
      ghost var whole := Verify(context, 0, run);
      VerifyStarts(this, context, run);
      for at := 0 to |run|
        invariant accepted == at && ctx == context + out
        invariant Verifying(whole, out, at, Verify(ctx, at, run[at..]))
      {
        VerifyContinues(this, whole, ctx, out, at, run);
        var targetLogits := target.forward(ctx);
        var tok := run[at];
        if accepts(ctx, at, tok) {
          out := out + [tok];
          ctx := ctx + [tok];
          accepted := accepted + 1;
          if tok == target.eos {
            return;
          }
        } else {
          var resampled := Argmax(targetLogits);
          out := out + [resampled];
          return;
        }
      }
      var bonus := Argmax(target.forward(ctx));
      out := out + [bonus];
    }

    /** One round: draft a run, verify it, count both. */
    method Step(context: seq<TokenId>) returns (r: SpeculationResult)
      ensures r == Round(context)
      ensures SizedRound(r, target.eos, lookahead)
      ensures IsRound(this, context, r)
    {
      var run := DraftRun(draft, lookahead, context);
      var drafted := |run|;
      var out, accepted := VerifyRun(context, run);
      r := SpeculationResult(out, accepted, drafted);
      RoundIsSized(this, context);
      RoundMeans(this, context);
    }

    /** One turn of the loop of `generate`: a round, its counts added, its tokens absorbed. */
    method GenerateRound(ghost prompt: seq<TokenId>, maxNew: nat, ctx: seq<TokenId>, ghost out: Generation,
      generated: seq<TokenId>, totalAccepted: nat, totalDrafted: nat)
      returns (ctx': seq<TokenId>, ghost out': Generation,
        generated': seq<TokenId>, totalAccepted': nat, totalDrafted': nat, stopped: bool)
      requires Generating(this, prompt, maxNew, ctx, out) && |generated| < maxNew
      requires out == Generation(generated, totalAccepted, totalDrafted, out.rounds)
      ensures out' == Generation(generated', totalAccepted', totalDrafted', out.rounds + 1)
      ensures if stopped then Generated(this, prompt, maxNew, out') else Generating(this, prompt, maxNew, ctx', out')
      ensures |generated'| > |generated|
    {
      var result := Step(ctx);
      totalAccepted' := totalAccepted + result.accepted;
      totalDrafted' := totalDrafted + result.drafted;
      ctx', out', generated', stopped := AbsorbRound(prompt, maxNew, ctx, out, generated, result);
    }

    method AbsorbRound(ghost prompt: seq<TokenId>, maxNew: nat, ctx: seq<TokenId>, ghost out: Generation,
      generated: seq<TokenId>, result: SpeculationResult)
      returns (ctx': seq<TokenId>, ghost out': Generation, generated': seq<TokenId>, stopped: bool)
      requires Generating(this, prompt, maxNew, ctx, out) && out.tokens == generated && |generated| < maxNew
      requires result == Round(ctx)
      ensures out' == Generation(generated', out.accepted + result.accepted, out.drafted + result.drafted, out.rounds + 1)
      ensures if stopped then Generated(this, prompt, maxNew, out') else Generating(this, prompt, maxNew, ctx', out')
      ensures |generated'| > |generated|
    {
      ghost var kept := Kept(target.eos, result.tokens, maxNew - |out.tokens|);
      ctx', generated', stopped := Absorb(target.eos, ctx, generated, result.tokens, maxNew);
      assert ctx' == ctx + kept && generated' == out.tokens + kept && stopped == Ended(target.eos, kept);
      out' := GeneratingNext(this, prompt, maxNew, ctx, out, result, ctx', generated', stopped);
    }

    /** Generate up to `maxNew` tokens, stopping on the target's eos. */
    method Generate(prompt: seq<TokenId>, maxNew: nat)
      returns (generated: seq<TokenId>, totalAccepted: nat, totalDrafted: nat, ghost rounds: nat)
      ensures generated == Walk(prompt, Proposal(0), maxNew)
      ensures generated == Greedy(target, prompt, maxNew) <==> NoBadAcceptance(prompt, Proposal(0), maxNew)
      ensures var g := Rounds(prompt, maxNew);
        generated == g.tokens && totalAccepted == g.accepted && totalDrafted == g.drafted && rounds == g.rounds
      ensures Traced(this, prompt, maxNew, Generation(generated, totalAccepted, totalDrafted, rounds))
    {
      var ctx, stopped := prompt, false;
      ghost var out := Generation([], 0, 0, 0);
      generated, totalAccepted, totalDrafted := [], 0, 0;
      GeneratingStarts(this, prompt, maxNew);
      while |generated| < maxNew && !stopped
        invariant out == Generation(generated, totalAccepted, totalDrafted, out.rounds)
        invariant if stopped then Generated(this, prompt, maxNew, out) else Generating(this, prompt, maxNew, ctx, out)
        decreases maxNew - |generated|
      {
        ctx, out, generated, totalAccepted, totalDrafted, stopped :=
          GenerateRound(prompt, maxNew, ctx, out, generated, totalAccepted, totalDrafted);
      }
      if !stopped {
        GeneratingDone(this, prompt, maxNew, ctx, out);
      }
      rounds := out.rounds;
      GenerationIsTraced(this, prompt, maxNew);
    }
  }

  /** `out` is what `generate` returns, and what that is in terms of the reference. */
  ghost predicate Generated(d: Decoder, prompt: seq<TokenId>, maxNew: nat, out: Generation) {
    && out == d.Rounds(prompt, maxNew)
    && out.tokens == d.Walk(prompt, Proposal(0), maxNew)
    && (out.tokens == Greedy(d.target, prompt, maxNew) <==> d.NoBadAcceptance(prompt, Proposal(0), maxNew))
  }

  lemma RoundsAreGenerated(d: Decoder, prompt: seq<TokenId>, maxNew: nat)
    ensures Generated(d, prompt, maxNew, d.Rounds(prompt, maxNew))
  {
    RoundsWalk(d, prompt, maxNew);
    SpeculationExactness(d, prompt, maxNew);
  }

  /** Part way through `generate`: `out` is out and the next round starts at `ctx`. */
  ghost predicate Generating(d: Decoder, prompt: seq<TokenId>, maxNew: nat, ctx: seq<TokenId>, out: Generation) {
    |out.tokens| <= maxNew && Complete(d, ctx, out, maxNew) == d.Rounds(prompt, maxNew)
  }

  lemma GeneratingStarts(d: Decoder, prompt: seq<TokenId>, maxNew: nat)
    ensures Generating(d, prompt, maxNew, prompt, Generation([], 0, 0, 0))
  {
    CompleteFromNothing(d, prompt, maxNew);
  }

  lemma GeneratingNext(
    d: Decoder, prompt: seq<TokenId>, maxNew: nat, ctx: seq<TokenId>, out: Generation, r: SpeculationResult,
    ctx': seq<TokenId>, generated': seq<TokenId>, stopped: bool)
    returns (next: Generation)
    requires Generating(d, prompt, maxNew, ctx, out) && |out.tokens| < maxNew && r == d.Round(ctx)
    requires var kept := Kept(d.target.eos, r.tokens, maxNew - |out.tokens|);
      ctx' == ctx + kept && generated' == out.tokens + kept && stopped == Ended(d.target.eos, kept)
    ensures next == Generation(generated', out.accepted + r.accepted, out.drafted + r.drafted, out.rounds + 1)
    ensures |generated'| > |out.tokens|
    ensures if stopped then Generated(d, prompt, maxNew, next) else Generating(d, prompt, maxNew, ctx', next)
  {
    next := CompleteNext(d, ctx, out, maxNew, r, Kept(d.target.eos, r.tokens, maxNew - |out.tokens|));
    RoundsAreGenerated(d, prompt, maxNew);
  }

  lemma GeneratingDone(d: Decoder, prompt: seq<TokenId>, maxNew: nat, ctx: seq<TokenId>, out: Generation)
    requires Generating(d, prompt, maxNew, ctx, out) && |out.tokens| == maxNew
    ensures Generated(d, prompt, maxNew, out)
  {
    CompleteAtLimit(d, ctx, out);
    RoundsAreGenerated(d, prompt, maxNew);
  }

  /** The whole generation, when `out` is out and `ctx` is where the next round starts. */
  ghost function Complete(d: Decoder, ctx: seq<TokenId>, out: Generation, maxNew: nat): Generation
    requires |out.tokens| <= maxNew
  {
    Join(out, d.Rounds(ctx, maxNew - |out.tokens|))
  }

  lemma CompleteFromNothing(d: Decoder, ctx: seq<TokenId>, maxNew: nat)
    ensures Complete(d, ctx, Generation([], 0, 0, 0), maxNew) == d.Rounds(ctx, maxNew)
  {
    assert [] + d.Rounds(ctx, maxNew).tokens == d.Rounds(ctx, maxNew).tokens;
  }

  lemma CompleteAtLimit(d: Decoder, ctx: seq<TokenId>, out: Generation)
    ensures Complete(d, ctx, out, |out.tokens|) == out
  {
    assert out.tokens + [] == out.tokens;
  }

  /** One more round, absorbed, completes to the same generation. */
  lemma CompleteNext(d: Decoder, ctx: seq<TokenId>, out: Generation, maxNew: nat, r: SpeculationResult, kept: seq<TokenId>)
    returns (next: Generation)
    requires |out.tokens| < maxNew && r == d.Round(ctx) && kept == Kept(d.target.eos, r.tokens, maxNew - |out.tokens|)
    ensures kept != []
    ensures next == Join(out, Generation(kept, r.accepted, r.drafted, 1))
    ensures Complete(d, ctx, out, maxNew) == if Ended(d.target.eos, kept) then next else Complete(d, ctx + kept, next, maxNew)
  {
    var left, head := maxNew - |out.tokens|, Generation(kept, r.accepted, r.drafted, 1);
    next := Join(out, head);
    RoundsNext(d, ctx, left, r, kept);
    if !Ended(d.target.eos, kept) {
      JoinAssociates(out, head, d.Rounds(ctx + kept, left - |kept|));
    }
  }

  lemma RoundsNext(d: Decoder, ctx: seq<TokenId>, left: nat, r: SpeculationResult, kept: seq<TokenId>)
    requires left > 0 && r == d.Round(ctx) && kept == Kept(d.target.eos, r.tokens, left)
    ensures kept != []
    ensures var head := Generation(kept, r.accepted, r.drafted, 1);
      d.Rounds(ctx, left) == if Ended(d.target.eos, kept) then head else Join(head, d.Rounds(ctx + kept, left - |kept|))
  {
    var round := d.RoundOf();
    RoundIsSized(d, ctx);
    KeptSome(d.target.eos, r.tokens, left);
    RepeatNext(round, d.target.eos, ctx, left, r, kept);
  }

  lemma RepeatNext(
    round: seq<TokenId> -> SpeculationResult, eos: TokenId, ctx: seq<TokenId>, left: nat, r: SpeculationResult, kept: seq<TokenId>)
    requires left > 0 && r == round(ctx) && kept == Kept(eos, r.tokens, left) && kept != []
    ensures var head := Generation(kept, r.accepted, r.drafted, 1);
      Repeat(round, eos, ctx, left) ==
        if Ended(eos, kept) then head else Join(head, Repeat(round, eos, ctx + kept, left - |kept|))
  {
  }

  // ---- Round arithmetic ----

  /** A round emits one token more than it accepts, unless it ends on an accepted eos. */
  lemma {:induction false} VerifySize(d: Decoder, context: seq<TokenId>, at: nat, run: seq<TokenId>)
    ensures var (tokens, accepted) := d.Verify(context, at, run);
      && accepted <= |run| && tokens != []
      && (|tokens| == accepted + 1 || (|tokens| == accepted && tokens[accepted - 1] == d.target.eos))
      && tokens[..accepted] == run[..accepted]
    decreases |run|
  {
    if run != [] && d.accepts(context, at, run[0]) && run[0] != d.target.eos {
      VerifySize(d, context + [run[0]], at + 1, run[1..]);
      var (tail, more) := d.Verify(context + [run[0]], at + 1, run[1..]);
      assert ([run[0]] + tail)[..more + 1] == [run[0]] + tail[..more];
      assert run[..more + 1] == [run[0]] + run[1..][..more];
    }
  }

  /** Part way through a round: `out` is accepted, `rest` is the outcome from there. */
  ghost predicate Verifying(whole: (seq<TokenId>, nat), out: seq<TokenId>, accepted: nat, rest: (seq<TokenId>, nat)) {
    whole.0 == out + rest.0 && whole.1 == accepted + rest.1
  }

  lemma VerifyStarts(d: Decoder, context: seq<TokenId>, run: seq<TokenId>)
    ensures run[0..] == run && context + [] == context
    ensures Verifying(d.Verify(context, 0, run), [], 0, d.Verify(context, 0, run[0..]))
  {
    var whole := d.Verify(context, 0, run);
    assert [] + whole.0 == whole.0;
  }

  lemma VerifyContinues(
    d: Decoder, whole: (seq<TokenId>, nat), ctx: seq<TokenId>, out: seq<TokenId>, at: nat, run: seq<TokenId>)
    requires at < |run| && Verifying(whole, out, at, d.Verify(ctx, at, run[at..]))
    ensures !d.accepts(ctx, at, run[at]) ==> whole == (out + [d.target.Next(ctx)], at)
    ensures d.accepts(ctx, at, run[at]) && run[at] == d.target.eos ==> whole == (out + [run[at]], at + 1)
    ensures d.accepts(ctx, at, run[at]) && run[at] != d.target.eos ==>
      Verifying(whole, out + [run[at]], at + 1, d.Verify(ctx + [run[at]], at + 1, run[at + 1..]))
  {
    var tok, rest := run[at], d.Verify(ctx + [run[at]], at + 1, run[at + 1..]);
    assert run[at..][0] == tok && run[at..][1..] == run[at + 1..];
    assert out + ([tok] + rest.0) == out + [tok] + rest.0;
  }

  // ---- What a round and a generation are, position by position ----

  /** Of `run`, offered from position `at` on, the first `accepted` are taken, each accepted on
      what precedes it and none but the last the target's eos. An eos ends the round there; after
      any other token comes the target's argmax, because the next was rejected or none is left. */
  ghost predicate IsVerified(
    d: Decoder, context: seq<TokenId>, at: nat, run: seq<TokenId>, tokens: seq<TokenId>, accepted: nat)
  {
    && accepted <= |run|
    && (forall i :: 0 <= i < accepted ==>
          d.accepts(context + run[..i], at + i, run[i]) && (i < accepted - 1 ==> run[i] != d.target.eos))
    && (if accepted > 0 && run[accepted - 1] == d.target.eos then tokens == run[..accepted]
        else
          && tokens == run[..accepted] + [d.target.Next(context + run[..accepted])]
          && (accepted == |run| || !d.accepts(context + run[..accepted], at + accepted, run[accepted])))
  }

  /** The run offered is the draft's greedy decoding, and all of it counts as drafted. */
  ghost predicate IsRound(d: Decoder, context: seq<TokenId>, r: SpeculationResult) {
    var run := Greedy(d.draft, context, d.lookahead);
    r.drafted == |run| && IsVerified(d, context, 0, run, r.tokens, r.accepted)
  }

  lemma VerifiedCons(d: Decoder, context: seq<TokenId>, at: nat, run: seq<TokenId>, tokens: seq<TokenId>, accepted: nat)
    requires run != [] && d.accepts(context, at, run[0]) && run[0] != d.target.eos
    requires IsVerified(d, context + [run[0]], at + 1, run[1..], tokens, accepted)
    ensures IsVerified(d, context, at, run, [run[0]] + tokens, accepted + 1)
  {
    ShiftRun(context, run, accepted);
    assert context + run[..0] == context;
    forall i | 0 <= i < accepted + 1
      ensures d.accepts(context + run[..i], at + i, run[i]) && (i < accepted ==> run[i] != d.target.eos)
    {
      if i > 0 {
        ShiftRun(context, run, i - 1);
      }
    }
    if accepted > 0 {
      assert run[accepted] == run[1..][accepted - 1];
    }
    assert accepted + 1 < |run| ==> run[accepted + 1] == run[1..][accepted];
  }

  lemma ShiftRun(context: seq<TokenId>, run: seq<TokenId>, i: nat)
    requires i < |run|
    ensures run[..i + 1] == [run[0]] + run[1..][..i]
    ensures context + run[..i + 1] == context + [run[0]] + run[1..][..i]
    ensures i + 1 < |run| ==> run[i + 1] == run[1..][i]
  {
  }

  lemma {:induction false} VerifyMeans(d: Decoder, context: seq<TokenId>, at: nat, run: seq<TokenId>)
    ensures IsVerified(d, context, at, run, d.Verify(context, at, run).0, d.Verify(context, at, run).1)
    decreases |run|
  {
    assert context + run[..0] == context;
    if run != [] && d.accepts(context, at, run[0]) {
      if run[0] == d.target.eos {
        assert run[..1] == [run[0]];
      } else {
        VerifyMeans(d, context + [run[0]], at + 1, run[1..]);
        var (tokens, accepted) := d.Verify(context + [run[0]], at + 1, run[1..]);
        VerifiedCons(d, context, at, run, tokens, accepted);
      }
    } else {
      assert [] + [d.target.Next(context)] == [d.target.Next(context)];
    }
  }

  /** A round proposes the draft's greedy run and counts it whole; it takes the longest part
      of it that the test accepts, up to eos, and closes with the target's argmax. */
  lemma RoundMeans(d: Decoder, context: seq<TokenId>)
    ensures IsRound(d, context, d.Round(context))
  {
    VerifyMeans(d, context, 0, Greedy(d.draft, context, d.lookahead));
  }

  function AcceptedIn(): SpeculationResult -> nat {
    (r: SpeculationResult) => r.accepted
  }

  function DraftedIn(): SpeculationResult -> nat {
    (r: SpeculationResult) => r.drafted
  }

  /** The rounds of a generation of at most `n` tokens: the first starts at the context, the
      next where the one before ended, the last may be cut at the limit; the counts add up. */
  ghost predicate IsTrace(
    d: Decoder, context: seq<TokenId>, n: nat, starts: seq<seq<TokenId>>, rs: seq<SpeculationResult>, g: Generation)
  {
    && |starts| == |rs| == g.rounds && (g.rounds == 0 <==> n == 0)
    && (forall i :: 0 <= i < |rs| ==> IsRound(d, starts[i], rs[i]))
    && g.accepted == Sum(AcceptedIn(), rs) && g.drafted == Sum(DraftedIn(), rs)
    && (n > 0 ==> starts[0] == context)
    && (forall i :: 0 < i < |rs| ==> starts[i] == starts[i - 1] + rs[i - 1].tokens)
    && (n == 0 ==> g.tokens == [])
    && (n > 0 ==>
          var last := |rs| - 1;
          && starts[last] <= context + g.tokens <= starts[last] + rs[last].tokens
          && |starts[last]| < |context + g.tokens|
          && (|g.tokens| == n || context + g.tokens == starts[last] + rs[last].tokens))
  }

  ghost predicate Traced(d: Decoder, context: seq<TokenId>, n: nat, g: Generation) {
    exists starts, rs :: IsTrace(d, context, n, starts, rs, g)
  }

  /** What is kept of a round is all of it unless the limit or eos comes first. */
  lemma {:induction false} KeptMeans(eos: TokenId, tokens: seq<TokenId>, n: nat)
    ensures var kept := Kept(eos, tokens, n);
      && kept <= tokens && |kept| <= n
      && (forall i :: 0 <= i < |kept| - 1 ==> kept[i] != eos)
      && (|kept| == n || Ended(eos, kept) || kept == tokens)
    decreases n
  {
    if n > 0 && tokens != [] && tokens[0] != eos {
      KeptMeans(eos, tokens[1..], n - 1);
      assert tokens == [tokens[0]] + tokens[1..];
    }
  }

  lemma LastTrace(d: Decoder, context: seq<TokenId>, n: nat, r: SpeculationResult, kept: seq<TokenId>)
    requires n > 0 && IsRound(d, context, r) && kept != [] && kept <= r.tokens && (|kept| == n || kept == r.tokens)
    ensures IsTrace(d, context, n, [context], [r], Generation(kept, r.accepted, r.drafted, 1))
  {
    SumOne(AcceptedIn(), r);
    SumOne(DraftedIn(), r);
    assert r.tokens == kept + r.tokens[|kept|..];
    Associate(context, kept, r.tokens[|kept|..]);
  }

  lemma NextTrace(
    d: Decoder, context: seq<TokenId>, n: nat, r: SpeculationResult,
    starts: seq<seq<TokenId>>, rs: seq<SpeculationResult>, g: Generation)
    requires IsRound(d, context, r) && 0 < |r.tokens| < n
    requires IsTrace(d, context + r.tokens, n - |r.tokens|, starts, rs, g)
    ensures IsTrace(d, context, n, [context] + starts, [r] + rs, Join(Generation(r.tokens, r.accepted, r.drafted, 1), g))
  {
    SumCons(AcceptedIn(), r, rs);
    SumCons(DraftedIn(), r, rs);
    Associate(context, r.tokens, g.tokens);
    var starts', rs' := [context] + starts, [r] + rs;
    forall i | 0 <= i < |rs'|
      ensures IsRound(d, starts'[i], rs'[i])
      ensures i > 0 ==> starts'[i] == starts'[i - 1] + rs'[i - 1].tokens
    {
      if i > 0 {
        assert starts'[i] == starts[i - 1] && rs'[i] == rs[i - 1];
      }
    }
  }

  lemma SumCons<T>(w: T -> nat, x: T, s: seq<T>)
    ensures Sum(w, [x] + s) == w(x) + Sum(w, s)
  {
    assert ([x] + s)[1..] == s;
  }

  lemma {:induction false} TraceOf(d: Decoder, context: seq<TokenId>, n: nat)
    returns (starts: seq<seq<TokenId>>, rs: seq<SpeculationResult>)
    ensures IsTrace(d, context, n, starts, rs, d.Rounds(context, n))
    decreases n
  {
    if n == 0 {
      starts, rs := [], [];
    } else {
      var r := d.Round(context);
      var kept := Kept(d.target.eos, r.tokens, n);
      RoundMeans(d, context);
      KeptMeans(d.target.eos, r.tokens, n);
      RoundsNext(d, context, n, r, kept);
      if Ended(d.target.eos, kept) || |kept| == n {
        EosEndsRound(d, context, n);
        starts, rs := [context], [r];
        LastTrace(d, context, n, r, kept);
        NoMoreRounds(d, context + kept, Generation(kept, r.accepted, r.drafted, 1));
      } else {
        starts, rs := TraceOf(d, context + kept, n - |kept|);
        NextTrace(d, context, n, r, starts, rs, d.Rounds(context + kept, n - |kept|));
        starts, rs := [context] + starts, [r] + rs;
      }
    }
  }

  lemma NoMoreRounds(d: Decoder, context: seq<TokenId>, g: Generation)
    ensures Join(g, d.Rounds(context, 0)) == g
  {
    assert g.tokens + [] == g.tokens;
  }

  /** The target's eos can only be a round's last token. */
  lemma EosEndsRound(d: Decoder, context: seq<TokenId>, n: nat)
    requires n > 0
    ensures var tokens := d.Round(context).tokens; var kept := Kept(d.target.eos, tokens, n);
      Ended(d.target.eos, kept) ==> kept == tokens
  {
    var r := d.Round(context);
    var kept := Kept(d.target.eos, r.tokens, n);
    RoundMeans(d, context);
    KeptMeans(d.target.eos, r.tokens, n);
    if Ended(d.target.eos, kept) {
      assert r.tokens[|kept| - 1] == d.target.eos;
      assert |kept| - 1 < r.accepted ==> |kept| == r.accepted;
      assert kept == r.tokens[..|kept|];
    }
  }

  lemma GenerationIsTraced(d: Decoder, context: seq<TokenId>, n: nat)
    ensures Traced(d, context, n, d.Rounds(context, n))
  {
    var starts, rs := TraceOf(d, context, n);
  }

  // ---- Rounds are the walk ----

  /** The mode the reference is in when `run` is what is left of a round's draft. */
  ghost predicate InStep(d: Decoder, context: seq<TokenId>, at: nat, run: seq<TokenId>, mode: Mode) {
    match mode
    case Bonus => run == []
    case Proposal(p) => p == at && at < d.lookahead && run == Greedy(d.draft, context, d.lookahead - at)
  }

  lemma InStepNext(d: Decoder, context: seq<TokenId>, at: nat, run: seq<TokenId>, mode: Mode)
    requires InStep(d, context, at, run, mode) && d.Takes(context, mode)
    ensures run != [] && run[0] == d.draft.Next(context) && d.accepts(context, at, run[0])
    ensures InStep(d, context + [run[0]], at + 1, run[1..], d.After(context, mode))
  {
  }

  /** What the reference emits from the front of a round of which `kept` is kept. */
  ghost function ThenWalk(d: Decoder, context: seq<TokenId>, kept: seq<TokenId>, n: nat): seq<TokenId>
    requires |kept| <= n
  {
    if Ended(d.target.eos, kept) then kept else kept + d.Walk(context + kept, Proposal(0), n - |kept|)
  }

  lemma ThenWalkCons(d: Decoder, context: seq<TokenId>, t: TokenId, kept: seq<TokenId>, n: nat)
    requires t != d.target.eos && |kept| < n
    ensures ThenWalk(d, context, [t] + kept, n) == [t] + ThenWalk(d, context + [t], kept, n - 1)
  {
    var whole := [t] + kept;
    assert context + [t] + kept == context + whole;
    assert kept != [] ==> whole[|whole| - 1] == kept[|kept| - 1];
    var rest := d.Walk(context + whole, Proposal(0), n - |whole|);
    assert [t] + (kept + rest) == whole + rest;
  }

  /** A round and then the reference, cut off at `n` tokens or eos as it goes. */
  ghost function RoundThenWalk(d: Decoder, context: seq<TokenId>, at: nat, run: seq<TokenId>, n: nat): seq<TokenId>
    decreases |run|
  {
    if n == 0 then []
    else if run == [] || !d.accepts(context, at, run[0]) then
      ThenWalk(d, context, [d.target.Next(context)], n)
    else if run[0] == d.target.eos then [run[0]]
    else [run[0]] + RoundThenWalk(d, context + [run[0]], at + 1, run[1..], n - 1)
  }

  lemma {:induction false} RoundThenWalkIsWalk(d: Decoder, context: seq<TokenId>, at: nat, run: seq<TokenId>, mode: Mode, n: nat)
    requires InStep(d, context, at, run, mode)
    ensures RoundThenWalk(d, context, at, run, n) == d.Walk(context, mode, n)
    decreases |run|
  {
    if n > 0 {
      if d.Takes(context, mode) {
        InStepNext(d, context, at, run, mode);
        if run[0] != d.target.eos {
          RoundThenWalkIsWalk(d, context + [run[0]], at + 1, run[1..], d.After(context, mode), n - 1);
        }
        BothTake(d, context, at, run, mode, n);
      } else {
        InStepStops(d, context, at, run, mode);
        ThenWalkTarget(d, context, mode, n);
      }
    }
  }

  lemma RoundThenWalkTakes(d: Decoder, context: seq<TokenId>, at: nat, run: seq<TokenId>, n: nat)
    requires n > 0 && run != [] && d.accepts(context, at, run[0])
    ensures RoundThenWalk(d, context, at, run, n)
         == if run[0] == d.target.eos then [run[0]]
            else [run[0]] + RoundThenWalk(d, context + [run[0]], at + 1, run[1..], n - 1)
  {
  }

  lemma BothTake(d: Decoder, context: seq<TokenId>, at: nat, run: seq<TokenId>, mode: Mode, n: nat)
    requires n > 0 && d.Takes(context, mode) && run != [] && run[0] == d.draft.Next(context) && d.accepts(context, at, run[0])
    requires run[0] != d.target.eos ==>
      RoundThenWalk(d, context + [run[0]], at + 1, run[1..], n - 1) == d.Walk(context + [run[0]], d.After(context, mode), n - 1)
    ensures RoundThenWalk(d, context, at, run, n) == d.Walk(context, mode, n)
  {
    WalkTakes(d, context, mode, n);
    RoundThenWalkTakes(d, context, at, run, n);
  }

  lemma InStepStops(d: Decoder, context: seq<TokenId>, at: nat, run: seq<TokenId>, mode: Mode)
    requires InStep(d, context, at, run, mode) && !d.Takes(context, mode)
    ensures run == [] || !d.accepts(context, at, run[0])
  {
  }

  lemma WalkTakes(d: Decoder, context: seq<TokenId>, mode: Mode, n: nat)
    requires n > 0 && d.Takes(context, mode)
    ensures var t := d.draft.Next(context);
      d.Walk(context, mode, n) == if t == d.target.eos then [t] else [t] + d.Walk(context + [t], d.After(context, mode), n - 1)
  {
  }

  /** A rejected position and a bonus token end the round. */
  lemma ThenWalkTarget(d: Decoder, context: seq<TokenId>, mode: Mode, n: nat)
    requires n > 0 && !d.Takes(context, mode)
    ensures ThenWalk(d, context, [d.target.Next(context)], n) == d.Walk(context, mode, n)
  {
  }

  lemma {:induction false} RoundThenWalkKeeps(d: Decoder, context: seq<TokenId>, at: nat, run: seq<TokenId>, n: nat)
    ensures RoundThenWalk(d, context, at, run, n) == ThenWalk(d, context, Kept(d.target.eos, d.Verify(context, at, run).0, n), n)
    decreases |run|
  {
    if n == 0 {
      ThenWalkNothing(d, context);
    } else if run == [] || !d.accepts(context, at, run[0]) || run[0] == d.target.eos {
      KeptOne(d.target.eos, d.Verify(context, at, run).0[0], n);
    } else {
      var rest := d.Verify(context + [run[0]], at + 1, run[1..]).0;
      RoundThenWalkKeeps(d, context + [run[0]], at + 1, run[1..], n - 1);
      ThenWalkStep(d, context, run[0], rest, n);
    }
  }

  lemma ThenWalkStep(d: Decoder, context: seq<TokenId>, t: TokenId, rest: seq<TokenId>, n: nat)
    requires n > 0 && t != d.target.eos
    ensures ThenWalk(d, context, Kept(d.target.eos, [t] + rest, n), n)
         == [t] + ThenWalk(d, context + [t], Kept(d.target.eos, rest, n - 1), n - 1)
  {
    KeptCons(d.target.eos, t, rest, n);
    ThenWalkCons(d, context, t, Kept(d.target.eos, rest, n - 1), n);
  }

  lemma KeptOne(eos: TokenId, t: TokenId, n: nat)
    requires n > 0
    ensures Kept(eos, [t], n) == [t]
  {
  }

  lemma KeptCons(eos: TokenId, t: TokenId, rest: seq<TokenId>, n: nat)
    requires n > 0 && t != eos
    ensures Kept(eos, [t] + rest, n) == [t] + Kept(eos, rest, n - 1)
  {
    assert ([t] + rest)[1..] == rest;
  }

  lemma ThenWalkNothing(d: Decoder, context: seq<TokenId>)
    ensures ThenWalk(d, context, [], 0) == []
  {
    assert d.Walk(context + [], Proposal(0), 0) == [];
  }

  /** The tokens of a round, then the next round, are what the reference emits. */
  lemma RoundWalks(d: Decoder, context: seq<TokenId>, n: nat)
    ensures d.Walk(context, Proposal(0), n) == ThenWalk(d, context, Kept(d.target.eos, d.Round(context).tokens, n), n)
  {
    var run := Greedy(d.draft, context, d.lookahead);
    RoundThenWalkIsWalk(d, context, 0, run, Proposal(0), n);
    RoundThenWalkKeeps(d, context, 0, run, n);
  }

  /** Rounds that each agree with a reference add up to it. */
  lemma {:induction false} RepeatAddsUp(
    round: seq<TokenId> -> SpeculationResult, eos: TokenId, reference: (seq<TokenId>, nat) -> seq<TokenId>,
    context: seq<TokenId>, n: nat)
    requires forall c :: round(c).tokens != [] && reference(c, 0) == []
    requires forall c, k: nat :: k > 0 ==> reference(c, k) == Followed(reference, eos, c, Kept(eos, round(c).tokens, k), k)
    ensures Repeat(round, eos, context, n).tokens == reference(context, n)
    decreases n
  {
    if n > 0 {
      var kept := Kept(eos, round(context).tokens, n);
      KeptSome(eos, round(context).tokens, n);
      assert reference(context, n) == Followed(reference, eos, context, kept, n);
      if !Ended(eos, kept) {
        RepeatAddsUp(round, eos, reference, context + kept, n - |kept|);
      }
    }
  }

  ghost function Followed(
    reference: (seq<TokenId>, nat) -> seq<TokenId>, eos: TokenId, context: seq<TokenId>, kept: seq<TokenId>, n: nat): seq<TokenId>
    requires |kept| <= n
  {
    if Ended(eos, kept) then kept else kept + reference(context + kept, n - |kept|)
  }

  ghost function WalkOf(d: Decoder): (seq<TokenId>, nat) -> seq<TokenId> {
    (context: seq<TokenId>, n: nat) => d.Walk(context, Proposal(0), n)
  }

  lemma RoundFollowed(d: Decoder, context: seq<TokenId>, n: nat)
    ensures WalkOf(d)(context, n)
         == Followed(WalkOf(d), d.target.eos, context, Kept(d.target.eos, d.RoundOf()(context).tokens, n), n)
  {
    var kept := Kept(d.target.eos, d.Round(context).tokens, n);
    RoundWalks(d, context, n);
    assert d.RoundOf()(context) == d.Round(context);
    if !Ended(d.target.eos, kept) {
      assert WalkOf(d)(context + kept, n - |kept|) == d.Walk(context + kept, Proposal(0), n - |kept|);
    }
  }

  /** The round structure, the early returns, the truncation and the bonus token add up
      to the one-token-at-a-time reference. */
  lemma RoundsWalk(d: Decoder, context: seq<TokenId>, n: nat)
    ensures d.Rounds(context, n).tokens == d.Walk(context, Proposal(0), n)
  {
    forall c
      ensures d.RoundOf()(c).tokens != [] && WalkOf(d)(c, 0) == []
    {
      RoundIsSized(d, c);
    }
    forall c, k: nat | k > 0
      ensures WalkOf(d)(c, k) == Followed(WalkOf(d), d.target.eos, c, Kept(d.target.eos, d.RoundOf()(c).tokens, k), k)
    {
      RoundFollowed(d, c, k);
    }
    RepeatAddsUp(d.RoundOf(), d.target.eos, WalkOf(d), context, n);
  }

  // ---- Exactness ----

  /** Speculation equals greedy target decoding exactly when no disagreeing proposal is
      accepted along the target's own path. */
  lemma {:induction false} ExactIffNoBadAcceptance(d: Decoder, context: seq<TokenId>, mode: Mode, n: nat)
    ensures d.Walk(context, mode, n) == Greedy(d.target, context, n) <==> d.NoBadAcceptance(context, mode, n)
    decreases n
  {
    if n > 0 {
      var t := d.target.Next(context);
      var walk, greedy := d.Walk(context, mode, n), Greedy(d.target, context, n);
      assert walk[0] == d.Emit(context, mode) && greedy[0] == t;
      if d.Emit(context, mode) == t && t != d.target.eos {
        ExactIffNoBadAcceptance(d, context + [t], d.After(context, mode), n - 1);
        assert walk[1..] == d.Walk(context + [t], d.After(context, mode), n - 1);
        assert greedy[1..] == Greedy(d.target, context + [t], n - 1);
      }
    }
  }

  /** `generate` against greedy decoding, for every prompt and limit. */
  lemma SpeculationExactness(d: Decoder, prompt: seq<TokenId>, maxNew: nat)
    ensures d.Rounds(prompt, maxNew).tokens == Greedy(d.target, prompt, maxNew)
       <==> d.NoBadAcceptance(prompt, Proposal(0), maxNew)
  {
    RoundsWalk(d, prompt, maxNew);
    ExactIffNoBadAcceptance(d, prompt, Proposal(0), maxNew);
  }

  lemma {:induction false} AgreementIsHarmless(d: Decoder, context: seq<TokenId>, mode: Mode, n: nat)
    requires forall c: seq<TokenId>, p: nat :: d.accepts(c, p, d.draft.Next(c)) ==> d.draft.Next(c) == d.target.Next(c)
    ensures d.NoBadAcceptance(context, mode, n)
    decreases n
  {
    if n > 0 {
      AgreementIsHarmless(d, context + [d.target.Next(context)], d.After(context, mode), n - 1);
    }
  }

  /** With a draft that agrees with the target's argmax on every context, speculation is
      exact whatever the acceptance test decides. */
  lemma AgreeingDraftIsExact(d: Decoder, prompt: seq<TokenId>, maxNew: nat)
    requires forall c :: d.draft.Next(c) == d.target.Next(c)
    ensures d.Rounds(prompt, maxNew).tokens == Greedy(d.target, prompt, maxNew)
  {
    AgreementIsHarmless(d, prompt, Proposal(0), maxNew);
    SpeculationExactness(d, prompt, maxNew);
  }

  // ---- Divergence ----

  /** An accepted proposal: the draft's argmax at its context, taken by the test. */
  ghost predicate AcceptedDraft(d: Decoder, context: seq<TokenId>, token: TokenId) {
    token == d.draft.Next(context) && exists p: nat :: p < d.lookahead && d.accepts(context, p, token)
  }

  ghost predicate ModeOk(d: Decoder, mode: Mode) {
    mode.Proposal? ==> mode.pos < d.lookahead
  }

  lemma ShiftPrefix(context: seq<TokenId>, t: TokenId, rest: seq<TokenId>, j: nat)
    requires j < |rest|
    ensures var w := [t] + rest;
      w[j + 1] == rest[j] && w[..j + 1] == [t] + rest[..j] && context + w[..j + 1] == context + [t] + rest[..j]
  {
  }

  /** Every token emitted is the target's argmax on what was emitted before it, or an
      accepted draft token; in particular a rejected position and a bonus are the target's. */
  lemma {:induction false} TokenProvenance(d: Decoder, context: seq<TokenId>, mode: Mode, n: nat, i: nat)
    requires ModeOk(d, mode) && i < |d.Walk(context, mode, n)|
    ensures var w := d.Walk(context, mode, n);
      w[i] == d.target.Next(context + w[..i]) || AcceptedDraft(d, context + w[..i], w[i])
    decreases n
  {
    var w, t := d.Walk(context, mode, n), d.Emit(context, mode);
    if i == 0 {
      assert context + w[..0] == context;
    } else {
      var rest := d.Walk(context + [t], d.After(context, mode), n - 1);
      assert w == [t] + rest;
      TokenProvenance(d, context + [t], d.After(context, mode), n - 1, i - 1);
      ShiftPrefix(context, t, rest, i - 1);
    }
  }

  /** `w` first leaves `g` at `i`, with an accepted draft token in place of the target's argmax. */
  ghost predicate LeavesAt(d: Decoder, context: seq<TokenId>, w: seq<TokenId>, g: seq<TokenId>, i: nat) {
    && i < |w| && i < |g| && w[..i] == g[..i] && w[i] != g[i]
    && g[i] == d.target.Next(context + w[..i])
    && AcceptedDraft(d, context + w[..i], w[i])
  }

  lemma LeavesLater(d: Decoder, context: seq<TokenId>, t: TokenId, w: seq<TokenId>, g: seq<TokenId>, i: nat)
    requires LeavesAt(d, context + [t], w, g, i)
    ensures LeavesAt(d, context, [t] + w, [t] + g, i + 1)
  {
    ShiftPrefix(context, t, w, i);
    ShiftPrefix(context, t, g, i);
  }

  lemma LeavesAtOnce(d: Decoder, context: seq<TokenId>, mode: Mode, n: nat)
    requires ModeOk(d, mode) && n > 0 && d.Emit(context, mode) != d.target.Next(context)
    ensures LeavesAt(d, context, d.Walk(context, mode, n), Greedy(d.target, context, n), 0)
  {
    assert context + d.Walk(context, mode, n)[..0] == context;
  }

  /** Where speculation first leaves the target's greedy path, it emitted an accepted draft
      token in place of the target's argmax. */
  lemma {:induction false} FirstDivergence(d: Decoder, context: seq<TokenId>, mode: Mode, n: nat) returns (i: nat)
    requires ModeOk(d, mode) && d.Walk(context, mode, n) != Greedy(d.target, context, n)
    ensures LeavesAt(d, context, d.Walk(context, mode, n), Greedy(d.target, context, n), i)
    decreases n
  {
    var t := d.Emit(context, mode);
    if t != d.target.Next(context) {
      LeavesAtOnce(d, context, mode, n);
      i := 0;
    } else {
      var w, g := d.Walk(context + [t], d.After(context, mode), n - 1), Greedy(d.target, context + [t], n - 1);
      i := FirstDivergence(d, context + [t], d.After(context, mode), n - 1);
      LeavesLater(d, context, t, w, g, i);
      i := i + 1;
    }
  }

  /** Ends on eos or at the limit, like greedy decoding. */
  lemma {:induction false} WalkLength(d: Decoder, context: seq<TokenId>, mode: Mode, n: nat)
    ensures var w := d.Walk(context, mode, n);
      && |w| <= n && (n > 0 ==> w != [])
      && (|w| < n ==> Ended(d.target.eos, w))
      && (forall i :: 0 <= i < |w| - 1 ==> w[i] != d.target.eos)
    decreases n
  {
    if n > 0 {
      var t := d.Emit(context, mode);
      if t != d.target.eos {
        WalkLength(d, context + [t], d.After(context, mode), n - 1);
      }
    }
  }

  /** A draft that disagrees and is believed: the target would say 1, the draft says 2 and
      speculation emits 2. So the exactness claim needs its condition. */
  function Always(token: TokenId): Model {
    Model(0, _ => [NegInf, if token == 1 then Fin(1.0) else Fin(0.0), if token == 2 then Fin(1.0) else Fin(0.0)])
  }

  lemma AlwaysNext(token: TokenId, context: seq<TokenId>)
    requires token == 1 || token == 2
    ensures Always(token).Next(context) == token
  {
    var logits := Always(token).forward(context);
    assert Greater(logits[token], NegInf);
    assert IsArgmax(logits, token);
    ArgmaxIsFirstLargest(logits);
    ArgmaxUnique(logits, token, ArgmaxIndex(logits));
  }

  lemma DivergentDraftIsNotExact()
    ensures var d := Decoder(Always(2), Always(1), 1, (_, _, _) => true);
      && d.Rounds([], 1).tokens == [2]
      && Greedy(d.target, [], 1) == [1]
  {
    var d := Decoder(Always(2), Always(1), 1, (_, _, _) => true);
    AlwaysNext(1, []);
    AlwaysNext(2, []);
    RoundsWalk(d, [], 1);
  }

  // ---- Counting rounds ----

  /** A round emits one token more than it accepts, or exactly what it accepts when that
      ends in the target's eos; it drafts at most `lookahead`. */
  lemma RoundIsSized(d: Decoder, context: seq<TokenId>)
    ensures SizedRound(d.Round(context), d.target.eos, d.lookahead)
  {
    VerifySize(d, context, 0, Greedy(d.draft, context, d.lookahead));
  }

  lemma {:induction false} VerifiedWhole(d: Decoder, context: seq<TokenId>, at: nat, run: seq<TokenId>)
    requires d.Verify(context, at, run).1 == |run|
    ensures var tokens := d.Verify(context, at, run).0;
      (tokens == run && Ended(d.target.eos, run)) || (|tokens| == |run| + 1 && d.target.eos !in run)
    decreases |run|
  {
    if run != [] && run[0] != d.target.eos {
      VerifySize(d, context + [run[0]], at + 1, run[1..]);
      VerifiedWhole(d, context + [run[0]], at + 1, run[1..]);
      assert run == [run[0]] + run[1..];
    } else if run != [] {
      assert |run| == 1;
    }
  }

  /** With one eos for both models, a round that accepts its whole draft lands. */
  lemma AcceptedRoundLands(d: Decoder, context: seq<TokenId>)
    requires d.draft.eos == d.target.eos && d.Round(context).accepted == d.Round(context).drafted
    ensures Lands(d.Round(context), d.target.eos, d.lookahead)
  {
    var run := Greedy(d.draft, context, d.lookahead);
    VerifiedWhole(d, context, 0, run);
  }

  /** Every proposal of the generation was accepted: each round landed its whole lookahead,
      or the models share their eos and nothing drafted was rejected. */
  ghost predicate AllAccepted(d: Decoder, g: Generation) {
    g.accepted == g.rounds * d.lookahead || (g.accepted == g.drafted && d.draft.eos == d.target.eos)
  }

  lemma AllAcceptedRounds(d: Decoder, prompt: seq<TokenId>, maxNew: nat)
    requires AllAccepted(d, d.Rounds(prompt, maxNew)) && d.target.eos !in d.Rounds(prompt, maxNew).tokens
    ensures d.Rounds(prompt, maxNew).rounds == Blocks(maxNew, d.lookahead + 1)
  {
    var round, eos, g := d.RoundOf(), d.target.eos, d.Rounds(prompt, maxNew);
    forall c
      ensures SizedRound(round(c), eos, d.lookahead)
    {
      RoundIsSized(d, c);
    }
    if g.accepted == g.rounds * d.lookahead {
      FullLookaheadsLand(round, eos, d.lookahead, prompt, maxNew);
    } else {
      forall c | round(c).accepted == round(c).drafted
        ensures Lands(round(c), eos, d.lookahead)
      {
        AcceptedRoundLands(d, c);
      }
      FullDraftsLand(round, eos, d.lookahead, prompt, maxNew);
    }
    FullAcceptanceRounds(round, eos, d.lookahead, prompt, maxNew);
  }

  /** Over a whole generation: between one and `lookahead + 1` tokens a round, at most
      `lookahead` proposals a round, no more accepted than drafted, and with every proposal
      accepted and no eos exactly the limit over `lookahead + 1` rounds. */
  lemma RoundArithmetic(d: Decoder, prompt: seq<TokenId>, maxNew: nat)
    ensures var g := d.Rounds(prompt, maxNew);
      && g.rounds <= |g.tokens| <= maxNew
      && |g.tokens| <= g.rounds * (d.lookahead + 1)
      && g.accepted <= g.drafted <= g.rounds * d.lookahead
      && (AllAccepted(d, g) && d.target.eos !in g.tokens ==> g.rounds == Blocks(maxNew, d.lookahead + 1))
  {
    var round := d.RoundOf();
    forall c
      ensures SizedRound(round(c), d.target.eos, d.lookahead)
    {
      RoundIsSized(d, c);
    }
    RoundsMakeProgress(round, d.target.eos, d.lookahead, prompt, maxNew);
    RoundsBoundTokens(round, d.target.eos, d.lookahead, prompt, maxNew);
    if AllAccepted(d, d.Rounds(prompt, maxNew)) && d.target.eos !in d.Rounds(prompt, maxNew).tokens {
      AllAcceptedRounds(d, prompt, maxNew);
    }
  }
}
