/** Next-token logits, greedy decoding and the small fixed-weight model. */
module Models {

  type TokenId = nat

  const TOKEN_RANGE: nat := 0x1_0000_0000

  /** An `f32` as the argmax sees it. */
  datatype Logit = NaN | NegInf | Fin(v: real) | PosInf

  /** IEEE `a > b`: every comparison with NaN is false. */
  predicate Greater(a: Logit, b: Logit) {
    match a
    case NaN => false
    case NegInf => false
    case Fin(x) => b.NegInf? || (b.Fin? && x > b.v)
    case PosInf => b.NegInf? || b.Fin?
  }

  /** The first position of a largest logit; position 0 when no logit exceeds
      negative infinity. */
  ghost predicate IsArgmax(logits: seq<Logit>, r: nat) {
    if forall j :: 0 <= j < |logits| ==> !Greater(logits[j], NegInf) then
      r == 0
    else
      && r < |logits|
      && Greater(logits[r], NegInf)
      && (forall j :: 0 <= j < |logits| ==> !Greater(logits[j], logits[r]))
      && (forall j :: 0 <= j < r ==> logits[j] != logits[r])
  }

  lemma ArgmaxUnique(logits: seq<Logit>, r: nat, q: nat)
    requires IsArgmax(logits, r) && IsArgmax(logits, q)
    ensures r == q
  {
    if exists j :: 0 <= j < |logits| && Greater(logits[j], NegInf) {
      assert !Greater(logits[r], logits[q]) && !Greater(logits[q], logits[r]);
      assert logits[r] == logits[q];
    }
  }

  /** The argmax, last logit last: it wins only by being strictly greater. */
  function ArgmaxIndex(logits: seq<Logit>): nat
    decreases |logits|
  {
    if logits == [] then 0
    else
      var n := |logits| - 1;
      var best := ArgmaxIndex(logits[..n]);
      var bestV := if best < n && Greater(logits[best], NegInf) then logits[best] else NegInf;
      if Greater(logits[n], bestV) then n else best
  }

  lemma {:induction false} ArgmaxIsFirstLargest(logits: seq<Logit>)
    ensures IsArgmax(logits, ArgmaxIndex(logits))
    decreases |logits|
  {
    if logits != [] {
      var n := |logits| - 1;
      var init := logits[..n];
      ArgmaxIsFirstLargest(init);
      assert forall j :: 0 <= j < n ==> init[j] == logits[j];
    }
  }

  /** What that says about the values: real logits are compared as numbers, an infinite one
      is first of its kind, and NaN is picked only at position 0 when there is nothing else. */
  lemma ArgmaxValues(logits: seq<Logit>, r: nat)
    requires IsArgmax(logits, r)
    ensures logits != [] ==> r < |logits|
    ensures logits != [] && (forall j :: 0 <= j < |logits| ==> logits[j].Fin?) ==>
      forall j :: 0 <= j < |logits| ==> logits[j].v <= logits[r].v && (j < r ==> logits[j].v < logits[r].v)
    ensures (exists j :: 0 <= j < |logits| && logits[j].PosInf?) ==>
      logits[r].PosInf? && forall j :: 0 <= j < r ==> !logits[j].PosInf?
    ensures r < |logits| && (logits[r].NaN? || logits[r].NegInf?) ==>
      r == 0 && forall j :: 0 <= j < |logits| ==> logits[j].NaN? || logits[j].NegInf?
  {
  }

  /** The loop of `StepLogits::argmax`, with its final `as u32` cast. */
  method Argmax(logits: seq<Logit>) returns (token: TokenId)
    ensures token == ArgmaxIndex(logits) % TOKEN_RANGE
    ensures token < 0x1_0000_0000
    ensures exists r: nat :: IsArgmax(logits, r) && token == r % 0x1_0000_0000
    ensures 0 < |logits| <= 0x1_0000_0000 && (forall j :: 0 <= j < |logits| ==> logits[j].Fin?) ==>
      && token < |logits|
      && forall j :: 0 <= j < |logits| ==> logits[j].v <= logits[token].v && (j < token ==> logits[j].v < logits[token].v)
  {
    var best: nat := 0;
    var bestV := NegInf;
    for i := 0 to |logits|
      invariant bestV.NegInf? ==> best == 0 && forall j :: 0 <= j < i ==> !Greater(logits[j], NegInf)
      invariant !bestV.NegInf? ==> best < i && logits[best] == bestV && Greater(bestV, NegInf)
      invariant forall j :: 0 <= j < i ==> !Greater(logits[j], bestV)
      invariant forall j :: 0 <= j < best ==> logits[j] != bestV
    {
      if Greater(logits[i], bestV) {
        bestV := logits[i];
        best := i;
      }
    }
    assert IsArgmax(logits, best);
    ArgmaxIsFirstLargest(logits);
    ArgmaxUnique(logits, best, ArgmaxIndex(logits));
    ArgmaxValues(logits, best);
    token := best % TOKEN_RANGE;
  }

  /** What the serving stack needs of a model: an end token and a forward pass
      that is a function of the context. */
  datatype Model = Model(eos: TokenId, forward: seq<TokenId> -> seq<Logit>) {

    /** The token one forward pass and an argmax produce. */
    function Next(context: seq<TokenId>): TokenId {
      ArgmaxIndex(forward(context)) % TOKEN_RANGE
    }
  }

  /** One-at-a-time greedy decoding: at most `n` tokens, ending at the first eos. */
  function Greedy(model: Model, context: seq<TokenId>, n: nat): (tokens: seq<TokenId>)
    ensures |tokens| <= n
    ensures n > 0 ==> tokens != []
    ensures |tokens| < n ==> tokens != [] && tokens[|tokens| - 1] == model.eos
    decreases n
  {
    if n == 0 then []
    else
      var t := model.Next(context);
      if t == model.eos then [t] else [t] + Greedy(model, context + [t], n - 1)
  }

  /** Greedy decoding seen part way: `run` is out, at most `left` tokens to go. */
  predicate Drafting(model: Model, context: seq<TokenId>, run: seq<TokenId>, whole: seq<TokenId>, left: nat) {
    whole == run + Greedy(model, context + run, left)
  }

  lemma GreedyStarts(model: Model, context: seq<TokenId>, n: nat)
    ensures context + [] == context && Drafting(model, context, [], Greedy(model, context, n), n)
  {
    assert context + [] == context;
    assert [] + Greedy(model, context, n) == Greedy(model, context, n);
  }

  lemma GreedyContinues(model: Model, context: seq<TokenId>, run: seq<TokenId>, whole: seq<TokenId>, left: nat)
    requires left > 0 && Drafting(model, context, run, whole, left)
    ensures var t := model.Next(context + run);
      if t == model.eos then whole == run + [t] else Drafting(model, context, run + [t], whole, left - 1)
  {
    var t := model.Next(context + run);
    assert context + run + [t] == context + (run + [t]);
    var rest := Greedy(model, context + (run + [t]), left - 1);
    assert run + ([t] + rest) == run + [t] + rest;
  }

  /** `Greedy` is the only sequence that follows the argmax at every position,
      has no eos before its end, and stops only at eos or the limit. */
  ghost predicate FollowsArgmax(model: Model, context: seq<TokenId>, tokens: seq<TokenId>, n: nat) {
    && |tokens| <= n
    && (forall i :: 0 <= i < |tokens| ==> tokens[i] == model.Next(context + tokens[..i]))
    && (forall i :: 0 <= i < |tokens| - 1 ==> tokens[i] != model.eos)
    && (|tokens| < n ==> tokens != [] && tokens[|tokens| - 1] == model.eos)
  }

  lemma FollowsTail(model: Model, context: seq<TokenId>, t: TokenId, rest: seq<TokenId>, n: nat)
    requires n > 0 && t == model.Next(context) && t != model.eos
    requires FollowsArgmax(model, context, [t] + rest, n)
    ensures FollowsArgmax(model, context + [t], rest, n - 1)
  {
    var tokens := [t] + rest;
    forall i | 0 <= i < |rest|
      ensures rest[i] == model.Next(context + [t] + rest[..i])
      ensures i < |rest| - 1 ==> rest[i] != model.eos
    {
      assert rest[i] == tokens[i + 1];
      assert tokens[..i + 1] == [t] + rest[..i];
      assert context + tokens[..i + 1] == context + [t] + rest[..i];
    }
  }

  lemma FollowsCons(model: Model, context: seq<TokenId>, t: TokenId, rest: seq<TokenId>, n: nat)
    requires n > 0 && t == model.Next(context) && t != model.eos
    requires FollowsArgmax(model, context + [t], rest, n - 1)
    ensures FollowsArgmax(model, context, [t] + rest, n)
  {
    var tokens := [t] + rest;
    forall i | 0 <= i < |tokens|
      ensures tokens[i] == model.Next(context + tokens[..i])
      ensures i < |tokens| - 1 ==> tokens[i] != model.eos
    {
      if i == 0 {
        assert context + tokens[..0] == context;
      } else {
        assert tokens[i] == rest[i - 1];
        assert tokens[..i] == [t] + rest[..i - 1];
        assert context + tokens[..i] == context + [t] + rest[..i - 1];
      }
    }
    assert |rest| > 0 ==> tokens[|tokens| - 1] == rest[|rest| - 1];
  }

  lemma {:induction false} GreedyFollows(model: Model, context: seq<TokenId>, n: nat)
    ensures FollowsArgmax(model, context, Greedy(model, context, n), n)
    decreases n
  {
    if n > 0 {
      var t := model.Next(context);
      if t != model.eos {
        GreedyFollows(model, context + [t], n - 1);
        FollowsCons(model, context, t, Greedy(model, context + [t], n - 1), n);
      } else {
        assert context + [t][..0] == context;
      }
    }
  }

  lemma FollowsHead(model: Model, context: seq<TokenId>, tokens: seq<TokenId>, n: nat)
    requires n > 0 && FollowsArgmax(model, context, tokens, n)
    ensures tokens != [] && tokens[0] == model.Next(context)
    ensures tokens[0] == model.eos ==> tokens == [tokens[0]]
  {
    assert context + tokens[..0] == context;
  }

  lemma {:induction false} GreedyUnique(model: Model, context: seq<TokenId>, tokens: seq<TokenId>, n: nat)
    requires FollowsArgmax(model, context, tokens, n)
    ensures tokens == Greedy(model, context, n)
    decreases n
  {
    if n > 0 {
      FollowsHead(model, context, tokens, n);
      if tokens[0] != model.eos {
        assert tokens == [tokens[0]] + tokens[1..];
        FollowsTail(model, context, tokens[0], tokens[1..], n);
        GreedyUnique(model, context + [tokens[0]], tokens[1..], n - 1);
        assert Greedy(model, context, n) == [tokens[0]] + Greedy(model, context + [tokens[0]], n - 1);
      }
    }
  }

  lemma GreedyCharacterised(model: Model, context: seq<TokenId>, tokens: seq<TokenId>, n: nat)
    ensures FollowsArgmax(model, context, tokens, n) <==> tokens == Greedy(model, context, n)
  {
    GreedyFollows(model, context, n);
    if FollowsArgmax(model, context, tokens, n) {
      GreedyUnique(model, context, tokens, n);
    }
  }
}

/** `TinyTransformer`: logits that fall off linearly around a hashed peak. */
module TinyModels {
  import opened Models

  datatype Option<T> = None | Some(value: T)

  /** 6 at the peak, one less per step away from it, and never below -2. */
  function Falloff(peak: nat, i: nat): Logit {
    var d := if i < peak then peak - i else i - peak;
    Fin(6.0 - (if d < 8 then d else 8) as real)
  }

  /** The fields of the model. `hash` stands for the bit mixing over the trailing
      window, of which only determinism matters. */
  datatype Tiny = Tiny(
    vocab: nat,
    eos: TokenId,
    divergence: Option<nat>,
    pinned: map<seq<TokenId>, TokenId>,
    hash: seq<TokenId> -> nat)
  {
    /** What `forward` needs so that it neither divides by zero nor indexes out of range. */
    predicate Usable(context: seq<TokenId>) {
      && vocab > 0
      && (|context| < 4 ==> eos < vocab)
      && (divergence.Some? ==> divergence.value > 0)
    }

    function Base(context: seq<TokenId>): (base: nat)
      requires vocab > 0
    {
      hash(context[if |context| < 8 then 0 else |context| - 8..]) % vocab
    }

    predicate Diverges(context: seq<TokenId>)
      requires divergence.Some? ==> divergence.value > 0
    {
      && divergence.Some?
      && hash(context[if |context| < 8 then 0 else |context| - 8..]) % divergence.value == 0
    }

    /** The token that gets the largest logit. */
    function Peak(context: seq<TokenId>): (peak: nat)
      requires Usable(context)
      ensures peak < vocab
    {
      if context in pinned then pinned[context] % vocab
      else if Diverges(context) then (Base(context) + 7) % vocab
      else Base(context)
    }

    function LogitAt(context: seq<TokenId>, i: nat): Logit
      requires Usable(context) && i < vocab
    {
      if |context| < 4 && i == eos then NegInf else Falloff(Peak(context), i)
    }

    function Forward(context: seq<TokenId>): seq<Logit> {
      if Usable(context) then
        seq(vocab, i requires 0 <= i < vocab => LogitAt(context, i))
      else []
    }

    /** The token greedy decoding takes from this model, without building logits. */
    function ClosedForm(context: seq<TokenId>): nat
      requires Usable(context)
    {
      var peak := Peak(context);
      if |context| < 4 && peak == eos then StandIn() else peak
    }

    /** The largest logit once eos is masked, when eos is the peak. */
    function StandIn(): nat {
      if vocab == 1 then 0 else if eos > 0 then eos - 1 else 1
    }

    /** Two peaks that masking eos makes one: eos itself and its stand-in. */
    predicate MaskedTogether(p: nat, q: nat) {
      (p == eos && q == StandIn()) || (q == eos && p == StandIn())
    }

    function AsModel(): Model {
      Model(eos, Forward)
    }
  }

  /** The argmax of a forward pass, for every context and vocabulary size: the peak
      itself, or its lower neighbour when eos is masked out of a short context. */
  lemma NextTokenClosedForm(m: Tiny, context: seq<TokenId>)
    requires m.Usable(context) && m.vocab <= TOKEN_RANGE
    ensures m.AsModel().Next(context) == m.ClosedForm(context)
    ensures |context| < 4 && m.vocab >= 2 ==> m.AsModel().Next(context) != m.eos
  {
    ClosedFormIsPeak(m, context);
    NextIsArgmax(m, context, m.ClosedForm(context));
  }

  lemma NextIsArgmax(m: Tiny, context: seq<TokenId>, r: nat)
    requires IsArgmax(m.Forward(context), r) && r < TOKEN_RANGE
    ensures m.AsModel().Next(context) == r
  {
    assert m.AsModel().forward(context) == m.Forward(context);
    NextIs(m.AsModel(), context, m.Forward(context), r);
  }

  lemma NextIs(model: Model, context: seq<TokenId>, logits: seq<Logit>, r: nat)
    requires model.forward(context) == logits && IsArgmax(logits, r) && r < TOKEN_RANGE
    ensures model.Next(context) == r
  {
    ArgmaxIsFirstLargest(logits);
    ArgmaxUnique(logits, r, ArgmaxIndex(logits));
  }

  /** The logits fall off strictly around the peak, so nothing beats the closed form. */
  lemma ClosedFormIsPeak(m: Tiny, context: seq<TokenId>)
    requires m.Usable(context)
    ensures m.ClosedForm(context) < m.vocab && IsArgmax(m.Forward(context), m.ClosedForm(context))
  {
    var r, logits := m.ClosedForm(context), m.Forward(context);
    assert logits[r] == m.LogitAt(context, r);
    if m.vocab > 1 || |context| >= 4 {
      forall j | 0 <= j < m.vocab
        ensures !Greater(logits[j], logits[r])
        ensures j < r ==> logits[j] != logits[r]
      {
        assert logits[j] == m.LogitAt(context, j);
      }
      assert Greater(logits[r], NegInf);
    }
  }

  /** A draft agrees with its target exactly when the context is pinned, the draft does not
      diverge there, the shift by 7 is invisible, or masking eos hides it. */
  lemma DraftAgreesExactly(target: Tiny, draft: Tiny, context: seq<TokenId>)
    requires target.Usable(context) && target.vocab <= TOKEN_RANGE && target.divergence.None?
    requires draft == target.(divergence := Some(4))
    ensures var h := target.hash(context[if |context| < 8 then 0 else |context| - 8..]);
      draft.AsModel().Next(context) == target.AsModel().Next(context) <==>
        (|| context in target.pinned
         || h % 4 != 0
         || target.vocab == 1 || target.vocab == 7
         || (|context| < 4 && target.MaskedTogether(h % target.vocab, (h % target.vocab + 7) % target.vocab)))
  {
    NextTokenClosedForm(target, context);
    NextTokenClosedForm(draft, context);
    ShiftBySeven(target.Base(context), target.vocab);
  }

  /** The same without intermediate notions: with `h` the hash of the last eight tokens, a
      pinned context gives its pin, a hash divisible by the period gives the peak shifted by
      seven, any other hash gives itself, all modulo the vocabulary; and on a short context
      eos gives way to its neighbour. */
  lemma NextTokenByHash(m: Tiny, context: seq<TokenId>)
    requires m.Usable(context) && m.vocab <= 0x1_0000_0000
    ensures var h := m.hash(context[if |context| < 8 then 0 else |context| - 8..]);
      var p :=
        if context in m.pinned then m.pinned[context] % m.vocab
        else if m.divergence.Some? && h % m.divergence.value == 0 then (h % m.vocab + 7) % m.vocab
        else h % m.vocab;
      m.AsModel().Next(context) ==
        if |context| >= 4 || p != m.eos then p
        else if m.vocab == 1 then 0
        else if m.eos > 0 then m.eos - 1
        else 1
  {
    NextTokenClosedForm(m, context);
  }

  /** The logits around that peak: six less the distance, but no less than minus two, and
      negative infinity for eos on a short context. */
  ghost predicate LogitsByHash(m: Tiny, context: seq<TokenId>, logits: seq<Logit>)
    requires m.Usable(context)
  {
    var h := m.hash(context[if |context| < 8 then 0 else |context| - 8..]);
    var p: int :=
      if context in m.pinned then m.pinned[context] % m.vocab
      else if m.divergence.Some? && h % m.divergence.value == 0 then (h % m.vocab + 7) % m.vocab
      else h % m.vocab;
    && |logits| == m.vocab
    && (forall i :: 0 <= i < m.vocab ==> var d := if i < p then p - i else i - p;
         logits[i] == (if |context| < 4 && i == m.eos then NegInf else if d < 8 then Fin(6.0 - d as real) else Fin(-2.0)))
  }

  lemma ForwardByHash(m: Tiny, context: seq<TokenId>)
    requires m.Usable(context)
    ensures LogitsByHash(m, context, m.Forward(context))
  {
    assert 8 as real == 8.0;
  }

  lemma ShiftBySeven(base: nat, vocab: nat)
    requires base < vocab
    ensures (base + 7) % vocab == base <==> vocab == 1 || vocab == 7
  {
    if vocab > 7 {
      if base + 7 < vocab {
        assert (base + 7) % vocab == base + 7;
      } else {
        assert (base + 7 - vocab) % vocab == base + 7 - vocab;
        assert (base + 7) % vocab == base + 7 - vocab;
      }
    }
  }

  /** The object itself: `pin` updates its map, `forward` fills a logits buffer. */
  class TinyTransformer {
    const vocab: nat
    const eos: TokenId
    const divergence: Option<nat>
    const hash: seq<TokenId> -> nat
    var pinned: map<seq<TokenId>, TokenId>

    ghost function View(): Tiny
      reads this
    {
      Tiny(vocab, eos, divergence, pinned, hash)
    }

    constructor (vocab: nat, eos: TokenId, divergence: Option<nat>, hash: seq<TokenId> -> nat)
      ensures View() == Tiny(vocab, eos, divergence, map[], hash)
    {
      this.vocab := vocab;
      this.eos := eos;
      this.divergence := divergence;
      this.hash := hash;
      pinned := map[];
    }

    method Pin(context: seq<TokenId>, next: TokenId)
      modifies this
      ensures View() == old(View()).(pinned := old(pinned)[context := next])
      ensures View().Usable(context) && |context| >= 4 && vocab <= TOKEN_RANGE
         ==> View().AsModel().Next(context) == next % vocab
    {
      pinned := pinned[context := next];
      if View().Usable(context) && |context| >= 4 && vocab <= TOKEN_RANGE {
        NextTokenClosedForm(View(), context);
      }
    }

    method PeakOf(context: seq<TokenId>) returns (peak: nat)
      requires View().Usable(context)
      ensures peak == View().Peak(context)
    {
      var h := hash(context[if |context| < 8 then 0 else |context| - 8..]);
      if context in pinned {
        peak := pinned[context] % vocab;
      } else {
        peak := h % vocab;
        if divergence.Some? && h % divergence.value == 0 {
          peak := (peak + 7) % vocab;
        }
      }
    }

    method Forward(context: seq<TokenId>) returns (logits: seq<Logit>)
      requires View().Usable(context)
      ensures logits == View().AsModel().forward(context)
      ensures LogitsByHash(View(), context, logits)
    {
      var buffer := new Logit[vocab](_ => Fin(0.0));
      var peak := PeakOf(context);
      for i := 0 to vocab
        invariant forall j :: 0 <= j < i ==> buffer[j] == Falloff(peak, j)
      {
        var d := if i < peak then peak - i else i - peak;
        buffer[i] := Fin(6.0 - (if d < 8 then d else 8) as real);
      }
      if |context| < 4 {
        buffer[eos] := NegInf;
      }
      logits := buffer[..];
      ForwardByHash(View(), context);
    }
  }
}
