/** The driver on values: what one call to `run_to_completion` answers. */
module EngineLaws {
  import opened Arith
  import opened Sums
  import opened Models
  import opened Batching
  import opened BatchingLaws
  import opened ScheduleLaws
  import opened Runs
  import opened Liveness

  /** One iteration more than the guard allows before it breaks the loop. */
  const STEP_LIMIT: nat := 1_000_001

  datatype GenerationOutput = GenerationOutput(id: SeqId, tokens: seq<TokenId>)

  /** What a live sequence is still owed: the greedy continuation to its limit. */
  ghost function Remaining(model: Model, s: Sequence): seq<TokenId> {
    Greedy(model, s.Context(), if s.IsComplete() then 0 else s.maxNew - |s.output|)
  }

  /** The machines an engine can be in between iterations. */
  ghost function SettledMachines(): iset<Machine> {
    iset m: Machine | Valid(m) && Settled(m)
  }

  /** A history that begins at `m`: every live sequence is a request that has just come in. */
  ghost function Snapshot(m: Machine): World
    requires Distinct(Cores(m))
  {
    World(m, map c | c in Cores(m) :: c.id := c, map[], [], [])
  }

  lemma SnapshotSound(model: Model, m: Machine)
    requires Valid(m) && Settled(m)
    ensures Sound(model, Snapshot(m))
  {
    var w := Snapshot(m);
    forall c | c in Cores(m)
      ensures OnTrack(model, w.requests, w.emitted, c)
    {
      assert w.requests[c.id] == c;
      assert c.output + [] == c.output;
    }
    forall id | id in w.requests
      ensures IsLive(m, id)
    {
      var c :| c in Cores(m) && c.id == id;
    }
  }

  /** Strictly ascending ids, as sorting the entries of a map by key leaves them. */
  ghost predicate Ascending(os: seq<GenerationOutput>) {
    forall i, j :: 0 <= i < j < |os| ==> os[i].id < os[j].id
  }

  /** `os` lists exactly the entries of `outputs`. */
  ghost predicate Lists(os: seq<GenerationOutput>, outputs: map<SeqId, seq<TokenId>>) {
    && (forall o :: o in os ==> o.id in outputs && outputs[o.id] == o.tokens)
    && (forall id :: id in outputs ==> GenerationOutput(id, outputs[id]) in os)
  }

  /** Whatever was cut short by the guard, each answer is a non-empty prefix of what a
      live sequence was owed. */
  ghost predicate PartialAnswers(model: Model, m: Machine, os: seq<GenerationOutput>) {
    forall o :: o in os ==> o.tokens != [] && exists c :: c in Cores(m) && c.id == o.id && o.tokens <= Remaining(model, c)
  }

  /** Each live sequence that was owed anything is answered with all of it. */
  ghost predicate FullAnswers(model: Model, m: Machine, os: seq<GenerationOutput>) {
    && (forall o :: o in os ==> exists c :: c in Cores(m) && c.id == o.id && o.tokens == Remaining(model, c))
    && (forall c :: c in Cores(m) && Remaining(model, c) != [] ==> GenerationOutput(c.id, Remaining(model, c)) in os)
  }

  /** What a list of answers gives to one sequence. */
  function Answered(os: seq<GenerationOutput>, id: SeqId): seq<TokenId> {
    if os == [] then [] else if os[0].id == id then os[0].tokens else Answered(os[1..], id)
  }

  /** Each sequence live at `m` was answered with what it was owed less what it is still
      owed at `v`, which is nothing once it is no longer live; nobody else is live at `v`. */
  ghost predicate Continued(model: Model, m: Machine, v: Machine, os: seq<GenerationOutput>) {
    && (forall c, d :: c in Cores(m) && d in Cores(v) && c.id == d.id ==>
          Answered(os, c.id) + Remaining(model, d) == Remaining(model, c))
    && (forall c :: c in Cores(m) && !IsLive(v, c.id) ==> Answered(os, c.id) == Remaining(model, c))
    && (forall d :: d in Cores(v) ==> IsLive(m, d.id))
  }

  /** What a run from `m` that ended in `v` answers. Every answer is a non-empty prefix of
      what a live sequence was owed, and the rest of it is what is owed at `v`; the run stops
      early only at the iteration guard; when it has drained the answers are complete. */
  ghost predicate Answers(model: Model, m: Machine, v: Machine, os: seq<GenerationOutput>) {
    && PartialAnswers(model, m, os)
    && Continued(model, m, v, os)
    && (HasWork(v) <==> HasWork(StepTimes(model, m, STEP_LIMIT)))
    && (HasWork(v) ==> v == StepTimes(model, m, STEP_LIMIT))
    && (!HasWork(v) ==> FullAnswers(model, m, os))
  }

  /** The emission reports the sequence's last token, and whether it is eos. */
  ghost predicate IsLastToken(model: Model, s: Sequence, e: Emission) {
    e.id == s.id && s.output != [] && e.token == s.output[|s.output| - 1] && e.isEos == (e.token == model.eos)
  }

  lemma {:induction false} EmittedAreLast(model: Model, rs: seq<Slot>)
    ensures forall i :: 0 <= i < |rs| ==> IsLastToken(model, DecodedAll(model, rs)[i].sequence, Emissions(model, rs)[i])
  {
    if rs != [] {
      EmittedAreLast(model, rs[1..]);
    }
  }

  lemma CancelPrefix<T>(a: seq<T>, b: seq<T>, c: seq<T>)
    ensures a + b <= a + c ==> b <= c
    ensures a + b == a + c ==> b == c
  {
    if a + b <= a + c {
      assert b == (a + b)[|a|..] && c == (a + c)[|a|..];
      assert (a + c)[..|a + b|] == a + b;
      assert c[..|b|] == (a + c)[|a|..|a + b|];
    }
    if a + b == a + c {
      assert b == (a + b)[|a|..] && c == (a + c)[|a|..];
    }
  }

  /** The tokens collected for a request, against what it was owed at the start. */
  lemma CollectedSoFar(model: Model, m: Machine, w: World, c: Sequence)
    requires Distinct(Cores(m)) && Sound(model, w) && w.requests == Snapshot(m).requests && c in Cores(m)
    ensures Tokens(w.emitted, c.id) <= Remaining(model, c)
    ensures !IsLive(w.machine, c.id) ==> Tokens(w.emitted, c.id) == Remaining(model, c)
  {
    assert w.requests[c.id] == c;
    assert Promise(model, c) == c.output + Remaining(model, c);
    CancelPrefix(c.output, Tokens(w.emitted, c.id), Remaining(model, c));
    if IsLive(w.machine, c.id) {
      var d :| d in Cores(w.machine) && d.id == c.id;
      assert OnTrack(model, w.requests, w.emitted, d);
      PromiseLength(model, d);
    } else {
      assert Served(model, w, c.id);
    }
  }

  lemma {:induction false} AnsweredListed(os: seq<GenerationOutput>, outputs: map<SeqId, seq<TokenId>>, id: SeqId)
    requires forall o :: o in os ==> o.id in outputs && outputs[o.id] == o.tokens
    requires id in outputs ==> GenerationOutput(id, outputs[id]) in os
    ensures Answered(os, id) == Tokens(outputs, id)
    decreases |os|
  {
    if os != [] {
      assert os[0] in os;
      if os[0].id != id {
        assert forall o :: o in os[1..] ==> o in os;
        assert forall o :: o in os && o.id == id ==> o in os[1..];
        AnsweredListed(os[1..], outputs, id);
      }
    }
  }

  lemma StillOwed(model: Model, c: Sequence, d: Sequence, given: seq<TokenId>)
    requires d.output == c.output + given && Promise(model, d) == Promise(model, c)
    ensures given + Remaining(model, d) == Remaining(model, c)
  {
    assert Promise(model, c) == c.output + Remaining(model, c);
    assert Promise(model, d) == d.output + Remaining(model, d);
    Associate(c.output, given, Remaining(model, d));
    CancelPrefix(c.output, given + Remaining(model, d), Remaining(model, c));
  }

  lemma AnswersContinue(model: Model, m: Machine, w: World, os: seq<GenerationOutput>)
    requires Distinct(Cores(m)) && Sound(model, w) && w.requests == Snapshot(m).requests && Lists(os, w.emitted)
    ensures Continued(model, m, w.machine, os)
  {
    forall c, d | c in Cores(m) && d in Cores(w.machine) && c.id == d.id
      ensures Answered(os, c.id) + Remaining(model, d) == Remaining(model, c)
    {
      assert w.requests[c.id] == c && OnTrack(model, w.requests, w.emitted, d);
      AnsweredListed(os, w.emitted, c.id);
      StillOwed(model, c, d, Tokens(w.emitted, c.id));
    }
    forall c | c in Cores(m) && !IsLive(w.machine, c.id)
      ensures Answered(os, c.id) == Remaining(model, c)
    {
      AnsweredListed(os, w.emitted, c.id);
      CollectedSoFar(model, m, w, c);
    }
    forall d | d in Cores(w.machine)
      ensures IsLive(m, d.id)
    {
      assert OnTrack(model, w.requests, w.emitted, d);
    }
  }

  /** A call that the guard cut short is completed by the next: what the two answer a
      sequence together is what it was owed at first, less what it is still owed. */
  lemma CallsCompose(model: Model, m: Machine, v: Machine, u: Machine, os: seq<GenerationOutput>, ps: seq<GenerationOutput>, c: Sequence)
    requires Continued(model, m, v, os) && Continued(model, v, u, ps) && PartialAnswers(model, v, ps) && c in Cores(m)
    ensures !IsLive(u, c.id) ==> Answered(os, c.id) + Answered(ps, c.id) == Remaining(model, c)
    ensures forall d :: d in Cores(u) && d.id == c.id ==>
      Answered(os, c.id) + Answered(ps, c.id) + Remaining(model, d) == Remaining(model, c)
  {
    if IsLive(v, c.id) {
      var x :| x in Cores(v) && x.id == c.id;
      forall d | d in Cores(u) && d.id == c.id
        ensures Answered(os, c.id) + Answered(ps, c.id) + Remaining(model, d) == Remaining(model, c)
      {
        assert Answered(ps, x.id) + Remaining(model, d) == Remaining(model, x);
        Associate(Answered(os, c.id), Answered(ps, c.id), Remaining(model, d));
      }
    } else {
      NothingMore(model, v, u, ps, c.id, Answered(os, c.id));
    }
  }

  lemma NothingMore(model: Model, v: Machine, u: Machine, ps: seq<GenerationOutput>, id: SeqId, given: seq<TokenId>)
    requires Continued(model, v, u, ps) && PartialAnswers(model, v, ps) && !IsLive(v, id)
    ensures given + Answered(ps, id) == given && !IsLive(u, id)
  {
    OnlyTheLiveAreAnswered(model, v, ps, id);
    assert given + [] == given;
  }

  lemma {:induction false} OnlyTheLiveAreAnswered(model: Model, m: Machine, os: seq<GenerationOutput>, id: SeqId)
    requires PartialAnswers(model, m, os) && !IsLive(m, id)
    ensures Answered(os, id) == []
    decreases |os|
  {
    if os != [] {
      assert os[0] in os;
      assert forall o :: o in os[1..] ==> o in os;
      OnlyTheLiveAreAnswered(model, m, os[1..], id);
    }
  }

  lemma AnswersArePartial(model: Model, m: Machine, w: World, os: seq<GenerationOutput>)
    requires Distinct(Cores(m)) && Sound(model, w) && w.requests == Snapshot(m).requests && Lists(os, w.emitted)
    ensures PartialAnswers(model, m, os)
  {
    forall o | o in os
      ensures o.tokens != [] && exists c :: c in Cores(m) && c.id == o.id && o.tokens <= Remaining(model, c)
    {
      var c :| c in Cores(m) && c.id == o.id;
      CollectedSoFar(model, m, w, c);
    }
  }

  lemma AnswersAreFull(model: Model, m: Machine, w: World, os: seq<GenerationOutput>)
    requires Distinct(Cores(m)) && Sound(model, w) && w.requests == Snapshot(m).requests && Lists(os, w.emitted)
    requires !HasWork(w.machine)
    ensures FullAnswers(model, m, os)
  {
    forall o | o in os
      ensures exists c :: c in Cores(m) && c.id == o.id && o.tokens == Remaining(model, c)
    {
      var c :| c in Cores(m) && c.id == o.id;
      CollectedSoFar(model, m, w, c);
    }
    forall c | c in Cores(m) && Remaining(model, c) != []
      ensures GenerationOutput(c.id, Remaining(model, c)) in os
    {
      CollectedSoFar(model, m, w, c);
    }
  }

  lemma {:induction false} TimesOneMore<T>(f: T -> T, x: T, n: nat)
    ensures Times(f, x, n + 1) == f(Times(f, x, n))
    decreases n
  {
    if n > 0 {
      TimesOneMore(f, f(x), n - 1);
    }
  }

  /** When what is live fits the cache and adds up to no more than the guard allows, the
      guard never fires. */
  lemma GuardNeverFires(model: Model, m: Machine)
    requires Ready(model, m) && Work(model, m) <= 1_000_001
    ensures !HasWork(StepTimes(model, m, 1_000_001))
  {
    FittingWorkDrains(model, m, STEP_LIMIT);
  }
}

/** The engine object. */
module Engines {
  import opened Arith
  import opened Models
  import opened Batching
  import opened BatchingLaws
  import opened ScheduleLaws
  import opened SchedulerLinks
  import opened Schedulers
  import opened Runs
  import opened Liveness
  import opened EngineLaws
  import CacheStates
  import opened PagedCaches

  /** The states of a scheduler between engine iterations: good, and every running
      sequence cached to its last token. */
  ghost function SettledStates(): iset<(nat, CacheStates.Cache, seq<Sequence>, seq<Sequence>)> {
    iset t: (nat, CacheStates.Cache, seq<Sequence>, seq<Sequence>) |
      Good(t.0, t.1, t.2, t.3) && Settled(Abstract(t.0, t.1, t.2, t.3))
  }

  ghost function StateView(t: (nat, CacheStates.Cache, seq<Sequence>, seq<Sequence>)): Machine {
    Abstract(t.0, t.1, t.2, t.3)
  }

  lemma StepKeepsSettled(
    model: Model,
    before: (nat, CacheStates.Cache, seq<Sequence>, seq<Sequence>), after: (nat, CacheStates.Cache, seq<Sequence>, seq<Sequence>))
    requires before in SettledStates() && Good(after.0, after.1, after.2, after.3)
    requires StateView(after) == Step(model, StateView(before))
    ensures after in SettledStates()
  {
    StepValid(model, StateView(before));
  }

  class Engine {
    const scheduler: Scheduler
    const model: Model

    ghost function View(): Machine
      reads this, scheduler, scheduler.cache
    {
      scheduler.View()
    }

    ghost predicate Valid()
      reads this, scheduler, scheduler.cache
    {
      (scheduler.maxBatchSize, scheduler.cache.State(), scheduler.waiting, scheduler.running) in SettledStates()
    }

    constructor (model: Model, maxBatchSize: nat, cache: PagedKVCache)
      requires cache.State() == CacheStates.Fresh(cache.numBlocks, cache.blockSize)
      ensures Valid() && this.model == model && fresh(scheduler) && scheduler.cache == cache
      ensures View() == Empty(maxBatchSize, cache.blockSize, cache.numBlocks)
    {
      this.model := model;
      scheduler := new Scheduler(maxBatchSize, cache);
    }

    method Submit(id: SeqId, prompt: seq<TokenId>, maxNew: nat)
      requires Valid() && !IsLive(View(), id)
      modifies scheduler
      ensures Valid() && View() == Batching.Submit(old(View()), NewSequence(id, prompt, maxNew))
      ensures View().waiting == old(View()).waiting + [Sequence(id, prompt, [], maxNew, Waiting)]
    {
      scheduler.Submit(NewSequence(id, prompt, maxNew));
    }

    /** One forward pass for a member of the decode batch, and its token fed back. */
    method Decode(id: SeqId, ghost i: nat) returns (e: Emission)
      requires scheduler.Valid() && i < |scheduler.running| && scheduler.running[i].id == id
      modifies scheduler
      ensures scheduler.Valid()
      ensures var s := old(scheduler.running)[i]; var token := model.Next(s.Context());
        && e == Emission(id, token, token == model.eos)
        && View() == Pushed(old(View()), i, token, token == model.eos)
    {
      var found, k := scheduler.FindRunning(id);
      BatchIsDistinct(scheduler.View(), scheduler.running, scheduler.cache.tables);
      assert found && k == i;
      var s := scheduler.running[k];
      var context := s.prompt + s.output;
      var logits := model.forward(context);
      var token := Argmax(logits);
      var isEos := token == model.eos;
      scheduler.PushToken(id, token, isEos);
      e := Emission(id, token, isEos);
    }

    /** The decode loop: one forward pass per batch member, its token fed back. */
    method DecodeBatch(decode: seq<SeqId>) returns (emitted: seq<Emission>)
      requires scheduler.Valid() && decode == SlotIds(View().running)
      modifies scheduler
      ensures scheduler.Valid()
      ensures View() == old(View()).(running := DecodedAll(model, old(View()).running))
      ensures emitted == Emissions(model, old(View()).running)
    {
      ghost var n := View();
      emitted := [];
      DecodingStarts(model, n);
      for i := 0 to |decode|
        invariant scheduler.Valid() && Decoding(model, n, View(), i, emitted)
      {
        DecodingMember(model, n, View(), i, emitted, scheduler.running, scheduler.cache.tables);
        var e := Decode(decode[i], i);
        emitted := emitted + [e];
      }
      DecodingDone(model, n, View(), emitted);
    }

    /** One engine iteration: schedule, then decode the batch the plan names. */
    method Step() returns (emitted: seq<Emission>)
      requires Valid()
      modifies scheduler, scheduler.cache
      ensures Valid()
      ensures View() == Batching.Step(model, old(View()))
      ensures emitted == Emissions(model, Batching.Schedule(old(View())).0.running)
      ensures |emitted| == |View().running| && forall i :: 0 <= i < |emitted| ==> IsLastToken(model, View().running[i].sequence, emitted[i])
    {
      ghost var m := View();
      var plan := scheduler.Schedule();
      DecodeBatchRuns(m);
      ghost var before := (scheduler.maxBatchSize, old(scheduler.cache.State()), old(scheduler.waiting), old(scheduler.running));
      emitted := DecodeBatch(plan.decode);
      EmittedAreLast(model, Batching.Schedule(m).0.running);
      StepKeepsSettled(model, before, (scheduler.maxBatchSize, scheduler.cache.State(), scheduler.waiting, scheduler.running));
    }

    /** One pass of the driving loop, with the history it extends. */
    method DriveOnce(outputs: map<SeqId, seq<TokenId>>, ghost w: World)
      returns (outputs': map<SeqId, seq<TokenId>>, work: bool, ghost w': World)
      requires Valid() && w.machine == View() && w.emitted == outputs
      modifies scheduler, scheduler.cache
      ensures Valid() && w'.machine == View() && w'.emitted == outputs'
      ensures w' == AdvanceOf(model)(w) && work == Batching.HasWork(View())
    {
      w' := Advance(model, w, Iterate);
      var emitted := Step();
      outputs' := Accumulate(outputs, emitted);
      work := scheduler.HasWork();
    }

    /** Iterate until no work is left or the guard fires, collecting every token. */
    method Drive() returns (outputs: map<SeqId, seq<TokenId>>, ghost steps: nat)
      requires Valid()
      modifies scheduler, scheduler.cache
      ensures Valid() && Driven(model, old(View()), steps, outputs, View())
      ensures Batching.HasWork(View()) ==> steps == 1_000_001
    {
      ghost var w0 := Snapshot(View());
      ghost var w := w0;
      steps := 0;
      outputs := map[];
      var guard: nat := 0;
      var maxIterations: nat := 1_000_000;
      var work := scheduler.HasWork();
      while work
        invariant Valid() && w.machine == View() && w.emitted == outputs
        invariant w == Iterations(model, w0, steps) && work == Batching.HasWork(View())
        invariant guard == steps <= maxIterations
        decreases maxIterations - guard
      {
        TimesOneMore(AdvanceOf(model), w0, steps);
        outputs, work, w := DriveOnce(outputs, w);
        steps := steps + 1;
        guard := guard + 1;
        if guard > maxIterations {
          break;
        }
      }
    }

    /** The answers in id order; see `Answers` for what they are. */
    method RunToCompletion() returns (result: seq<GenerationOutput>)
      requires Valid()
      modifies scheduler, scheduler.cache
      ensures Valid() && Ascending(result)
      ensures Answers(model, old(View()), View(), result)
      ensures Batching.HasWork(View()) ==> View() == StepTimes(model, old(View()), 1_000_001)
      ensures Ready(model, old(View())) && Work(model, old(View())) <= 1_000_001 ==> !Batching.HasWork(View())
    {
      ghost var m := View();
      var outputs, steps := Drive();
      result := Report(model, m, steps, outputs, View());
      if Ready(model, m) && Work(model, m) <= 1_000_001 {
        GuardNeverFires(model, m);
      }
    }

    /** The answer with the least id, or nothing: with one sequence live, all it was owed. */
    method RunOne() returns (tokens: seq<TokenId>)
      requires Valid()
      modifies scheduler, scheduler.cache
      ensures Valid()
      ensures exists os: seq<GenerationOutput> ::
        && Ascending(os) && Answers(model, old(View()), View(), os)
        && tokens == (if os == [] then [] else os[0].tokens)
      ensures !Batching.HasWork(View()) ==>
        forall c :: Cores(old(View())) == multiset{c} ==> tokens == Remaining(model, c)
    {
      ghost var m := View();
      var result := RunToCompletion();
      tokens := if result == [] then [] else result[0].tokens;
      if !Batching.HasWork(View()) {
        forall c | Cores(m) == multiset{c}
          ensures tokens == Remaining(model, c)
        {
          OnlyAnswer(model, m, c, result);
        }
      }
    }
  }

  lemma {:induction false} LeastKey(keys: set<SeqId>) returns (least: SeqId)
    requires keys != {}
    ensures least in keys && forall k :: k in keys ==> least <= k
    decreases |keys|
  {
    var id :| id in keys;
    var rest := keys - {id};
    least := id;
    if rest != {} {
      var other := LeastKey(rest);
      least := if id <= other then id else other;
    }
    forall k | k in keys
      ensures least <= k
    {
      assert k == id || k in rest;
    }
  }

  /** `result` lists the entries of `outputs` whose ids are not in `rest`, in order. */
  ghost predicate Sorting(outputs: map<SeqId, seq<TokenId>>, result: seq<GenerationOutput>, rest: set<SeqId>) {
    && Ascending(result)
    && rest <= outputs.Keys
    && (forall o :: o in result ==> o.id in outputs && outputs[o.id] == o.tokens)
    && (forall id :: id in outputs ==> id in rest || GenerationOutput(id, outputs[id]) in result)
    && (forall o, id :: o in result && id in rest ==> o.id < id)
  }

  lemma SortingStep(outputs: map<SeqId, seq<TokenId>>, result: seq<GenerationOutput>, rest: set<SeqId>, id: SeqId)
    requires Sorting(outputs, result, rest) && id in rest && forall k :: k in rest ==> id <= k
    ensures Sorting(outputs, result + [GenerationOutput(id, outputs[id])], rest - {id})
  {
    var o := GenerationOutput(id, outputs[id]);
    assert forall p :: p in result + [o] <==> p in result || p == o;
    assert forall i :: 0 <= i < |result| ==> result[i] in result;
  }

  /** Once the engine has drained, every block of its cache is free again. */
  lemma DrainedEngineHoldsNothing(engine: Engine)
    requires engine.Valid() && !Batching.HasWork(engine.View())
    ensures |engine.scheduler.cache.freeList| == engine.scheduler.cache.numBlocks
    ensures engine.scheduler.cache.tables == map[]
  {
    assert engine.scheduler.cache.tables.Keys == {};
  }

  /** `steps` iterations lead from `m` to `v` and emit `outputs`; only the guard stops them early. */
  ghost predicate Driven(model: Model, m: Machine, steps: nat, outputs: map<SeqId, seq<TokenId>>, v: Machine)
    requires Distinct(Cores(m))
  {
    var w := Iterations(model, Snapshot(m), steps);
    && w.machine == v && w.emitted == outputs
    && steps <= 1_000_001 && (Batching.HasWork(v) ==> steps == 1_000_001)
  }

  lemma DriveAnswers(
    model: Model, m: Machine, steps: nat, outputs: map<SeqId, seq<TokenId>>, v: Machine, result: seq<GenerationOutput>)
    requires m in SettledMachines() && Lists(result, outputs) && Driven(model, m, steps, outputs, v)
    ensures Answers(model, m, v, result)
  {
    var w := Iterations(model, Snapshot(m), steps);
    SnapshotSound(model, m);
    IterationsSound(model, Snapshot(m), steps);
    IterationsMachine(model, Snapshot(m), steps);
    AnswersArePartial(model, m, w, result);
    AnswersContinue(model, m, w, result);
    StoppedAt(model, m, steps);
    if !Batching.HasWork(w.machine) {
      AnswersAreFull(model, m, w, result);
    }
  }

  /** Idle stays idle, so where the loop stopped tells what `STEP_LIMIT` iterations reach. */
  lemma StoppedAt(model: Model, m: Machine, k: nat)
    requires k <= STEP_LIMIT && (Batching.HasWork(StepTimes(model, m, k)) ==> k == STEP_LIMIT)
    ensures Batching.HasWork(StepTimes(model, m, k)) <==> Batching.HasWork(StepTimes(model, m, STEP_LIMIT))
  {
    if !Batching.HasWork(StepTimes(model, m, k)) {
      TimesAdd(StepOf(model), m, k, STEP_LIMIT - k);
      var idle := iset x: Machine | !Batching.HasWork(x);
      forall x | x in idle
        ensures StepOf(model)(x) in idle
      {
        IdleStays(model, x);
      }
      Stay(StepOf(model), idle, StepTimes(model, m, k), STEP_LIMIT - k);
    }
  }

  lemma {:induction false} TimesAdd<T>(f: T -> T, x: T, i: nat, j: nat)
    ensures Times(f, x, i + j) == Times(f, Times(f, x, i), j)
    decreases i
  {
    if i > 0 {
      TimesAdd(f, f(x), i - 1, j);
    }
  }

  lemma OnlyAnswer(model: Model, m: Machine, c: Sequence, result: seq<GenerationOutput>)
    requires Cores(m) == multiset{c} && FullAnswers(model, m, result) && PartialAnswers(model, m, result)
    ensures Remaining(model, c) == if result == [] then [] else result[0].tokens
  {
    assert c in Cores(m);
    if result != [] {
      assert result[0] in result;
      var d :| d in Cores(m) && d.id == result[0].id && result[0].tokens == Remaining(model, d);
    }
  }

  /** `outputs.entry(id).or_default().push(token)` for each emission. */
  method Accumulate(outputs: map<SeqId, seq<TokenId>>, emitted: seq<Emission>) returns (r: map<SeqId, seq<TokenId>>)
    ensures r == Collect(outputs, emitted)
  {
    r := outputs;
    for i := 0 to |emitted|
      invariant Collect(r, emitted[i..]) == Collect(outputs, emitted)
    {
      assert emitted[i..][0] == emitted[i] && emitted[i..][1..] == emitted[i + 1..];
      r := r[emitted[i].id := Tokens(r, emitted[i].id) + [emitted[i].token]];
    }
  }

  /** The entries of the map, sorted by id. */
  method SortById(outputs: map<SeqId, seq<TokenId>>) returns (result: seq<GenerationOutput>)
    ensures Ascending(result) && Lists(result, outputs)
  {
    result := [];
    var rest := outputs.Keys;
    while rest != {}
      invariant Sorting(outputs, result, rest)
      decreases rest
    {
      ghost var least := LeastKey(rest);
      var id :| id in rest && forall k :: k in rest ==> id <= k;
      SortingStep(outputs, result, rest, id);
      result := result + [GenerationOutput(id, outputs[id])];
      rest := rest - {id};
    }
  }

  /** The collected outputs, as the answers to what was live at `m`. */
  method Report(ghost model: Model, ghost m: Machine, ghost steps: nat, outputs: map<SeqId, seq<TokenId>>, ghost v: Machine)
    returns (result: seq<GenerationOutput>)
    requires m in SettledMachines() && Driven(model, m, steps, outputs, v)
    ensures Ascending(result) && Answers(model, m, v, result)
  {
    result := SortById(outputs);
    DriveAnswers(model, m, steps, outputs, v, result);
  }

  /** The first `i` members of the scheduled batch have been given their tokens. */
  ghost predicate Decoding(model: Model, n: Machine, v: Machine, i: nat, emitted: seq<Emission>)
    requires i <= |n.running|
  {
    && v == n.(running := DecodedAll(model, n.running[..i]) + n.running[i..])
    && emitted == Emissions(model, n.running[..i])
  }

  lemma DecodingStarts(model: Model, n: Machine)
    ensures Decoding(model, n, n, 0, [])
  {
    assert DecodedAll(model, n.running[..0]) + n.running[0..] == n.running;
  }

  lemma {:induction false} DecodedSnoc(model: Model, rs: seq<Slot>, r: Slot)
    ensures DecodedAll(model, rs + [r]) == DecodedAll(model, rs) + [Decoded(model, r)]
    ensures var token := model.Next(r.sequence.Context());
      Emissions(model, rs + [r]) == Emissions(model, rs) + [Emission(r.sequence.id, token, token == model.eos)]
  {
    if rs == [] {
      assert [] + [r] == [r];
    } else {
      assert (rs + [r])[1..] == rs[1..] + [r];
      DecodedSnoc(model, rs[1..], r);
    }
  }

  lemma DecodingMember(
    model: Model, n: Machine, v: Machine, i: nat, emitted: seq<Emission>,
    rs: seq<Sequence>, tables: map<SeqId, CacheStates.BlockTable>)
    requires i < |n.running| && Decoding(model, n, v, i, emitted) && v.running == Slots(rs, tables)
    ensures i < |rs| && rs[i] == n.running[i].sequence && SlotIds(n.running)[i] == rs[i].id
    ensures var token := model.Next(rs[i].Context());
      Decoding(model, n, Pushed(v, i, token, token == model.eos), i + 1,
               emitted + [Emission(rs[i].id, token, token == model.eos)])
  {
    SlotsAt(rs, tables, i);
    SlotIdsAt(n.running);
    assert n.running[..i + 1] == n.running[..i] + [n.running[i]];
    DecodedSnoc(model, n.running[..i], n.running[i]);
    var token := model.Next(rs[i].Context());
    assert v.running[i] == n.running[i];
    assert Pushed(v, i, token, token == model.eos).running
        == DecodedAll(model, n.running[..i + 1]) + n.running[i + 1..];
  }

  lemma DecodingDone(model: Model, n: Machine, v: Machine, emitted: seq<Emission>)
    requires Decoding(model, n, v, |n.running|, emitted)
    ensures v == n.(running := DecodedAll(model, n.running)) && emitted == Emissions(model, n.running)
  {
    assert n.running[..|n.running|] == n.running;
    assert DecodedAll(model, n.running) + [] == DecodedAll(model, n.running);
  }
}
