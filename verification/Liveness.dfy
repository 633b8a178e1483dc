/** Progress: every iteration pays off work, and the engine drains exactly when every
    live request fits the whole cache on its own. */
module Liveness {
  import opened Arith
  import opened Sums
  import opened Models
  import opened Batching
  import opened BatchingLaws
  import opened ScheduleLaws
  import opened Runs

  // ---- The measure ----

  /** Tokens a sequence is still owed, and one more for its retirement. */
  ghost function Owed(model: Model, s: Sequence): nat {
    |Promise(model, s)| - |s.output| + 1
  }

  ghost function OwedTo(model: Model): Sequence -> nat {
    (s: Sequence) => Owed(model, s)
  }

  ghost function OwedIn(model: Model): Slot -> nat {
    (r: Slot) => Owed(model, r.sequence)
  }

  ghost function Work(model: Model, m: Machine): nat {
    Sum(OwedTo(model), m.waiting) + Sum(OwedIn(model), m.running)
  }

  lemma OwedState(model: Model, s: Sequence, state: SeqState)
    ensures Owed(model, s.(state := state)) == Owed(model, s)
  {
    assert s.(state := state).Context() == s.Context();
  }

  lemma AdmitOneWork(model: Model, m: Machine)
    requires m.waiting != []
    ensures Work(model, AdmitOne(m)) == Work(model, m)
  {
    SumAppend(OwedIn(model), m.running, Enter(m.waiting[0]));
    OwedState(model, m.waiting[0], Running);
  }

  lemma {:induction false} AdmittedWork(model: Model, m: Machine)
    ensures Work(model, Admitted(m)) == Work(model, m)
    decreases |m.waiting|
  {
    AdmittedStep(m);
    if CanAdmit(m) {
      AdmitOneWork(model, m);
      AdmittedWork(model, AdmitOne(m));
    }
  }

  lemma PreemptOneWork(model: Model, m: Machine)
    requires m.running != []
    ensures Work(model, PreemptOne(m)) == Work(model, m)
  {
    SumRemove(OwedIn(model), m.running, VictimIndex(m.running));
    SumConcat(OwedTo(model), [Victim(m).(state := Preempted)], m.waiting);
    SumOne(OwedTo(model), Victim(m).(state := Preempted));
    OwedState(model, Victim(m), Preempted);
  }

  lemma {:induction false} RelievedWork(model: Model, m: Machine)
    ensures Work(model, Relieved(m)) == Work(model, m)
    decreases |m.running|
  {
    RelievedStep(m);
    if MustPreempt(m) {
      PreemptOneWork(model, m);
      RelievedWork(model, PreemptOne(m));
    }
  }

  lemma {:induction false} CompletedOwed(model: Model, rs: seq<Slot>)
    ensures Sum(OwedIn(model), Completed(rs)) == |Completed(rs)|
  {
    if rs != [] {
      CompletedOwed(model, rs[1..]);
      PromiseLength(model, rs[0].sequence);
    }
  }

  lemma {:induction false} GrownOwed(model: Model, rs: seq<Slot>)
    ensures Sum(OwedIn(model), Grown(rs)) == Sum(OwedIn(model), rs)
  {
    if rs != [] {
      GrownOwed(model, rs[1..]);
      assert Grown(rs)[1..] == Grown(rs[1..]);
    }
  }

  lemma {:induction false} DecodedOwed(model: Model, rs: seq<Slot>)
    requires forall r :: r in rs ==> !r.sequence.IsComplete()
    ensures Sum(OwedIn(model), DecodedAll(model, rs)) + |rs| == Sum(OwedIn(model), rs)
  {
    if rs != [] {
      assert rs[0] in rs;
      assert forall r :: r in rs[1..] ==> r in rs;
      DecodedOwed(model, rs[1..]);
      PushKeepsPromise(model, rs[0].sequence);
      PromiseLength(model, rs[0].sequence);
      assert DecodedAll(model, rs)[1..] == DecodedAll(model, rs[1..]);
    }
  }

  /** Work is conserved: an iteration pays off one unit per decoded token and one per
      retired sequence, and nothing else, preemption included, changes it. */
  lemma StepPaysWork(model: Model, m: Machine)
    ensures Work(model, m) == Work(model, Step(model, m)) + |Schedule(m).1.decode| + |Schedule(m).1.finished|
  {
    var b := Batch(m);
    AdmittedWork(model, m);
    RelievedWork(model, Admitted(m));
    DecodeBatchRuns(m);
    SumParts(OwedIn(model), b.running);
    CompletedOwed(model, b.running);
    PartsMembers(b.running);
    var rs := Unfinished(b.running);
    GrownOwed(model, rs);
    GrownUnfinished(rs);
    DecodedOwed(model, Grown(rs));
    assert Schedule(m).0.waiting == b.waiting;
  }

  lemma GrownUnfinished(rs: seq<Slot>)
    requires forall r :: r in rs ==> !r.sequence.IsComplete()
    ensures forall r :: r in Grown(rs) ==> !r.sequence.IsComplete()
  {
    GrownAt(rs);
    forall r | r in Grown(rs)
      ensures !r.sequence.IsComplete()
    {
      var i :| 0 <= i < |rs| && Grown(rs)[i] == r;
      assert rs[i] in rs;
    }
  }

  // ---- Fitting requests always make progress ----

  ghost predicate AllFit(model: Model, m: Machine) {
    forall c :: c in Cores(m) ==> FitsAlone(model, c, m)
  }

  lemma SlotFits(model: Model, m: Machine, r: Slot)
    requires AllFit(model, m) && Settled(m) && r in m.running
    ensures Blocks(r.cached, m.blockSize) + WantedBy(r, m.blockSize) <= m.numBlocks
  {
    MentionedIsLive(m, r);
    PromiseOfCore(model, r.sequence);
    PromiseLength(model, r.sequence);
    assert FitsAlone(model, r.sequence.Core(), m);
    BlocksSucc(r.cached, m.blockSize);
    BlocksFit(r.cached, m.blockSize, m.numBlocks);
    BlocksFit(r.cached + 1, m.blockSize, m.numBlocks);
  }

  lemma LoneSlot(m: Machine)
    requires |m.running| == 1
    ensures Used(m) == Blocks(m.running[0].cached, m.blockSize)
    ensures Demand(m) == WantedBy(m.running[0], m.blockSize)
  {
    assert m.running == [m.running[0]];
    SumOne(Held(m.blockSize), m.running[0]);
    SumOne(Wanted(m.blockSize), m.running[0]);
  }

  lemma PreemptOneSettled(m: Machine)
    requires m.running != [] && Settled(m)
    ensures Settled(PreemptOne(m))
  {
    assert forall r :: r in PreemptOne(m).running ==> r in m.running;
  }

  lemma {:induction false} SomeoneSurvives(model: Model, m: Machine)
    requires Settled(m) && AllFit(model, m) && m.running != []
    ensures Relieved(m).running != []
    decreases |m.running|
  {
    RelievedStep(m);
    if MustPreempt(m) {
      if |m.running| == 1 {
        LoneSlot(m);
        SlotFits(model, m, m.running[0]);
        assert false;
      } else {
        PreemptOneSettled(m);
        PreemptOneKeepsCores(m);
        SomeoneSurvives(model, PreemptOne(m));
      }
    }
  }

  lemma SomeoneIsAdmitted(model: Model, m: Machine)
    requires Settled(m) && AllFit(model, m) && m.maxBatch >= 1 && HasWork(m)
    ensures Admitted(m).running != []
  {
    AdmittedShape(m, AdmitCount(m));
    if m.running == [] {
      var s := m.waiting[0];
      BagMember(m.waiting, s.Core());
      assert FitsAlone(model, s.Core(), m);
      PromiseOfCore(model, s);
      PromiseLength(model, s);
      BlocksFit(s.TotalLen(), m.blockSize, m.numBlocks);
      assert CanAdmit(m);
    }
  }

  /** With room for one sequence in the batch and every live request fitting the cache
      alone, an iteration with work to do decodes or retires something. */
  lemma EveryStepProgresses(model: Model, m: Machine)
    requires Valid(m) && Settled(m) && AllFit(model, m) && m.maxBatch >= 1 && HasWork(m)
    ensures |Schedule(m).1.decode| + |Schedule(m).1.finished| >= 1
    ensures Work(model, Step(model, m)) < Work(model, m)
  {
    SomeoneIsAdmitted(model, m);
    AdmittedValid(m);
    SettledThroughAdmission(m);
    AdmittedShape(m, AdmitCount(m));
    SomeoneSurvives(model, Admitted(m));
    PartsMembers(Batch(m).running);
    StepPaysWork(model, m);
  }

  lemma StepCapacity(model: Model, m: Machine)
    ensures var n := Step(model, m);
      n.numBlocks == m.numBlocks && n.blockSize == m.blockSize && n.maxBatch == m.maxBatch
  {
    SameCapacity(m);
  }

  /** Every live sequence was live before the iteration, with the same prompt and promise. */
  lemma StepAncestor(model: Model, m: Machine, c: Sequence) returns (d: Sequence)
    requires Valid(m) && Settled(m) && c in Cores(Step(model, m))
    ensures d in Cores(m) && d.id == c.id && d.prompt == c.prompt && Promise(model, d) == Promise(model, c)
  {
    var n := Schedule(m).0;
    ScheduleValid(m);
    StepOrigin(model, m, c);
    if c in Bag(n.waiting) {
      d := c;
    } else {
      var i :| 0 <= i < |n.running| && c == Decoded(model, n.running[i]).sequence.Core();
      d := n.running[i].sequence.Core();
      MentionedIsLive(n, n.running[i]);
      ScheduledBatch(m);
      DecodedOnTrack(model, n.running[i].sequence);
    }
  }

  lemma StepAllFit(model: Model, m: Machine)
    requires Valid(m) && Settled(m) && AllFit(model, m)
    ensures AllFit(model, Step(model, m))
  {
    StepCapacity(model, m);
    forall c | c in Cores(Step(model, m))
      ensures FitsAlone(model, c, Step(model, m))
    {
      var d := StepAncestor(model, m, c);
      assert FitsAlone(model, d, m);
    }
  }

  // ---- Draining ----

  function Times<T>(f: T -> T, x: T, n: nat): T
    decreases n
  {
    if n == 0 then x else Times(f, f(x), n - 1)
  }

  /** Descent on a measure inside a set closed under `f`. */
  lemma {:induction false} Descend<T(!new)>(f: T -> T, work: T -> nat, done: iset<T>, good: iset<T>, x: T, n: nat)
    requires x in good && n >= work(x)
    requires forall y :: y in good ==> f(y) in good
    requires forall y :: y in good && y in done ==> f(y) in done
    requires forall y :: y in good && y !in done ==> work(f(y)) < work(y)
    ensures Times(f, x, n) in done
    decreases n
  {
    if x !in done {
      Descend(f, work, done, good, f(x), n - 1);
    } else if n > 0 {
      Stay(f, done * good, x, n);
    }
  }

  lemma {:induction false} Stay<T(!new)>(f: T -> T, inside: iset<T>, x: T, n: nat)
    requires x in inside && forall y :: y in inside ==> f(y) in inside
    ensures Times(f, x, n) in inside
    decreases n
  {
    if n > 0 {
      Stay(f, inside, f(x), n - 1);
    }
  }

  ghost function StepOf(model: Model): Machine -> Machine {
    (m: Machine) => Step(model, m)
  }

  ghost function StepTimes(model: Model, m: Machine, n: nat): Machine {
    Times(StepOf(model), m, n)
  }

  ghost function WorkOf(model: Model): Machine -> nat {
    (m: Machine) => Work(model, m)
  }

  lemma IdleStays(model: Model, m: Machine)
    requires !HasWork(m)
    ensures !HasWork(Step(model, m))
  {
    AdmittedStep(m);
    RelievedStep(m);
  }

  ghost predicate Ready(model: Model, m: Machine) {
    Valid(m) && Settled(m) && AllFit(model, m) && m.maxBatch >= 1
  }

  lemma ReadyStep(model: Model, m: Machine)
    requires Ready(model, m)
    ensures Ready(model, Step(model, m))
    ensures HasWork(m) ==> Work(model, Step(model, m)) < Work(model, m)
  {
    if HasWork(m) {
      EveryStepProgresses(model, m);
    }
    StepValid(model, m);
    StepAllFit(model, m);
    StepCapacity(model, m);
  }

  ghost function ReadyMachines(model: Model): iset<Machine> {
    iset m | Ready(model, m)
  }

  ghost function IdleMachines(): iset<Machine> {
    iset m | !HasWork(m)
  }

  lemma ReadyDescends(model: Model, m: Machine)
    requires m in ReadyMachines(model)
    ensures var f, work := StepOf(model), WorkOf(model);
      && f(m) in ReadyMachines(model)
      && (m !in IdleMachines() ==> work(f(m)) < work(m))
      && (m in IdleMachines() ==> f(m) in IdleMachines())
  {
    ReadyStep(model, m);
    if !HasWork(m) {
      IdleStays(model, m);
    }
  }

  /** Fitting work is finished within as many iterations as there is work. */
  lemma FittingWorkDrains(model: Model, m: Machine, n: nat)
    requires Ready(model, m) && n >= Work(model, m)
    ensures !HasWork(StepTimes(model, m, n))
  {
    forall x | x in ReadyMachines(model)
      ensures var f, work := StepOf(model), WorkOf(model);
        && f(x) in ReadyMachines(model)
        && (x !in IdleMachines() ==> work(f(x)) < work(x))
        && (x in IdleMachines() ==> f(x) in IdleMachines())
    {
      ReadyDescends(model, x);
    }
    Descend(StepOf(model), WorkOf(model), IdleMachines(), ReadyMachines(model), m, n);
  }

  ghost function AdvanceOf(model: Model): World -> World {
    (w: World) => Advance(model, w, Iterate)
  }

  ghost function Iterations(model: Model, w: World, n: nat): World {
    Times(AdvanceOf(model), w, n)
  }

  lemma {:induction false} IterationsMachine(model: Model, w: World, n: nat)
    ensures Iterations(model, w, n).machine == StepTimes(model, w.machine, n)
    decreases n
  {
    if n > 0 {
      IterationsMachine(model, AdvanceOf(model)(w), n - 1);
    }
  }

  /** Sound worlds with the requests and the cache of `w`. */
  ghost function SoundSince(model: Model, w: World): iset<World> {
    iset v | Sound(model, v) && v.requests == w.requests
             && v.machine.numBlocks == w.machine.numBlocks && v.machine.blockSize == w.machine.blockSize
  }

  lemma SoundSinceAdvance(model: Model, w: World, v: World)
    requires v in SoundSince(model, w)
    ensures AdvanceOf(model)(v) in SoundSince(model, w)
  {
    IterateSound(model, v);
    StepCapacity(model, v.machine);
  }

  lemma IterationsSound(model: Model, w: World, n: nat)
    requires Sound(model, w)
    ensures var v := Iterations(model, w, n);
      && Sound(model, v) && v.requests == w.requests
      && v.machine.numBlocks == w.machine.numBlocks && v.machine.blockSize == w.machine.blockSize
  {
    forall v | v in SoundSince(model, w)
      ensures AdvanceOf(model)(v) in SoundSince(model, w)
    {
      SoundSinceAdvance(model, w, v);
    }
    Stay(AdvanceOf(model), SoundSince(model, w), w, n);
  }

  lemma DrainedWorkFitted(model: Model, w: World, n: nat)
    requires Sound(model, w) && !HasWork(StepTimes(model, w.machine, n))
    ensures AllFit(model, w.machine)
  {
    var v := Iterations(model, w, n);
    IterationsSound(model, w, n);
    IterationsMachine(model, w, n);
    forall c | c in Cores(w.machine)
      ensures FitsAlone(model, c, w.machine)
    {
      assert OnTrack(model, w.requests, w.emitted, c);
      assert !IsLive(v.machine, c.id);
      assert Served(model, v, c.id);
    }
  }

  lemma ClosedBatchStuck(model: Model, m: Machine, n: nat)
    requires Valid(m) && m.maxBatch == 0
    ensures StepTimes(model, m, n) == m
  {
    AdmittedStep(m);
    RelievedStep(m);
    assert m.running == [] && Step(model, m) == m;
    Stay(StepOf(model), iset{m}, m, n);
  }

  /** The engine drains from a reachable state exactly when it is already idle, or has a
      batch slot and every live request, prompt and greedy output together, fits the
      cache alone. Neither load nor preemption decides it. */
  lemma DrainsIffEverythingFits(model: Model, w: World)
    requires Sound(model, w)
    ensures (exists n :: !HasWork(StepTimes(model, w.machine, n)))
       <==> !HasWork(w.machine) || (w.machine.maxBatch >= 1 && AllFit(model, w.machine))
  {
    var m := w.machine;
    if !HasWork(m) {
      assert !HasWork(StepTimes(model, m, 0));
    } else if m.maxBatch >= 1 && AllFit(model, m) {
      FittingWorkDrains(model, m, Work(model, m));
    } else if n :| !HasWork(StepTimes(model, m, n)) {
      DrainedWorkFitted(model, w, n);
      if m.maxBatch == 0 {
        ClosedBatchStuck(model, m, n);
      }
    }
  }

  lemma LimitBoundsPromise(model: Model, s: Sequence)
    requires |s.output| <= s.maxNew
    ensures |Promise(model, s)| <= s.maxNew
    ensures Owed(model, s) <= s.maxNew + 1
  {
  }

  function LimitPlusOne(): Sequence -> nat {
    (s: Sequence) => s.maxNew + 1
  }

  /** The condition a caller can check without running a model: with a batch slot and every
      fresh request's prompt plus limit within the cache, the queue is ready to drain, and
      its work is at most the sum of the limits plus one each. */
  lemma FreshRequestsAreReady(model: Model, m: Machine)
    requires Valid(m) && m.running == [] && m.maxBatch >= 1
    requires forall s :: s in m.waiting ==> s.output == [] && |s.prompt| + s.maxNew <= m.numBlocks * m.blockSize
    ensures Ready(model, m) && Work(model, m) <= Sum(LimitPlusOne(), m.waiting)
  {
    forall c | c in Cores(m)
      ensures FitsAlone(model, c, m)
    {
      BagMember(m.waiting, c);
      var i :| 0 <= i < |m.waiting| && m.waiting[i].Core() == c;
      assert m.waiting[i] in m.waiting;
      LimitBoundsPromise(model, c);
    }
    forall s | s in m.waiting
      ensures OwedTo(model)(s) <= LimitPlusOne()(s)
    {
      LimitBoundsPromise(model, s);
    }
    SumMonotone(OwedTo(model), LimitPlusOne(), m.waiting);
  }
}
