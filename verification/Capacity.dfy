/** The size of the cache: a run only notices blocks beyond its peak, and the peak is
    bounded by the batch size and the largest request. */
module Capacity {
  import opened Arith
  import opened Sums
  import opened Models
  import opened Batching
  import opened BatchingLaws
  import opened ScheduleLaws
  import opened Runs
  import opened Liveness

  function Resize(m: Machine, blocks: nat): Machine {
    m.(numBlocks := blocks)
  }

  function ResizeWorld(w: World, blocks: nat): World {
    w.(machine := Resize(w.machine, blocks))
  }

  // ---- What an iteration carries out does not depend on the size ----

  lemma {:induction false} AdmitTimesResized(m: Machine, k: nat, blocks: nat)
    requires k <= |m.waiting|
    ensures AdmitTimes(Resize(m, blocks), k) == Resize(AdmitTimes(m, k), blocks)
    decreases k
  {
    if k > 0 {
      AdmitTimesResized(AdmitOne(m), k - 1, blocks);
    }
  }

  lemma {:induction false} PreemptTimesResized(m: Machine, k: nat, blocks: nat)
    requires k <= |m.running|
    ensures PreemptTimes(Resize(m, blocks), k) == Resize(PreemptTimes(m, k), blocks)
    ensures Victims(Resize(m, blocks), k) == Victims(m, k)
    decreases k
  {
    if k > 0 {
      PreemptTimesResized(PreemptOne(m), k - 1, blocks);
    }
  }

  lemma CarryResized(m: Machine, a: nat, k: nat, blocks: nat)
    requires a <= |m.waiting| && k <= |AdmitTimes(m, a).running|
    ensures k <= |AdmitTimes(Resize(m, blocks), a).running|
    ensures Carry(Resize(m, blocks), a, k) == (Resize(Carry(m, a, k).0, blocks), Carry(m, a, k).1)
  {
    AdmitTimesResized(m, a, blocks);
    PreemptTimesResized(AdmitTimes(m, a), k, blocks);
  }

  // ---- The two decisions that do look at the size ----

  lemma {:induction false} AdmissionPeak(m: Machine)
    ensures m.peak <= Admitted(m).peak
    decreases |m.waiting|
  {
    AdmittedStep(m);
    if CanAdmit(m) {
      AdmissionPeak(AdmitOne(m));
    }
  }

  lemma {:induction false} AdmissionLockstep(m: Machine, blocks: nat)
    requires Admitted(m).peak <= blocks <= m.numBlocks
    ensures AdmitCount(Resize(m, blocks)) == AdmitCount(m)
    decreases |m.waiting|
  {
    AdmittedStep(m);
    if CanAdmit(m) {
      var n := AdmitOne(m);
      AdmissionPeak(n);
      AdmitOneUses(m);
      AdmissionLockstep(n, blocks);
      assert AdmitOne(Resize(m, blocks)) == Resize(n, blocks);
    }
  }

  lemma CommitPeak(m: Machine)
    ensures Commit(m).peak == Max(m.peak, Used(m) + Demand(m))
  {
    GrownUses(m.running, m.blockSize);
  }

  lemma {:induction false} PreemptionLockstep(m: Machine, blocks: nat)
    requires Commit(Relieved(m)).peak <= blocks <= m.numBlocks
    ensures PreemptCount(Resize(m, blocks)) == PreemptCount(m)
    decreases |m.running|
  {
    RelievedStep(m);
    if MustPreempt(m) {
      PreemptionLockstep(PreemptOne(m), blocks);
      assert PreemptOne(Resize(m, blocks)) == Resize(PreemptOne(m), blocks);
    } else {
      CommitPeak(m);
    }
  }

  /** A cache that holds the peak makes the same decisions and reaches the same state. */
  lemma ScheduleLockstep(m: Machine, blocks: nat)
    requires Schedule(m).0.peak <= blocks <= m.numBlocks
    ensures Schedule(Resize(m, blocks)) == (Resize(Schedule(m).0, blocks), Schedule(m).1)
  {
    var m1 := Admitted(m);
    VictimsStacked(m1, PreemptCount(m1));
    CommitPeak(Batch(m));
    AdmittedShape(m, AdmitCount(m));
    AdmissionLockstep(m, blocks);
    AdmitTimesResized(m, AdmitCount(m), blocks);
    PreemptionLockstep(m1, blocks);
    CarryResized(m, AdmitCount(m), PreemptCount(m1), blocks);
  }

  /** And the plan of an iteration determines the state it reaches, whatever the size. */
  lemma SamePlanSameState(m: Machine, blocks: nat)
    requires Schedule(Resize(m, blocks)).1 == Schedule(m).1
    ensures Schedule(Resize(m, blocks)).0 == Resize(Schedule(m).0, blocks)
  {
    var a, k := AdmitCount(m), PreemptCount(Admitted(m));
    assert |Schedule(m).1.admitted| == a && |Schedule(m).1.preempted| == k;
    CarryResized(m, a, k, blocks);
  }

  // ---- Runs ----

  ghost function Plans(model: Model, w: World, events: seq<Event>): seq<Plan>
    decreases |events|
  {
    if events == [] then []
    else
      (if events[0].Iterate? then [Schedule(w.machine).1] else [])
      + Plans(model, Advance(model, w, events[0]), events[1..])
  }

  lemma SchedulePeak(m: Machine)
    ensures m.peak <= Schedule(m).0.peak
  {
    AdmissionPeak(m);
    VictimsStacked(Admitted(m), PreemptCount(Admitted(m)));
  }

  lemma {:induction false} RunPeak(model: Model, w: World, events: seq<Event>)
    ensures w.machine.peak <= Run(model, w, events).machine.peak
    ensures w.machine.numBlocks == Run(model, w, events).machine.numBlocks
    ensures w.machine.blockSize == Run(model, w, events).machine.blockSize
    ensures w.machine.maxBatch == Run(model, w, events).machine.maxBatch
    decreases |events|
  {
    if events != [] {
      SchedulePeak(w.machine);
      StepCapacity(model, w.machine);
      RunPeak(model, Advance(model, w, events[0]), events[1..]);
    }
  }

  lemma AdvanceLockstep(model: Model, w: World, e: Event, blocks: nat)
    requires Advance(model, w, e).machine.peak <= blocks <= w.machine.numBlocks
    ensures Advance(model, ResizeWorld(w, blocks), e) == ResizeWorld(Advance(model, w, e), blocks)
    ensures e.Iterate? ==> Schedule(Resize(w.machine, blocks)).1 == Schedule(w.machine).1
  {
    if e.Iterate? {
      ScheduleLockstep(w.machine, blocks);
    }
    AdvanceSamePlan(model, w, e, blocks);
  }

  lemma {:induction false} RunLockstep(model: Model, w: World, events: seq<Event>, blocks: nat)
    requires Run(model, w, events).machine.peak <= blocks <= w.machine.numBlocks
    ensures Plans(model, ResizeWorld(w, blocks), events) == Plans(model, w, events)
    ensures Run(model, ResizeWorld(w, blocks), events) == ResizeWorld(Run(model, w, events), blocks)
    decreases |events|
  {
    if events != [] {
      var v := Advance(model, w, events[0]);
      RunPeak(model, v, events[1..]);
      RunPeak(model, w, events[..1]);
      assert events[..1][1..] == [] && Run(model, w, events[..1]) == v;
      AdvanceLockstep(model, w, events[0], blocks);
      RunLockstep(model, v, events[1..], blocks);
    }
  }

  lemma AdvanceSamePlan(model: Model, w: World, e: Event, blocks: nat)
    requires e.Iterate? ==> Schedule(Resize(w.machine, blocks)).1 == Schedule(w.machine).1
    ensures Advance(model, ResizeWorld(w, blocks), e) == ResizeWorld(Advance(model, w, e), blocks)
  {
    if e.Iterate? {
      SamePlanSameState(w.machine, blocks);
    }
  }

  lemma {:induction false} RunSamePlans(model: Model, w: World, events: seq<Event>, blocks: nat)
    requires Plans(model, ResizeWorld(w, blocks), events) == Plans(model, w, events)
    ensures Run(model, ResizeWorld(w, blocks), events) == ResizeWorld(Run(model, w, events), blocks)
    decreases |events|
  {
    if events != [] {
      var e, w' := events[0], ResizeWorld(w, blocks);
      var v, v' := Advance(model, w, e), Advance(model, w', e);
      var ps, ps' := Plans(model, v, events[1..]), Plans(model, v', events[1..]);
      if e.Iterate? {
        assert Plans(model, w, events)[0] == Schedule(w.machine).1;
        assert Plans(model, w', events)[0] == Schedule(w'.machine).1;
        assert Plans(model, w, events)[1..] == ps && Plans(model, w', events)[1..] == ps';
      } else {
        assert [] + ps == ps && [] + ps' == ps';
      }
      AdvanceSamePlan(model, w, e, blocks);
      RunSamePlans(model, v, events[1..], blocks);
    }
  }

  /** The recorded peak is the true minimum capacity: among caches no larger than the
      original, exactly those with at least `peak` blocks replay the run plan for plan. */
  lemma PeakIsMinimumCapacity(
    model: Model, maxBatch: nat, blockSize: pos, numBlocks: nat, events: seq<Event>, blocks: nat)
    requires blocks <= numBlocks
    requires FreshIds(Start(maxBatch, blockSize, numBlocks), events)
    ensures Plans(model, Start(maxBatch, blockSize, blocks), events) == Plans(model, Start(maxBatch, blockSize, numBlocks), events)
       <==> Run(model, Start(maxBatch, blockSize, numBlocks), events).machine.peak <= blocks
    ensures var w := Run(model, Start(maxBatch, blockSize, numBlocks), events);
      w.machine.peak <= blocks ==> Run(model, Start(maxBatch, blockSize, blocks), events) == ResizeWorld(w, blocks)
  {
    var big, small := Start(maxBatch, blockSize, numBlocks), Start(maxBatch, blockSize, blocks);
    assert small == ResizeWorld(big, blocks);
    if Run(model, big, events).machine.peak <= blocks {
      RunLockstep(model, big, events, blocks);
    }
    if Plans(model, small, events) == Plans(model, big, events) {
      RunSamePlans(model, big, events, blocks);
      StartSound(model, maxBatch, blockSize, blocks);
      RunSound(model, small, events);
      RunPeak(model, small, events);
    }
  }

  // ---- The memory bound ----

  /** No live request ever needs more than `bound` blocks. */
  ghost predicate Small(model: Model, m: Machine, bound: nat) {
    forall c :: c in Cores(m) ==> NeedsAtMost(model, c, m.blockSize, bound)
  }

  ghost predicate NeedsAtMost(model: Model, c: Sequence, blockSize: pos, bound: nat) {
    Blocks(|c.prompt| + |Promise(model, c)|, blockSize) <= bound
  }

  lemma SameNeed(model: Model, c: Sequence, d: Sequence, blockSize: pos, bound: nat)
    requires d.prompt == c.prompt && Promise(model, d) == Promise(model, c)
    ensures NeedsAtMost(model, d, blockSize, bound) == NeedsAtMost(model, c, blockSize, bound)
  {
  }

  function HeldNext(blockSize: pos): Slot -> nat {
    (r: Slot) => Blocks(r.cached, blockSize) + WantedBy(r, blockSize)
  }

  lemma SmallSlot(model: Model, m: Machine, r: Slot, bound: nat)
    requires Small(model, m, bound) && Settled(m) && r in m.running
    ensures Blocks(r.cached, m.blockSize) + WantedBy(r, m.blockSize) <= bound
  {
    MentionedIsLive(m, r);
    PromiseOfCore(model, r.sequence);
    PromiseLength(model, r.sequence);
    var whole := |r.sequence.prompt| + |Promise(model, r.sequence)|;
    BlocksSucc(r.cached, m.blockSize);
    if r.sequence.IsComplete() {
      BlocksMonotone(r.cached, whole, m.blockSize);
    } else {
      BlocksMonotone(r.cached + 1, whole, m.blockSize);
    }
  }

  lemma SmallUse(model: Model, m: Machine, bound: nat)
    requires Small(model, m, bound) && Settled(m)
    ensures Used(m) + Demand(m) <= |m.running| * bound
  {
    forall r | r in m.running
      ensures HeldNext(m.blockSize)(r) <= bound
    {
      SmallSlot(model, m, r, bound);
    }
    SumSplit(Held(m.blockSize), Wanted(m.blockSize), HeldNext(m.blockSize), m.running);
    SumAtMost(HeldNext(m.blockSize), m.running, bound);
  }

  /** A batch of small sequences, the next token included, fits in `maxBatch * bound`
      blocks, and one short of a batch leaves room for another. */
  lemma SmallBatchUse(model: Model, m: Machine, bound: nat, room: nat)
    requires Small(model, m, bound) && Settled(m) && |m.running| <= m.maxBatch && room == m.maxBatch * bound
    ensures Used(m) + Demand(m) <= room
    ensures |m.running| < m.maxBatch ==> Used(m) + Demand(m) + bound <= room
  {
    SmallUse(model, m, bound);
    MulStep(|m.running|, m.maxBatch, bound);
  }

  lemma SameCoresSmall(model: Model, m: Machine, n: Machine, bound: nat)
    requires Small(model, m, bound) && Cores(n) == Cores(m) && n.blockSize == m.blockSize
    ensures Small(model, n, bound)
  {
  }

  lemma {:induction false} SmallAdmission(model: Model, m: Machine, bound: nat, room: nat)
    requires Small(model, m, bound) && Settled(m) && |m.running| <= m.maxBatch && room == m.maxBatch * bound
    ensures Admitted(m).peak <= Max(m.peak, room)
    decreases |m.waiting|
  {
    AdmittedStep(m);
    if CanAdmit(m) {
      var n := AdmitOne(m);
      AdmitOneKeepsCores(m);
      SmallBatchUse(model, n, bound, room);
      SmallAdmission(model, n, bound, room);
    }
  }

  lemma SmallStepPeak(model: Model, m: Machine, bound: nat, room: nat)
    requires Valid(m) && Small(model, m, bound) && Settled(m) && room == m.maxBatch * bound
    ensures Step(model, m).peak <= Max(m.peak, room)
  {
    var m1, b := Admitted(m), Batch(m);
    SmallAdmission(model, m, bound, room);
    VictimsStacked(m1, PreemptCount(m1));
    ScheduleValid(m);
    SettledBatch(m);
    SameCapacity(m);
    SameCoresSmall(model, m, b, bound);
    SmallBatchUse(model, b, bound, room);
    CommitPeak(b);
  }

  lemma SmallHead(model: Model, m: Machine, bound: nat)
    requires Small(model, m, bound) && m.waiting != []
    ensures Blocks(m.waiting[0].TotalLen(), m.blockSize) <= bound
  {
    var s := m.waiting[0];
    BagMember(m.waiting, s.Core());
    PromiseOfCore(model, s);
    PromiseLength(model, s);
    BlocksMonotone(s.TotalLen(), |s.prompt| + |Promise(model, s)|, m.blockSize);
    assert s.Core() in Cores(m);
  }

  /** Enough blocks for a full batch of the largest request: nobody is preempted, and
      admission stops only at the batch limit or an empty queue. */
  lemma RoomyCacheNeverPreempts(model: Model, m: Machine, bound: nat, room: nat)
    requires Valid(m) && Small(model, m, bound) && Settled(m) && room == m.maxBatch * bound && room <= m.numBlocks
    ensures Schedule(m).1.preempted == []
    ensures AdmissionIsFull(m)
  {
    var m1 := Admitted(m);
    AdmittedValid(m);
    AdmittedShape(m, AdmitCount(m));
    SettledThroughAdmission(m);
    SameCoresSmall(model, m, m1, bound);
    SmallBatchUse(model, m1, bound, room);
    assert !MustPreempt(m1);
    if m1.waiting != [] {
      SmallHead(model, m1, bound);
    }
  }

  lemma SmallStep(model: Model, m: Machine, bound: nat)
    requires Valid(m) && Settled(m) && Small(model, m, bound)
    ensures Small(model, Step(model, m), bound)
  {
    StepCapacity(model, m);
    forall c | c in Cores(Step(model, m))
      ensures NeedsAtMost(model, c, m.blockSize, bound)
    {
      var d := StepAncestor(model, m, c);
      SameNeed(model, c, d, m.blockSize, bound);
    }
  }

  lemma SmallSubmit(model: Model, m: Machine, id: SeqId, prompt: seq<TokenId>, maxNew: nat, bound: nat)
    requires Small(model, m, bound) && Blocks(|prompt| + maxNew, m.blockSize) <= bound
    ensures Small(model, Submit(m, NewSequence(id, prompt, maxNew)), bound)
  {
    var s := NewSequence(id, prompt, maxNew);
    SubmitCores(m, s);
    PromiseOfCore(model, s);
    LimitBoundsPromise(model, s);
    BlocksMonotone(|prompt| + |Promise(model, s)|, |prompt| + maxNew, m.blockSize);
  }

  ghost predicate PlannedIn(inside: iset<World>, p: Plan) {
    exists x :: x in inside && p == Schedule(x.machine).1
  }

  /** Whatever every advance keeps, a run keeps, and every plan is made inside it. */
  lemma {:induction false} RunKeeps(model: Model, inside: iset<World>, asked: iset<Event>, w: World, events: seq<Event>)
    requires w in inside && FreshIds(w, events) && forall i :: 0 <= i < |events| ==> events[i] in asked
    requires forall x, e :: x in inside && e in asked && (e.Request? ==> e.id !in x.requests) ==> Advance(model, x, e) in inside
    ensures Run(model, w, events) in inside
    ensures forall p :: p in Plans(model, w, events) ==> PlannedIn(inside, p)
    decreases |events|
  {
    if events != [] {
      var v, rest := Advance(model, w, events[0]), events[1..];
      FreshTail(model, w, events);
      RunKeeps(model, inside, asked, v, rest);
      assert PlannedIn(inside, Schedule(w.machine).1);
    }
  }

  /** A world of small requests whose peak is within a batch of them. */
  ghost predicate Within(model: Model, w: World, start: Machine, bound: nat, room: nat) {
    && Sound(model, w)
    && SmallWithin(model, w.machine, start, bound, room)
  }

  ghost predicate SmallWithin(model: Model, m: Machine, start: Machine, bound: nat, room: nat) {
    && Small(model, m, bound) && m.peak <= room
    && m.maxBatch == start.maxBatch && m.numBlocks == start.numBlocks && m.blockSize == start.blockSize
  }

  lemma WithinRequest(model: Model, w: World, start: Machine, e: Event, bound: nat, room: nat)
    requires Within(model, w, start, bound, room)
    requires e.Request? && e.id !in w.requests && Blocks(|e.prompt| + e.maxNew, start.blockSize) <= bound
    ensures Within(model, Advance(model, w, e), start, bound, room)
  {
    SmallSubmit(model, w.machine, e.id, e.prompt, e.maxNew, bound);
    assert SmallWithin(model, Submit(w.machine, NewSequence(e.id, e.prompt, e.maxNew)), start, bound, room);
    SubmitSound(model, w, e.id, e.prompt, e.maxNew);
  }

  lemma WithinIterate(model: Model, w: World, start: Machine, bound: nat, room: nat)
    requires Within(model, w, start, bound, room) && room == start.maxBatch * bound
    ensures Within(model, Advance(model, w, Iterate), start, bound, room)
  {
    SmallStep(model, w.machine, bound);
    SmallStepPeak(model, w.machine, bound, room);
    StepCapacity(model, w.machine);
    IterateSound(model, w);
  }

  ghost function WorldsWithin(model: Model, start: Machine, bound: nat, room: nat): iset<World> {
    iset x | Within(model, x, start, bound, room)
  }

  ghost function RequestsWithin(blockSize: pos, bound: nat): iset<Event> {
    iset e: Event | e.Request? ==> Blocks(|e.prompt| + e.maxNew, blockSize) <= bound
  }

  lemma WithinAdvance(model: Model, w: World, start: Machine, e: Event, bound: nat, room: nat)
    requires w in WorldsWithin(model, start, bound, room) && room == start.maxBatch * bound
    requires e in RequestsWithin(start.blockSize, bound) && (e.Request? ==> e.id !in w.requests)
    ensures Advance(model, w, e) in WorldsWithin(model, start, bound, room)
  {
    if e.Request? {
      WithinRequest(model, w, start, e, bound, room);
    } else {
      WithinIterate(model, w, start, bound, room);
    }
  }

  lemma RunWithin(model: Model, w: World, events: seq<Event>, bound: nat, room: nat)
    requires w in WorldsWithin(model, w.machine, bound, room) && room == w.machine.maxBatch * bound
    requires FreshIds(w, events)
    requires forall i :: 0 <= i < |events| ==> events[i] in RequestsWithin(w.machine.blockSize, bound)
    ensures Run(model, w, events) in WorldsWithin(model, w.machine, bound, room)
    ensures forall p :: p in Plans(model, w, events) ==> PlannedIn(WorldsWithin(model, w.machine, bound, room), p)
  {
    var inside, asked := WorldsWithin(model, w.machine, bound, room), RequestsWithin(w.machine.blockSize, bound);
    forall x, e | x in inside && e in asked && (e.Request? ==> e.id !in x.requests)
      ensures Advance(model, x, e) in inside
    {
      WithinAdvance(model, x, w.machine, e, bound, room);
    }
    RunKeeps(model, inside, asked, w, events);
  }

  /** Admission stops only at the batch limit or an empty queue. */
  ghost predicate AdmissionIsFull(m: Machine) {
    |Admitted(m).running| == m.maxBatch || Admitted(m).waiting == []
  }

  lemma RunAdmitsFully(model: Model, w: World, events: seq<Event>, bound: nat, room: nat)
    requires w in WorldsWithin(model, w.machine, bound, room)
    requires room == w.machine.maxBatch * bound && room <= w.machine.numBlocks
    requires FreshIds(w, events)
    requires forall i :: 0 <= i < |events| ==> events[i] in RequestsWithin(w.machine.blockSize, bound)
    ensures AdmissionIsFull(Run(model, w, events).machine)
  {
    RunWithin(model, w, events, bound, room);
    RoomyCacheNeverPreempts(model, Run(model, w, events).machine, bound, room);
  }

  lemma PlanWithinPreemptsNobody(model: Model, start: Machine, p: Plan, bound: nat, room: nat)
    requires PlannedIn(WorldsWithin(model, start, bound, room), p)
    requires room == start.maxBatch * bound && room <= start.numBlocks
    ensures p.preempted == []
  {
    var x :| x in WorldsWithin(model, start, bound, room) && p == Schedule(x.machine).1;
    RoomyCacheNeverPreempts(model, x.machine, bound, room);
  }

  lemma RunNeverPreempts(model: Model, w: World, events: seq<Event>, bound: nat, room: nat)
    requires w in WorldsWithin(model, w.machine, bound, room)
    requires room == w.machine.maxBatch * bound && room <= w.machine.numBlocks
    requires FreshIds(w, events)
    requires forall i :: 0 <= i < |events| ==> events[i] in RequestsWithin(w.machine.blockSize, bound)
    ensures forall p :: p in Plans(model, w, events) ==> p.preempted == []
  {
    RunWithin(model, w, events, bound, room);
    forall p | p in Plans(model, w, events)
      ensures p.preempted == []
    {
      PlanWithinPreemptsNobody(model, w.machine, p, bound, room);
    }
  }

  lemma RunAlwaysAdmitsFully(model: Model, w: World, events: seq<Event>, bound: nat, room: nat)
    requires w in WorldsWithin(model, w.machine, bound, room)
    requires room == w.machine.maxBatch * bound && room <= w.machine.numBlocks
    requires FreshIds(w, events)
    requires forall i :: 0 <= i < |events| ==> events[i] in RequestsWithin(w.machine.blockSize, bound)
    ensures forall i :: 0 <= i <= |events| ==> AdmissionIsFull(Run(model, w, events[..i]).machine)
  {
    forall i | 0 <= i <= |events|
      ensures AdmissionIsFull(Run(model, w, events[..i]).machine)
    {
      RunAdmitsFully(model, w, events[..i], bound, room);
    }
  }

  /** Over any run of requests of at most `bound` blocks each, prompt and limit together,
      the peak is at most a batch of them. A cache that large never preempts, and an
      iteration at any point of the run leaves nobody waiting for blocks. */
  lemma PeakBoundedByBatch(
    model: Model, maxBatch: nat, blockSize: pos, numBlocks: nat, events: seq<Event>, bound: nat)
    requires FreshIds(Start(maxBatch, blockSize, numBlocks), events)
    requires forall i :: 0 <= i < |events| && events[i].Request? ==>
      Blocks(|events[i].prompt| + events[i].maxNew, blockSize) <= bound
    ensures Run(model, Start(maxBatch, blockSize, numBlocks), events).machine.peak <= maxBatch * bound
    ensures maxBatch * bound <= numBlocks ==>
      forall p :: p in Plans(model, Start(maxBatch, blockSize, numBlocks), events) ==> p.preempted == []
    ensures maxBatch * bound <= numBlocks ==>
      forall i :: 0 <= i <= |events| ==> AdmissionIsFull(Run(model, Start(maxBatch, blockSize, numBlocks), events[..i]).machine)
  {
    var w, room := Start(maxBatch, blockSize, numBlocks), maxBatch * bound;
    StartSound(model, maxBatch, blockSize, numBlocks);
    assert w in WorldsWithin(model, w.machine, bound, room);
    RunWithin(model, w, events, bound, room);
    if room <= numBlocks {
      RunNeverPreempts(model, w, events, bound, room);
      RunAlwaysAdmitsFully(model, w, events, bound, room);
    }
  }
}
