/** The continuous-batching scheduler on values. A `Machine` forgets which blocks a
    sequence holds and keeps only how many tokens it has cached; one `Schedule` is one
    scheduling iteration. */
module Batching {
  import opened Arith
  import opened Sums
  import opened Models

  import CacheStates

  type SeqId = CacheStates.SeqId

  datatype SeqState = Waiting | Running | Preempted | Finished

  datatype Sequence = Sequence(
    id: SeqId,
    prompt: seq<TokenId>,
    output: seq<TokenId>,
    maxNew: nat,
    state: SeqState)
  {
    function TotalLen(): nat { |prompt| + |output| }

    predicate IsComplete() { |output| >= maxNew }

    function Context(): seq<TokenId> { prompt + output }

    /** The sequence without its lifecycle flag. */
    function Core(): Sequence { this.(state := Waiting) }
  }

  function NewSequence(id: SeqId, prompt: seq<TokenId>, maxNew: nat): Sequence {
    Sequence(id, prompt, [], maxNew, Waiting)
  }

  /** A running sequence and the number of tokens its block table holds. */
  datatype Slot = Slot(sequence: Sequence, cached: nat)

  datatype Machine = Machine(
    maxBatch: nat,
    blockSize: pos,
    numBlocks: nat,
    waiting: seq<Sequence>,
    running: seq<Slot>,
    peak: nat)

  datatype Plan = Plan(
    admitted: seq<SeqId>,
    decode: seq<SeqId>,
    preempted: seq<SeqId>,
    finished: seq<SeqId>)

  function Ids(ss: seq<Sequence>): (ids: seq<SeqId>)
    ensures |ids| == |ss|
  {
    if ss == [] then [] else [ss[0].id] + Ids(ss[1..])
  }

  function SlotIds(rs: seq<Slot>): (ids: seq<SeqId>)
    ensures |ids| == |rs|
  {
    if rs == [] then [] else [rs[0].sequence.id] + SlotIds(rs[1..])
  }

  // ---- Block accounting ----

  function Held(blockSize: pos): Slot -> nat {
    (s: Slot) => Blocks(s.cached, blockSize)
  }

  /** Blocks an unfinished slot needs for its next token; a complete one needs none. */
  function WantedBy(s: Slot, blockSize: pos): nat {
    BlocksSucc(s.cached, blockSize);
    if s.sequence.IsComplete() then 0
    else Blocks(s.cached + 1, blockSize) - Blocks(s.cached, blockSize)
  }

  function Wanted(blockSize: pos): Slot -> nat {
    (s: Slot) => WantedBy(s, blockSize)
  }

  function Used(m: Machine): nat {
    Sum(Held(m.blockSize), m.running)
  }

  function Demand(m: Machine): nat {
    Sum(Wanted(m.blockSize), m.running)
  }

  // ---- Phase 1: admission ----

  predicate CanAdmit(m: Machine) {
    && |m.running| < m.maxBatch
    && m.waiting != []
    && Used(m) + Blocks(m.waiting[0].TotalLen(), m.blockSize) <= m.numBlocks
  }

  function Enter(s: Sequence): Slot {
    Slot(s.(state := Running), s.TotalLen())
  }

  function AdmitOne(m: Machine): Machine
    requires m.waiting != []
  {
    var running := m.running + [Enter(m.waiting[0])];
    m.(waiting := m.waiting[1..],
       running := running,
       peak := Max(m.peak, Sum(Held(m.blockSize), running)))
  }

  function AdmitTimes(m: Machine, k: nat): Machine
    requires k <= |m.waiting|
    decreases k
  {
    if k == 0 then m else AdmitTimes(AdmitOne(m), k - 1)
  }

  function AdmitCount(m: Machine): (k: nat)
    ensures k <= |m.waiting|
    decreases |m.waiting|
  {
    if CanAdmit(m) then 1 + AdmitCount(AdmitOne(m)) else 0
  }

  function Admitted(m: Machine): Machine {
    AdmitTimes(m, AdmitCount(m))
  }

  // ---- Phase 3: preemption ----

  predicate MustPreempt(m: Machine) {
    m.running != [] && Used(m) + Demand(m) > m.numBlocks
  }

  /** Victim order: least output first, larger id first among equals. */
  predicate Below(a: Sequence, b: Sequence) {
    |a.output| < |b.output| || (|a.output| == |b.output| && a.id > b.id)
  }

  /** The first slot that no other slot ranks below, as `min_by_key` picks it. */
  ghost predicate IsVictim(rs: seq<Slot>, v: nat) {
    && v < |rs|
    && (forall i :: 0 <= i < |rs| ==> !Below(rs[i].sequence, rs[v].sequence))
    && (forall i :: 0 <= i < v ==> Below(rs[v].sequence, rs[i].sequence))
  }

  function VictimIndex(rs: seq<Slot>): (v: nat)
    requires rs != []
    ensures v < |rs|
  {
    var n := |rs| - 1;
    if n == 0 then 0
    else
      var v := VictimIndex(rs[..n]);
      if Below(rs[n].sequence, rs[v].sequence) then n else v
  }

  function Victim(m: Machine): Sequence
    requires m.running != []
  {
    m.running[VictimIndex(m.running)].sequence
  }

  function PreemptOne(m: Machine): Machine
    requires m.running != []
  {
    var v := VictimIndex(m.running);
    m.(waiting := [Victim(m).(state := Preempted)] + m.waiting,
       running := m.running[..v] + m.running[v + 1..])
  }

  function PreemptTimes(m: Machine, k: nat): Machine
    requires k <= |m.running|
    decreases k
  {
    if k == 0 then m else PreemptTimes(PreemptOne(m), k - 1)
  }

  function PreemptCount(m: Machine): (k: nat)
    ensures k <= |m.running|
    decreases |m.running|
  {
    if MustPreempt(m) then 1 + PreemptCount(PreemptOne(m)) else 0
  }

  function Relieved(m: Machine): Machine {
    PreemptTimes(m, PreemptCount(m))
  }

  function Victims(m: Machine, k: nat): (victims: seq<Sequence>)
    requires k <= |m.running|
    ensures |victims| == k
    decreases k
  {
    if k == 0 then [] else [Victim(m)] + Victims(PreemptOne(m), k - 1)
  }

  // ---- Phases 2 and 4: commit and retire ----

  function Unfinished(rs: seq<Slot>): seq<Slot> {
    if rs == [] then []
    else if rs[0].sequence.IsComplete() then Unfinished(rs[1..])
    else [rs[0]] + Unfinished(rs[1..])
  }

  function Completed(rs: seq<Slot>): seq<Slot> {
    if rs == [] then []
    else if rs[0].sequence.IsComplete() then [rs[0]] + Completed(rs[1..])
    else Completed(rs[1..])
  }

  /** Each unfinished slot caches one more token. */
  function Grow(s: Slot): Slot {
    if s.sequence.IsComplete() then s else s.(cached := s.cached + 1)
  }

  function Grown(rs: seq<Slot>): (gs: seq<Slot>)
    ensures |gs| == |rs|
  {
    if rs == [] then [] else [Grow(rs[0])] + Grown(rs[1..])
  }

  function Commit(m: Machine): Machine {
    var running := Grown(m.running);
    m.(running := running, peak := Max(m.peak, Sum(Held(m.blockSize), running)))
  }

  function Retire(m: Machine): Machine {
    m.(running := Unfinished(m.running))
  }

  // ---- One iteration ----

  /** The iteration with the numbers of admissions and preemptions given: everything
      about it except the two decisions that look at the size of the cache. */
  function Carry(m: Machine, admissions: nat, preemptions: nat): (Machine, Plan)
    requires admissions <= |m.waiting|
    requires preemptions <= |AdmitTimes(m, admissions).running|
  {
    var m1 := AdmitTimes(m, admissions);
    var m2 := PreemptTimes(m1, preemptions);
    (Retire(Commit(m2)),
     Plan(Ids(m.waiting[..admissions]),
          SlotIds(Unfinished(m2.running)),
          Ids(Victims(m1, preemptions)),
          SlotIds(Completed(m2.running))))
  }

  function Schedule(m: Machine): (Machine, Plan) {
    Carry(m, AdmitCount(m), PreemptCount(Admitted(m)))
  }

  /** The machine after admission and preemption, whose running set is about to decode. */
  function Batch(m: Machine): Machine {
    Relieved(Admitted(m))
  }

  // ---- What must hold of a machine between calls ----

  function Bag(ss: seq<Sequence>): multiset<Sequence> {
    if ss == [] then multiset{} else multiset{ss[0].Core()} + Bag(ss[1..])
  }

  function SlotBag(rs: seq<Slot>): multiset<Sequence> {
    if rs == [] then multiset{} else multiset{rs[0].sequence.Core()} + SlotBag(rs[1..])
  }

  /** The live sequences, lifecycle flags and queue positions forgotten. */
  function Cores(m: Machine): multiset<Sequence> {
    Bag(m.waiting) + SlotBag(m.running)
  }

  /** No sequence occurs twice and no two share an id. */
  ghost predicate Distinct(cores: multiset<Sequence>) {
    && (forall c :: cores[c] <= 1)
    && (forall c, d :: c in cores && d in cores && c.id == d.id ==> c == d)
  }

  ghost predicate States(m: Machine) {
    && (forall s :: s in m.waiting ==> s.state == Waiting || s.state == Preempted)
    && (forall r :: r in m.running ==> r.sequence.state == Running)
  }

  ghost predicate Valid(m: Machine) {
    && Distinct(Cores(m))
    && States(m)
    && |m.running| <= m.maxBatch
    && Used(m) <= m.peak <= m.numBlocks
  }

  function HasWork(m: Machine): bool {
    m.waiting != [] || m.running != []
  }

  function Submit(m: Machine, s: Sequence): Machine {
    m.(waiting := m.waiting + [s])
  }

  function Empty(maxBatch: nat, blockSize: pos, numBlocks: nat): Machine {
    Machine(maxBatch, blockSize, numBlocks, [], [], 0)
  }

  // ---- Feeding tokens back ----

  /** `push_token` on the sequence itself: append, and cap the limit at eos. */
  function Push(s: Sequence, token: TokenId, isEos: bool): Sequence {
    var output := s.output + [token];
    s.(output := output, maxNew := if isEos then |output| else s.maxNew)
  }

  /** What the engine does to a running slot after its forward pass. */
  ghost function Decoded(model: Model, r: Slot): Slot {
    var token := model.Next(r.sequence.Context());
    r.(sequence := Push(r.sequence, token, token == model.eos))
  }

  ghost function DecodedAll(model: Model, rs: seq<Slot>): (ds: seq<Slot>)
    ensures |ds| == |rs|
  {
    if rs == [] then [] else [Decoded(model, rs[0])] + DecodedAll(model, rs[1..])
  }

  /** One engine iteration: schedule, then one token for every running sequence. */
  ghost function Step(model: Model, m: Machine): Machine {
    var scheduled := Schedule(m).0;
    scheduled.(running := DecodedAll(model, scheduled.running))
  }

  /** Between engine iterations every running sequence has cached exactly its tokens. */
  ghost predicate Settled(m: Machine) {
    forall r :: r in m.running ==> r.cached == r.sequence.TotalLen()
  }
}
