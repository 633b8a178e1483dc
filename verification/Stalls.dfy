/** Stalling: when an iteration with work to do makes no progress, and why none follows. */
module Stalls {
  import opened Arith
  import opened Sums
  import opened Models
  import opened Batching
  import opened BatchingLaws
  import opened ScheduleLaws
  import opened Runs
  import opened Liveness

  /** An iteration that decodes nothing and retires nothing. */
  ghost predicate Stalled(m: Machine) {
    Schedule(m).1.decode == [] && Schedule(m).1.finished == []
  }

  lemma {:induction false} AllPreempted(m: Machine)
    requires Valid(m) && Settled(m) && m.running != [] && Relieved(m).running == []
    ensures var w := Relieved(m).waiting;
      w != [] && !w[0].IsComplete() && w[0].TotalLen() == m.numBlocks * m.blockSize
    decreases |m.running|
  {
    RelievedStep(m);
    assert MustPreempt(m);
    if |m.running| == 1 {
      var r := m.running[0];
      LoneSlot(m);
      RelievedStep(PreemptOne(m));
      BlocksSucc(r.cached, m.blockSize);
      BlocksFit(r.cached, m.blockSize, m.numBlocks);
      BlocksFit(r.cached + 1, m.blockSize, m.numBlocks);
    } else {
      PreemptOneValid(m);
      PreemptOneSettled(m);
      AllPreempted(PreemptOne(m));
    }
  }

  /** The only way to stall: an iteration with work that neither decodes nor retires
      leaves nobody running and, at the head of the queue, a sequence that alone fills
      the whole cache or overflows it. */
  lemma StallsOnlyOnFullCache(model: Model, m: Machine)
    requires Valid(m) && Settled(m) && m.maxBatch >= 1 && HasWork(m) && Stalled(m)
    ensures var n := Schedule(m).0;
      n.running == [] && n.waiting != [] && n.waiting[0].TotalLen() >= m.numBlocks * m.blockSize
  {
    PartsMembers(Batch(m).running);
    DecodeBatchRuns(m);
    assert Batch(m).running == [];
    AdmittedShape(m, AdmitCount(m));
    if Admitted(m).running == [] {
      RelievedStep(Admitted(m));
      AdmittedStep(m);
      BlocksFit(m.waiting[0].TotalLen(), m.blockSize, m.numBlocks);
    } else {
      AdmittedValid(m);
      SettledThroughAdmission(m);
      AllPreempted(Admitted(m));
    }
  }


  // ---- The order of the batch does not decide who is preempted ----

  /** The same machine up to the order of its batch. */
  ghost predicate Shuffled(a: Machine, b: Machine) {
    multiset(a.running) == multiset(b.running) && b == a.(running := b.running)
  }

  lemma {:induction false} SumShuffled<T>(w: T -> nat, s: seq<T>, t: seq<T>)
    requires multiset(s) == multiset(t)
    ensures Sum(w, s) == Sum(w, t)
  {
    if s == [] {
      assert |multiset(t)| == 0;
    } else {
      assert s[0] in multiset(t);
      var i :| 0 <= i < |t| && t[i] == s[0];
      RestShuffled(s, t, 0, i);
      assert s[..0] + s[1..] == s[1..];
      SumShuffled(w, s[1..], t[..i] + t[i + 1..]);
      SumRemove(w, t, i);
    }
  }

  lemma RestShuffled<T>(s: seq<T>, t: seq<T>, i: nat, j: nat)
    requires multiset(s) == multiset(t) && i < |s| && j < |t| && s[i] == t[j]
    ensures multiset(s[..i] + s[i + 1..]) == multiset(t[..j] + t[j + 1..])
  {
    BagWithout(s, i);
    BagWithout(t, j);
  }

  lemma BagWithout<T>(s: seq<T>, i: nat)
    requires i < |s|
    ensures multiset(s[..i] + s[i + 1..]) == multiset(s) - multiset{s[i]}
  {
    assert s == s[..i] + ([s[i]] + s[i + 1..]);
  }

  lemma ShuffledUses(a: Machine, b: Machine)
    requires Shuffled(a, b)
    ensures |a.running| == |b.running| && Used(a) == Used(b) && Demand(a) == Demand(b)
    ensures CanAdmit(a) == CanAdmit(b) && MustPreempt(a) == MustPreempt(b)
  {
    assert |multiset(a.running)| == |multiset(b.running)|;
    SumShuffled(Held(a.blockSize), a.running, b.running);
    SumShuffled(Wanted(a.blockSize), a.running, b.running);
  }

  lemma AdmitOneShuffled(a: Machine, b: Machine)
    requires Shuffled(a, b) && a.waiting != []
    ensures Shuffled(AdmitOne(a), AdmitOne(b))
  {
    var r := Enter(a.waiting[0]);
    assert multiset(a.running + [r]) == multiset(b.running + [r]);
    SumShuffled(Held(a.blockSize), a.running + [r], b.running + [r]);
  }

  lemma {:induction false} AdmittedShuffled(a: Machine, b: Machine)
    requires Shuffled(a, b)
    ensures Shuffled(Admitted(a), Admitted(b))
    decreases |a.waiting|
  {
    AdmittedStep(a);
    AdmittedStep(b);
    ShuffledUses(a, b);
    if CanAdmit(a) {
      AdmitOneShuffled(a, b);
      AdmittedShuffled(AdmitOne(a), AdmitOne(b));
    }
  }

  /** The least ranked slot is the same one, wherever it stands. */
  lemma VictimShuffled(rs: seq<Slot>, ts: seq<Slot>)
    requires rs != [] && ts != [] && multiset(rs) == multiset(ts) && DistinctSlots(ts)
    ensures rs[VictimIndex(rs)] == ts[VictimIndex(ts)]
  {
    var v, u := VictimIndex(rs), VictimIndex(ts);
    VictimIsLeast(rs);
    VictimIsLeast(ts);
    assert ts[u] in multiset(rs) && rs[v] in multiset(ts);
    var i :| 0 <= i < |rs| && rs[i] == ts[u];
    var j :| 0 <= j < |ts| && ts[j] == rs[v];
    assert !Below(rs[i].sequence, rs[v].sequence) && !Below(ts[j].sequence, ts[u].sequence);
    assert ts[j].sequence.id == ts[u].sequence.id;
  }

  lemma PreemptOneShuffled(a: Machine, b: Machine)
    requires Shuffled(a, b) && a.running != [] && b.running != [] && DistinctSlots(b.running)
    ensures Shuffled(PreemptOne(a), PreemptOne(b)) && DistinctSlots(PreemptOne(b).running)
  {
    var v, u := VictimIndex(a.running), VictimIndex(b.running);
    VictimShuffled(a.running, b.running);
    assert Victim(a) == Victim(b);
    RestShuffled(a.running, b.running, v, u);
    RemovedDistinct(b.running, u);
    assert PreemptOne(a).running == a.running[..v] + a.running[v + 1..];
    assert PreemptOne(b).running == b.running[..u] + b.running[u + 1..];
  }

  lemma {:induction false} RelievedShuffled(a: Machine, b: Machine)
    requires Shuffled(a, b) && DistinctSlots(b.running)
    ensures Shuffled(Relieved(a), Relieved(b))
    decreases |a.running|
  {
    RelievedStep(a);
    RelievedStep(b);
    ShuffledUses(a, b);
    if MustPreempt(a) {
      PreemptOneShuffled(a, b);
      RelievedShuffled(PreemptOne(a), PreemptOne(b));
    }
  }

  // ---- Admission undoes preemption ----

  lemma MovedLast(rs: seq<Slot>, v: nat)
    requires v < |rs|
    ensures multiset(rs[..v] + rs[v + 1..] + [rs[v]]) == multiset(rs)
  {
    BagWithout(rs, v);
  }

  lemma ReadmitUndoes(m: Machine)
    requires Valid(m) && Settled(m) && m.running != []
    ensures CanAdmit(PreemptOne(m)) && Shuffled(AdmitOne(PreemptOne(m)), m)
  {
    var p, v := PreemptOne(m), VictimIndex(m.running);
    assert m.running[v] in m.running;
    assert Enter(p.waiting[0]) == m.running[v] && p.waiting[1..] == m.waiting;
    MovedLast(m.running, v);
    PreemptOneUses(m);
    SumShuffled(Held(m.blockSize), AdmitOne(p).running, m.running);
  }

  lemma {:induction false} RefillUndoes(m: Machine)
    requires Valid(m) && Settled(m)
    ensures Shuffled(Admitted(Relieved(m)), Admitted(m))
    decreases |m.running|
  {
    RelievedStep(m);
    if MustPreempt(m) {
      var p := PreemptOne(m);
      PreemptOneValid(m);
      PreemptOneSettled(m);
      RefillUndoes(p);
      ReadmitUndoes(m);
      AdmittedStep(p);
      AdmittedShuffled(AdmitOne(p), m);
    }
  }

  /** Were nobody to decode, the next iteration would make the same batch, up to order:
      it readmits whom this one preempted and preempts them again. */
  lemma BatchRepeats(m: Machine)
    requires Valid(m) && Settled(m)
    ensures Shuffled(Batch(Batch(m)), Batch(m))
  {
    var a := Admitted(m);
    AdmittedValid(m);
    SettledThroughAdmission(m);
    AdmittedStep(a);
    RefillUndoes(a);
    DistinctRunning(a);
    RelievedShuffled(Admitted(Relieved(a)), a);
  }

  lemma StalledBatch(model: Model, m: Machine)
    ensures Stalled(m) <==> Batch(m).running == []
    ensures Stalled(m) ==> Step(model, m) == Batch(m)
  {
    PartsMembers(Batch(m).running);
    DecodeBatchRuns(m);
  }

  /** A stall is for good: as long as nothing is submitted, every later iteration leaves
      the machine as the first one did. */
  lemma StallIsPermanent(model: Model, m: Machine, n: nat)
    requires Valid(m) && Settled(m) && Stalled(m) && n >= 1
    ensures StepTimes(model, m, n) == Step(model, m) && Stalled(Step(model, m))
  {
    var b := Batch(m);
    StalledBatch(model, m);
    BatchRepeats(m);
    assert Batch(b).running == [] && Batch(b) == b;
    StalledBatch(model, b);
    Stay(StepOf(model), iset{b}, b, n - 1);
  }

  // ---- A prompt as long as the cache ----

  /** A queue of one unfinished sequence that needs every block. */
  ghost predicate LoneAndFull(m: Machine) {
    && m.maxBatch >= 1 && m.running == [] && |m.waiting| == 1 && !m.waiting[0].IsComplete()
    && Blocks(m.waiting[0].TotalLen(), m.blockSize) == m.numBlocks
    && Blocks(m.waiting[0].TotalLen() + 1, m.blockSize) == m.numBlocks + 1
  }

  lemma FillsTheCache(n: nat, b: pos, k: nat)
    requires n == k * b
    ensures Blocks(n, b) == k && Blocks(n + 1, b) == k + 1
  {
    BlocksFit(n, b, k);
    BlocksFit(n + 1, b, k);
    BlocksSucc(n, b);
    if k > 0 {
      BlocksFit(n, b, k - 1);
      assert n > (k - 1) * b;
    }
  }

  lemma FullPromptEnters(m: Machine)
    requires LoneAndFull(m)
    ensures AdmitCount(m) == 1 && Admitted(m) == AdmitOne(m)
    ensures AdmitOne(m).running == [Enter(m.waiting[0])] && AdmitOne(m).waiting == []
  {
    AdmittedStep(m);
    AdmittedStep(AdmitOne(m));
  }

  lemma FullPromptLeaves(m: Machine, r: Slot)
    requires m.running == [r] && m.waiting == [] && !r.sequence.IsComplete()
    requires Blocks(r.cached, m.blockSize) == m.numBlocks && Blocks(r.cached + 1, m.blockSize) == m.numBlocks + 1
    ensures PreemptCount(m) == 1 && Victims(m, 1) == [r.sequence]
    ensures Relieved(m).running == [] && Relieved(m).waiting == [r.sequence.(state := Preempted)]
  {
    LoneSlot(m);
    RelievedStep(m);
    RelievedStep(PreemptOne(m));
    assert Victims(m, 1) == [Victim(m)] + Victims(PreemptOne(m), 0);
  }

  lemma FullPromptPlan(m: Machine)
    requires LoneAndFull(m)
    ensures var s := m.waiting[0]; var (n, plan) := Schedule(m);
      && plan == Plan([s.id], [], [s.id], [])
      && n.running == [] && n.waiting == [s.(state := Preempted)]
  {
    var s := m.waiting[0];
    FullPromptEnters(m);
    FullPromptLeaves(AdmitOne(m), Enter(s));
    assert m.waiting[..1] == [s];
  }

  lemma FullPromptAgain(model: Model, m: Machine)
    requires LoneAndFull(m)
    ensures Stalled(m) && LoneAndFull(Step(model, m)) && Step(model, m).waiting[0].id == m.waiting[0].id
  {
    FullPromptPlan(m);
    StepCapacity(model, m);
  }

  lemma FullPromptRepeats(model: Model, m: Machine, n: nat)
    requires Valid(m) && Settled(m) && LoneAndFull(m)
    ensures var k, id := StepTimes(model, m, n), m.waiting[0].id;
      HasWork(k) && Schedule(k).1 == Plan([id], [], [id], [])
  {
    FullPromptPlan(m);
    if n >= 1 {
      FullPromptAgain(model, m);
      StallIsPermanent(model, m, n);
      FullPromptPlan(Step(model, m));
    }
  }

  /** Preemption can go on for ever: alone in the engine, a request with a positive limit
      whose prompt exactly fills the cache is admitted and preempted again in every
      iteration. */
  lemma FullPromptNeverDrains(
    model: Model, maxBatch: nat, blockSize: pos, numBlocks: nat, id: SeqId, prompt: seq<TokenId>, maxNew: nat, n: nat)
    requires maxBatch >= 1 && maxNew >= 1 && |prompt| == numBlocks * blockSize
    ensures var m := StepTimes(model, Advance(model, Start(maxBatch, blockSize, numBlocks), Request(id, prompt, maxNew)).machine, n);
      HasWork(m) && Schedule(m).1 == Plan([id], [], [id], [])
  {
    var w := Start(maxBatch, blockSize, numBlocks);
    var m := Advance(model, w, Request(id, prompt, maxNew)).machine;
    StartSound(model, maxBatch, blockSize, numBlocks);
    SubmitSound(model, w, id, prompt, maxNew);
    assert m.waiting == [NewSequence(id, prompt, maxNew)];
    FillsTheCache(|prompt|, blockSize, numBlocks);
    FullPromptRepeats(model, m, n);
  }

  /** So the limit decides: with limit 0 there is no token to find room for. */
  lemma FullPromptDrainsIffNothingAsked(
    model: Model, maxBatch: nat, blockSize: pos, numBlocks: nat, id: SeqId, prompt: seq<TokenId>, maxNew: nat)
    requires maxBatch >= 1 && |prompt| == numBlocks * blockSize
    ensures var m := Advance(model, Start(maxBatch, blockSize, numBlocks), Request(id, prompt, maxNew)).machine;
      (exists n :: !HasWork(StepTimes(model, m, n))) <==> maxNew == 0
  {
    var w, s := Start(maxBatch, blockSize, numBlocks), NewSequence(id, prompt, maxNew);
    var m := Advance(model, w, Request(id, prompt, maxNew)).machine;
    if maxNew == 0 {
      StartSound(model, maxBatch, blockSize, numBlocks);
      SubmitSound(model, w, id, prompt, maxNew);
      assert m.waiting == [s];
      FreshRequestsAreReady(model, m);
      FittingWorkDrains(model, m, Work(model, m));
    } else {
      forall n: nat
        ensures HasWork(StepTimes(model, m, n))
      {
        FullPromptNeverDrains(model, maxBatch, blockSize, numBlocks, id, prompt, maxNew, n);
      }
    }
  }

  lemma BothEnter(m: Machine, head: Sequence, late: Sequence)
    requires m.maxBatch >= 2 && m.running == [] && m.waiting == [head, late]
    requires Blocks(head.TotalLen(), m.blockSize) == m.numBlocks && late.TotalLen() == 0
    ensures AdmitCount(m) == 2 && Admitted(m).running == [Enter(head), Enter(late)] && Admitted(m).waiting == []
    ensures Admitted(m).blockSize == m.blockSize && Admitted(m).numBlocks == m.numBlocks
  {
    var n := AdmitOne(m);
    assert n.running == [Enter(head)] && n.waiting == [late];
    SumOne(Held(m.blockSize), Enter(head));
    AdmittedStep(m);
    AdmittedStep(n);
    AdmittedStep(AdmitOne(n));
  }

  lemma HeadLeaves(m: Machine, r: Slot, q: Slot)
    requires m.running == [r, q] && m.waiting == [] && Below(r.sequence, q.sequence)
    requires !r.sequence.IsComplete() && !q.sequence.IsComplete() && q.cached == 0 && m.numBlocks >= 1
    requires Blocks(r.cached, m.blockSize) == m.numBlocks && Blocks(r.cached + 1, m.blockSize) == m.numBlocks + 1
    ensures PreemptCount(m) == 1 && Victims(m, 1) == [r.sequence]
    ensures Relieved(m).running == [q] && Relieved(m).waiting == [r.sequence.(state := Preempted)]
  {
    var n := PreemptOne(m);
    assert m.running == [r] + [q];
    SumAppend(Held(m.blockSize), [r], q);
    SumAppend(Wanted(m.blockSize), [r], q);
    SumOne(Held(m.blockSize), r);
    SumOne(Wanted(m.blockSize), r);
    VictimIsLeast(m.running);
    assert n.running == [q];
    LoneSlot(n);
    RelievedStep(m);
    RelievedStep(n);
    assert Victims(m, 1) == [Victim(m)] + Victims(n, 0);
  }

  lemma BothThenLate(n: Machine, head: Sequence, late: Sequence)
    requires n.maxBatch >= 2 && n.numBlocks >= 1 && n.running == [] && n.waiting == [head, late]
    requires Blocks(head.TotalLen(), n.blockSize) == n.numBlocks
    requires Blocks(head.TotalLen() + 1, n.blockSize) == n.numBlocks + 1
    requires late.TotalLen() == 0 && Below(head, late) && !head.IsComplete() && !late.IsComplete()
    ensures Schedule(n).1 == Plan([head.id, late.id], [late.id], [head.id], [])
  {
    BothEnter(n, head, late);
    HeadLeaves(Admitted(n), Enter(head), Enter(late));
    LoneParts(Enter(late));
    TwoIds(head, late);
    TwoIds(Enter(head).sequence, late);
    assert n.waiting[..2] == [head, late];
  }

  /** Only a submission can end a stall: a request with an empty prompt needs no block to
      enter, outranks a head with no output and a larger id, and decodes in its blocks. */
  lemma SubmissionCanEndStall(m: Machine, id: SeqId, maxNew: nat)
    requires LoneAndFull(m) && m.maxBatch >= 2 && m.numBlocks >= 1
    requires m.waiting[0].output == [] && id < m.waiting[0].id && maxNew >= 1
    ensures Stalled(m)
    ensures Schedule(Submit(m, NewSequence(id, [], maxNew))).1 == Plan([m.waiting[0].id, id], [id], [m.waiting[0].id], [])
  {
    FullPromptPlan(m);
    assert Submit(m, NewSequence(id, [], maxNew)).waiting == [m.waiting[0], NewSequence(id, [], maxNew)];
    BothThenLate(Submit(m, NewSequence(id, [], maxNew)), m.waiting[0], NewSequence(id, [], maxNew));
  }

  lemma LoneParts(r: Slot)
    requires !r.sequence.IsComplete()
    ensures SlotIds(Unfinished([r])) == [r.sequence.id] && SlotIds(Completed([r])) == []
  {
    assert [r][1..] == [];
  }

  lemma TwoIds(s: Sequence, t: Sequence)
    ensures Ids([s]) == [s.id] && Ids([s, t]) == [s.id, t.id]
  {
    assert [s][1..] == [] && [s, t][1..] == [t] && [t][1..] == [];
  }
}
