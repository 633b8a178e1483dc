/** The full functional specification of one scheduling iteration. */
module ScheduleLaws {
  import opened Arith
  import opened Sums
  import opened Models
  import opened Batching
  import opened BatchingLaws

  /** No two members share a key. */
  ghost predicate UniqueBy<T>(s: seq<T>, key: T -> SeqId) {
    forall i, j :: 0 <= i < j < |s| ==> key(s[i]) != key(s[j])
  }

  ghost predicate NoDuplicates(ids: seq<SeqId>) {
    UniqueBy(ids, (id: SeqId) => id)
  }

  // ---- Distinct ids, index by index ----

  ghost predicate DistinctSlots(rs: seq<Slot>) {
    UniqueBy(rs, (r: Slot) => r.sequence.id)
  }

  lemma {:induction false} SlotBagPair(s: seq<Slot>, i: nat, j: nat)
    requires i < j < |s|
    ensures multiset{s[i].sequence.Core()} + multiset{s[j].sequence.Core()} <= SlotBag(s)
  {
    if i == 0 {
      SlotBagMember(s[1..], s[j].sequence.Core());
      assert s[1..][j - 1] == s[j];
    } else {
      SlotBagPair(s[1..], i - 1, j - 1);
    }
  }

  lemma PairDistinct(b: multiset<Sequence>, c: Sequence, d: Sequence)
    requires Distinct(b) && multiset{c} + multiset{d} <= b
    ensures c.id != d.id
  {
    assert c in multiset{c} + multiset{d} && d in multiset{c} + multiset{d};
    assert (multiset{c} + multiset{c})[c] == 2;
  }

  lemma DistinctRunning(m: Machine)
    requires Distinct(Cores(m))
    ensures DistinctSlots(m.running)
  {
    forall i, j | 0 <= i < j < |m.running|
      ensures m.running[i].sequence.id != m.running[j].sequence.id
    {
      SlotBagPair(m.running, i, j);
      PairDistinct(Cores(m), m.running[i].sequence.Core(), m.running[j].sequence.Core());
    }
  }

  lemma PartsDistinct(x: multiset<Sequence>, y: multiset<Sequence>, c: Sequence, d: Sequence)
    requires Distinct(x + y) && c in x && d in y
    ensures c.id != d.id
  {
    assert (x + y)[c] >= 1 && (x + y)[d] >= 1 && (x + y)[c] == x[c] + y[c];
  }

  lemma DistinctAcross(m: Machine)
    requires Distinct(Cores(m))
    ensures forall i, j :: 0 <= i < |m.waiting| && 0 <= j < |m.running| ==> m.waiting[i].id != m.running[j].sequence.id
  {
    forall i, j | 0 <= i < |m.waiting| && 0 <= j < |m.running|
      ensures m.waiting[i].id != m.running[j].sequence.id
    {
      var c, d := m.waiting[i].Core(), m.running[j].sequence.Core();
      BagMember(m.waiting, c);
      SlotBagMember(m.running, d);
      PartsDistinct(Bag(m.waiting), SlotBag(m.running), c, d);
    }
  }

  // ---- Whom preemption picks ----

  /** The slots whose ids are not in `gone`, in order. */
  function Without(rs: seq<Slot>, gone: set<SeqId>): seq<Slot> {
    if rs == [] then []
    else if rs[0].sequence.id in gone then Without(rs[1..], gone)
    else [rs[0]] + Without(rs[1..], gone)
  }

  /** Victims in the order they land at the front of the queue: the last one first. */
  function Returned(victims: seq<Sequence>): (ss: seq<Sequence>)
    ensures |ss| == |victims|
  {
    if victims == [] then []
    else Returned(victims[1..]) + [victims[0].(state := Preempted)]
  }

  lemma {:induction false} WithoutNone(rs: seq<Slot>, gone: set<SeqId>)
    requires forall i :: 0 <= i < |rs| ==> rs[i].sequence.id !in gone
    ensures Without(rs, gone) == rs
  {
    if rs != [] {
      WithoutNone(rs[1..], gone);
    }
  }

  lemma {:induction false} WithoutOne(rs: seq<Slot>, v: nat)
    requires v < |rs| && DistinctSlots(rs)
    ensures Without(rs, {rs[v].sequence.id}) == rs[..v] + rs[v + 1..]
  {
    if v == 0 {
      WithoutNone(rs[1..], {rs[0].sequence.id});
    } else {
      WithoutOne(rs[1..], v - 1);
      assert rs[..v] + rs[v + 1..] == [rs[0]] + (rs[1..][..v - 1] + rs[1..][v..]);
    }
  }

  lemma {:induction false} WithoutBoth(rs: seq<Slot>, a: set<SeqId>, b: set<SeqId>)
    ensures Without(Without(rs, a), b) == Without(rs, a + b)
  {
    if rs != [] {
      WithoutBoth(rs[1..], a, b);
    }
  }

  lemma RemovedDistinct(rs: seq<Slot>, v: nat)
    requires v < |rs| && DistinctSlots(rs)
    ensures DistinctSlots(rs[..v] + rs[v + 1..])
    ensures forall r :: r in rs[..v] + rs[v + 1..] ==> r in rs && r.sequence.id != rs[v].sequence.id
  {
    var left := rs[..v] + rs[v + 1..];
    assert forall i :: 0 <= i < |left| ==> left[i] == rs[if i < v then i else i + 1];
  }

  lemma PreemptOneDistinct(m: Machine)
    requires m.running != [] && DistinctSlots(m.running)
    ensures DistinctSlots(PreemptOne(m).running)
    ensures forall r :: r in PreemptOne(m).running ==> r in m.running && Below(Victim(m), r.sequence)
  {
    var v := VictimIndex(m.running);
    RemovedDistinct(m.running, v);
    VictimIsLeast(m.running);
    forall r | r in PreemptOne(m).running
      ensures Below(Victim(m), r.sequence)
    {
      var i :| 0 <= i < |m.running| && m.running[i] == r;
      assert !Below(m.running[i].sequence, m.running[v].sequence);
    }
  }

  ghost function IdSet(ss: seq<Sequence>): set<SeqId> {
    if ss == [] then {} else {ss[0].id} + IdSet(ss[1..])
  }

  lemma WithoutStep(rs: seq<Slot>, v: nat, gone: set<SeqId>)
    requires v < |rs| && DistinctSlots(rs)
    ensures Without(rs[..v] + rs[v + 1..], gone) == Without(rs, {rs[v].sequence.id} + gone)
  {
    WithoutOne(rs, v);
    WithoutBoth(rs, {rs[v].sequence.id}, gone);
  }

  lemma IdSetStep(ss: seq<Sequence>)
    requires ss != []
    ensures IdSet(ss) == {ss[0].id} + IdSet(ss[1..])
  {
  }

  lemma {:induction false} SurvivorsInOrder(m: Machine, k: nat)
    requires k <= |m.running| && DistinctSlots(m.running)
    ensures PreemptTimes(m, k).running == Without(m.running, IdSet(Victims(m, k)))
    decreases k
  {
    if k == 0 {
      WithoutNone(m.running, {});
    } else {
      var v, victims := VictimIndex(m.running), Victims(m, k);
      PreemptOneDistinct(m);
      SurvivorsInOrder(PreemptOne(m), k - 1);
      assert victims[0] == m.running[v].sequence && victims[1..] == Victims(PreemptOne(m), k - 1);
      IdSetStep(victims);
      WithoutStep(m.running, v, IdSet(victims[1..]));
    }
  }

  lemma {:induction false} VictimsStacked(m: Machine, k: nat)
    requires k <= |m.running|
    ensures PreemptTimes(m, k).waiting == Returned(Victims(m, k)) + m.waiting
    ensures PreemptTimes(m, k) == m.(running := PreemptTimes(m, k).running, waiting := PreemptTimes(m, k).waiting)
    decreases k
  {
    if k > 0 {
      VictimsStacked(PreemptOne(m), k - 1);
      assert Victims(m, k)[1..] == Victims(PreemptOne(m), k - 1);
    }
  }

  lemma {:induction false} SurvivorsWereRunning(m: Machine, k: nat)
    requires k <= |m.running|
    ensures forall r :: r in PreemptTimes(m, k).running ==> r in m.running
    ensures forall s :: s in Victims(m, k) ==> exists r :: r in m.running && r.sequence == s
    decreases k
  {
    if k > 0 {
      var n := PreemptOne(m);
      SurvivorsWereRunning(n, k - 1);
      assert forall r :: r in n.running ==> r in m.running;
      assert m.running[VictimIndex(m.running)] in m.running;
      forall s | s in Victims(m, k)
        ensures exists r :: r in m.running && r.sequence == s
      {
        if s != Victim(m) {
          assert s in Victims(n, k - 1);
        }
      }
    }
  }

  lemma {:induction false} VictimsBelowSurvivors(m: Machine, k: nat)
    requires k <= |m.running| && DistinctSlots(m.running)
    ensures forall s, r :: s in Victims(m, k) && r in PreemptTimes(m, k).running ==> Below(s, r.sequence)
    decreases k
  {
    if k > 0 {
      var n := PreemptOne(m);
      var victims, left := Victims(n, k - 1), PreemptTimes(n, k - 1).running;
      PreemptOneDistinct(m);
      VictimsBelowSurvivors(n, k - 1);
      SurvivorsWereRunning(n, k - 1);
      assert forall r :: r in left ==> r in n.running;
      assert forall s :: s in [Victim(m)] + victims ==> s == Victim(m) || s in victims;
    }
  }

  lemma {:induction false} VictimsAscend(m: Machine, k: nat)
    requires k <= |m.running| && DistinctSlots(m.running)
    ensures forall i, j :: 0 <= i < j < k ==> Below(Victims(m, k)[i], Victims(m, k)[j])
    decreases k
  {
    if k > 0 {
      var n, victims := PreemptOne(m), Victims(m, k);
      PreemptOneDistinct(m);
      VictimsAscend(n, k - 1);
      SurvivorsWereRunning(n, k - 1);
      forall i, j | 0 <= i < j < k
        ensures Below(victims[i], victims[j])
      {
        assert victims[j] == Victims(n, k - 1)[j - 1] && victims[j] in Victims(n, k - 1);
        if i > 0 {
          assert victims[i] == Victims(n, k - 1)[i - 1];
        }
      }
    }
  }

  /** Preempting `k` times takes the `k` lowest ranked running sequences, lowest first,
      leaves the others in batch order, and stacks the victims on the waiting queue. */
  lemma VictimsRanked(m: Machine, k: nat)
    requires k <= |m.running| && DistinctSlots(m.running)
    ensures var victims, left := Victims(m, k), PreemptTimes(m, k);
      && (forall i, j :: 0 <= i < j < k ==>
            |victims[i].output| < |victims[j].output| || (|victims[i].output| == |victims[j].output| && victims[i].id > victims[j].id))
      && (forall s, r :: s in victims && r in left.running ==>
            |s.output| < |r.sequence.output| || (|s.output| == |r.sequence.output| && s.id > r.sequence.id))
      && (forall s :: s in victims ==> exists r :: r in m.running && r.sequence == s)
      && left.running == Without(m.running, IdSet(victims))
      && left == m.(running := left.running, waiting := Returned(victims) + m.waiting)
  {
    SurvivorsInOrder(m, k);
    VictimsStacked(m, k);
    SurvivorsWereRunning(m, k);
    VictimsBelowSurvivors(m, k);
    VictimsAscend(m, k);
  }

  /** The number of preemptions is the least one whose victims' removal lets every
      remaining unfinished sequence take one more token. */
  lemma {:induction false} PreemptionMinimal(m: Machine)
    ensures forall j :: 0 <= j < PreemptCount(m) ==> MustPreempt(PreemptTimes(m, j))
    ensures !MustPreempt(Relieved(m))
    decreases |m.running|
  {
    if MustPreempt(m) {
      PreemptionMinimal(PreemptOne(m));
      RelievedStep(m);
      forall j | 0 <= j < PreemptCount(m)
        ensures MustPreempt(PreemptTimes(m, j))
      {
        if j > 0 {
          assert PreemptTimes(m, j) == PreemptTimes(PreemptOne(m), j - 1);
        }
      }
    }
  }

  // ---- The whole iteration ----

  lemma ScheduleValid(m: Machine)
    requires Valid(m)
    ensures Valid(Batch(m)) && Cores(Batch(m)) == Cores(m) && !MustPreempt(Batch(m))
    ensures Schedule(m).0 == Retire(Commit(Batch(m)))
    ensures Valid(Schedule(m).0)
    ensures Cores(m) == Cores(Schedule(m).0) + SlotBag(Completed(Batch(m).running))
  {
    AdmittedValid(m);
    RelievedValid(Admitted(m));
    CommitValid(Batch(m));
    RetireValid(Commit(Batch(m)));
    GrownCompleted(Batch(m).running);
  }

  lemma {:induction false} GrownCompleted(rs: seq<Slot>)
    ensures Completed(Grown(rs)) == Completed(rs)
    ensures Unfinished(Grown(rs)) == Grown(Unfinished(rs))
  {
    if rs != [] {
      GrownCompleted(rs[1..]);
      assert Grown(rs)[1..] == Grown(rs[1..]);
    }
  }

  lemma IdsShuffle(x: SeqId, u: seq<SeqId>, c: seq<SeqId>)
    ensures multiset{x} + (multiset(u) + multiset(c)) == multiset([x] + u) + multiset(c)
    ensures multiset{x} + (multiset(u) + multiset(c)) == multiset(u) + multiset([x] + c)
    ensures multiset(u) + multiset(c) + multiset{x} == multiset(u) + multiset([x] + c)
  {
  }

  lemma {:induction false} PartsIds(rs: seq<Slot>)
    ensures multiset(SlotIds(rs)) == multiset(SlotIds(Unfinished(rs))) + multiset(SlotIds(Completed(rs)))
  {
    if rs != [] {
      PartsIds(rs[1..]);
      IdsShuffle(rs[0].sequence.id, SlotIds(Unfinished(rs[1..])), SlotIds(Completed(rs[1..])));
    }
  }

  lemma {:induction false} SlotIdsConcat(s: seq<Slot>, t: seq<Slot>)
    ensures SlotIds(s + t) == SlotIds(s) + SlotIds(t)
  {
    if s == [] {
      assert s + t == t;
    } else {
      assert (s + t)[1..] == s[1..] + t;
      SlotIdsConcat(s[1..], t);
    }
  }

  lemma RemovedIds(rs: seq<Slot>, v: nat)
    requires v < |rs|
    ensures multiset(SlotIds(rs)) == multiset(SlotIds(rs[..v] + rs[v + 1..])) + multiset{rs[v].sequence.id}
  {
    SplitAt(rs, v);
    SlotIdsConcat(rs[..v], [rs[v]] + rs[v + 1..]);
    SlotIdsConcat([rs[v]], rs[v + 1..]);
    SlotIdsConcat(rs[..v], rs[v + 1..]);
    assert SlotIds([rs[v]]) == [rs[v].sequence.id];
  }

  lemma PreemptOneIds(m: Machine)
    requires m.running != []
    ensures multiset(SlotIds(m.running)) == multiset(SlotIds(PreemptOne(m).running)) + multiset{Victim(m).id}
  {
    RemovedIds(m.running, VictimIndex(m.running));
  }

  /** How often an id occurs. */
  function Occurs(ids: seq<SeqId>, x: SeqId): nat {
    multiset(ids)[x]
  }

  lemma PreemptOneOccurs(m: Machine, x: SeqId)
    requires m.running != []
    ensures Occurs(SlotIds(m.running), x) == Occurs(SlotIds(PreemptOne(m).running), x) + (if x == Victim(m).id then 1 else 0)
  {
    PreemptOneIds(m);
  }

  lemma IdsConsOccurs(s: Sequence, ss: seq<Sequence>, x: SeqId)
    ensures Occurs(Ids([s] + ss), x) == Occurs(Ids(ss), x) + (if x == s.id then 1 else 0)
  {
    assert ([s] + ss)[1..] == ss;
  }

  lemma PreemptTimesStep(m: Machine, k: nat)
    requires 0 < k <= |m.running|
    ensures PreemptTimes(m, k) == PreemptTimes(PreemptOne(m), k - 1)
    ensures Victims(m, k) == [Victim(m)] + Victims(PreemptOne(m), k - 1)
  {
  }

  lemma {:induction false} VictimOccurs(m: Machine, k: nat, x: SeqId)
    requires k <= |m.running|
    ensures Occurs(SlotIds(m.running), x) == Occurs(SlotIds(PreemptTimes(m, k).running), x) + Occurs(Ids(Victims(m, k)), x)
    decreases k
  {
    if k == 0 {
      assert Ids(Victims(m, 0)) == [];
    } else {
      VictimOccursStep(m, k, x);
      VictimOccurs(PreemptOne(m), k - 1, x);
    }
  }

  lemma VictimOccursStep(m: Machine, k: nat, x: SeqId)
    requires 0 < k <= |m.running|
    ensures PreemptTimes(m, k) == PreemptTimes(PreemptOne(m), k - 1)
    ensures Occurs(SlotIds(m.running), x) + Occurs(Ids(Victims(PreemptOne(m), k - 1)), x)
         == Occurs(SlotIds(PreemptOne(m).running), x) + Occurs(Ids(Victims(m, k)), x)
  {
    var rest := Victims(PreemptOne(m), k - 1);
    PreemptTimesStep(m, k);
    PreemptOneOccurs(m, x);
    IdsConsOccurs(Victim(m), rest, x);
  }

  lemma VictimIds(m: Machine, k: nat)
    requires k <= |m.running|
    ensures multiset(SlotIds(m.running)) == multiset(SlotIds(PreemptTimes(m, k).running)) + multiset(Ids(Victims(m, k)))
  {
    var all, left, gone := SlotIds(m.running), SlotIds(PreemptTimes(m, k).running), Ids(Victims(m, k));
    forall x
      ensures Occurs(all, x) == Occurs(left, x) + Occurs(gone, x)
    {
      VictimOccurs(m, k, x);
    }
    OccursEqual(all, left, gone);
  }

  lemma OccursEqual(all: seq<SeqId>, left: seq<SeqId>, gone: seq<SeqId>)
    requires forall x :: Occurs(all, x) == Occurs(left, x) + Occurs(gone, x)
    ensures multiset(all) == multiset(left) + multiset(gone)
  {
    assert forall x :: multiset(all)[x] == (multiset(left) + multiset(gone))[x] by {
      assert forall x :: Occurs(all, x) == multiset(all)[x];
    }
  }

  lemma {:induction false} GrownIds(rs: seq<Slot>)
    ensures SlotIds(Grown(rs)) == SlotIds(rs)
  {
    if rs != [] {
      GrownIds(rs[1..]);
      assert Grown(rs)[1..] == Grown(rs[1..]);
    }
  }

  lemma {:induction false} AdmittedIds(m: Machine, k: nat)
    requires k <= |m.waiting|
    ensures SlotIds(AdmitTimes(m, k).running) == SlotIds(m.running) + Ids(m.waiting[..k])
    ensures AdmitTimes(m, k).waiting == m.waiting[k..]
    decreases k
  {
    if k > 0 {
      AdmittedIds(AdmitOne(m), k - 1);
      SlotIdsConcat(m.running, [Enter(m.waiting[0])]);
      assert m.waiting[..k][1..] == m.waiting[1..][..k - 1];
      assert SlotIds([Enter(m.waiting[0])]) == [m.waiting[0].id];
    }
  }

  /** The batch the iteration leaves is its decode batch, in order. */
  lemma DecodeBatchRuns(m: Machine)
    ensures Schedule(m).1.decode == SlotIds(Schedule(m).0.running)
    ensures Schedule(m).0.running == Grown(Unfinished(Batch(m).running))
  {
    GrownCompleted(Batch(m).running);
    GrownIds(Unfinished(Batch(m).running));
  }

  /** The old batch and the admitted split, without overlap, into the decode batch, the
      preempted and the finished. */
  lemma PlanSplitsBatch(m: Machine)
    requires Valid(m)
    ensures var plan := Schedule(m).1;
      && multiset(SlotIds(m.running) + plan.admitted) == multiset(plan.decode + plan.preempted + plan.finished)
      && NoDuplicates(plan.decode + plan.preempted + plan.finished)
  {
    var m1, b, plan := Admitted(m), Batch(m), Schedule(m).1;
    AdmittedIds(m, AdmitCount(m));
    VictimIds(m1, PreemptCount(m1));
    PartsIds(b.running);
    var before, after := SlotIds(m.running) + plan.admitted, plan.decode + plan.preempted + plan.finished;
    assert SlotIds(m1.running) == before;
    Together(plan.decode, plan.preempted, plan.finished);
    assert multiset(before) == multiset(after);
    AdmittedValid(m);
    RunningNoDuplicates(m1);
    SameMultisetNoDuplicates(before, after);
  }

  lemma Together(d: seq<SeqId>, p: seq<SeqId>, f: seq<SeqId>)
    ensures multiset(d + p + f) == multiset(d) + multiset(f) + multiset(p)
  {
  }

  lemma RunningNoDuplicates(m: Machine)
    requires Valid(m)
    ensures NoDuplicates(SlotIds(m.running))
  {
    DistinctRunning(m);
    SlotIdsAt(m.running);
  }

  /** The admitted are a prefix of the queue, and the new queue is the preempted, last
      one first, before what was not admitted. */
  lemma QueueAfterStep(m: Machine)
    ensures var (n, plan) := Schedule(m); var a, p := |plan.admitted|, |plan.preempted|;
      && a <= |m.waiting| && plan.admitted == Ids(m.waiting[..a])
      && |n.waiting| == p + |m.waiting| - a
      && n.waiting[p..] == m.waiting[a..]
      && (forall i :: 0 <= i < p ==>
            n.waiting[i].id == plan.preempted[p - 1 - i] && n.waiting[i].state == Preempted)
  {
    var a, m1 := AdmitCount(m), Admitted(m);
    var victims := Victims(m1, PreemptCount(m1));
    AdmittedIds(m, a);
    VictimsStacked(m1, PreemptCount(m1));
    ReturnedIds(victims);
    IdsAt(victims);
    assert Schedule(m).0.waiting == Returned(victims) + m.waiting[a..];
  }

  /** The preempted of a plan are the least progressed of the batch, least first: of any two
      victims the earlier, and of a victim and a survivor the victim, has less output, or as
      much and the larger id. */
  lemma PreemptsLeastProgressed(m: Machine)
    requires Valid(m)
    ensures var m1, k := Admitted(m), |Schedule(m).1.preempted|; var left := PreemptTimes(m1, k);
      && k <= |m1.running| && Schedule(m).1.preempted == Ids(Victims(m1, k))
      && left == Batch(m) && left.running == Without(m1.running, IdSet(Victims(m1, k)))
      && (forall i, j :: 0 <= i < j < k ==>
            var s, t := Victims(m1, k)[i], Victims(m1, k)[j];
            |s.output| < |t.output| || (|s.output| == |t.output| && s.id > t.id))
      && (forall s, r :: s in Victims(m1, k) && r in left.running ==>
            |s.output| < |r.sequence.output| || (|s.output| == |r.sequence.output| && s.id > r.sequence.id))
  {
    AdmittedValid(m);
    DistinctRunning(Admitted(m));
    VictimsRanked(Admitted(m), PreemptCount(Admitted(m)));
  }

  /** And they are the fewest whose removal lets every remaining unfinished sequence take a
      token: with any fewer the batch would need more blocks than there are. */
  lemma PreemptsForRoom(m: Machine)
    ensures var m1, k := Admitted(m), |Schedule(m).1.preempted|;
      && k <= |m1.running|
      && (forall j :: 0 <= j < k ==> BlocksAfterOneMore(PreemptTimes(m1, j)) > m.numBlocks)
      && (Batch(m).running != [] ==> BlocksAfterOneMore(Batch(m)) <= m.numBlocks)
  {
    var m1 := Admitted(m);
    AdmittedShape(m, AdmitCount(m));
    PreemptionMinimal(m1);
    forall j | 0 <= j <= PreemptCount(m1)
      ensures MustPreempt(PreemptTimes(m1, j)) <==>
        PreemptTimes(m1, j).running != [] && BlocksAfterOneMore(PreemptTimes(m1, j)) > m.numBlocks
    {
      VictimsStacked(m1, j);
      MustPreemptMeans(PreemptTimes(m1, j));
    }
  }

  /** The blocks the batch holds once every member below its limit has cached one more token. */
  function BlocksAfterOneMore(m: Machine): nat {
    Sum((r: Slot) => Blocks(r.cached + (if |r.sequence.output| < r.sequence.maxNew then 1 else 0), m.blockSize), m.running)
  }

  lemma MustPreemptMeans(m: Machine)
    ensures Used(m) + Demand(m) == BlocksAfterOneMore(m)
    ensures MustPreempt(m) <==> m.running != [] && BlocksAfterOneMore(m) > m.numBlocks
  {
    var next := (r: Slot) => Blocks(r.cached + (if |r.sequence.output| < r.sequence.maxNew then 1 else 0), m.blockSize);
    forall r | r in m.running
      ensures next(r) == Held(m.blockSize)(r) + Wanted(m.blockSize)(r)
    {
      BlocksSucc(r.cached, m.blockSize);
    }
    SumSplit(Held(m.blockSize), Wanted(m.blockSize), next, m.running);
  }

  /** `x` comes before `y` in `ids`. */
  ghost predicate Precedes(ids: seq<SeqId>, x: SeqId, y: SeqId) {
    exists a, b :: 0 <= a < b < |ids| && ids[a] == x && ids[b] == y
  }

  /** Both lists a plan makes of the batch are in batch order: of any two members, both at
      their limit or both below it, the earlier is finished, or decodes, before the later. */
  lemma PlanKeepsBatchOrder(m: Machine, i: nat, j: nat)
    requires i < j < |Batch(m).running|
    ensures var r, q := Batch(m).running[i].sequence, Batch(m).running[j].sequence; var plan := Schedule(m).1;
      && (|r.output| >= r.maxNew && |q.output| >= q.maxNew ==> Precedes(plan.finished, r.id, q.id))
      && (|r.output| < r.maxNew && |q.output| < q.maxNew ==> Precedes(plan.decode, r.id, q.id))
  {
    var rs := Batch(m).running;
    SplitAtTwo(rs, i, j);
    PartsSplit(rs[..i], rs[i], rs[i + 1..j], rs[j], rs[j + 1..]);
    if rs[i].sequence.IsComplete() && rs[j].sequence.IsComplete() {
      IdsPrecede(Completed(rs[..i]), rs[i], Completed(rs[i + 1..j]), rs[j], Completed(rs[j + 1..]));
    } else if !rs[i].sequence.IsComplete() && !rs[j].sequence.IsComplete() {
      IdsPrecede(Unfinished(rs[..i]), rs[i], Unfinished(rs[i + 1..j]), rs[j], Unfinished(rs[j + 1..]));
    }
  }

  lemma OnePart(r: Slot, rs: seq<Slot>)
    ensures Completed([r] + rs) == (if r.sequence.IsComplete() then [r] else []) + Completed(rs)
    ensures Unfinished([r] + rs) == (if r.sequence.IsComplete() then [] else [r]) + Unfinished(rs)
  {
    assert ([r] + rs)[1..] == rs;
  }

  lemma SplitAtTwo<T>(s: seq<T>, i: nat, j: nat)
    requires i < j < |s|
    ensures s == s[..i] + ([s[i]] + (s[i + 1..j] + ([s[j]] + s[j + 1..])))
  {
  }

  /** Both filters, taken apart at two members. */
  lemma PartsSplit(before: seq<Slot>, r: Slot, between: seq<Slot>, q: Slot, after: seq<Slot>)
    ensures var rs := before + ([r] + (between + ([q] + after)));
      && (r.sequence.IsComplete() && q.sequence.IsComplete() ==>
            Completed(rs) == Completed(before) + ([r] + (Completed(between) + ([q] + Completed(after)))))
      && (!r.sequence.IsComplete() && !q.sequence.IsComplete() ==>
            Unfinished(rs) == Unfinished(before) + ([r] + (Unfinished(between) + ([q] + Unfinished(after)))))
  {
    var back := [q] + after;
    var middle := between + back;
    CompletedConcat(before, [r] + middle);
    UnfinishedConcat(before, [r] + middle);
    OnePart(r, middle);
    CompletedConcat(between, back);
    UnfinishedConcat(between, back);
    OnePart(q, after);
  }

  lemma IdsPrecede(before: seq<Slot>, r: Slot, between: seq<Slot>, q: Slot, after: seq<Slot>)
    ensures Precedes(SlotIds(before + ([r] + (between + ([q] + after)))), r.sequence.id, q.sequence.id)
  {
    var all := before + ([r] + (between + ([q] + after)));
    var a, b := |before|, |before| + 1 + |between|;
    assert all[a] == r && all[b] == q;
    SlotIdsAt(all);
    assert SlotIds(all)[a] == r.sequence.id && SlotIds(all)[b] == q.sequence.id;
  }

  lemma {:induction false} ReturnedIds(victims: seq<Sequence>)
    ensures forall i :: 0 <= i < |victims| ==>
      Returned(victims)[i] == victims[|victims| - 1 - i].(state := Preempted)
  {
    if victims != [] {
      ReturnedIds(victims[1..]);
    }
  }

  lemma {:induction false} NoDuplicatesOnce(ids: seq<SeqId>)
    ensures NoDuplicates(ids) <==> forall x :: multiset(ids)[x] <= 1
  {
    if ids != [] {
      var rest := ids[1..];
      assert ids == [ids[0]] + rest;
      NoDuplicatesOnce(rest);
      assert forall i :: 0 <= i < |rest| ==> rest[i] == ids[i + 1];
      assert multiset(ids)[ids[0]] == multiset(rest)[ids[0]] + 1;
      if NoDuplicates(ids) {
        assert NoDuplicates(rest);
        assert ids[0] !in rest;
      }
      if forall x :: multiset(ids)[x] <= 1 {
        assert forall x :: multiset(rest)[x] <= multiset(ids)[x];
        assert ids[0] !in rest;
        assert NoDuplicates(ids);
      }
    }
  }

  lemma SameMultisetNoDuplicates(s: seq<SeqId>, t: seq<SeqId>)
    requires NoDuplicates(s) && multiset(s) == multiset(t)
    ensures NoDuplicates(t)
  {
    NoDuplicatesOnce(s);
    NoDuplicatesOnce(t);
  }
}
