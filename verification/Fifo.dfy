/** Fairness of admission: sequences enter the batch for the first time in the order
    they were submitted, however often they are preempted afterwards. */
module Fifo {
  import opened Arith
  import opened Sums
  import opened Models
  import opened Batching
  import opened BatchingLaws
  import opened ScheduleLaws
  import opened Runs

  /** The ids in a queue that were never admitted. */
  function FirstTimers(ss: seq<Sequence>): seq<SeqId> {
    if ss == [] then []
    else if ss[0].state == Waiting then [ss[0].id] + FirstTimers(ss[1..])
    else FirstTimers(ss[1..])
  }

  lemma {:induction false} FirstTimersConcat(s: seq<Sequence>, t: seq<Sequence>)
    ensures FirstTimers(s + t) == FirstTimers(s) + FirstTimers(t)
  {
    if s == [] {
      assert s + t == t;
    } else {
      assert (s + t)[1..] == s[1..] + t;
      FirstTimersConcat(s[1..], t);
    }
  }

  lemma {:induction false} NoFirstTimers(ss: seq<Sequence>)
    requires forall s :: s in ss ==> s.state == Preempted
    ensures FirstTimers(ss) == []
  {
    if ss != [] {
      assert ss[0] in ss;
      NoFirstTimers(ss[1..]);
    }
  }

  lemma {:induction false} EnteredKeeps(entered: seq<SeqId>, admitted: seq<SeqId>)
    ensures forall id :: id in entered ==> id in Entered(entered, admitted)
    ensures forall id :: id in admitted ==> id in Entered(entered, admitted)
    decreases |admitted|
  {
    if admitted != [] {
      var e := if admitted[0] in entered then entered else entered + [admitted[0]];
      EnteredKeeps(e, admitted[1..]);
      assert admitted[0] in e;
    }
  }

  /** Of the admitted, exactly those never admitted before are new. */
  lemma {:induction false} EnteredFirstTimers(entered: seq<SeqId>, ss: seq<Sequence>)
    requires forall s :: s in ss ==> s.state == Waiting || (s.state == Preempted && s.id in entered)
    requires NoDuplicates(entered + FirstTimers(ss))
    ensures Entered(entered, Ids(ss)) == entered + FirstTimers(ss)
    decreases |ss|
  {
    if ss != [] {
      var all := entered + FirstTimers(ss);
      assert ss[0] in ss;
      if ss[0].state == Waiting {
        assert all[|entered|] == ss[0].id;
        assert ss[0].id !in entered by {
          assert forall i :: 0 <= i < |entered| ==> all[i] == entered[i];
        }
        assert entered + [ss[0].id] + FirstTimers(ss[1..]) == all;
        EnteredFirstTimers(entered + [ss[0].id], ss[1..]);
      } else {
        EnteredFirstTimers(entered, ss[1..]);
      }
    }
  }

  /** The queue is a block of preempted sequences before those never admitted. */
  ghost predicate Layered(ss: seq<Sequence>) {
    forall i, j :: 0 <= i < j < |ss| && ss[j].state == Preempted ==> ss[i].state == Preempted
  }

  ghost predicate KnownQueue(ss: seq<Sequence>, entered: seq<SeqId>) {
    forall s :: s in ss ==> s.state == Waiting || (s.state == Preempted && s.id in entered)
  }

  ghost predicate KnownBatch(rs: seq<Slot>, entered: seq<SeqId>) {
    forall r :: r in rs ==> r.sequence.id in entered
  }

  ghost predicate Orderly(w: World) {
    && w.submitted == w.entered + FirstTimers(w.machine.waiting)
    && NoDuplicates(w.submitted)
    && (forall id :: id in w.submitted ==> id in w.requests)
    && KnownQueue(w.machine.waiting, w.entered)
    && KnownBatch(w.machine.running, w.entered)
    && Layered(w.machine.waiting)
  }

  lemma RequestOrderly(model: Model, w: World, e: Event)
    requires Orderly(w) && e.Request? && e.id !in w.requests
    ensures Orderly(Advance(model, w, e))
  {
    var s := NewSequence(e.id, e.prompt, e.maxNew);
    FirstTimersConcat(w.machine.waiting, [s]);
    assert FirstTimers([s]) == [s.id];
    assert w.entered + (FirstTimers(w.machine.waiting) + [s.id]) == w.submitted + [s.id];
  }

  lemma ReturnedPreempted(victims: seq<Sequence>)
    ensures forall s :: s in Returned(victims) ==> s.state == Preempted && exists v :: v in victims && v.id == s.id
  {
    ReturnedIds(victims);
    forall s | s in Returned(victims)
      ensures s.state == Preempted && exists v :: v in victims && v.id == s.id
    {
      var i :| 0 <= i < |victims| && Returned(victims)[i] == s;
      assert victims[|victims| - 1 - i] in victims;
    }
  }

  lemma AdmittedBatchKnown(m: Machine, entered: seq<SeqId>)
    requires KnownBatch(m.running, entered)
    ensures KnownBatch(Admitted(m).running, Entered(entered, Schedule(m).1.admitted))
  {
    var a, admitted := AdmitCount(m), Schedule(m).1.admitted;
    AdmittedShape(m, a);
    EnteredKeeps(entered, admitted);
    IdsAt(m.waiting[..a]);
    forall r | r in Admitted(m).running
      ensures r.sequence.id in Entered(entered, admitted)
    {
      var i :| 0 <= i < |Admitted(m).running| && Admitted(m).running[i] == r;
      if i < |m.running| {
        assert r == m.running[i] && r in m.running;
      } else {
        assert r == Enter(m.waiting[i - |m.running|]);
        assert admitted[i - |m.running|] == r.sequence.id;
      }
    }
  }

  lemma StepBatchKnown(model: Model, m: Machine, entered: seq<SeqId>)
    requires KnownBatch(Admitted(m).running, entered)
    ensures KnownBatch(Step(model, m).running, entered)
    ensures forall v :: v in Victims(Admitted(m), PreemptCount(Admitted(m))) ==> v.id in entered
  {
    var m1, n := Admitted(m), Schedule(m).0;
    var rs := Unfinished(Batch(m).running);
    SurvivorsWereRunning(m1, PreemptCount(m1));
    PartsMembers(Batch(m).running);
    DecodeBatchRuns(m);
    GrownAt(rs);
    DecodedAt(model, n.running);
    forall r | r in Step(model, m).running
      ensures r.sequence.id in entered
    {
      var i :| 0 <= i < |n.running| && DecodedAll(model, n.running)[i] == r;
      assert rs[i] in rs && rs[i] in m1.running;
    }
  }

  lemma StepQueue(model: Model, m: Machine)
    ensures var m1 := Admitted(m);
      Step(model, m).waiting == Returned(Victims(m1, PreemptCount(m1))) + m.waiting[AdmitCount(m)..]
  {
    AdmittedIds(m, AdmitCount(m));
    VictimsStacked(Admitted(m), PreemptCount(Admitted(m)));
  }

  lemma SplitQueue(w: World, a: nat)
    requires Orderly(w) && a <= |w.machine.waiting|
    ensures var front, back := w.machine.waiting[..a], w.machine.waiting[a..];
      && FirstTimers(w.machine.waiting) == FirstTimers(front) + FirstTimers(back)
      && NoDuplicates(w.entered + FirstTimers(front))
      && w.submitted == (w.entered + FirstTimers(front)) + FirstTimers(back)
      && KnownQueue(front, w.entered) && KnownQueue(back, w.entered) && Layered(back)
  {
    var front, back := w.machine.waiting[..a], w.machine.waiting[a..];
    assert w.machine.waiting == front + back;
    FirstTimersConcat(front, back);
    var part := w.entered + FirstTimers(front);
    assert w.submitted == part + FirstTimers(back);
    assert forall i :: 0 <= i < |part| ==> part[i] == w.submitted[i];
  }

  lemma IterateEnters(w: World)
    requires Orderly(w)
    ensures var a := AdmitCount(w.machine); var entered := Entered(w.entered, Schedule(w.machine).1.admitted);
      && entered == w.entered + FirstTimers(w.machine.waiting[..a])
      && w.submitted == entered + FirstTimers(w.machine.waiting[a..])
      && KnownQueue(w.machine.waiting[a..], entered)
  {
    var a := AdmitCount(w.machine);
    SplitQueue(w, a);
    EnteredFirstTimers(w.entered, w.machine.waiting[..a]);
    EnteredKeeps(w.entered, Ids(w.machine.waiting[..a]));
  }

  lemma IterateQueue(model: Model, w: World)
    requires Orderly(w)
    ensures var v := Advance(model, w, Iterate);
      && KnownBatch(v.machine.running, v.entered)
      && KnownQueue(v.machine.waiting, v.entered) && Layered(v.machine.waiting)
      && FirstTimers(v.machine.waiting) == FirstTimers(w.machine.waiting[AdmitCount(w.machine)..])
  {
    var m, a := w.machine, AdmitCount(w.machine);
    var entered := Entered(w.entered, Schedule(m).1.admitted);
    var victims := Victims(Admitted(m), PreemptCount(Admitted(m)));
    SplitQueue(w, a);
    IterateEnters(w);
    AdmittedBatchKnown(m, w.entered);
    StepBatchKnown(model, m, entered);
    ReturnedPreempted(victims);
    StepQueue(model, m);
    NewQueueOrderly(Returned(victims), m.waiting[a..], entered);
  }

  lemma IterateOrderly(model: Model, w: World)
    requires Orderly(w)
    ensures Orderly(Advance(model, w, Iterate))
  {
    IterateEnters(w);
    IterateQueue(model, w);
  }

  lemma NewQueueOrderly(returned: seq<Sequence>, back: seq<Sequence>, entered: seq<SeqId>)
    requires forall s :: s in returned ==> s.state == Preempted && s.id in entered
    requires KnownQueue(back, entered) && Layered(back)
    ensures KnownQueue(returned + back, entered) && Layered(returned + back)
    ensures FirstTimers(returned + back) == FirstTimers(back)
  {
    NoFirstTimers(returned);
    FirstTimersConcat(returned, back);
    assert forall i :: 0 <= i < |returned| ==> returned[i] in returned;
  }

  lemma {:induction false} RunOrderly(model: Model, w: World, events: seq<Event>)
    requires Orderly(w) && FreshIds(w, events)
    ensures Orderly(Run(model, w, events))
    decreases |events|
  {
    if events != [] {
      if events[0].Request? {
        RequestOrderly(model, w, events[0]);
      } else {
        IterateOrderly(model, w);
      }
      FreshTail(model, w, events);
      RunOrderly(model, Advance(model, w, events[0]), events[1..]);
    }
  }

  function RequestIds(events: seq<Event>): seq<SeqId> {
    if events == [] then []
    else if events[0].Request? then [events[0].id] + RequestIds(events[1..])
    else RequestIds(events[1..])
  }

  function IdOf(e: Event): seq<SeqId> {
    if e.Request? then [e.id] else []
  }

  lemma RequestIdsCons(events: seq<Event>)
    requires events != []
    ensures RequestIds(events) == IdOf(events[0]) + RequestIds(events[1..])
  {
  }

  lemma AdvanceSubmitted(model: Model, w: World, e: Event)
    ensures Advance(model, w, e).submitted == w.submitted + IdOf(e)
  {
  }

  lemma {:induction false} SubmittedInOrder(model: Model, w: World, events: seq<Event>)
    ensures Run(model, w, events).submitted == w.submitted + RequestIds(events)
    decreases |events|
  {
    if events != [] {
      var v, rest := Advance(model, w, events[0]), events[1..];
      SubmittedInOrder(model, v, rest);
      AdvanceSubmitted(model, w, events[0]);
      RequestIdsCons(events);
      Associate(w.submitted, IdOf(events[0]), RequestIds(rest));
    }
  }

  /** Over any run, the order of first admissions is a prefix of the order of submission,
      and what is left of it is exactly the never admitted part of the queue, which
      follows every preempted sequence. */
  lemma FirstAdmissionsAreFifo(model: Model, maxBatch: nat, blockSize: pos, numBlocks: nat, events: seq<Event>)
    requires FreshIds(Start(maxBatch, blockSize, numBlocks), events)
    ensures var w := Run(model, Start(maxBatch, blockSize, numBlocks), events);
      && RequestIds(events) == w.entered + FirstTimers(w.machine.waiting)
      && Layered(w.machine.waiting)
  {
    var w := Start(maxBatch, blockSize, numBlocks);
    RunOrderly(model, w, events);
    SubmittedInOrder(model, w, events);
    assert [] + RequestIds(events) == RequestIds(events);
  }
}
