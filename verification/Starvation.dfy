/** Who is starved: a sequence that does not fit the whole cache, and everyone queued behind
    it, whatever else happens. */
module Starvation {
  import opened Arith
  import opened Sums
  import opened Models
  import opened Batching
  import opened BatchingLaws
  import opened ScheduleLaws
  import opened Runs
  import opened Liveness

  // ---- A queue with more behind it ----

  /** The machine with `tail` queued behind everyone else. */
  function Behind(m: Machine, tail: seq<Sequence>): Machine {
    m.(waiting := m.waiting + tail)
  }

  /** The machine without the queue from position `k` on. */
  function Cut(m: Machine, k: nat): Machine
    requires k <= |m.waiting|
  {
    m.(waiting := m.waiting[..k])
  }

  /** More tokens than the whole cache has slots. */
  predicate Overflows(s: Sequence, m: Machine) {
    s.TotalLen() > m.numBlocks * m.blockSize
  }

  lemma CutBehind(m: Machine, k: nat)
    requires k <= |m.waiting|
    ensures m == Behind(Cut(m, k), m.waiting[k..])
  {
    assert m.waiting == m.waiting[..k] + m.waiting[k..];
  }

  lemma AdmitBehind(m: Machine, tail: seq<Sequence>)
    requires tail != [] && Overflows(tail[0], m)
    ensures CanAdmit(Behind(m, tail)) == CanAdmit(m)
    ensures m.waiting != [] ==> AdmitOne(Behind(m, tail)) == Behind(AdmitOne(m), tail)
  {
    BlocksFit(tail[0].TotalLen(), m.blockSize, m.numBlocks);
    if m.waiting != [] {
      assert (m.waiting + tail)[1..] == m.waiting[1..] + tail;
    }
  }

  lemma {:induction false} AdmittedBehind(m: Machine, tail: seq<Sequence>)
    requires tail != [] && Overflows(tail[0], m)
    ensures AdmitCount(Behind(m, tail)) == AdmitCount(m)
    ensures Admitted(Behind(m, tail)) == Behind(Admitted(m), tail)
    decreases |m.waiting|
  {
    AdmitBehind(m, tail);
    AdmittedStep(m);
    AdmittedStep(Behind(m, tail));
    if CanAdmit(m) {
      AdmittedBehind(AdmitOne(m), tail);
    }
  }

  lemma PreemptBehind(m: Machine, tail: seq<Sequence>)
    requires m.running != []
    ensures PreemptOne(Behind(m, tail)) == Behind(PreemptOne(m), tail)
  {
    Associate([Victim(m).(state := Preempted)], m.waiting, tail);
  }

  lemma {:induction false} RelievedBehind(m: Machine, tail: seq<Sequence>)
    ensures var n := Behind(m, tail); var k := PreemptCount(m);
      && PreemptCount(n) == k && Victims(n, k) == Victims(m, k)
      && Relieved(n) == Behind(Relieved(m), tail)
    decreases |m.running|
  {
    RelievedStep(m);
    RelievedStep(Behind(m, tail));
    if MustPreempt(m) {
      PreemptBehind(m, tail);
      RelievedBehind(PreemptOne(m), tail);
    }
  }

  /** What waits behind a sequence that overflows the cache does not exist for the
      scheduler, and neither does that sequence. */
  lemma ScheduleBehind(m: Machine, tail: seq<Sequence>)
    requires tail != [] && Overflows(tail[0], m)
    ensures Schedule(Behind(m, tail)) == (Behind(Schedule(m).0, tail), Schedule(m).1)
  {
    AdmittedBehind(m, tail);
    RelievedBehind(Admitted(m), tail);
    var a := AdmitCount(m);
    assert (m.waiting + tail)[..a] == m.waiting[..a];
  }

  function IterateCount(events: seq<Event>): nat {
    if events == [] then 0 else (if events[0].Iterate? then 1 else 0) + IterateCount(events[1..])
  }

  /** The sequences the requests of a run bring in. */
  function Newcomers(events: seq<Event>): seq<Sequence> {
    if events == [] then []
    else
      var e := events[0];
      (if e.Request? then [NewSequence(e.id, e.prompt, e.maxNew)] else []) + Newcomers(events[1..])
  }

  /** Two worlds that differ in what waits at the back and in what was submitted. */
  ghost predicate Hides(w: World, front: World, tail: seq<Sequence>) {
    && w.machine == Behind(front.machine, tail)
    && w.emitted == front.emitted
  }

  lemma HidesRequest(model: Model, w: World, front: World, tail: seq<Sequence>, e: Event)
    requires Hides(w, front, tail) && e.Request?
    ensures Hides(Advance(model, w, e), front, tail + [NewSequence(e.id, e.prompt, e.maxNew)])
  {
    Associate(front.machine.waiting, tail, [NewSequence(e.id, e.prompt, e.maxNew)]);
  }

  lemma HidesIterate(model: Model, w: World, front: World, tail: seq<Sequence>)
    requires Hides(w, front, tail) && tail != [] && Overflows(tail[0], front.machine)
    ensures Hides(Advance(model, w, Iterate), AdvanceOf(model)(front), tail)
    ensures Overflows(tail[0], AdvanceOf(model)(front).machine)
  {
    ScheduleBehind(front.machine, tail);
    StepCapacity(model, front.machine);
  }

  lemma {:induction false} RunHides(model: Model, w: World, front: World, tail: seq<Sequence>, events: seq<Event>)
    requires Hides(w, front, tail) && tail != [] && Overflows(tail[0], front.machine)
    ensures Hides(Run(model, w, events), Iterations(model, front, IterateCount(events)), tail + Newcomers(events))
    decreases |events|
  {
    if events == [] {
      assert tail + [] == tail;
    } else {
      var e, rest := events[0], events[1..];
      var first := if e.Request? then [NewSequence(e.id, e.prompt, e.maxNew)] else [];
      if e.Request? {
        HidesRequest(model, w, front, tail, e);
        RunHides(model, Advance(model, w, e), front, tail + first, rest);
      } else {
        HidesIterate(model, w, front, tail);
        RunHides(model, Advance(model, w, e), AdvanceOf(model)(front), tail, rest);
        assert tail + first == tail;
      }
      Associate(tail, first, Newcomers(rest));
    }
  }

  ghost function FrontOf(w: World, k: nat): World
    requires k <= |w.machine.waiting|
  {
    w.(machine := Cut(w.machine, k))
  }

  /** Behind the first sequence that overflows the cache nothing happens: whatever is
      submitted later, the run is the run of those ahead of it, and the others wait. */
  lemma OnlyTheFrontRuns(model: Model, w: World, k: nat, events: seq<Event>)
    requires k < |w.machine.waiting| && Overflows(w.machine.waiting[k], w.machine)
    ensures var v, front := Run(model, w, events), Iterations(model, FrontOf(w, k), IterateCount(events));
      && v.machine == Behind(front.machine, w.machine.waiting[k..] + Newcomers(events))
      && v.emitted == front.emitted
  {
    CutBehind(w.machine, k);
    RunHides(model, w, FrontOf(w, k), w.machine.waiting[k..], events);
  }

  lemma IdleFrontStays(model: Model, w: World, n: nat)
    requires !HasWork(w.machine)
    ensures var v := Iterations(model, w, n);
      !HasWork(v.machine) && v.emitted == w.emitted
  {
    var inside := iset v: World | !HasWork(v.machine) && v.emitted == w.emitted;
    forall v | v in inside
      ensures AdvanceOf(model)(v) in inside
    {
      AdmittedStep(v.machine);
      RelievedStep(v.machine);
    }
    Stay(AdvanceOf(model), inside, w, n);
  }

  /** With nobody running, an overflowing head stalls for good, whatever is submitted
      behind it. */
  lemma OversizedHeadStuck(model: Model, w: World, events: seq<Event>)
    requires w.machine.running == [] && w.machine.waiting != [] && Overflows(w.machine.waiting[0], w.machine)
    ensures var v := Run(model, w, events);
      && v.emitted == w.emitted
      && v.machine.running == []
      && v.machine.waiting == w.machine.waiting + Newcomers(events)
  {
    OnlyTheFrontRuns(model, w, 0, events);
    IdleFrontStays(model, FrontOf(w, 0), IterateCount(events));
    assert w.machine.waiting[0..] == w.machine.waiting;
    assert [] + (w.machine.waiting + Newcomers(events)) == w.machine.waiting + Newcomers(events);
  }

  // ---- Who is starved ----

  lemma CutCores(m: Machine, k: nat)
    requires k <= |m.waiting|
    ensures Cores(m) == Cores(Cut(m, k)) + Bag(m.waiting[k..])
  {
    CutBehind(m, k);
    BagConcat(m.waiting[..k], m.waiting[k..]);
  }

  lemma CutReady(model: Model, m: Machine, k: nat)
    requires Valid(m) && Settled(m) && m.maxBatch >= 1 && k <= |m.waiting| && AllFit(model, Cut(m, k))
    ensures Ready(model, Cut(m, k))
  {
    CutCores(m, k);
    DistinctPart(Cores(m), Cores(Cut(m, k)));
  }

  lemma BehindIdle(m: Machine, tail: seq<Sequence>)
    requires !HasWork(m)
    ensures Behind(m, tail).running == [] && Behind(m, tail).waiting == tail
  {
    assert [] + tail == tail;
  }

  lemma FrontIdles(model: Model, w: World, k: nat, n: nat)
    requires Sound(model, w) && w.machine.maxBatch >= 1 && k <= |w.machine.waiting|
    requires AllFit(model, Cut(w.machine, k)) && n >= Work(model, Cut(w.machine, k))
    ensures !HasWork(Iterations(model, FrontOf(w, k), n).machine)
  {
    CutReady(model, w.machine, k);
    FittingWorkDrains(model, Cut(w.machine, k), n);
    IterationsMachine(model, FrontOf(w, k), n);
  }

  /** When those ahead of an overflowing sequence fit, they are finished within as many
      iterations as they have work, and exactly the others are left. */
  lemma FrontDrains(model: Model, w: World, k: nat, events: seq<Event>)
    requires Sound(model, w) && w.machine.maxBatch >= 1
    requires k < |w.machine.waiting| && Overflows(w.machine.waiting[k], w.machine)
    requires AllFit(model, Cut(w.machine, k)) && IterateCount(events) >= Work(model, Cut(w.machine, k))
    ensures var n := Run(model, w, events).machine;
      n.running == [] && n.waiting == w.machine.waiting[k..] + Newcomers(events)
  {
    OnlyTheFrontRuns(model, w, k, events);
    FrontIdles(model, w, k, IterateCount(events));
    BehindIdle(Iterations(model, FrontOf(w, k), IterateCount(events)).machine, w.machine.waiting[k..] + Newcomers(events));
  }

  lemma QueuedIsLive(m: Machine, i: nat)
    requires i < |m.waiting|
    ensures m.waiting[i].Core() in Cores(m) && IsLive(m, m.waiting[i].id)
  {
    BagMember(m.waiting, m.waiting[i].Core());
  }

  lemma {:induction false} RequestsKept(model: Model, w: World, events: seq<Event>, id: SeqId)
    requires id in w.requests && FreshIds(w, events)
    ensures var v := Run(model, w, events);
      && id in v.requests && v.requests[id] == w.requests[id]
      && v.machine.numBlocks == w.machine.numBlocks && v.machine.blockSize == w.machine.blockSize
    decreases |events|
  {
    if events != [] {
      FreshTail(model, w, events);
      StepCapacity(model, w.machine);
      RequestsKept(model, Advance(model, w, events[0]), events[1..], id);
    }
  }

  lemma BehindIsLive(m: Machine, back: seq<Sequence>, late: seq<Sequence>, j: nat)
    requires j < |back|
    ensures back[j].Core() in Cores(Behind(m, back + late))
  {
    var n := Behind(m, back + late);
    assert n.waiting[|m.waiting| + j] == back[j];
    QueuedIsLive(n, |m.waiting| + j);
  }

  lemma StaysQueued(model: Model, w: World, k: nat, i: nat, events: seq<Event>)
    requires k <= i < |w.machine.waiting| && Overflows(w.machine.waiting[k], w.machine)
    ensures w.machine.waiting[i].Core() in Cores(Run(model, w, events).machine)
  {
    var front := Iterations(model, FrontOf(w, k), IterateCount(events));
    OnlyTheFrontRuns(model, w, k, events);
    BehindIsLive(front.machine, w.machine.waiting[k..], Newcomers(events), i - k);
  }

  /** The tokens given to a live sequence can be read off its output. */
  lemma SameOutputSameTokens(model: Model, w: World, v: World, c: Sequence)
    requires History(model, w) && History(model, v) && c in Cores(w.machine) && c in Cores(v.machine)
    requires c.id in w.requests && c.id in v.requests && v.requests[c.id] == w.requests[c.id]
    ensures Tokens(v.emitted, c.id) == Tokens(w.emitted, c.id)
  {
    assert OnTrack(model, w.requests, w.emitted, c);
    assert OnTrack(model, v.requests, v.emitted, c);
    CancelLeft(w.requests[c.id].output, Tokens(v.emitted, c.id), Tokens(w.emitted, c.id));
  }

  /** A request whose prompt and greedy output do not fit the cache together is never
      finished, whatever else is submitted and however long the engine runs. */
  lemma UnfitIsNeverServed(model: Model, w: World, events: seq<Event>, id: SeqId)
    requires Sound(model, w) && FreshIds(w, events)
    requires id in w.requests && !FitsAlone(model, w.requests[id], w.machine)
    ensures IsLive(Run(model, w, events).machine, id)
  {
    var v := Run(model, w, events);
    RunSound(model, w, events);
    RequestsKept(model, w, events, id);
    assert !IsLive(v.machine, id) ==> Served(model, v, id);
  }

  /** Whoever waits at or behind an overflowing sequence is never served, whatever else
      fits, whatever is submitted and however long the engine runs. */
  lemma BehindOversizedStarves(model: Model, w: World, k: nat, i: nat, events: seq<Event>)
    requires Sound(model, w) && FreshIds(w, events)
    requires k <= i < |w.machine.waiting| && Overflows(w.machine.waiting[k], w.machine)
    ensures var id, v := w.machine.waiting[i].id, Run(model, w, events);
      IsLive(v.machine, id) && Tokens(v.emitted, id) == Tokens(w.emitted, id)
  {
    var c := w.machine.waiting[i].Core();
    StaysQueued(model, w, k, i, events);
    QueuedIsLive(w.machine, i);
    RunSound(model, w, events);
    assert OnTrack(model, w.requests, w.emitted, c);
    RequestsKept(model, w, events, c.id);
    SameOutputSameTokens(model, w, Run(model, w, events), c);
  }

  lemma CancelLeft<T>(a: seq<T>, b: seq<T>, c: seq<T>)
    requires a + b == a + c
    ensures b == c
  {
    assert b == (a + b)[|a|..] && c == (a + c)[|a|..];
  }

  lemma {:induction false} NewcomersAreFresh(w: World, events: seq<Event>, id: SeqId)
    requires id in w.requests && forall i :: 0 <= i < |events| && events[i].Request? ==> events[i].id !in w.requests
    ensures forall c :: c in Bag(Newcomers(events)) ==> c.id != id
    decreases |events|
  {
    if events != [] {
      var rest := events[1..];
      assert forall i :: 0 <= i < |rest| ==> rest[i] == events[i + 1];
      NewcomersAreFresh(w, rest, id);
      var first := if events[0].Request? then [NewSequence(events[0].id, events[0].prompt, events[0].maxNew)] else [];
      BagConcat(first, Newcomers(rest));
      assert events[0].Request? ==> events[0].id != id;
    }
  }

  lemma FrontIsNotBehind(m: Machine, k: nat, id: SeqId)
    requires Distinct(Cores(m)) && k <= |m.waiting| && IsLive(Cut(m, k), id)
    ensures forall d :: d in Bag(m.waiting[k..]) ==> d.id != id
  {
    CutCores(m, k);
    var c :| c in Cores(Cut(m, k)) && c.id == id;
    forall d | d in Bag(m.waiting[k..])
      ensures d.id != id
    {
      PairDistinct(Cores(m), c, d);
    }
  }

  lemma OnlyQueuedAreLive(m: Machine, back: seq<Sequence>, late: seq<Sequence>, id: SeqId)
    requires m.running == [] && m.waiting == back + late
    requires forall d :: d in Bag(back) || d in Bag(late) ==> d.id != id
    ensures !IsLive(m, id)
  {
    BagConcat(back, late);
  }

  /** Those ahead of it are served. */
  lemma AheadOfOversizedIsServed(model: Model, w: World, k: nat, events: seq<Event>, id: SeqId)
    requires Sound(model, w) && FreshIds(w, events) && w.machine.maxBatch >= 1
    requires k < |w.machine.waiting| && Overflows(w.machine.waiting[k], w.machine)
    requires AllFit(model, Cut(w.machine, k)) && IterateCount(events) >= Work(model, Cut(w.machine, k))
    requires IsLive(Cut(w.machine, k), id)
    ensures !IsLive(Run(model, w, events).machine, id)
  {
    FrontDrains(model, w, k, events);
    FrontIsNotBehind(w.machine, k, id);
    CutCores(w.machine, k);
    var c :| c in Cores(Cut(w.machine, k)) && c.id == id;
    assert c in Cores(w.machine) && OnTrack(model, w.requests, w.emitted, c);
    NewcomersAreFresh(w, events, id);
    OnlyQueuedAreLive(Run(model, w, events).machine, w.machine.waiting[k..], Newcomers(events), id);
  }

  function Iterates(n: nat): seq<Event> {
    if n == 0 then [] else [Iterate] + Iterates(n - 1)
  }

  lemma {:induction false} IteratesCount(n: nat)
    ensures IterateCount(Iterates(n)) == n && forall e :: e in Iterates(n) ==> e.Iterate?
  {
    if n > 0 {
      IteratesCount(n - 1);
      assert Iterates(n)[1..] == Iterates(n - 1);
    }
  }

  lemma SomeRunServes(model: Model, w: World, k: nat, id: SeqId) returns (events: seq<Event>)
    requires Sound(model, w) && w.machine.maxBatch >= 1
    requires k < |w.machine.waiting| && Overflows(w.machine.waiting[k], w.machine)
    requires AllFit(model, Cut(w.machine, k)) && IsLive(Cut(w.machine, k), id)
    ensures FreshIds(w, events) && !IsLive(Run(model, w, events).machine, id)
  {
    var n := Work(model, Cut(w.machine, k));
    events := Iterates(n);
    IteratesCount(n);
    assert forall i :: 0 <= i < |events| ==> events[i] in events;
    AheadOfOversizedIsServed(model, w, k, events, id);
  }

  /** With those ahead of the first overflowing sequence fitting, a live request can be
      served in some continuation exactly when it is one of them: running already, or
      queued ahead. Everyone from there on is starved in every continuation. */
  lemma ServedIffAheadOfOversized(model: Model, w: World, k: nat, id: SeqId)
    requires Sound(model, w) && w.machine.maxBatch >= 1 && IsLive(w.machine, id)
    requires k < |w.machine.waiting| && Overflows(w.machine.waiting[k], w.machine)
    requires AllFit(model, Cut(w.machine, k))
    ensures (exists events :: FreshIds(w, events) && !IsLive(Run(model, w, events).machine, id))
       <==> IsLive(Cut(w.machine, k), id)
  {
    if IsLive(Cut(w.machine, k), id) {
      var events := SomeRunServes(model, w, k, id);
    } else {
      var i := BehindIndex(w.machine, k, id);
      forall events | FreshIds(w, events)
        ensures IsLive(Run(model, w, events).machine, id)
      {
        BehindOversizedStarves(model, w, k, i, events);
      }
    }
  }

  lemma BehindIndex(m: Machine, k: nat, id: SeqId) returns (i: nat)
    requires k <= |m.waiting| && IsLive(m, id) && !IsLive(Cut(m, k), id)
    ensures k <= i < |m.waiting| && m.waiting[i].id == id
  {
    CutCores(m, k);
    var c :| c in Cores(m) && c.id == id;
    assert c in Bag(m.waiting[k..]);
    BagMember(m.waiting[k..], c);
    var j :| 0 <= j < |m.waiting[k..]| && m.waiting[k..][j].Core() == c;
    i := k + j;
  }

  ghost function TwoRequests(model: Model, first: Event, second: Event): World
    requires first.Request? && second.Request?
  {
    Advance(model, Advance(model, Start(8, 1, 2), first), second)
  }

  /** A prompt of five tokens in a cache of two slots starves the request behind it. */
  lemma OversizedPromptStarves(model: Model, events: seq<Event>)
    ensures var v := Run(model, TwoRequests(model, Request(1, [1, 2, 3, 4, 5], 1), Request(2, [1], 1)), events);
      && v.emitted == map[] && v.machine.running == []
      && v.machine.waiting == [NewSequence(1, [1, 2, 3, 4, 5], 1), NewSequence(2, [1], 1)] + Newcomers(events)
  {
    var w := TwoRequests(model, Request(1, [1, 2, 3, 4, 5], 1), Request(2, [1], 1));
    assert w.machine.waiting == [NewSequence(1, [1, 2, 3, 4, 5], 1), NewSequence(2, [1], 1)];
    OversizedHeadStuck(model, w, events);
  }

  lemma LoneWork(model: Model, m: Machine, s: Sequence)
    requires m.waiting == [s] && m.running == [] && s == NewSequence(s.id, s.prompt, s.maxNew)
    requires |s.prompt| + s.maxNew <= m.numBlocks * m.blockSize
    ensures AllFit(model, m) && Work(model, m) <= s.maxNew + 1
  {
    BagOne(s);
    SumOne(OwedTo(model), s);
    LimitBoundsPromise(model, s);
  }

  lemma FirstIsServed(model: Model, w: World, small: Sequence, big: Sequence)
    requires Sound(model, w) && w.machine.maxBatch >= 1 && w.machine.running == [] && w.machine.waiting == [small, big]
    requires Overflows(big, w.machine) && small == NewSequence(small.id, small.prompt, 1)
    requires |small.prompt| + 1 <= w.machine.numBlocks * w.machine.blockSize
    ensures var n := Run(model, w, [Iterate, Iterate]).machine;
      n.running == [] && n.waiting == [big]
  {
    LoneWork(model, Cut(w.machine, 1), small);
    FrontDrains(model, w, 1, [Iterate, Iterate]);
    assert Newcomers([Iterate, Iterate]) == [] && w.machine.waiting[1..] + [] == [big];
  }

  lemma RequestSound(model: Model, w: World, e: Event)
    requires Sound(model, w) && e.Request? && e.id !in w.requests
    ensures Sound(model, Advance(model, w, e)) && Advance(model, w, e).requests.Keys == w.requests.Keys + {e.id}
  {
    SubmitSound(model, w, e.id, e.prompt, e.maxNew);
  }

  lemma RequestsSound(model: Model, w: World, first: Event, second: Event)
    requires Sound(model, w) && first.Request? && second.Request? && first.id != second.id
    requires first.id !in w.requests && second.id !in w.requests
    ensures Sound(model, Advance(model, Advance(model, w, first), second))
  {
    RequestSound(model, w, first);
    RequestSound(model, Advance(model, w, first), second);
  }

  lemma TwoRequestsSound(model: Model, first: Event, second: Event)
    requires first.Request? && second.Request? && first.id != second.id
    ensures Sound(model, TwoRequests(model, first, second))
  {
    StartSound(model, 8, 1, 2);
    RequestsSound(model, Start(8, 1, 2), first, second);
  }

  /** The same request is served when it comes first. */
  lemma OversizedPromptBehindIsHarmless(model: Model)
    ensures var n := Run(model, TwoRequests(model, Request(2, [1], 1), Request(1, [1, 2, 3, 4, 5], 1)), [Iterate, Iterate]).machine;
      n.running == [] && n.waiting == [NewSequence(1, [1, 2, 3, 4, 5], 1)]
  {
    var w := TwoRequests(model, Request(2, [1], 1), Request(1, [1, 2, 3, 4, 5], 1));
    TwoRequestsSound(model, Request(2, [1], 1), Request(1, [1, 2, 3, 4, 5], 1));
    FirstIsServed(model, w, NewSequence(2, [1], 1), NewSequence(1, [1, 2, 3, 4, 5], 1));
  }
}
