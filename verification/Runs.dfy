/** Whole runs: submissions and engine iterations in any order, and what every request
    has been given so far. */
module Runs {
  import opened Arith
  import opened Sums
  import opened Models
  import opened Batching
  import opened BatchingLaws
  import opened ScheduleLaws

  // ---- What a sequence will have produced when it is done ----

  /** The output so far and the greedy continuation to the limit. */
  ghost function Promise(model: Model, s: Sequence): seq<TokenId> {
    s.output + Greedy(model, s.Context(), if s.IsComplete() then 0 else s.maxNew - |s.output|)
  }

  lemma PromiseOfCore(model: Model, s: Sequence)
    ensures Promise(model, s.Core()) == Promise(model, s)
    ensures s.Core().Context() == s.Context() && s.Core().IsComplete() == s.IsComplete()
  {
  }

  lemma PromiseOfNew(model: Model, id: SeqId, prompt: seq<TokenId>, maxNew: nat)
    ensures Promise(model, NewSequence(id, prompt, maxNew)) == Greedy(model, prompt, maxNew)
  {
    assert prompt + [] == prompt;
    assert [] + Greedy(model, prompt, maxNew) == Greedy(model, prompt, maxNew);
  }

  /** One forward pass keeps the promise, eos or not. */
  lemma PushKeepsPromise(model: Model, s: Sequence)
    requires !s.IsComplete()
    ensures var token := model.Next(s.Context());
      Promise(model, Push(s, token, token == model.eos)) == Promise(model, s)
  {
    var token := model.Next(s.Context());
    var t := Push(s, token, token == model.eos);
    var n := s.maxNew - |s.output|;
    assert t.Context() == s.Context() + [token];
    if token == model.eos {
      assert Greedy(model, s.Context(), n) == [token];
      assert t.output + [] == t.output;
    } else {
      var rest := Greedy(model, t.Context(), n - 1);
      assert Greedy(model, s.Context(), n) == [token] + rest;
      assert s.output + ([token] + rest) == (s.output + [token]) + rest;
      assert t.IsComplete() ==> rest == [];
    }
  }

  /** A complete sequence has produced its promise; an unfinished one still owes a token. */
  lemma PromiseLength(model: Model, s: Sequence)
    ensures s.output <= Promise(model, s)
    ensures s.IsComplete() ==> Promise(model, s) == s.output
    ensures !s.IsComplete() ==> |Promise(model, s)| > |s.output|
  {
  }

  // ---- Emissions ----

  datatype Emission = Emission(id: SeqId, token: TokenId, isEos: bool)

  /** What one engine iteration returns, given the batch the scheduler left. */
  ghost function Emissions(model: Model, rs: seq<Slot>): (es: seq<Emission>)
    ensures |es| == |rs|
  {
    if rs == [] then []
    else
      var token := model.Next(rs[0].sequence.Context());
      [Emission(rs[0].sequence.id, token, token == model.eos)] + Emissions(model, rs[1..])
  }

  function Tokens(outputs: map<SeqId, seq<TokenId>>, id: SeqId): seq<TokenId> {
    if id in outputs then outputs[id] else []
  }

  /** `outputs.entry(id).or_default().push(token)` for each emission in turn. */
  function Collect(outputs: map<SeqId, seq<TokenId>>, es: seq<Emission>): map<SeqId, seq<TokenId>>
    decreases |es|
  {
    if es == [] then outputs
    else Collect(outputs[es[0].id := Tokens(outputs, es[0].id) + [es[0].token]], es[1..])
  }

  ghost predicate Mentions(rs: seq<Slot>, id: SeqId) {
    exists r :: r in rs && r.sequence.id == id
  }

  lemma {:induction false} CollectOthers(model: Model, outputs: map<SeqId, seq<TokenId>>, rs: seq<Slot>, id: SeqId)
    requires !Mentions(rs, id)
    decreases |rs|
    ensures var collected := Collect(outputs, Emissions(model, rs));
      (id in collected <==> id in outputs) && Tokens(collected, id) == Tokens(outputs, id)
  {
    if rs != [] {
      assert rs[0] in rs;
      assert forall r :: r in rs[1..] ==> r in rs;
      var e := Emissions(model, rs)[0];
      assert Emissions(model, rs)[1..] == Emissions(model, rs[1..]);
      CollectOthers(model, outputs[e.id := Tokens(outputs, e.id) + [e.token]], rs[1..], id);
    }
  }

  lemma {:induction false} CollectBatch(model: Model, outputs: map<SeqId, seq<TokenId>>, rs: seq<Slot>, i: nat)
    requires i < |rs| && DistinctSlots(rs)
    decreases |rs|
    ensures var s := rs[i].sequence; var collected := Collect(outputs, Emissions(model, rs));
      s.id in collected && Tokens(collected, s.id) == Tokens(outputs, s.id) + [model.Next(s.Context())]
  {
    var e := Emissions(model, rs)[0];
    var next := outputs[e.id := Tokens(outputs, e.id) + [e.token]];
    assert Emissions(model, rs)[1..] == Emissions(model, rs[1..]);
    if i == 0 {
      assert forall j :: 0 <= j < |rs| - 1 ==> rs[1..][j].sequence.id == rs[j + 1].sequence.id;
      CollectOthers(model, next, rs[1..], e.id);
    } else {
      CollectBatch(model, next, rs[1..], i - 1);
    }
  }

  // ---- Worlds ----

  datatype Event = Request(id: SeqId, prompt: seq<TokenId>, maxNew: nat) | Iterate

  /** A machine and its history: each request as it stood when it came in, the tokens
      streamed out for it, the order of submission and of first admission. */
  datatype World = World(
    machine: Machine,
    requests: map<SeqId, Sequence>,
    emitted: map<SeqId, seq<TokenId>>,
    submitted: seq<SeqId>,
    entered: seq<SeqId>)

  /** The order of first admissions, extended by the ids one plan admits. */
  function Entered(entered: seq<SeqId>, admitted: seq<SeqId>): seq<SeqId>
    decreases |admitted|
  {
    if admitted == [] then entered
    else Entered(if admitted[0] in entered then entered else entered + [admitted[0]], admitted[1..])
  }

  ghost function Advance(model: Model, w: World, e: Event): World {
    match e
    case Request(id, prompt, maxNew) =>
      var s := NewSequence(id, prompt, maxNew);
      w.(machine := Submit(w.machine, s),
         requests := w.requests[id := s],
         submitted := w.submitted + [id])
    case Iterate =>
      w.(machine := Step(model, w.machine),
         emitted := Collect(w.emitted, Emissions(model, Schedule(w.machine).0.running)),
         entered := Entered(w.entered, Schedule(w.machine).1.admitted))
  }

  ghost function Run(model: Model, w: World, events: seq<Event>): World
    decreases |events|
  {
    if events == [] then w else Run(model, Advance(model, w, events[0]), events[1..])
  }

  /** Ids are unique within an engine's lifetime. */
  ghost predicate FreshIds(w: World, events: seq<Event>) {
    forall i :: 0 <= i < |events| && events[i].Request? ==>
      && events[i].id !in w.requests
      && forall j :: 0 <= j < i && events[j].Request? ==> events[j].id != events[i].id
  }

  function Start(maxBatch: nat, blockSize: pos, numBlocks: nat): World {
    World(Empty(maxBatch, blockSize, numBlocks), map[], map[], [], [])
  }

  // ---- The invariant of every run ----

  /** A live sequence is its request plus the tokens streamed out for it, and still
      promises what the request promised. */
  ghost predicate OnTrack(
    model: Model, requests: map<SeqId, Sequence>, emitted: map<SeqId, seq<TokenId>>, c: Sequence)
  {
    && c.id in requests
    && c.prompt == requests[c.id].prompt
    && c.output == requests[c.id].output + Tokens(emitted, c.id)
    && Promise(model, c) == Promise(model, requests[c.id])
  }

  ghost predicate IsLive(m: Machine, id: SeqId) {
    exists c :: c in Cores(m) && c.id == id
  }

  /** A request whose tokens, prompt included, fit the whole cache. */
  ghost predicate FitsAlone(model: Model, s: Sequence, m: Machine) {
    |s.prompt| + |Promise(model, s)| <= m.numBlocks * m.blockSize
  }

  /** A retired request has been given all of its promise, and fitted the cache. */
  ghost predicate Served(model: Model, w: World, id: SeqId)
    requires id in w.requests
  {
    && w.requests[id].output + Tokens(w.emitted, id) == Promise(model, w.requests[id])
    && FitsAlone(model, w.requests[id], w.machine)
  }

  ghost predicate History(model: Model, w: World) {
    && (forall c :: c in Cores(w.machine) ==> OnTrack(model, w.requests, w.emitted, c))
    && (forall id :: id in w.requests && !IsLive(w.machine, id) ==> Served(model, w, id))
    && (forall id :: id in w.emitted ==> id in w.requests && w.emitted[id] != [])
  }

  ghost predicate Sound(model: Model, w: World) {
    Valid(w.machine) && Settled(w.machine) && History(model, w)
  }

  lemma StartSound(model: Model, maxBatch: nat, blockSize: pos, numBlocks: nat)
    ensures Sound(model, Start(maxBatch, blockSize, numBlocks))
  {
  }

  // ---- Submitting keeps it ----

  lemma SubmitHistory(model: Model, w: World, id: SeqId, prompt: seq<TokenId>, maxNew: nat)
    requires History(model, w) && id !in w.requests
    ensures History(model, Advance(model, w, Request(id, prompt, maxNew)))
  {
    var s := NewSequence(id, prompt, maxNew);
    var v := Advance(model, w, Request(id, prompt, maxNew));
    SubmitCores(w.machine, s);
    assert s.Core() == s && s in Cores(v.machine);
    forall c | c in Cores(v.machine)
      ensures OnTrack(model, v.requests, v.emitted, c)
    {
      if c != s {
        assert c in Cores(w.machine) && OnTrack(model, w.requests, w.emitted, c);
      }
    }
    forall i | i in v.requests && !IsLive(v.machine, i)
      ensures Served(model, v, i)
    {
      assert forall c :: c in Cores(w.machine) ==> c in Cores(v.machine);
      assert i != id && !IsLive(w.machine, i);
      assert Served(model, w, i);
    }
  }

  lemma SubmitSound(model: Model, w: World, id: SeqId, prompt: seq<TokenId>, maxNew: nat)
    requires Sound(model, w) && id !in w.requests
    ensures Sound(model, Advance(model, w, Request(id, prompt, maxNew)))
  {
    assert !IsLive(w.machine, id);
    SubmitValid(w.machine, NewSequence(id, prompt, maxNew));
    SubmitHistory(model, w, id, prompt, maxNew);
  }

  // ---- An iteration keeps it ----

  lemma SettledThroughAdmission(m: Machine)
    requires Settled(m)
    ensures Settled(Admitted(m))
    decreases |m.waiting|
  {
    AdmittedStep(m);
    if CanAdmit(m) {
      SettledThroughAdmission(AdmitOne(m));
    }
  }

  lemma SettledBatch(m: Machine)
    requires Settled(m)
    ensures Settled(Batch(m))
  {
    SettledThroughAdmission(m);
    SurvivorsWereRunning(Admitted(m), PreemptCount(Admitted(m)));
  }

  /** Between `schedule` and the pushes every batch member has cached one token more
      than it holds, and still owes one. */
  lemma ScheduledBatch(m: Machine)
    requires Settled(m)
    ensures forall r :: r in Schedule(m).0.running ==>
      r.cached == r.sequence.TotalLen() + 1 && !r.sequence.IsComplete()
  {
    var rs := Unfinished(Batch(m).running);
    SettledBatch(m);
    PartsMembers(Batch(m).running);
    DecodeBatchRuns(m);
    GrownAt(rs);
    forall r | r in Grown(rs)
      ensures r.cached == r.sequence.TotalLen() + 1 && !r.sequence.IsComplete()
    {
      var i :| 0 <= i < |rs| && Grown(rs)[i] == r;
      assert rs[i] in rs;
    }
  }

  lemma {:induction false} DecodedDistinct(model: Model, b: multiset<Sequence>, rs: seq<Slot>)
    requires Distinct(b + SlotBag(rs))
    decreases |rs|
    ensures Distinct(b + SlotBag(DecodedAll(model, rs)))
  {
    if rs != [] {
      var x, y := rs[0].sequence.Core(), Decoded(model, rs[0]).sequence.Core();
      var rest, rest' := SlotBag(rs[1..]), SlotBag(DecodedAll(model, rs[1..]));
      assert b + SlotBag(rs) == (b + multiset{x}) + rest;
      DecodedDistinct(model, b + multiset{x}, rs[1..]);
      assert (b + multiset{x}) + rest' == (b + rest') + multiset{x};
      ReplaceDistinct(b + rest', x, y);
      assert DecodedAll(model, rs)[1..] == DecodedAll(model, rs[1..]);
      assert b + SlotBag(DecodedAll(model, rs)) == (b + rest') + multiset{y};
    }
  }

  lemma {:induction false} DecodedHolds(model: Model, rs: seq<Slot>, blockSize: pos)
    ensures Sum(Held(blockSize), DecodedAll(model, rs)) == Sum(Held(blockSize), rs)
  {
    if rs != [] {
      DecodedHolds(model, rs[1..], blockSize);
      assert DecodedAll(model, rs)[1..] == DecodedAll(model, rs[1..]);
    }
  }

  lemma DecodedStates(model: Model, rs: seq<Slot>)
    requires forall r :: r in rs ==> r.sequence.state == Running && r.cached == r.sequence.TotalLen() + 1
    ensures forall r :: r in DecodedAll(model, rs) ==> r.sequence.state == Running && r.cached == r.sequence.TotalLen()
  {
    DecodedAt(model, rs);
    forall r | r in DecodedAll(model, rs)
      ensures r.sequence.state == Running && r.cached == r.sequence.TotalLen()
    {
      var i :| 0 <= i < |rs| && DecodedAll(model, rs)[i] == r;
      assert rs[i] in rs;
    }
  }

  lemma StepValid(model: Model, m: Machine)
    requires Valid(m) && Settled(m)
    ensures Valid(Step(model, m)) && Settled(Step(model, m))
  {
    var n := Schedule(m).0;
    ScheduleValid(m);
    ScheduledBatch(m);
    DecodedDistinct(model, Bag(n.waiting), n.running);
    DecodedHolds(model, n.running, n.blockSize);
    DecodedStates(model, n.running);
  }

  /** Where a live sequence comes from: it waited through the iteration, or it was in
      the batch and has been given its next token. */
  lemma StepOrigin(model: Model, m: Machine, c: Sequence)
    requires Valid(m) && c in Cores(Step(model, m))
    ensures c in Bag(Schedule(m).0.waiting)
         || exists i :: 0 <= i < |Schedule(m).0.running| && c == Decoded(model, Schedule(m).0.running[i]).sequence.Core()
  {
    var n := Schedule(m).0;
    if c !in Bag(n.waiting) {
      assert c in SlotBag(DecodedAll(model, n.running));
      SlotBagMember(DecodedAll(model, n.running), c);
      DecodedAt(model, n.running);
    }
  }

  /** The same, forwards. */
  lemma StepKeeps(model: Model, m: Machine, c: Sequence)
    requires Valid(m) && c in Cores(Schedule(m).0)
    ensures IsLive(Step(model, m), c.id)
  {
    var n := Schedule(m).0;
    if c in Bag(n.waiting) {
      assert c in Cores(Step(model, m));
    } else {
      SlotBagMember(n.running, c);
      var i :| 0 <= i < |n.running| && n.running[i].sequence.Core() == c;
      var d := Decoded(model, n.running[i]).sequence.Core();
      DecodedAt(model, n.running);
      SlotBagMember(DecodedAll(model, n.running), d);
      assert d in Cores(Step(model, m)) && d.id == c.id;
    }
  }

  lemma WaitingNotMentioned(m: Machine, c: Sequence)
    requires Valid(m) && c in Bag(m.waiting)
    ensures !Mentions(m.running, c.id)
  {
    forall r | r in m.running
      ensures r.sequence.id != c.id
    {
      SlotBagMember(m.running, r.sequence.Core());
      PairDistinct(Cores(m), c, r.sequence.Core());
    }
  }

  lemma MentionedIsLive(m: Machine, r: Slot)
    requires r in m.running
    ensures r.sequence.Core() in Cores(m)
  {
    SlotBagMember(m.running, r.sequence.Core());
  }

  lemma WaitedOnTrack(model: Model, w: World, n: Machine, c: Sequence)
    requires Valid(n) && c in Bag(n.waiting) && OnTrack(model, w.requests, w.emitted, c)
    ensures OnTrack(model, w.requests, Collect(w.emitted, Emissions(model, n.running)), c)
  {
    WaitingNotMentioned(n, c);
    CollectOthers(model, w.emitted, n.running, c.id);
  }

  lemma BatchOnTrack(model: Model, w: World, n: Machine, i: nat)
    requires i < |n.running| && DistinctSlots(n.running) && !n.running[i].sequence.IsComplete()
    requires OnTrack(model, w.requests, w.emitted, n.running[i].sequence.Core())
    ensures OnTrack(model, w.requests, Collect(w.emitted, Emissions(model, n.running)),
                    Decoded(model, n.running[i]).sequence.Core())
  {
    var s := n.running[i].sequence;
    CollectBatch(model, w.emitted, n.running, i);
    DecodedOnTrack(model, s);
    var e := Tokens(w.emitted, s.id);
    assert w.requests[s.id].output + e + [model.Next(s.Context())] == w.requests[s.id].output + (e + [model.Next(s.Context())]);
  }

  lemma BatchMemberOnTrack(model: Model, w: World, i: nat)
    requires Sound(model, w) && i < |Schedule(w.machine).0.running|
    ensures OnTrack(model, w.requests, Advance(model, w, Iterate).emitted,
                    Decoded(model, Schedule(w.machine).0.running[i]).sequence.Core())
  {
    var n := Schedule(w.machine).0;
    ScheduleValid(w.machine);
    MentionedIsLive(n, n.running[i]);
    DistinctRunning(n);
    ScheduledBatch(w.machine);
    BatchOnTrack(model, w, n, i);
  }

  lemma WaiterOnTrack(model: Model, w: World, c: Sequence)
    requires Sound(model, w) && c in Bag(Schedule(w.machine).0.waiting)
    ensures OnTrack(model, w.requests, Advance(model, w, Iterate).emitted, c)
  {
    ScheduleValid(w.machine);
    assert c in Cores(w.machine);
    WaitedOnTrack(model, w, Schedule(w.machine).0, c);
  }

  lemma StepOnTrack(model: Model, w: World, c: Sequence)
    requires Sound(model, w) && c in Cores(Step(model, w.machine))
    ensures OnTrack(model, w.requests, Advance(model, w, Iterate).emitted, c)
  {
    var n := Schedule(w.machine).0;
    StepOrigin(model, w.machine, c);
    if c in Bag(n.waiting) {
      WaiterOnTrack(model, w, c);
    } else {
      var i :| 0 <= i < |n.running| && c == Decoded(model, n.running[i]).sequence.Core();
      BatchMemberOnTrack(model, w, i);
    }
  }

  lemma DecodedOnTrack(model: Model, s: Sequence)
    requires !s.IsComplete()
    ensures var token := model.Next(s.Context()); var c := Push(s, token, token == model.eos).Core();
      && c.id == s.id && c.prompt == s.prompt
      && c.output == s.output + [token]
      && Promise(model, c) == Promise(model, s.Core())
  {
    var token := model.Next(s.Context());
    PushKeepsPromise(model, s);
    PromiseOfCore(model, s);
    PromiseOfCore(model, Push(s, token, token == model.eos));
  }

  lemma CompletedFits(m: Machine, r: Slot)
    requires Valid(m) && Settled(m) && r in m.running
    ensures r.sequence.TotalLen() <= m.numBlocks * m.blockSize
  {
    var i :| 0 <= i < |m.running| && m.running[i] == r;
    SumRemove(Held(m.blockSize), m.running, i);
    BlocksFit(r.cached, m.blockSize, m.numBlocks);
  }

  lemma RetiredNotMentioned(model: Model, m: Machine, id: SeqId)
    requires Valid(m) && !IsLive(Step(model, m), id)
    ensures !Mentions(Schedule(m).0.running, id)
    ensures forall c :: c in Cores(Schedule(m).0) ==> c.id != id
  {
    forall c | c in Cores(Schedule(m).0)
      ensures c.id != id
    {
      StepKeeps(model, m, c);
    }
    forall r | r in Schedule(m).0.running
      ensures r.sequence.id != id
    {
      MentionedIsLive(Schedule(m).0, r);
    }
  }

  lemma StepServed(model: Model, w: World, id: SeqId)
    requires Sound(model, w) && id in w.requests && !IsLive(Step(model, w.machine), id)
    ensures Served(model, Advance(model, w, Iterate), id)
  {
    var m, n := w.machine, Schedule(w.machine).0;
    RetiredNotMentioned(model, m, id);
    CollectOthers(model, w.emitted, n.running, id);
    if IsLive(m, id) {
      var c :| c in Cores(m) && c.id == id;
      RetiredWasServed(model, w, c);
    }
    assert Served(model, w, id);
    SameCapacity(m);
  }

  lemma RetiredWasServed(model: Model, w: World, c: Sequence)
    requires Sound(model, w) && c in Cores(w.machine) && c !in Cores(Schedule(w.machine).0)
    ensures c.id in w.requests && Served(model, w, c.id)
  {
    var b := Batch(w.machine);
    ScheduleValid(w.machine);
    assert c in SlotBag(Completed(b.running));
    SlotBagMember(Completed(b.running), c);
    var i :| 0 <= i < |Completed(b.running)| && Completed(b.running)[i].sequence.Core() == c;
    var r := Completed(b.running)[i];
    PartsMembers(b.running);
    assert r in Completed(b.running);
    SettledBatch(w.machine);
    CompletedFits(b, r);
    PromiseLength(model, r.sequence);
    PromiseOfCore(model, r.sequence);
    assert OnTrack(model, w.requests, w.emitted, c);
    SameCapacity(w.machine);
  }

  lemma SameCapacity(m: Machine)
    ensures Batch(m).numBlocks == m.numBlocks && Batch(m).blockSize == m.blockSize && Batch(m).maxBatch == m.maxBatch
  {
    AdmittedShape(m, AdmitCount(m));
    VictimsStacked(Admitted(m), PreemptCount(Admitted(m)));
  }

  lemma StepEmitted(model: Model, w: World, id: SeqId)
    requires Sound(model, w) && id in Advance(model, w, Iterate).emitted
    ensures id in w.requests && Advance(model, w, Iterate).emitted[id] != []
  {
    var n := Schedule(w.machine).0;
    ScheduleValid(w.machine);
    if Mentions(n.running, id) {
      var r :| r in n.running && r.sequence.id == id;
      var i :| 0 <= i < |n.running| && n.running[i] == r;
      MentionedIsLive(n, r);
      assert OnTrack(model, w.requests, w.emitted, r.sequence.Core());
      DistinctRunning(n);
      CollectBatch(model, w.emitted, n.running, i);
    } else {
      CollectOthers(model, w.emitted, n.running, id);
    }
  }

  lemma IterateSound(model: Model, w: World)
    requires Sound(model, w)
    ensures Sound(model, Advance(model, w, Iterate))
  {
    var v := Advance(model, w, Iterate);
    StepValid(model, w.machine);
    forall c | c in Cores(v.machine)
      ensures OnTrack(model, v.requests, v.emitted, c)
    {
      StepOnTrack(model, w, c);
    }
    forall id | id in v.requests && !IsLive(v.machine, id)
      ensures Served(model, v, id)
    {
      StepServed(model, w, id);
    }
    forall id | id in v.emitted
      ensures id in v.requests && v.emitted[id] != []
    {
      StepEmitted(model, w, id);
    }
  }

  lemma {:induction false} RunSound(model: Model, w: World, events: seq<Event>)
    requires Sound(model, w) && FreshIds(w, events)
    ensures Sound(model, Run(model, w, events))
    decreases |events|
  {
    if events != [] {
      var e, v := events[0], Advance(model, w, events[0]);
      match e {
        case Request(id, prompt, maxNew) => SubmitSound(model, w, id, prompt, maxNew);
        case Iterate => IterateSound(model, w);
      }
      FreshTail(model, w, events);
      RunSound(model, v, events[1..]);
    }
  }

  lemma FreshTail(model: Model, w: World, events: seq<Event>)
    requires events != [] && FreshIds(w, events)
    ensures FreshIds(Advance(model, w, events[0]), events[1..])
  {
    var rest := events[1..];
    assert forall i :: 0 <= i < |rest| ==> rest[i] == events[i + 1];
  }

  // ---- Scheduling is transparent ----

  lemma LiveHasPart(model: Model, w: World, c: Sequence, given: seq<TokenId>)
    requires OnTrack(model, w.requests, w.emitted, c) && w.requests[c.id].output == []
    requires given == Tokens(w.emitted, c.id)
    ensures given <= Promise(model, w.requests[c.id])
  {
    PromiseLength(model, c);
    assert [] + given == given;
  }

  lemma RetiredHasAll(model: Model, w: World, id: SeqId, given: seq<TokenId>)
    requires id in w.requests && Served(model, w, id) && w.requests[id].output == []
    requires given == Tokens(w.emitted, id)
    ensures given == Promise(model, w.requests[id])
  {
    assert [] + given == given;
  }

  /** A request that came in new has its greedy path: part of it, or all once it is not live. */
  lemma RequestIsServed(model: Model, w: World, id: SeqId)
    requires Sound(model, w) && id in w.requests
    requires w.requests[id] == NewSequence(id, w.requests[id].prompt, w.requests[id].maxNew)
    ensures var r := w.requests[id];
      && Tokens(w.emitted, id) <= Greedy(model, r.prompt, r.maxNew)
      && (!IsLive(w.machine, id) ==> Tokens(w.emitted, id) == Greedy(model, r.prompt, r.maxNew))
  {
    var given := Tokens(w.emitted, id);
    PromiseOfNew(model, id, w.requests[id].prompt, w.requests[id].maxNew);
    if IsLive(w.machine, id) {
      var c :| c in Cores(w.machine) && c.id == id;
      LiveHasPart(model, w, c, given);
    } else {
      RetiredHasAll(model, w, id, given);
    }
  }

  /** At every point of every run, whatever the batch size, the cache, the other requests
      and the preemptions, a request has been given a prefix of greedy decoding of its own
      prompt, and all of it once it is no longer live. */
  lemma Transparency(model: Model, maxBatch: nat, blockSize: pos, numBlocks: nat, events: seq<Event>, id: SeqId)
    requires FreshIds(Start(maxBatch, blockSize, numBlocks), events)
    requires id in Run(model, Start(maxBatch, blockSize, numBlocks), events).requests
    ensures var w := Run(model, Start(maxBatch, blockSize, numBlocks), events); var r := w.requests[id];
      && Event.Request(id, r.prompt, r.maxNew) in events
      && Tokens(w.emitted, id) <= Greedy(model, r.prompt, r.maxNew)
      && (!IsLive(w.machine, id) ==> Tokens(w.emitted, id) == Greedy(model, r.prompt, r.maxNew))
  {
    var w0 := Start(maxBatch, blockSize, numBlocks);
    var w := Run(model, w0, events);
    StartSound(model, maxBatch, blockSize, numBlocks);
    RunSound(model, w0, events);
    RequestsAreNew(model, w0, events, id);
    RequestIsServed(model, w, id);
  }

  lemma {:induction false} RequestsAreNew(model: Model, w: World, events: seq<Event>, id: SeqId)
    requires id in Run(model, w, events).requests && id !in w.requests && FreshIds(w, events)
    ensures var r := Run(model, w, events).requests[id];
      r == NewSequence(id, r.prompt, r.maxNew) && Event.Request(id, r.prompt, r.maxNew) in events
    decreases |events|
  {
    var e, v, rest := events[0], Advance(model, w, events[0]), events[1..];
    FreshTail(model, w, events);
    assert forall x :: x in rest ==> x in events;
    if e.Request? && e.id == id {
      RequestsStay(model, v, rest, id);
    } else {
      RequestsAreNew(model, v, rest, id);
    }
  }

  lemma {:induction false} RequestsStay(model: Model, w: World, events: seq<Event>, id: SeqId)
    requires id in w.requests && FreshIds(w, events)
    ensures id in Run(model, w, events).requests && Run(model, w, events).requests[id] == w.requests[id]
    decreases |events|
  {
    if events != [] {
      FreshTail(model, w, events);
      RequestsStay(model, Advance(model, w, events[0]), events[1..], id);
    }
  }

  /** Two engines that differ in batch size, block size, cache size and in everything else
      they were asked give the same answer to the same request once both are done with it. */
  lemma EnginesAgree(
    model: Model, id: SeqId,
    batch1: nat, size1: pos, blocks1: nat, events1: seq<Event>,
    batch2: nat, size2: pos, blocks2: nat, events2: seq<Event>)
    requires FreshIds(Start(batch1, size1, blocks1), events1) && FreshIds(Start(batch2, size2, blocks2), events2)
    requires var w1 := Run(model, Start(batch1, size1, blocks1), events1);
             id in w1.requests && !IsLive(w1.machine, id)
    requires var w2 := Run(model, Start(batch2, size2, blocks2), events2);
             id in w2.requests && !IsLive(w2.machine, id)
    requires Run(model, Start(batch1, size1, blocks1), events1).requests[id]
          == Run(model, Start(batch2, size2, blocks2), events2).requests[id]
    ensures Tokens(Run(model, Start(batch1, size1, blocks1), events1).emitted, id)
         == Tokens(Run(model, Start(batch2, size2, blocks2), events2).emitted, id)
  {
    Transparency(model, batch1, size1, blocks1, events1, id);
    Transparency(model, batch2, size2, blocks2, events2, id);
  }
}
