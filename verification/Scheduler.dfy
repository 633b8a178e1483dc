/** How a batch of sequences and a cache state stand for the slots of a machine. Nothing here
    is proved by induction on a cache, so induction is switched off where one is a parameter. */
module SchedulerLinks {
  import opened Arith
  import opened Sums
  import opened CacheStates
  import opened Batching
  import opened BatchingLaws
  import opened ScheduleLaws

  ghost function CachedTokens(tables: map<SeqId, BlockTable>, id: SeqId): nat {
    if id in tables then tables[id].numTokens else 0
  }

  ghost function Slots(rs: seq<Sequence>, tables: map<SeqId, BlockTable>): (slots: seq<Slot>)
    ensures |slots| == |rs|
  {
    if rs == [] then [] else [Slot(rs[0], CachedTokens(tables, rs[0].id))] + Slots(rs[1..], tables)
  }

  ghost predicate DistinctSeqs(rs: seq<Sequence>) {
    UniqueBy(rs, (s: Sequence) => s.id)
  }

  /** The cache holds tables for exactly the batch, and its free list is what the batch
      leaves of the blocks. */
  ghost predicate Linked(c: Cache, rs: seq<Sequence>) {
    && c.tables.Keys == IdSet(rs)
    && |c.freeList| + Sum(Held(c.blockSize), Slots(rs, c.tables)) == c.numBlocks
  }

  lemma {:induction false} SlotsAt(rs: seq<Sequence>, tables: map<SeqId, BlockTable>, i: nat)
    requires i < |rs|
    ensures Slots(rs, tables)[i] == Slot(rs[i], CachedTokens(tables, rs[i].id))
  {
    if i > 0 {
      SlotsAt(rs[1..], tables, i - 1);
    }
  }

  lemma {:induction false} SlotsConcat(s: seq<Sequence>, t: seq<Sequence>, tables: map<SeqId, BlockTable>)
    ensures Slots(s + t, tables) == Slots(s, tables) + Slots(t, tables)
  {
    if s == [] {
      assert s + t == t;
    } else {
      assert (s + t)[1..] == s[1..] + t;
      SlotsConcat(s[1..], t, tables);
    }
  }

  lemma {:induction false} SlotsFrame(rs: seq<Sequence>, tables: map<SeqId, BlockTable>, tables': map<SeqId, BlockTable>)
    requires forall s :: s in rs ==> CachedTokens(tables, s.id) == CachedTokens(tables', s.id)
    ensures Slots(rs, tables) == Slots(rs, tables')
  {
    if rs != [] {
      assert rs[0] in rs;
      SlotsFrame(rs[1..], tables, tables');
    }
  }

  lemma {:induction false} IdSetMember(rs: seq<Sequence>, id: SeqId)
    ensures id in IdSet(rs) <==> exists s :: s in rs && s.id == id
  {
    if rs != [] {
      IdSetMember(rs[1..], id);
      if id == rs[0].id {
        assert rs[0] in rs;
      }
      if s :| s in rs && s.id == id {
        assert s == rs[0] || s in rs[1..];
      }
    }
  }

  lemma {:induction false} IdSetConcat(s: seq<Sequence>, t: seq<Sequence>)
    ensures IdSet(s + t) == IdSet(s) + IdSet(t)
  {
    if s == [] {
      assert s + t == t;
    } else {
      assert (s + t)[1..] == s[1..] + t;
      IdSetConcat(s[1..], t);
    }
  }

  lemma {:induction false} SlotsSplit(rs: seq<Sequence>, tables: map<SeqId, BlockTable>, v: nat)
    requires v < |rs|
    ensures Slots(rs, tables)
         == Slots(rs[..v], tables) + ([Slot(rs[v], CachedTokens(tables, rs[v].id))] + Slots(rs[v + 1..], tables))
    ensures Slots(rs[..v] + rs[v + 1..], tables) == Slots(rs[..v], tables) + Slots(rs[v + 1..], tables)
  {
    SplitAt(rs, v);
    SlotsConcat(rs[..v], [rs[v]] + rs[v + 1..], tables);
    SlotsConcat([rs[v]], rs[v + 1..], tables);
    SlotsConcat(rs[..v], rs[v + 1..], tables);
    assert Slots([rs[v]], tables) == [Slot(rs[v], CachedTokens(tables, rs[v].id))];
  }

  // ---- Placing ----

  /** Admit-then-append succeeds exactly when the machine can hold the tokens. */
  lemma PlaceDecides(c: Cache, rs: seq<Sequence>, id: SeqId, count: nat)
    requires Linked(c, rs) && id !in c.tables
    ensures c.Admit(id).CanAppend(id, count)
       <==> Sum(Held(c.blockSize), Slots(rs, c.tables)) + Blocks(count, c.blockSize) <= c.numBlocks
  {
  }

  lemma {:induction false} PlaceLinks(c: Cache, rs: seq<Sequence>, s: Sequence, count: nat)
    requires Linked(c, rs) && s.id !in c.tables && c.Admit(s.id).CanAppend(s.id, count)
    ensures var d := c.Admit(s.id).Append(s.id, count);
      && Linked(d, rs + [s])
      && Slots(rs + [s], d.tables) == Slots(rs, c.tables) + [Slot(s, count)]
      && d.peakBlocks == Max(c.peakBlocks, Sum(Held(c.blockSize), Slots(rs, c.tables) + [Slot(s, count)]))
  {
    var d := c.Admit(s.id).Append(s.id, count);
    assert d.tables.Keys == c.tables.Keys + {s.id};
    assert CachedTokens(d.tables, s.id) == count;
    IdSetConcat(rs, [s]);
    assert IdSet([s]) == {s.id};
    forall r | r in rs
      ensures CachedTokens(c.tables, r.id) == CachedTokens(d.tables, r.id)
    {
      IdSetMember(rs, r.id);
    }
    SlotsFrame(rs, c.tables, d.tables);
    SlotsConcat(rs, [s], d.tables);
    assert Slots([s], d.tables) == [Slot(s, count)];
    SumAppend(Held(c.blockSize), Slots(rs, c.tables), Slot(s, count));
  }

  // ---- Freeing ----

  lemma {:induction false} OthersKeepIds(rs: seq<Sequence>, v: nat)
    requires v < |rs| && DistinctSeqs(rs)
    ensures forall s :: s in rs[..v] ==> s.id != rs[v].id
    ensures forall s :: s in rs[v + 1..] ==> s.id != rs[v].id
    ensures DistinctSeqs(rs[..v] + rs[v + 1..])
    ensures IdSet(rs[..v] + rs[v + 1..]) == IdSet(rs) - {rs[v].id}
  {
    var left := rs[..v] + rs[v + 1..];
    assert forall i :: 0 <= i < |left| ==> left[i] == rs[if i < v then i else i + 1];
    SplitAt(rs, v);
    IdSetConcat(rs[..v], [rs[v]] + rs[v + 1..]);
    IdSetConcat([rs[v]], rs[v + 1..]);
    IdSetConcat(rs[..v], rs[v + 1..]);
    IdSetMember(rs[..v], rs[v].id);
    IdSetMember(rs[v + 1..], rs[v].id);
    assert IdSet([rs[v]]) == {rs[v].id};
  }

  lemma {:induction false} SlotsWithout(
    rs: seq<Sequence>, tables: map<SeqId, BlockTable>, tables': map<SeqId, BlockTable>, v: nat)
    requires v < |rs| && DistinctSeqs(rs) && tables' == tables - {rs[v].id}
    ensures Slots(rs[..v] + rs[v + 1..], tables') == Slots(rs, tables)[..v] + Slots(rs, tables)[v + 1..]
  {
    OthersKeepIds(rs, v);
    SlotsFrame(rs[..v], tables, tables');
    SlotsFrame(rs[v + 1..], tables, tables');
    SlotsSplit(rs, tables, v);
    SlotsConcat(rs[..v], rs[v + 1..], tables');
  }

  lemma {:induction false} FreeLinks(c: Cache, rs: seq<Sequence>, v: nat)
    requires c.Valid() && Linked(c, rs) && v < |rs| && DistinctSeqs(rs)
    ensures var d, left := c.Free(rs[v].id), rs[..v] + rs[v + 1..];
      && Linked(d, left) && DistinctSeqs(left)
      && Slots(left, d.tables) == Slots(rs, c.tables)[..v] + Slots(rs, c.tables)[v + 1..]
      && d.peakBlocks == c.peakBlocks
  {
    var id, before := rs[v].id, Slots(rs, c.tables);
    OthersKeepIds(rs, v);
    IdSetMember(rs, id);
    assert rs[v] in rs && id in c.tables;
    FreeKeepsValid(c, id);
    SlotsWithout(rs, c.tables, c.tables - {id}, v);
    SumRemove(Held(c.blockSize), before, v);
    SlotsAt(rs, c.tables, v);
  }

  // ---- Growing by one token ----

  lemma {:induction false} GrowSlots(rs: seq<Sequence>, tables: map<SeqId, BlockTable>, i: nat, t: BlockTable)
    requires i < |rs| && DistinctSeqs(rs)
    ensures Slots(rs, tables[rs[i].id := t]) == Slots(rs, tables)[i := Slot(rs[i], t.numTokens)]
  {
    var tables' := tables[rs[i].id := t];
    OthersKeepIds(rs, i);
    SlotsFrame(rs[..i], tables, tables');
    SlotsFrame(rs[i + 1..], tables, tables');
    SlotsSplit(rs, tables, i);
    SlotsSplit(rs, tables', i);
  }

  lemma SumUpdate(w: Slot -> nat, rs: seq<Slot>, i: nat, r: Slot)
    requires i < |rs|
    ensures Sum(w, rs[i := r]) + w(rs[i]) == Sum(w, rs) + w(r)
  {
    SumRemove(w, rs, i);
    SumRemove(w, rs[i := r], i);
    assert rs[i := r][..i] == rs[..i] && rs[i := r][i + 1..] == rs[i + 1..];
  }

  lemma {:induction false} BatchHasTables(c: Cache, rs: seq<Sequence>, i: nat)
    requires Linked(c, rs) && i < |rs|
    ensures rs[i].id in c.tables
    ensures Slots(rs, c.tables)[i] == Slot(rs[i], c.tables[rs[i].id].numTokens)
  {
    IdSetMember(rs, rs[i].id);
    assert rs[i] in rs;
    SlotsAt(rs, c.tables, i);
  }

  /** What one more token does to the free count, the tables and the peak. */
  lemma {:induction false} AppendOneShape(c: Cache, id: SeqId)
    requires c.CanAppend(id, 1) && |c.freeList| <= c.numBlocks
    ensures var d, n := c.Append(id, 1), c.tables[id].numTokens;
      && d.tables == c.tables[id := d.tables[id]] && d.tables[id].numTokens == n + 1
      && d.tables.Keys == c.tables.Keys
      && |d.freeList| + Blocks(n + 1, c.blockSize) == |c.freeList| + Blocks(n, c.blockSize)
      && d.peakBlocks == Max(c.peakBlocks, c.numBlocks - |d.freeList|)
      && d.numBlocks == c.numBlocks && d.blockSize == c.blockSize
  {
    BlocksSucc(c.tables[id].numTokens, c.blockSize);
  }

  lemma {:induction false} GrowLinks(c: Cache, d: Cache, rs: seq<Sequence>, i: nat)
    requires Linked(c, rs) && |c.freeList| <= c.numBlocks && i < |rs| && DistinctSeqs(rs)
    requires c.CanAppend(rs[i].id, 1) && d == c.Append(rs[i].id, 1)
    ensures Linked(d, rs)
    ensures Slots(rs, d.tables) == Slots(rs, c.tables)[i := Slot(rs[i], c.tables[rs[i].id].numTokens + 1)]
    ensures d.peakBlocks == Max(c.peakBlocks, Sum(Held(c.blockSize), Slots(rs, d.tables)))
  {
    var n := c.tables[rs[i].id].numTokens;
    AppendOneShape(c, rs[i].id);
    GrowSlots(rs, c.tables, i, d.tables[rs[i].id]);
    BatchHasTables(c, rs, i);
    SumUpdate(Held(c.blockSize), Slots(rs, c.tables), i, Slot(rs[i], n + 1));
  }

  // ---- Phases on values ----

  /** The machine a cache state, a queue and a batch stand for. */
  ghost function Abstract(maxBatch: nat, c: Cache, waiting: seq<Sequence>, running: seq<Sequence>): Machine {
    Machine(maxBatch, c.blockSize, c.numBlocks, waiting, Slots(running, c.tables), c.peakBlocks)
  }

  /** A waiting sequence is not in the batch, so the cache has no table for it. */
  lemma {:induction false} HeadHasNoTable(m: Machine, c: Cache, rs: seq<Sequence>)
    requires Distinct(Cores(m)) && Linked(c, rs) && m.running == Slots(rs, c.tables) && m.waiting != []
    ensures m.waiting[0].id !in c.tables
  {
    DistinctAcross(m);
    forall s | s in rs
      ensures s.id != m.waiting[0].id
    {
      var i :| 0 <= i < |rs| && rs[i] == s;
      SlotsAt(rs, c.tables, i);
      assert m.running[i].sequence == s;
    }
    IdSetMember(rs, m.waiting[0].id);
  }

  lemma BatchIsDistinct(m: Machine, rs: seq<Sequence>, tables: map<SeqId, BlockTable>)
    requires Distinct(Cores(m)) && m.running == Slots(rs, tables)
    ensures DistinctSeqs(rs)
  {
    DistinctRunning(m);
    forall i, j | 0 <= i < j < |rs|
      ensures rs[i].id != rs[j].id
    {
      SlotsAt(rs, tables, i);
      SlotsAt(rs, tables, j);
    }
  }

  lemma BatchIsRunning(m: Machine, rs: seq<Sequence>, tables: map<SeqId, BlockTable>)
    requires States(m) && m.running == Slots(rs, tables)
    ensures forall i :: 0 <= i < |rs| ==> rs[i].state == Running
  {
    forall i | 0 <= i < |rs|
      ensures rs[i].state == Running
    {
      SlotsAt(rs, tables, i);
      assert m.running[i] in m.running;
    }
  }

  /** What holds of a scheduler between calls. */
  ghost predicate Good(maxBatch: nat, c: Cache, waiting: seq<Sequence>, running: seq<Sequence>) {
    && c.Valid()
    && Linked(c, running)
    && Valid(Abstract(maxBatch, c, waiting, running))
  }

  lemma {:induction false} PlaceDecidesAdmission(maxBatch: nat, c: Cache, waiting: seq<Sequence>, rs: seq<Sequence>)
    requires Good(maxBatch, c, waiting, rs) && waiting != [] && |rs| < maxBatch
    ensures waiting[0].id !in c.tables
    ensures c.Admit(waiting[0].id).CanAppend(waiting[0].id, waiting[0].TotalLen())
       <==> CanAdmit(Abstract(maxBatch, c, waiting, rs))
    ensures CanAdmit(Abstract(maxBatch, c, waiting, rs)) <==> DivCeil(waiting[0].TotalLen(), c.blockSize) <= |c.freeList|
  {
    DivCeilCountsBlocks(waiting[0].TotalLen(), c.blockSize);
    HeadHasNoTable(Abstract(maxBatch, c, waiting, rs), c, rs);
    PlaceDecides(c, rs, waiting[0].id, waiting[0].TotalLen());
  }

  lemma {:induction false} PlaceRefines(maxBatch: nat, c: Cache, d: Cache, waiting: seq<Sequence>, rs: seq<Sequence>)
    requires Good(maxBatch, c, waiting, rs) && d.Valid() && waiting != []
    requires CanAdmit(Abstract(maxBatch, c, waiting, rs)) && waiting[0].id !in c.tables
    requires c.Admit(waiting[0].id).CanAppend(waiting[0].id, waiting[0].TotalLen())
    requires d == c.Admit(waiting[0].id).Append(waiting[0].id, waiting[0].TotalLen())
    ensures Good(maxBatch, d, waiting[1..], rs + [waiting[0].(state := Running)])
    ensures Abstract(maxBatch, d, waiting[1..], rs + [waiting[0].(state := Running)])
         == AdmitOne(Abstract(maxBatch, c, waiting, rs))
  {
    PlaceLinks(c, rs, waiting[0].(state := Running), waiting[0].TotalLen());
    AdmitOneValid(Abstract(maxBatch, c, waiting, rs));
  }

  lemma {:induction false} PreemptAbstracts(
    maxBatch: nat, c: Cache, d: Cache, waiting: seq<Sequence>, rs: seq<Sequence>, v: nat)
    requires c.Valid() && Linked(c, rs) && DistinctSeqs(rs) && rs != []
    requires v == VictimIndex(Slots(rs, c.tables)) && d == c.Free(rs[v].id)
    ensures Linked(d, rs[..v] + rs[v + 1..])
    ensures Abstract(maxBatch, d, [rs[v].(state := Preempted)] + waiting, rs[..v] + rs[v + 1..])
         == PreemptOne(Abstract(maxBatch, c, waiting, rs))
  {
    FreeLinks(c, rs, v);
    SlotsAt(rs, c.tables, v);
  }

  lemma {:induction false} PreemptRefines(
    maxBatch: nat, c: Cache, d: Cache, waiting: seq<Sequence>, rs: seq<Sequence>, v: nat)
    requires Good(maxBatch, c, waiting, rs) && d.Valid() && rs != []
    requires v == VictimIndex(Slots(rs, c.tables)) && d == c.Free(rs[v].id)
    ensures Good(maxBatch, d, [rs[v].(state := Preempted)] + waiting, rs[..v] + rs[v + 1..])
    ensures Abstract(maxBatch, d, [rs[v].(state := Preempted)] + waiting, rs[..v] + rs[v + 1..])
         == PreemptOne(Abstract(maxBatch, c, waiting, rs))
  {
    var m := Abstract(maxBatch, c, waiting, rs);
    BatchIsDistinct(m, rs, c.tables);
    PreemptAbstracts(maxBatch, c, d, waiting, rs, v);
    PreemptOneValid(m);
  }

  /** The allocator's answer for one more token is the slot's demand. */
  lemma {:induction false} NeededIsWanted(c: Cache, rs: seq<Sequence>, i: nat)
    requires Linked(c, rs) && i < |rs|
    ensures rs[i].id in c.tables && Slots(rs, c.tables)[i].sequence == rs[i]
    ensures !rs[i].IsComplete() ==> Needed(c.tables, c.blockSize, rs[i].id, 1) == WantedBy(Slots(rs, c.tables)[i], c.blockSize)
    ensures rs[i].IsComplete() ==> WantedBy(Slots(rs, c.tables)[i], c.blockSize) == 0
  {
    BatchHasTables(c, rs, i);
  }

  lemma SumPrefix(w: Slot -> nat, rs: seq<Slot>, i: nat)
    requires i < |rs|
    ensures Sum(w, rs[..i + 1]) == Sum(w, rs[..i]) + w(rs[i])
  {
    assert rs[..i + 1] == rs[..i] + [rs[i]];
    SumAppend(w, rs[..i], rs[i]);
  }

  lemma VictimUnique(rs: seq<Slot>, v: nat)
    requires rs != [] && IsVictim(rs, v)
    ensures v == VictimIndex(rs)
  {
    VictimIsLeast(rs);
  }

  // ---- Commit and retire, part way through ----

  /** The commit loop has handled the first `i` members of the batch. */
  ghost predicate Committing(m: Machine, c: Cache, rs: seq<Sequence>, i: nat, decode: seq<SeqId>)
    requires i <= |rs| == |m.running|
  {
    && Linked(c, rs)
    && Slots(rs, c.tables) == Grown(m.running[..i]) + m.running[i..]
    && c.peakBlocks == Max(m.peak, Sum(Held(m.blockSize), Slots(rs, c.tables)))
    && decode == SlotIds(Unfinished(m.running[..i]))
    && c.numBlocks == m.numBlocks && c.blockSize == m.blockSize
  }

  /** The cache states and decode batches the commit loop can be at before member `i`. */
  ghost function CommitStates(m: Machine, rs: seq<Sequence>, i: nat): iset<(Cache, seq<SeqId>)> {
    iset t: (Cache, seq<SeqId>) |
      && i <= |rs| == |m.running| && DistinctSeqs(rs) && !MustPreempt(m)
      && (forall j :: 0 <= j < |rs| ==> rs[j].state == Running)
      && t.0.Valid() && Committing(m, t.0, rs, i, t.1)
  }

  lemma {:induction false} CommittingStarts(maxBatch: nat, c: Cache, waiting: seq<Sequence>, rs: seq<Sequence>)
    requires Good(maxBatch, c, waiting, rs) && !MustPreempt(Abstract(maxBatch, c, waiting, rs))
    ensures (c, []) in CommitStates(Abstract(maxBatch, c, waiting, rs), rs, 0)
  {
    var m := Abstract(maxBatch, c, waiting, rs);
    BatchIsDistinct(m, rs, c.tables);
    BatchIsRunning(m, rs, c.tables);
    NothingGrown(m.running);
  }

  lemma NothingGrown(rs: seq<Slot>)
    ensures Grown(rs[..0]) + rs[0..] == rs && SlotIds(Unfinished(rs[..0])) == []
  {
    assert rs[..0] == [] && rs[0..] == rs && [] + rs == rs;
  }

  lemma PrefixShapes(rs: seq<Slot>, i: nat)
    requires i < |rs|
    ensures Grown(rs[..i + 1]) == Grown(rs[..i]) + [Grow(rs[i])]
    ensures rs[i].sequence.IsComplete() ==>
      Unfinished(rs[..i + 1]) == Unfinished(rs[..i]) && Completed(rs[..i + 1]) == Completed(rs[..i]) + [rs[i]]
    ensures !rs[i].sequence.IsComplete() ==>
      Unfinished(rs[..i + 1]) == Unfinished(rs[..i]) + [rs[i]] && Completed(rs[..i + 1]) == Completed(rs[..i])
  {
    assert rs[..i + 1] == rs[..i] + [rs[i]];
    GrownConcat(rs[..i], [rs[i]]);
    UnfinishedConcat(rs[..i], [rs[i]]);
    CompletedConcat(rs[..i], [rs[i]]);
    assert Grown([rs[i]]) == [Grow(rs[i])];
  }

  lemma {:induction false} GrownConcat(s: seq<Slot>, t: seq<Slot>)
    ensures Grown(s + t) == Grown(s) + Grown(t)
  {
    if s == [] {
      assert s + t == t;
    } else {
      assert (s + t)[1..] == s[1..] + t;
      GrownConcat(s[1..], t);
    }
  }

  /** The aggregate check before the loop leaves every later append its blocks. */
  lemma {:induction false} CommitHasRoom(m: Machine, c: Cache, rs: seq<Sequence>, i: nat, decode: seq<SeqId>)
    requires i < |rs| == |m.running| && Committing(m, c, rs, i, decode) && !MustPreempt(m)
    ensures Slots(rs, c.tables)[i] == m.running[i] && rs[i] == m.running[i].sequence
    ensures rs[i].id in c.tables && m.running[i].cached == c.tables[rs[i].id].numTokens
    ensures |c.freeList| <= c.numBlocks
    ensures !rs[i].IsComplete() ==> c.CanAppend(rs[i].id, 1)
  {
    var slots, bs := Slots(rs, c.tables), m.blockSize;
    var front, back := m.running[..i], m.running[i..];
    BatchHasTables(c, rs, i);
    NeededIsWanted(c, rs, i);
    assert m.running == front + back && back[0] == m.running[i];
    SumConcat(Held(bs), Grown(front), back);
    SumConcat(Held(bs), front, back);
    SumConcat(Wanted(bs), front, back);
    GrownUses(front, bs);
    assert Sum(Wanted(bs), back) >= WantedBy(back[0], bs);
  }

  lemma {:induction false} CommittingSkips(m: Machine, c: Cache, rs: seq<Sequence>, i: nat, decode: seq<SeqId>)
    requires i < |rs| == |m.running| && Committing(m, c, rs, i, decode) && m.running[i].sequence.IsComplete()
    ensures Committing(m, c, rs, i + 1, decode)
  {
    GrownSkips(m.running, i);
  }

  lemma GrownSkips(rs: seq<Slot>, i: nat)
    requires i < |rs| && rs[i].sequence.IsComplete()
    ensures Grown(rs[..i + 1]) + rs[i + 1..] == Grown(rs[..i]) + rs[i..]
    ensures Unfinished(rs[..i + 1]) == Unfinished(rs[..i])
  {
    PrefixShapes(rs, i);
    assert rs[i..] == [rs[i]] + rs[i + 1..];
    Associate(Grown(rs[..i]), [rs[i]], rs[i + 1..]);
  }

  /** Growing member `i` moves the border between the grown and the others by one. */
  lemma GrownNext(rs: seq<Slot>, i: nat)
    requires i < |rs|
    ensures |Grown(rs[..i])| == i
    ensures (Grown(rs[..i]) + rs[i..])[i := Grow(rs[i])] == Grown(rs[..i + 1]) + rs[i + 1..]
  {
    PrefixShapes(rs, i);
    GrownAt(rs[..i]);
  }

  lemma GrowingHolds(rs: seq<Slot>, i: nat, blockSize: pos)
    requires i < |rs|
    ensures Sum(Held(blockSize), rs) <= Sum(Held(blockSize), rs[i := Grow(rs[i])])
  {
    SumUpdate(Held(blockSize), rs, i, Grow(rs[i]));
    BlocksSucc(rs[i].cached, blockSize);
  }

  lemma DecodeNext(rs: seq<Slot>, i: nat)
    requires i < |rs| && !rs[i].sequence.IsComplete()
    ensures SlotIds(Unfinished(rs[..i + 1])) == SlotIds(Unfinished(rs[..i])) + [rs[i].sequence.id]
  {
    PrefixShapes(rs, i);
    SlotIdsConcat(Unfinished(rs[..i]), [rs[i]]);
    assert SlotIds([rs[i]]) == [rs[i].sequence.id];
  }

  lemma {:induction false} CommittingAppends(m: Machine, c: Cache, d: Cache, rs: seq<Sequence>, i: nat, decode: seq<SeqId>)
    requires i < |rs| == |m.running| && Committing(m, c, rs, i, decode) && !m.running[i].sequence.IsComplete()
    requires |c.freeList| <= c.numBlocks && DistinctSeqs(rs) && rs[i].id in c.tables && rs[i] == m.running[i].sequence
    requires c.CanAppend(rs[i].id, 1) && d == c.Append(rs[i].id, 1)
    requires c.tables[rs[i].id].numTokens == m.running[i].cached
    ensures Committing(m, d, rs, i + 1, decode + [rs[i].id])
  {
    GrowLinks(c, d, rs, i);
    GrownNext(m.running, i);
    DecodeNext(m.running, i);
    GrowingHolds(Slots(rs, c.tables), i, m.blockSize);
  }

  lemma {:induction false} CommittingDone(maxBatch: nat, m: Machine, c: Cache, rs: seq<Sequence>, decode: seq<SeqId>)
    requires (c, decode) in CommitStates(m, rs, |rs|)
    ensures c.Valid() && Linked(c, rs) && Abstract(m.maxBatch, c, m.waiting, rs) == Commit(m)
    ensures decode == SlotIds(Unfinished(m.running))
  {
    assert m.running[..|rs|] == m.running && m.running[|rs|..] == [];
    assert Grown(m.running) + [] == Grown(m.running);
  }

  /** The retire loop has handled the first `j` members of the drained batch. */
  ghost predicate Retiring(m: Machine, c: Cache, still: seq<Sequence>, rest: seq<Sequence>, j: nat, finished: seq<SeqId>)
    requires j <= |m.running|
  {
    && Linked(c, still + rest) && DistinctSeqs(still + rest)
    && Slots(still + rest, c.tables) == Unfinished(m.running[..j]) + m.running[j..]
    && |still| == |Unfinished(m.running[..j])|
    && finished == SlotIds(Completed(m.running[..j]))
    && c.peakBlocks == m.peak && c.numBlocks == m.numBlocks && c.blockSize == m.blockSize
  }

  ghost function ValidMachines(): iset<Machine> {
    iset m: Machine | Valid(m)
  }

  /** The cache states, kept, unexamined and finished lists the retire loop can be at before
      member `j`. */
  ghost function RetireStates(m: Machine, j: nat): iset<(Cache, seq<Sequence>, seq<Sequence>, seq<SeqId>)> {
    iset t: (Cache, seq<Sequence>, seq<Sequence>, seq<SeqId>) |
      j <= |m.running| && t.0.Valid() && Retiring(m, t.0, t.1, t.2, j, t.3)
  }

  lemma {:induction false} NothingDrained(m: Machine, c: Cache, rs: seq<Sequence>)
    requires c.Valid() && Linked(c, rs) && DistinctSeqs(rs) && m.running == Slots(rs, c.tables)
    requires c.peakBlocks == m.peak && c.numBlocks == m.numBlocks && c.blockSize == m.blockSize
    ensures Retiring(m, c, [], rs, 0, [])
  {
    NothingRetired(m.running);
    assert [] + rs == rs;
  }

  lemma {:induction false} RetiringStarts(maxBatch: nat, c: Cache, waiting: seq<Sequence>, rs: seq<Sequence>)
    requires c.Valid() && Linked(c, rs) && Valid(Abstract(maxBatch, c, waiting, rs))
    ensures var m := Abstract(maxBatch, c, waiting, rs);
      m in ValidMachines() && |rs| == |m.running| && (c, [], rs, []) in RetireStates(m, 0)
  {
    var m := Abstract(maxBatch, c, waiting, rs);
    BatchIsDistinct(m, rs, c.tables);
    NothingDrained(m, c, rs);
  }

  lemma NothingRetired(rs: seq<Slot>)
    ensures Unfinished(rs[..0]) + rs[0..] == rs && Unfinished(rs[..0]) == [] && SlotIds(Completed(rs[..0])) == []
  {
    assert rs[..0] == [] && rs[0..] == rs && [] + rs == rs;
  }

  lemma {:induction false} RetiringHead(m: Machine, c: Cache, still: seq<Sequence>, rest: seq<Sequence>, j: nat, finished: seq<SeqId>)
    requires j < |m.running| && rest != [] && Retiring(m, c, still, rest, j, finished)
    ensures m.running[j].sequence == rest[0] && (still + rest)[|still|] == rest[0]
    ensures Slots(still + rest, c.tables)[|still|] == m.running[j]
  {
    SlotsAt(still + rest, c.tables, |still|);
  }

  lemma ShiftOne<T>(s: seq<T>, t: seq<T>)
    requires t != []
    ensures s + [t[0]] + t[1..] == s + t
  {
  }

  lemma {:induction false} RetiringKeeps(m: Machine, c: Cache, still: seq<Sequence>, rest: seq<Sequence>, j: nat, finished: seq<SeqId>)
    requires j < |m.running| && rest != [] && Retiring(m, c, still, rest, j, finished) && !rest[0].IsComplete()
    ensures Retiring(m, c, still + [rest[0]], rest[1..], j + 1, finished)
  {
    RetiringHead(m, c, still, rest, j, finished);
    PrefixShapes(m.running, j);
    ShiftOne(still, rest);
    ShiftOne(Unfinished(m.running[..j]), m.running[j..]);
    assert m.running[j..][0] == m.running[j] && m.running[j..][1..] == m.running[j + 1..];
  }

  lemma {:induction false} RetiringDrops(
    m: Machine, c: Cache, d: Cache, still: seq<Sequence>, rest: seq<Sequence>, j: nat, finished: seq<SeqId>)
    requires c.Valid() && j < |m.running| && rest != [] && Retiring(m, c, still, rest, j, finished) && rest[0].IsComplete()
    requires d == c.Free(rest[0].id)
    ensures Retiring(m, d, still, rest[1..], j + 1, finished + [rest[0].id])
  {
    var rs, v := still + rest, |still|;
    RetiringHead(m, c, still, rest, j, finished);
    PrefixShapes(m.running, j);
    SlotIdsConcat(Completed(m.running[..j]), [m.running[j]]);
    assert SlotIds([m.running[j]]) == [rest[0].id];
    FreeLinks(c, rs, v);
    assert rs[..v] + rs[v + 1..] == still + rest[1..];
    var slots := Slots(rs, c.tables);
    assert slots[..v] == Unfinished(m.running[..j]) && slots[v + 1..] == m.running[j + 1..];
  }

  lemma {:induction false} RetiringDone(m: Machine, c: Cache, still: seq<Sequence>, finished: seq<SeqId>)
    requires (c, still, [], finished) in RetireStates(m, |m.running|) && m in ValidMachines()
    ensures Abstract(m.maxBatch, c, m.waiting, still) == Retire(m)
    ensures Good(m.maxBatch, c, m.waiting, still)
    ensures finished == SlotIds(Completed(m.running))
  {
    assert still + [] == still;
    assert m.running[..|m.running|] == m.running;
    assert Unfinished(m.running) + [] == Unfinished(m.running);
    RetireValid(m);
  }
}

/** The scheduler object. */
module Schedulers {
  import opened Arith
  import opened Sums
  import opened Models
  import opened Batching
  import opened BatchingLaws
  import opened ScheduleLaws
  import opened SchedulerLinks
  import CacheStates
  import opened PagedCaches

  class Scheduler {
    const maxBatchSize: nat
    const cache: PagedKVCache
    var waiting: seq<Sequence>
    var running: seq<Sequence>

    ghost function View(): Machine
      reads this, cache
    {
      Abstract(maxBatchSize, cache.State(), waiting, running)
    }

    ghost predicate Valid()
      reads this, cache
    {
      Good(maxBatchSize, cache.State(), waiting, running)
    }

    constructor (maxBatchSize: nat, cache: PagedKVCache)
      requires cache.State() == CacheStates.Fresh(cache.numBlocks, cache.blockSize)
      ensures this.cache == cache && Valid()
      ensures View() == Empty(maxBatchSize, cache.blockSize, cache.numBlocks)
    {
      this.maxBatchSize := maxBatchSize;
      this.cache := cache;
      waiting := [];
      running := [];
      CacheStates.FreshValid(cache.numBlocks, cache.blockSize);
    }

    /** The caller keeps ids unique; the sequence joins the back of the queue. */
    method Submit(s: Sequence)
      requires Valid() && s.state == Waiting && forall c :: c in Cores(View()) ==> c.id != s.id
      modifies this`waiting
      ensures Valid() && View() == Batching.Submit(old(View()), s)
      ensures waiting == old(waiting) + [s]
    {
      SubmitValid(View(), s);
      waiting := waiting + [s];
    }

    method HasWork() returns (work: bool)
      ensures work == Batching.HasWork(View())
      ensures work <==> waiting != [] || running != []
    {
      work := waiting != [] || running != [];
    }

    // ---- Admission ----

    /** The temporary admit, the append, and the rollback when it fails. */
    method Place(id: SeqId, tokens: nat) returns (placed: bool)
      requires cache.State().Valid() && id !in cache.tables
      modifies cache
      ensures cache.State().Valid()
      ensures placed == old(cache.State()).Admit(id).CanAppend(id, tokens)
      ensures cache.State() ==
        if placed then old(cache.State()).Admit(id).Append(id, tokens) else old(cache.State())
      ensures placed ==> id in cache.tables && cache.tables[id].numTokens == tokens
    {
      ghost var c := cache.State();
      cache.Admit(id);
      var result := cache.Append(id, tokens);
      placed := result.Ok?;
      if !placed {
        CacheStates.AdmitThenFree(c, id);
        cache.Free(id);
      }
    }

    method AdmitFront() returns (placed: bool)
      requires Valid() && |running| < maxBatchSize && waiting != []
      modifies this, cache
      ensures Valid()
      ensures placed == CanAdmit(old(View()))
      ensures View() == if placed then AdmitOne(old(View())) else old(View())
      ensures placed <==> DivCeil(old(waiting)[0].TotalLen(), cache.blockSize) <= |old(cache.freeList)|
      ensures placed ==> waiting == old(waiting)[1..] && running == old(running) + [old(waiting)[0].(state := Running)]
      ensures !placed ==> waiting == old(waiting) && running == old(running) && cache.State() == old(cache.State())
    {
      ghost var c := cache.State();
      var next := waiting[0];
      PlaceDecidesAdmission(maxBatchSize, c, waiting, running);
      placed := Place(next.id, next.TotalLen());
      if placed {
        EnterFront(c);
      }
    }

    /** The front of the queue, placed in cache state `c`, joins the batch. */
    method EnterFront(ghost c: CacheStates.Cache)
      requires Good(maxBatchSize, c, waiting, running) && cache.State().Valid() && waiting != []
      requires CanAdmit(Abstract(maxBatchSize, c, waiting, running)) && waiting[0].id !in c.tables
      requires c.Admit(waiting[0].id).CanAppend(waiting[0].id, waiting[0].TotalLen())
      requires cache.State() == c.Admit(waiting[0].id).Append(waiting[0].id, waiting[0].TotalLen())
      modifies this`waiting, this`running
      ensures Valid() && View() == AdmitOne(Abstract(maxBatchSize, c, old(waiting), old(running)))
      ensures waiting == old(waiting)[1..] && running == old(running) + [old(waiting)[0].(state := Running)]
    {
      PlaceRefines(maxBatchSize, c, cache.State(), waiting, running);
      running := running + [waiting[0].(state := Running)];
      waiting := waiting[1..];
    }

    method Admission() returns (admitted: seq<SeqId>)
      requires Valid()
      modifies this, cache
      ensures Valid() && View() == Admitted(old(View()))
      ensures admitted == Ids(old(waiting)[..AdmitCount(old(View()))])
    {
      ghost var m := View();
      admitted := [];
      while |running| < maxBatchSize
        invariant Valid() && Admitting(m, View(), admitted)
        decreases |waiting|
      {
        if waiting == [] {
          break;
        }
        AdmittingOne(m, View(), admitted);
        var id := waiting[0].id;
        var placed := AdmitFront();
        if !placed {
          break;
        }
        admitted := admitted + [id];
      }
      AdmittingDone(m, View(), admitted);
    }

    // ---- Preemption ----

    /** Blocks the batch needs for one token each. */
    method BlocksWanted() returns (needed: nat)
      requires Valid()
      ensures needed == Demand(View())
    {
      ghost var rs := Slots(running, cache.tables);
      needed := 0;
      for i := 0 to |running|
        invariant needed == Sum(Wanted(cache.blockSize), rs[..i])
      {
        var s := running[i];
        NeededIsWanted(cache.State(), running, i);
        SumPrefix(Wanted(cache.blockSize), rs, i);
        assert rs[i] in View().running;
        if s.state == Running && !s.IsComplete() {
          var blocks := cache.BlocksNeededFor(s.id, 1);
          needed := needed + blocks;
        }
      }
      assert rs[..|running|] == rs;
    }

    /** `min_by_key` over the running sequences: least output, then largest id. */
    method FindVictim() returns (found: bool, v: nat)
      requires Valid()
      ensures found == (running != [])
      ensures found ==> v < |running| && v == VictimIndex(View().running)
      ensures found ==> forall j :: 0 <= j < |running| ==>
        && |running[v].output| <= |running[j].output|
        && (|running[v].output| == |running[j].output| ==> running[j].id <= running[v].id)
    {
      BatchIsRunning(View(), running, cache.tables);
      found, v := false, 0;
      for i := 0 to |running|
        invariant found == (i > 0) && (found ==> v < i)
        invariant found ==> forall j :: 0 <= j < i ==> !Below(running[j], running[v])
        invariant found ==> forall j :: 0 <= j < v ==> Below(running[v], running[j])
      {
        if running[i].state == Running && (!found || Below(running[i], running[v])) {
          found, v := true, i;
        }
      }
      if found {
        LeastIsVictim(running, cache.tables, v);
      }
    }

    method PreemptVictim(v: nat) returns (id: SeqId)
      requires Valid() && running != [] && v == VictimIndex(View().running)
      modifies this, cache
      ensures Valid() && View() == PreemptOne(old(View()))
      ensures id == Victim(old(View())).id && |running| < |old(running)|
      ensures waiting == [old(running)[v].(state := Preempted)] + old(waiting)
      ensures running == old(running)[..v] + old(running)[v + 1..]
    {
      ghost var c := cache.State();
      var victim := running[v];
      id := victim.id;
      SlotsAt(running, cache.tables, v);
      cache.Free(id);
      PreemptRefines(maxBatchSize, c, cache.State(), waiting, running, v);
      running := running[..v] + running[v + 1..];
      waiting := [victim.(state := Preempted)] + waiting;
    }

    /** One turn of the preemption loop: done, or one victim the fewer. */
    method PreemptOnce() returns (done: bool, id: SeqId)
      requires Valid()
      modifies this, cache
      ensures Valid() && done == !MustPreempt(old(View()))
      ensures View() == if done then old(View()) else PreemptOne(old(View()))
      ensures !done ==> id == Victim(old(View())).id && |running| < |old(running)|
    {
      id := 0;
      var needed := BlocksWanted();
      done := needed <= |cache.freeList| || running == [];
      if !done {
        var found, v := FindVictim();
        id := PreemptVictim(v);
      }
    }

    method Preemption() returns (preempted: seq<SeqId>)
      requires Valid()
      modifies this, cache
      ensures Valid() && View() == Relieved(old(View()))
      ensures preempted == Ids(Victims(old(View()), PreemptCount(old(View()))))
    {
      ghost var m := View();
      preempted := [];
      while true
        invariant Valid() && Preempting(m, View(), preempted)
        decreases |running|
      {
        PreemptingOne(m, View(), preempted);
        var done, id := PreemptOnce();
        if done {
          break;
        }
        preempted := preempted + [id];
      }
      PreemptingDone(m, View(), preempted);
    }

    // ---- Commit and retire ----

    /** Reserve one member's next token; the append cannot fail. */
    method CommitMember(ghost m: Machine, i: nat, decode: seq<SeqId>) returns (decode': seq<SeqId>)
      requires i < |running| && (cache.State(), decode) in CommitStates(m, running, i)
      modifies cache
      ensures (cache.State(), decode') in CommitStates(m, running, i + 1)
    {
      ghost var c := cache.State();
      var s := running[i];
      CommitHasRoom(m, c, running, i, decode);
      if s.state != Running || s.IsComplete() {
        CommittingSkips(m, c, running, i, decode);
        return decode;
      }
      var result := cache.Append(s.id, 1);
      if result.Ok? {
        CommittingAppends(m, c, cache.State(), running, i, decode);
        decode' := decode + [s.id];
      } else {
        assert false;
      }
    }

    method CommitMembers(ghost m: Machine) returns (decode: seq<SeqId>)
      requires (cache.State(), []) in CommitStates(m, running, 0)
      modifies cache
      ensures (cache.State(), decode) in CommitStates(m, running, |running|)
    {
      decode := [];
      for i := 0 to |running|
        invariant (cache.State(), decode) in CommitStates(m, running, i)
      {
        decode := CommitMember(m, i, decode);
      }
    }

    /** Reserve the next token of every unfinished member. */
    method CommitBatch() returns (decode: seq<SeqId>)
      requires Valid() && !MustPreempt(View())
      modifies cache
      ensures cache.State().Valid() && Linked(cache.State(), running)
      ensures View() == Commit(old(View()))
      ensures decode == SlotIds(Unfinished(old(View()).running))
    {
      ghost var m := View();
      CommittingStarts(maxBatchSize, cache.State(), waiting, running);
      decode := CommitMembers(m);
      CommittingDone(maxBatchSize, m, cache.State(), running, decode);
    }

    /** Keep an unfinished member; free a complete one. */
    method RetireMember(ghost m: Machine, ghost j: nat, s: Sequence, still: seq<Sequence>, ghost rest: seq<Sequence>, finished: seq<SeqId>)
      returns (still': seq<Sequence>, finished': seq<SeqId>)
      requires j < |m.running| && rest != [] && s == rest[0]
      requires (cache.State(), still, rest, finished) in RetireStates(m, j)
      modifies cache
      ensures (cache.State(), still', rest[1..], finished') in RetireStates(m, j + 1)
    {
      ghost var c := cache.State();
      if s.IsComplete() {
        cache.Free(s.id);
        RetiringDrops(m, c, cache.State(), still, rest, j, finished);
        still', finished' := still, finished + [s.id];
      } else {
        RetiringKeeps(m, c, still, rest, j, finished);
        still', finished' := still + [s], finished;
      }
    }

    method RetireMembers(ghost m: Machine) returns (still: seq<Sequence>, finished: seq<SeqId>)
      requires |running| == |m.running| && (cache.State(), [], running, []) in RetireStates(m, 0)
      modifies cache
      ensures (cache.State(), still, [], finished) in RetireStates(m, |m.running|)
    {
      still, finished := [], [];
      assert running[0..] == running;
      for j := 0 to |running|
        invariant (cache.State(), still, running[j..], finished) in RetireStates(m, j)
      {
        still, finished := RetireMember(m, j, running[j], still, running[j..], finished);
        assert running[j..][1..] == running[j + 1..];
      }
      assert running[|running|..] == [];
    }

    /** Drop the complete members, freeing their blocks. */
    method RetireBatch() returns (finished: seq<SeqId>)
      requires cache.State().Valid() && Linked(cache.State(), running) && Batching.Valid(View())
      modifies this, cache
      ensures Valid() && View() == Retire(old(View()))
      ensures finished == SlotIds(Completed(old(View()).running))
    {
      ghost var m := View();
      RetiringStarts(maxBatchSize, cache.State(), waiting, running);
      running, finished := RetireMembers(m);
      RetiringDone(m, cache.State(), running, finished);
    }

    /** One scheduling iteration. */
    method Schedule() returns (plan: Plan)
      requires Valid()
      modifies this, cache
      ensures Valid()
      ensures View() == Batching.Schedule(old(View())).0
      ensures plan == Batching.Schedule(old(View())).1
    {
      ghost var m := View();
      var admitted := Admission();
      var preempted := Preemption();
      RelievedValid(Admitted(m));
      CommitValid(Batch(m));
      var decode := CommitBatch();
      var finished := RetireBatch();
      GrownCompleted(Batch(m).running);
      plan := Plan(admitted, decode, preempted, finished);
    }

    // ---- Feeding tokens back ----

    /** `running_seq_mut`: the first running sequence with the id. */
    method FindRunning(id: SeqId) returns (found: bool, i: nat)
      ensures found ==> i < |running| && running[i].id == id && forall j :: 0 <= j < i ==> running[j].id != id
      ensures !found ==> forall j :: 0 <= j < |running| ==> running[j].id != id
    {
      found, i := false, 0;
      while i < |running|
        invariant i <= |running| && forall j :: 0 <= j < i ==> running[j].id != id
      {
        if running[i].id == id {
          return true, i;
        }
        i := i + 1;
      }
    }

    /** Append a generated token to a running sequence; an id that is not running is ignored. */
    method PushToken(id: SeqId, token: TokenId, isEos: bool)
      requires Valid()
      modifies this`running
      ensures Valid()
      ensures (forall j :: 0 <= j < |old(running)| ==> old(running)[j].id != id) ==> running == old(running)
      ensures forall i :: 0 <= i < |old(running)| && old(running)[i].id == id ==>
        View() == Pushed(old(View()), i, token, isEos)
      ensures forall i :: 0 <= i < |old(running)| && old(running)[i].id == id ==>
        var s := old(running)[i];
        running == old(running)[i := Sequence(s.id, s.prompt, s.output + [token], if isEos then |s.output| + 1 else s.maxNew, s.state)]
    {
      var found, i := FindRunning(id);
      if found {
        forall k | 0 <= k < |running| && running[k].id == id
          ensures k == i
        {
          OnlyIndex(View(), running, cache.tables, i, k);
        }
        PushAt(i, token, isEos);
      }
    }

    method PushAt(i: nat, token: TokenId, isEos: bool)
      requires Valid() && i < |running|
      modifies this`running
      ensures Valid() && View() == Pushed(old(View()), i, token, isEos)
      ensures var s := old(running)[i];
        running == old(running)[i := Sequence(s.id, s.prompt, s.output + [token], if isEos then |s.output| + 1 else s.maxNew, s.state)]
    {
      PushRefines(maxBatchSize, cache.State(), waiting, running, i, token, isEos);
      var s := running[i];
      var output := s.output + [token];
      running := running[i := s.(output := output, maxNew := if isEos then |output| else s.maxNew)];
    }
  }

  lemma OnlyIndex(m: Machine, rs: seq<Sequence>, tables: map<SeqId, CacheStates.BlockTable>, i: nat, k: nat)
    requires Distinct(Cores(m)) && m.running == Slots(rs, tables)
    requires i < |rs| && k < |rs| && rs[k].id == rs[i].id
    ensures k == i
  {
    BatchIsDistinct(m, rs, tables);
  }

  /** The machine with one token given to the `i`-th member of the batch. */
  ghost function Pushed(m: Machine, i: nat, token: TokenId, isEos: bool): Machine
    requires i < |m.running|
  {
    m.(running := m.running[i := m.running[i].(sequence := Push(m.running[i].sequence, token, isEos))])
  }

  lemma {:induction false} SlotsUpdate(rs: seq<Sequence>, tables: map<SeqId, CacheStates.BlockTable>, i: nat, s: Sequence)
    requires i < |rs| && s.id == rs[i].id
    ensures Slots(rs[i := s], tables) == Slots(rs, tables)[i := Slot(s, CachedTokens(tables, s.id))]
    ensures IdSet(rs[i := s]) == IdSet(rs)
  {
    if i == 0 {
      assert rs[i := s][1..] == rs[1..];
    } else {
      assert rs[i := s][1..] == rs[1..][i - 1 := s];
      SlotsUpdate(rs[1..], tables, i - 1, s);
    }
  }

  lemma PushedCores(m: Machine, i: nat, token: TokenId, isEos: bool) returns (b: multiset<Sequence>)
    requires i < |m.running|
    ensures Cores(m) == b + multiset{m.running[i].sequence.Core()}
    ensures Cores(Pushed(m, i, token, isEos)) == b + multiset{Pushed(m, i, token, isEos).running[i].sequence.Core()}
  {
    var rs, rs' := m.running, Pushed(m, i, token, isEos).running;
    var w, o := Bag(m.waiting), SlotBag(rs[..i] + rs[i + 1..]);
    SlotBagRemove(rs, i);
    SlotBagRemove(rs', i);
    assert rs'[..i] + rs'[i + 1..] == rs[..i] + rs[i + 1..];
    b := w + o;
    BagSwap(w, o, multiset{rs[i].sequence.Core()});
    BagSwap(w, o, multiset{rs'[i].sequence.Core()});
  }

  lemma BagSwap(w: multiset<Sequence>, o: multiset<Sequence>, x: multiset<Sequence>)
    ensures w + (x + o) == (w + o) + x
  {
  }

  lemma PushedDistinct(m: Machine, i: nat, token: TokenId, isEos: bool)
    requires Distinct(Cores(m)) && i < |m.running|
    ensures Distinct(Cores(Pushed(m, i, token, isEos)))
  {
    var b := PushedCores(m, i, token, isEos);
    ReplaceDistinct(b, m.running[i].sequence.Core(), Pushed(m, i, token, isEos).running[i].sequence.Core());
  }

  lemma PushedValid(m: Machine, i: nat, token: TokenId, isEos: bool)
    requires Batching.Valid(m) && i < |m.running|
    ensures Batching.Valid(Pushed(m, i, token, isEos))
    ensures Sum(Held(m.blockSize), Pushed(m, i, token, isEos).running) == Sum(Held(m.blockSize), m.running)
  {
    PushedDistinct(m, i, token, isEos);
    SumUpdate(Held(m.blockSize), m.running, i, Pushed(m, i, token, isEos).running[i]);
    assert m.running[i] in m.running;
  }

  lemma {:induction false} PushRefines(
    maxBatch: nat, c: CacheStates.Cache, waiting: seq<Sequence>, rs: seq<Sequence>, i: nat, token: TokenId, isEos: bool)
    requires Good(maxBatch, c, waiting, rs) && i < |rs|
    ensures Good(maxBatch, c, waiting, rs[i := Push(rs[i], token, isEos)])
    ensures Abstract(maxBatch, c, waiting, rs[i := Push(rs[i], token, isEos)])
         == Pushed(Abstract(maxBatch, c, waiting, rs), i, token, isEos)
  {
    SlotsAt(rs, c.tables, i);
    SlotsUpdate(rs, c.tables, i, Push(rs[i], token, isEos));
    PushedValid(Abstract(maxBatch, c, waiting, rs), i, token, isEos);
  }

  lemma LeastIsVictim(rs: seq<Sequence>, tables: map<SeqId, CacheStates.BlockTable>, v: nat)
    requires v < |rs|
    requires forall j :: 0 <= j < |rs| ==> !Below(rs[j], rs[v])
    requires forall j :: 0 <= j < v ==> Below(rs[v], rs[j])
    ensures v == VictimIndex(Slots(rs, tables))
  {
    SlotSequences(rs, tables);
    assert IsVictim(Slots(rs, tables), v);
    VictimUnique(Slots(rs, tables), v);
  }

  lemma SlotSequences(rs: seq<Sequence>, tables: map<SeqId, CacheStates.BlockTable>)
    ensures forall i :: 0 <= i < |rs| ==> Slots(rs, tables)[i].sequence == rs[i]
  {
    forall i | 0 <= i < |rs|
      ensures Slots(rs, tables)[i].sequence == rs[i]
    {
      SlotsAt(rs, tables, i);
    }
  }

  ghost predicate Preempting(m: Machine, v: Machine, preempted: seq<SeqId>) {
    && Relieved(v) == Relieved(m)
    && Ids(Victims(m, PreemptCount(m))) == preempted + Ids(Victims(v, PreemptCount(v)))
  }

  lemma PreemptingOne(m: Machine, v: Machine, preempted: seq<SeqId>)
    requires Preempting(m, v, preempted)
    ensures MustPreempt(v) ==> Preempting(m, PreemptOne(v), preempted + [Victim(v).id])
  {
    RelievedStep(v);
    if MustPreempt(v) {
      var n := PreemptOne(v);
      assert Victims(v, PreemptCount(v))[1..] == Victims(n, PreemptCount(n));
      assert preempted + ([Victim(v).id] + Ids(Victims(n, PreemptCount(n)))) == preempted + [Victim(v).id] + Ids(Victims(n, PreemptCount(n)));
    }
  }

  lemma PreemptingDone(m: Machine, v: Machine, preempted: seq<SeqId>)
    requires Preempting(m, v, preempted) && !MustPreempt(v)
    ensures v == Relieved(m) && preempted == Ids(Victims(m, PreemptCount(m)))
  {
    RelievedStep(v);
    assert preempted + [] == preempted;
  }

  /** `v` is reached from `m` by admitting `admitted`, and admission goes on from there. */
  ghost predicate Admitting(m: Machine, v: Machine, admitted: seq<SeqId>) {
    && Admitted(v) == Admitted(m)
    && |admitted| + AdmitCount(v) == AdmitCount(m)
    && v.waiting == m.waiting[|admitted|..]
    && admitted == Ids(m.waiting[..|admitted|])
  }

  lemma AdmittingOne(m: Machine, v: Machine, admitted: seq<SeqId>)
    requires Admitting(m, v, admitted) && v.waiting != []
    ensures CanAdmit(v) ==> Admitting(m, AdmitOne(v), admitted + [v.waiting[0].id])
  {
    AdmittedStep(v);
    IdsSnoc(m.waiting, |admitted|);
  }

  lemma AdmittingDone(m: Machine, v: Machine, admitted: seq<SeqId>)
    requires Admitting(m, v, admitted) && !CanAdmit(v)
    ensures v == Admitted(m) && admitted == Ids(m.waiting[..AdmitCount(m)])
  {
    AdmittedStep(v);
  }

  lemma IdsSnoc(ss: seq<Sequence>, n: nat)
    requires n < |ss|
    ensures Ids(ss[..n + 1]) == Ids(ss[..n]) + [ss[n].id]
  {
    IdsAt(ss[..n + 1]);
    IdsAt(ss[..n]);
  }
}
