/** Laws of one scheduling iteration: what it conserves, whom it preempts, and the
    validity of the machine it leaves. */
module BatchingLaws {
  import opened Arith
  import opened Sums
  import opened Models
  import opened Batching

  // ---- Element by element ----

  lemma SplitAt<T>(s: seq<T>, v: nat)
    requires v < |s|
    ensures s == s[..v] + ([s[v]] + s[v + 1..])
  {
  }

  lemma {:induction false} IdsAt(ss: seq<Sequence>)
    ensures forall i :: 0 <= i < |ss| ==> Ids(ss)[i] == ss[i].id
  {
    if ss != [] {
      IdsAt(ss[1..]);
    }
  }

  lemma {:induction false} SlotIdsAt(rs: seq<Slot>)
    ensures forall i :: 0 <= i < |rs| ==> SlotIds(rs)[i] == rs[i].sequence.id
  {
    if rs != [] {
      SlotIdsAt(rs[1..]);
    }
  }

  lemma {:induction false} GrownAt(rs: seq<Slot>)
    ensures forall i :: 0 <= i < |rs| ==> Grown(rs)[i] == Grow(rs[i])
  {
    if rs != [] {
      GrownAt(rs[1..]);
    }
  }

  lemma {:induction false} DecodedAt(model: Model, rs: seq<Slot>)
    ensures forall i :: 0 <= i < |rs| ==> DecodedAll(model, rs)[i] == Decoded(model, rs[i])
  {
    if rs != [] {
      DecodedAt(model, rs[1..]);
    }
  }

  /** The recursive choice of the victim is the first least ranked slot. */
  lemma {:induction false} VictimIsLeast(rs: seq<Slot>)
    requires rs != []
    ensures IsVictim(rs, VictimIndex(rs))
    ensures var s := rs[VictimIndex(rs)].sequence;
      forall i :: 0 <= i < |rs| ==>
        && |s.output| <= |rs[i].sequence.output|
        && (|s.output| == |rs[i].sequence.output| ==> s.id >= rs[i].sequence.id)
  {
    var n := |rs| - 1;
    if n > 0 {
      VictimIsLeast(rs[..n]);
      assert forall i :: 0 <= i < n ==> rs[..n][i] == rs[i];
    }
  }

  // ---- Bags of sequences ----

  lemma {:induction false} BagConcat(s: seq<Sequence>, t: seq<Sequence>)
    ensures Bag(s + t) == Bag(s) + Bag(t)
  {
    if s == [] {
      assert s + t == t;
    } else {
      assert (s + t)[1..] == s[1..] + t;
      BagConcat(s[1..], t);
    }
  }

  lemma BagOne(x: Sequence)
    ensures Bag([x]) == multiset{x.Core()}
  {
  }

  lemma {:induction false} SlotBagConcat(s: seq<Slot>, t: seq<Slot>)
    ensures SlotBag(s + t) == SlotBag(s) + SlotBag(t)
  {
    if s == [] {
      assert s + t == t;
    } else {
      assert (s + t)[1..] == s[1..] + t;
      SlotBagConcat(s[1..], t);
    }
  }

  lemma SlotBagOne(x: Slot)
    ensures SlotBag([x]) == multiset{x.sequence.Core()}
  {
  }

  lemma SlotBagRemove(s: seq<Slot>, i: nat)
    requires i < |s|
    ensures SlotBag(s) == multiset{s[i].sequence.Core()} + SlotBag(s[..i] + s[i + 1..])
  {
    SplitAt(s, i);
    SlotBagConcat(s[..i], [s[i]] + s[i + 1..]);
    SlotBagConcat([s[i]], s[i + 1..]);
    SlotBagConcat(s[..i], s[i + 1..]);
    SlotBagOne(s[i]);
  }

  lemma {:induction false} BagMember(s: seq<Sequence>, c: Sequence)
    ensures c in Bag(s) <==> exists i :: 0 <= i < |s| && s[i].Core() == c
  {
    if s != [] {
      BagMember(s[1..], c);
      assert forall i :: 0 <= i < |s| - 1 ==> s[1..][i] == s[i + 1];
      if i :| 0 <= i < |s| && s[i].Core() == c {
        if i > 0 {
          assert s[1..][i - 1].Core() == c;
        }
      }
    }
  }

  lemma {:induction false} SlotBagMember(s: seq<Slot>, c: Sequence)
    ensures c in SlotBag(s) <==> exists i :: 0 <= i < |s| && s[i].sequence.Core() == c
  {
    if s != [] {
      SlotBagMember(s[1..], c);
      assert forall i :: 0 <= i < |s| - 1 ==> s[1..][i] == s[i + 1];
      if i :| 0 <= i < |s| && s[i].sequence.Core() == c {
        if i > 0 {
          assert s[1..][i - 1].sequence.Core() == c;
        }
      }
    }
  }

  lemma DistinctPart(b: multiset<Sequence>, part: multiset<Sequence>)
    requires Distinct(b) && part <= b
    ensures Distinct(part)
  {
    assert forall c :: part[c] <= b[c];
  }

  lemma DistinctAdd(b: multiset<Sequence>, c: Sequence)
    requires Distinct(b) && forall d :: d in b ==> d.id != c.id
    ensures Distinct(b + multiset{c})
  {
  }

  lemma ReplaceDistinct(b: multiset<Sequence>, x: Sequence, y: Sequence)
    requires Distinct(b + multiset{x}) && x.id == y.id
    ensures Distinct(b + multiset{y})
  {
    var bx := b + multiset{x};
    assert bx[x] == b[x] + 1;
    forall d | d in b
      ensures d.id != y.id
    {
      assert d in bx && x in bx;
    }
    DistinctPart(bx, b);
    DistinctAdd(b, y);
  }

  // ---- Submission ----

  lemma SubmitCores(m: Machine, s: Sequence)
    ensures Cores(Submit(m, s)) == Cores(m) + multiset{s.Core()}
  {
    BagConcat(m.waiting, [s]);
    BagOne(s);
  }

  lemma SubmitValid(m: Machine, s: Sequence)
    requires Valid(m) && s.state == Waiting && forall c :: c in Cores(m) ==> c.id != s.id
    ensures Valid(Submit(m, s))
  {
    SubmitCores(m, s);
    DistinctAdd(Cores(m), s.Core());
  }

  // ---- Admission ----

  lemma AdmitOneKeepsCores(m: Machine)
    requires m.waiting != []
    ensures Cores(AdmitOne(m)) == Cores(m)
  {
    SlotBagConcat(m.running, [Enter(m.waiting[0])]);
    SlotBagOne(Enter(m.waiting[0]));
  }

  lemma AdmitOneUses(m: Machine)
    requires m.waiting != []
    ensures Used(AdmitOne(m)) == Used(m) + Blocks(m.waiting[0].TotalLen(), m.blockSize)
  {
    SumAppend(Held(m.blockSize), m.running, Enter(m.waiting[0]));
  }

  lemma AdmitOneValid(m: Machine)
    requires Valid(m) && CanAdmit(m)
    ensures Valid(AdmitOne(m)) && Cores(AdmitOne(m)) == Cores(m)
  {
    AdmitOneUses(m);
    AdmitOneKeepsCores(m);
  }

  lemma {:induction false} AdmittedShape(m: Machine, k: nat)
    requires k <= |m.waiting|
    ensures var n := AdmitTimes(m, k);
      && n.waiting == m.waiting[k..]
      && |n.running| == |m.running| + k
      && n.running[..|m.running|] == m.running
      && (forall i :: 0 <= i < k ==> n.running[|m.running| + i] == Enter(m.waiting[i]))
      && n == m.(waiting := n.waiting, running := n.running, peak := n.peak)
    decreases k
  {
    if k > 0 {
      AdmittedShape(AdmitOne(m), k - 1);
      var n := AdmitTimes(m, k);
      assert n.running[|m.running|] == n.running[..|m.running| + 1][|m.running|];
    }
  }

  lemma AdmittedStep(m: Machine)
    ensures Admitted(m) == if CanAdmit(m) then Admitted(AdmitOne(m)) else m
  {
  }

  lemma {:induction false} AdmittedValid(m: Machine)
    requires Valid(m)
    ensures Valid(Admitted(m)) && Cores(Admitted(m)) == Cores(m) && !CanAdmit(Admitted(m))
    decreases |m.waiting|
  {
    AdmittedStep(m);
    if CanAdmit(m) {
      AdmitOneValid(m);
      AdmittedValid(AdmitOne(m));
    }
  }

  // ---- Preemption ----

  lemma PreemptOneKeepsCores(m: Machine)
    requires m.running != []
    ensures Cores(PreemptOne(m)) == Cores(m)
  {
    var n := PreemptOne(m);
    SlotBagRemove(m.running, VictimIndex(m.running));
    BagConcat([n.waiting[0]], m.waiting);
    BagOne(n.waiting[0]);
  }

  lemma PreemptOneUses(m: Machine)
    requires m.running != []
    ensures Used(m) == Used(PreemptOne(m)) + Blocks(m.running[VictimIndex(m.running)].cached, m.blockSize)
  {
    SumRemove(Held(m.blockSize), m.running, VictimIndex(m.running));
  }

  lemma PreemptOneValid(m: Machine)
    requires Valid(m) && m.running != []
    ensures Valid(PreemptOne(m)) && Cores(PreemptOne(m)) == Cores(m)
  {
    PreemptOneUses(m);
    PreemptOneKeepsCores(m);
  }

  lemma RelievedStep(m: Machine)
    ensures Relieved(m) == if MustPreempt(m) then Relieved(PreemptOne(m)) else m
  {
  }

  lemma {:induction false} RelievedValid(m: Machine)
    requires Valid(m)
    ensures Valid(Relieved(m)) && Cores(Relieved(m)) == Cores(m) && !MustPreempt(Relieved(m))
    decreases |m.running|
  {
    RelievedStep(m);
    if MustPreempt(m) {
      PreemptOneValid(m);
      RelievedValid(PreemptOne(m));
    }
  }

  // ---- Commit and retire ----

  lemma {:induction false} GrownUses(rs: seq<Slot>, blockSize: pos)
    ensures Sum(Held(blockSize), Grown(rs)) == Sum(Held(blockSize), rs) + Sum(Wanted(blockSize), rs)
  {
    if rs != [] {
      GrownUses(rs[1..], blockSize);
      assert Grown(rs)[1..] == Grown(rs[1..]);
      BlocksSucc(rs[0].cached, blockSize);
    }
  }

  lemma {:induction false} SumParts(w: Slot -> nat, rs: seq<Slot>)
    ensures Sum(w, rs) == Sum(w, Unfinished(rs)) + Sum(w, Completed(rs))
  {
    if rs != [] {
      SumParts(w, rs[1..]);
    }
  }

  lemma BagShuffle(x: multiset<Sequence>, u: multiset<Sequence>, c: multiset<Sequence>)
    ensures x + (u + c) == (x + u) + c == u + (x + c)
  {
  }

  lemma {:induction false} BagParts(rs: seq<Slot>)
    ensures SlotBag(rs) == SlotBag(Unfinished(rs)) + SlotBag(Completed(rs))
  {
    if rs != [] {
      var rest := rs[1..];
      BagParts(rest);
      BagShuffle(multiset{rs[0].sequence.Core()}, SlotBag(Unfinished(rest)), SlotBag(Completed(rest)));
    }
  }

  lemma {:induction false} GrownBag(rs: seq<Slot>)
    ensures SlotBag(Grown(rs)) == SlotBag(rs)
  {
    if rs != [] {
      GrownBag(rs[1..]);
      assert Grown(rs)[1..] == Grown(rs[1..]);
    }
  }

  lemma {:induction false} UnfinishedConcat(s: seq<Slot>, t: seq<Slot>)
    ensures Unfinished(s + t) == Unfinished(s) + Unfinished(t)
  {
    if s == [] {
      assert s + t == t;
    } else {
      assert (s + t)[1..] == s[1..] + t;
      UnfinishedConcat(s[1..], t);
    }
  }

  lemma {:induction false} CompletedConcat(s: seq<Slot>, t: seq<Slot>)
    ensures Completed(s + t) == Completed(s) + Completed(t)
  {
    if s == [] {
      assert s + t == t;
    } else {
      assert (s + t)[1..] == s[1..] + t;
      CompletedConcat(s[1..], t);
    }
  }

  lemma {:induction false} PartsMembers(rs: seq<Slot>)
    ensures forall r :: r in Unfinished(rs) ==> r in rs && !r.sequence.IsComplete()
    ensures forall r :: r in Completed(rs) ==> r in rs && r.sequence.IsComplete()
    ensures |Unfinished(rs)| + |Completed(rs)| == |rs|
  {
    if rs != [] {
      PartsMembers(rs[1..]);
    }
  }

  lemma GrownStates(rs: seq<Slot>)
    requires forall r :: r in rs ==> r.sequence.state == Running
    ensures forall r :: r in Grown(rs) ==> r.sequence.state == Running
  {
    GrownAt(rs);
    forall r | r in Grown(rs)
      ensures r.sequence.state == Running
    {
      var i :| 0 <= i < |Grown(rs)| && Grown(rs)[i] == r;
      assert rs[i] in rs;
    }
  }

  lemma CommitValid(m: Machine)
    requires Valid(m) && !MustPreempt(m)
    ensures Valid(Commit(m)) && Cores(Commit(m)) == Cores(m)
    ensures Used(Commit(m)) == Used(m) + Demand(m)
  {
    GrownUses(m.running, m.blockSize);
    GrownBag(m.running);
    GrownStates(m.running);
  }

  lemma RetireValid(m: Machine)
    requires Valid(m)
    ensures Valid(Retire(m))
    ensures Cores(m) == Cores(Retire(m)) + SlotBag(Completed(m.running))
  {
    SumParts(Held(m.blockSize), m.running);
    PartsMembers(m.running);
    BagParts(m.running);
    DistinctPart(Cores(m), Cores(Retire(m)));
  }
}
