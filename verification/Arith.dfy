/** Ceiling division and sums, the arithmetic behind block counting. */
module Arith {

  type pos = n: nat | n > 0 witness 1

  function Max(x: nat, y: nat): nat {
    if x < y then y else x
  }

  /** The number of blocks of size `b` that hold `n` tokens, counted block by block. */
  function Blocks(n: nat, b: pos): nat
    decreases n
  {
    if n == 0 then 0 else if n <= b then 1 else 1 + Blocks(n - b, b)
  }

  /** Rust's `n.div_ceil(b)`. */
  function DivCeil(n: nat, b: pos): nat {
    (n + b - 1) / b
  }

  lemma {:induction false} BlocksBounds(n: nat, b: pos)
    ensures n <= Blocks(n, b) * b < n + b
    decreases n
  {
    if n > b {
      BlocksBounds(n - b, b);
      assert Blocks(n, b) * b == Blocks(n - b, b) * b + b;
    }
  }

  /** Counting block by block is ceiling division. */
  lemma DivCeilCountsBlocks(n: nat, b: pos)
    ensures DivCeil(n, b) == Blocks(n, b)
  {
    var x := n + b - 1;
    assert x == b * (x / b) + x % b;
    assert n <= DivCeil(n, b) * b < n + b;
    BlocksUnique(n, b, DivCeil(n, b));
  }

  lemma {:induction false} MulStep(i: nat, j: nat, b: nat)
    ensures i <= j ==> i * b <= j * b
    ensures i < j ==> i * b + b <= j * b
    decreases j
  {
    if i < j {
      MulStep(i, j - 1, b);
      Distribute(j - 1, 1, b);
    }
  }

  lemma Distribute(j: nat, k: nat, b: nat)
    ensures (j + k) * b == j * b + k * b
  {
  }

  lemma BlocksUnique(n: nat, b: pos, k: nat)
    requires n <= k * b < n + b
    ensures k == Blocks(n, b)
  {
    BlocksBounds(n, b);
    MulStep(k, Blocks(n, b), b);
    MulStep(Blocks(n, b), k, b);
  }

  lemma BlocksMonotone(m: nat, n: nat, b: pos)
    requires m <= n
    ensures Blocks(m, b) <= Blocks(n, b)
  {
    BlocksBounds(m, b);
    BlocksBounds(n, b);
    MulStep(Blocks(n, b), Blocks(m, b), b);
  }

  /** `n` tokens fit in `k` blocks exactly when the block count does. */
  lemma BlocksFit(n: nat, b: pos, k: nat)
    ensures Blocks(n, b) <= k <==> n <= k * b
  {
    BlocksBounds(n, b);
    MulStep(Blocks(n, b), k, b);
    MulStep(k, Blocks(n, b), b);
  }

  /** One more token needs at most one more block, and needs it exactly when the
      last block is full. */
  lemma BlocksSucc(n: nat, b: pos)
    ensures Blocks(n, b) <= Blocks(n + 1, b) <= Blocks(n, b) + 1
    ensures Blocks(n + 1, b) == Blocks(n, b) + 1 <==> n == Blocks(n, b) * b
  {
    BlocksBounds(n, b);
    var k := Blocks(n, b);
    if n == k * b {
      assert (k + 1) * b == k * b + b;
      BlocksUnique(n + 1, b, k + 1);
    } else {
      BlocksUnique(n + 1, b, k);
    }
  }

  /** The slack computation agrees with recounting the blocks from scratch. */
  lemma BlocksGrow(n: nat, extra: nat, b: pos)
    ensures n <= Blocks(n, b) * b
    ensures var slack := Blocks(n, b) * b - n;
      Blocks(n + extra, b) == Blocks(n, b) + if extra <= slack then 0 else Blocks(extra - slack, b)
  {
    BlocksBounds(n, b);
    var k := Blocks(n, b);
    var slack := k * b - n;
    if extra <= slack {
      BlocksUnique(n + extra, b, k);
    } else {
      BlocksFill(k, extra - slack, b);
      assert k * b + (extra - slack) == n + extra;
    }
  }

  lemma BlocksFill(k: nat, more: nat, b: pos)
    ensures Blocks(k * b + more, b) == k + Blocks(more, b)
  {
    BlocksBounds(more, b);
    Distribute(k, Blocks(more, b), b);
    BlocksUnique(k * b + more, b, k + Blocks(more, b));
  }
}

/** Sums of a weight over a sequence. */
module Sums {
  lemma Associate<T>(a: seq<T>, b: seq<T>, c: seq<T>)
    ensures (a + b) + c == a + (b + c)
  {
  }

  function Sum<T>(w: T -> nat, s: seq<T>): nat {
    if s == [] then 0 else w(s[0]) + Sum(w, s[1..])
  }

  lemma SumConcat<T>(w: T -> nat, s: seq<T>, t: seq<T>)
    ensures Sum(w, s + t) == Sum(w, s) + Sum(w, t)
  {
    if s == [] {
      assert s + t == t;
    } else {
      assert (s + t)[1..] == s[1..] + t;
      SumConcat(w, s[1..], t);
    }
  }

  lemma SumOne<T>(w: T -> nat, x: T)
    ensures Sum(w, [x]) == w(x)
  {
    assert Sum(w, [x][1..]) == 0;
  }

  lemma SumAppend<T>(w: T -> nat, s: seq<T>, x: T)
    ensures Sum(w, s + [x]) == Sum(w, s) + w(x)
  {
    SumConcat(w, s, [x]);
    SumOne(w, x);
  }

  lemma SumMiddle<T>(w: T -> nat, before: seq<T>, x: T, after: seq<T>)
    ensures Sum(w, (before + [x]) + after) == w(x) + Sum(w, before + after)
  {
    SumConcat(w, before + [x], after);
    SumAppend(w, before, x);
    SumConcat(w, before, after);
  }

  lemma SumRemove<T>(w: T -> nat, s: seq<T>, i: nat)
    requires i < |s|
    ensures Sum(w, s) == w(s[i]) + Sum(w, s[..i] + s[i + 1..])
  {
    assert s == (s[..i] + [s[i]]) + s[i + 1..];
    SumMiddle(w, s[..i], s[i], s[i + 1..]);
  }

  lemma SumAtMost<T>(w: T -> nat, s: seq<T>, bound: nat)
    requires forall x :: x in s ==> w(x) <= bound
    ensures Sum(w, s) <= |s| * bound
  {
    if s != [] {
      assert s[0] in s;
      assert forall x :: x in s[1..] ==> x in s;
      SumAtMost(w, s[1..], bound);
      assert |s| * bound == bound + (|s| - 1) * bound;
    }
  }

  lemma SumSplit<T>(u: T -> nat, v: T -> nat, w: T -> nat, s: seq<T>)
    requires forall x :: x in s ==> w(x) == u(x) + v(x)
    ensures Sum(w, s) == Sum(u, s) + Sum(v, s)
  {
    if s != [] {
      assert s[0] in s;
      assert forall x :: x in s[1..] ==> x in s;
      SumSplit(u, v, w, s[1..]);
    }
  }

  lemma {:induction false} SumMonotone<T>(u: T -> nat, v: T -> nat, s: seq<T>)
    requires forall x :: x in s ==> u(x) <= v(x)
    ensures Sum(u, s) <= Sum(v, s)
  {
    if s != [] {
      assert s[0] in s;
      assert forall x :: x in s[1..] ==> x in s;
      SumMonotone(u, v, s[1..]);
    }
  }
}
