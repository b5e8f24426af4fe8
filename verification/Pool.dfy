/**
 The round-robin worker pool (crates/actor/src/pool.rs).  `width` is the number of values a `usize` takes
 (2^64 or 2^32): the counter wraps after that many calls.
 */
module Pool {
  import opened Channels

  /** The counter before call number `n`. */
  function Counter(n: nat, width: nat): nat
    requires width > 0
  {
    n % width
  }

  /** The worker that call number `n` goes to. */
  function Turn(n: nat, k: nat, width: nat): (idx: nat)
    requires k > 0 && width > 0
    ensures idx < k
  {
    Counter(n, width) % k
  }

  /** How many of the first `n` calls went to worker `j`. */
  function Load(n: nat, j: nat, k: nat, width: nat): nat
    requires k > 0 && width > 0
  {
    if n == 0 then 0 else Load(n - 1, j, k, width) + if Turn(n - 1, k, width) == j then 1 else 0
  }

  // ----- Arithmetic

  lemma DivMod(q: nat, r: nat, k: nat)
    requires r < k
    ensures (q * k + r) / k == q && (q * k + r) % k == r
  {
    var n := q * k + r;
    assert n == (n / k) * k + n % k;
    if n / k < q {
      MulLe(n / k + 1, q, k);
      assert false;
    }
    if n / k > q {
      MulLe(q + 1, n / k, k);
      assert false;
    }
  }

  lemma MulLe(a: nat, b: nat, k: nat)
    requires a <= b
    ensures a * k <= b * k
  {
  }

  lemma DivStep(m: nat, k: nat)
    requires k > 0
    ensures m % k + 1 < k ==> (m + 1) / k == m / k && (m + 1) % k == m % k + 1
    ensures m % k + 1 == k ==> (m + 1) / k == m / k + 1 && (m + 1) % k == 0
  {
    assert m == (m / k) * k + m % k;
    if m % k + 1 < k {
      DivMod(m / k, m % k + 1, k);
    } else {
      assert (m / k + 1) * k == (m / k) * k + k;
      DivMod(m / k + 1, 0, k);
    }
  }

  /** The first call goes to worker 0, each other one to the next worker, or to worker 0 when the counter wraps. */
  lemma TurnsGoRound(n: nat, k: nat, width: nat)
    requires k > 0 && width > 0
    ensures Turn(0, k, width) == 0
    ensures Turn(n + 1, k, width) ==
            if (n + 1) % width == 0 || Turn(n, k, width) + 1 == k then 0 else Turn(n, k, width) + 1
  {
    DivMod(0, 0, width);
    DivMod(0, 0, k);
    DivStep(n, width);
    DivStep(n % width, k);
  }

  // ----- Loads

  /** What worker `j` gets from the first `m` calls of one lap of the counter. */
  function LapLoad(m: nat, j: nat, k: nat): nat
    requires k > 0
  {
    m / k + if j < m % k then 1 else 0
  }

  lemma LapStep(m: nat, j: nat, k: nat)
    requires j < k
    ensures LapLoad(m + 1, j, k) == LapLoad(m, j, k) + if m % k == j then 1 else 0
  {
    DivStep(m, k);
  }

  /** After `laps` full laps and `m` calls more, each worker holds its share of each lap. */
  lemma {:induction false} LoadSplits(laps: nat, m: nat, j: nat, k: nat, width: nat)
    requires j < k && 0 < width && m <= width
    ensures Load(laps * width + m, j, k, width) == laps * LapLoad(width, j, k) + LapLoad(m, j, k)
    decreases laps, m
  {
    if m > 0 {
      LoadSplits(laps, m - 1, j, k, width);
      DivMod(laps, m - 1, width);
      LapStep(m - 1, j, k);
    } else if laps > 0 {
      LoadSplits(laps - 1, width, j, k, width);
      assert (laps - 1) * width + width == laps * width;
      assert (laps - 1) * LapLoad(width, j, k) + LapLoad(width, j, k) == laps * LapLoad(width, j, k);
      DivMod(0, 0, k);
      assert LapLoad(0, j, k) == 0;
    } else {
      DivMod(0, 0, k);
      assert LapLoad(0, j, k) == 0;
    }
  }

  /** How often the counter has wrapped by the time call number `n - 1` was made. */
  function Wraps(n: nat, width: nat): nat
    requires width > 0
  {
    if n == 0 then 0 else (n - 1) / width
  }

  lemma LapNear(m: nat, i: nat, j: nat, k: nat)
    requires k > 0
    ensures LapLoad(m, i, k) <= LapLoad(m, j, k) + 1
  {
  }

  lemma {:induction false} LapsAdd(laps: nat, x: nat, y: nat)
    requires x <= y + 1
    ensures laps * x <= laps * y + laps
  {
    MulLe(x, y + 1, laps);
  }

  lemma LastLap(n: nat, width: nat)
    requires n > 0 && width > 0
    ensures n == Wraps(n, width) * width + ((n - 1) % width + 1)
  {
    assert n - 1 == (n - 1) / width * width + (n - 1) % width;
  }

  lemma {:induction false} BalancedAfter(n: nat, laps: nat, m: nat, i: nat, j: nat, k: nat, width: nat)
    requires i < k && j < k && 0 < width && m <= width && n == laps * width + m
    ensures Load(n, i, k, width) <= Load(n, j, k, width) + laps + 1
  {
    LoadSplits(laps, m, i, k, width);
    LoadSplits(laps, m, j, k, width);
    LapNear(width, i, j, k);
    LapNear(m, i, j, k);
    LapsAdd(laps, LapLoad(width, i, k), LapLoad(width, j, k));
  }

  /** Loads differ by at most one before the counter wraps, and by at most one more for each wrap. */
  lemma {:induction false} LoadsBalanced(n: nat, i: nat, j: nat, k: nat, width: nat)
    requires i < k && j < k && width > 0
    ensures Load(n, i, k, width) <= Load(n, j, k, width) + Wraps(n, width) + 1
  {
    if n > 0 {
      LastLap(n, width);
      BalancedAfter(n, Wraps(n, width), (n - 1) % width + 1, i, j, k, width);
    }
  }

  ghost predicate AlwaysFair(k: nat, width: nat)
    requires k > 0 && width > 0
  {
    forall n: nat, i: nat, j: nat | i < k && j < k :: Load(n, i, k, width) <= Load(n, j, k, width) + 1
  }

  /** Loads stay within one of each other for ever exactly when the pool size divides the counter's range. */
  lemma FairIffDivides(k: nat, width: nat)
    requires k > 0 && width > 0
    ensures AlwaysFair(k, width) <==> width % k == 0
  {
    if width % k == 0 {
      forall n: nat, i: nat, j: nat | i < k && j < k
        ensures Load(n, i, k, width) <= Load(n, j, k, width) + 1
      {
        DividesFair(n, i, j, k, width);
      }
    } else {
      UnfairAfterWrap(k, width);
    }
  }

  lemma DividesFair(n: nat, i: nat, j: nat, k: nat, width: nat)
    requires i < k && j < k && width > 0 && width % k == 0
    ensures Load(n, i, k, width) <= Load(n, j, k, width) + 1
  {
    var laps, m := n / width, n % width;
    assert n == laps * width + m;
    LoadSplits(laps, m, i, k, width);
    LoadSplits(laps, m, j, k, width);
    assert LapLoad(width, i, k) == LapLoad(width, j, k);
  }

  /** One call past the wrap the first worker is two ahead of the last, whenever a lap does not divide evenly. */
  lemma UnfairAfterWrap(k: nat, width: nat)
    requires k > 0 && width > 0 && width % k != 0
    ensures Load(width + 1, 0, k, width) == Load(width + 1, k - 1, k, width) + 2
  {
    LoadSplits(1, 1, 0, k, width);
    LoadSplits(1, 1, k - 1, k, width);
    assert 1 * width + 1 == width + 1;
    assert k > 1;
    DivMod(0, 1, k);
    assert LapLoad(1, 0, k) == 1 && LapLoad(1, k - 1, k) == 0;
    assert LapLoad(width, 0, k) == LapLoad(width, k - 1, k) + 1;
  }

  // ----- The pool

  /** The messages among `sent` that worker `j` is given, in order. */
  ghost function Assigned<M>(sent: seq<M>, j: nat, k: nat, width: nat): seq<M>
    requires k > 0 && width > 0
  {
    if sent == [] then []
    else
      var n := |sent| - 1;
      Assigned(sent[..n], j, k, width) + if Turn(n, k, width) == j then [sent[n]] else []
  }

  lemma {:induction false} AssignedLoad<M>(sent: seq<M>, j: nat, k: nat, width: nat)
    requires k > 0 && width > 0
    ensures |Assigned(sent, j, k, width)| == Load(|sent|, j, k, width)
    decreases |sent|
  {
    if sent != [] {
      AssignedLoad(sent[..|sent| - 1], j, k, width);
    }
  }

  class RoundRobin<M> {
    const width: nat
    const workers: seq<Mailbox<M>>
    var next: nat
    /** Every message sent or asked so far, whether its worker took it or not. */
    ghost var sent: seq<M>

    ghost predicate Valid()
      reads this
    {
      width > 0 && |workers| > 0 && next == Counter(|sent|, width)
    }

    constructor (workers: seq<Mailbox<M>>, width: nat)
      requires workers != [] && width > 0
      ensures Valid() && this.workers == workers && this.width == width && sent == []
    {
      this.workers, this.width := workers, width;
      next := 0;
      sent := [];
      new;
      DivMod(0, 0, width);
    }

    /**
     `send` and `ask` choose the worker in the same way.  The message goes to the worker whose turn it is and to no
     other; the turn is over even when that worker refuses it.
     */
    method Dispatch(msg: M) returns (ok: bool, idx: nat)
      requires Valid()
      modifies this, workers
      ensures Valid() && sent == old(sent) + [msg] && idx == Turn(|old(sent)|, |workers|, width)
      ensures ok == old(workers[idx].HasRoom())
      ensures workers[idx].queue == if ok then old(workers[idx].queue) + [msg] else old(workers[idx].queue)
      ensures forall w | w in workers && w != workers[idx] :: unchanged(w)
      ensures forall j: nat ::
                Assigned(sent, j, |workers|, width) ==
                Assigned(old(sent), j, |workers|, width) + if j == idx then [msg] else []
    {
      idx := next % |workers|;
      next := (next + 1) % width;
      assert next == Counter(|sent| + 1, width) by {
        DivStep(|sent|, width);
        DivMod(0, |sent| % width, width);
        DivStep(|sent| % width, width);
      }
      ok := workers[idx].TrySend(msg);
      sent := sent + [msg];
      assert sent[..|sent| - 1] == old(sent);
    }

    /** Of the calls so far, no worker was given more than one more than another for each lap of the counter begun. */
    lemma Balanced(i: nat, j: nat)
      requires Valid() && i < |workers| && j < |workers|
      ensures |Assigned(sent, i, |workers|, width)| <=
              |Assigned(sent, j, |workers|, width)| + Wraps(|sent|, width) + 1
    {
      AssignedLoad(sent, i, |workers|, width);
      AssignedLoad(sent, j, |workers|, width);
      LoadsBalanced(|sent|, i, j, |workers|, width);
    }
  }
}
