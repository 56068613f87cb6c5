// Dropped records when the enrichment queue is full, and how seldom that is
// logged.
module DropWarnings {
  import opened WorkQueue

  function Pow10(k: nat): (p: nat)
    ensures p > 0
  {
    if k == 0 then 1 else 10 * Pow10(k - 1)
  }

  predicate IsTenPower(n: int)
  {
    if n <= 0 then false
    else if n == 1 then true
    else n % 10 == 0 && IsTenPower(n / 10)
  }

  method IsPowerOfTen(n: int) returns (r: bool)
    ensures r <==> exists k: nat :: n == Pow10(k)
  {
    TenPowers(n);
    if n <= 0 {
      return false;
    }
    var m := n;
    while m > 1
      invariant m >= 1 && IsTenPower(m) == IsTenPower(n)
    {
      if m % 10 != 0 {
        return false;
      }
      m := m / 10;
    }
    return true;
  }

  lemma {:induction false} TenPowers(n: int)
    ensures IsTenPower(n) <==> exists k: nat :: n == Pow10(k)
  {
    if n == 1 {
      assert n == Pow10(0);
    } else if n > 1 {
      TenPowers(n / 10);
      if IsTenPower(n) {
        var k: nat :| n / 10 == Pow10(k);
        assert n == Pow10(k + 1);
      }
      if k: nat :| n == Pow10(k) {
        assert k > 0 && n == 10 * Pow10(k - 1);
        assert n % 10 == 0 && n / 10 == Pow10(k - 1);
      }
    }
  }

  // The number of decimal digits less one.
  function Log10(n: nat): (k: nat)
    requires n > 0
    ensures Pow10(k) <= n < Pow10(k + 1)
  {
    if n < 10 then 0 else 1 + Log10(n / 10)
  }

  // Warnings logged by the first n drops.
  function Warnings(n: nat): nat
  {
    if n == 0 then 0 else Warnings(n - 1) + if IsTenPower(n) then 1 else 0
  }

  lemma {:induction false} LogStep(n: nat)
    requires n > 0
    ensures Log10(n + 1) == Log10(n) + if IsTenPower(n + 1) then 1 else 0
  {
    if n >= 10 && (n + 1) % 10 == 0 {
      assert (n + 1) / 10 == n / 10 + 1;
      LogStep(n / 10);
    } else if n >= 10 {
      assert (n + 1) / 10 == n / 10;
    } else if n == 9 {
      assert Log10(10) == 1 + Log10(1);
      assert IsTenPower(10 / 10);
    }
  }

  lemma {:induction false} WarningsAreLogarithmic(n: nat)
    requires n > 0
    ensures Warnings(n) == Log10(n) + 1
  {
    if n == 1 {
      assert Warnings(0) == 0;
    } else {
      WarningsAreLogarithmic(n - 1);
      LogStep(n - 1);
    }
  }

  class Enricher<T> {
    const queue: EnrichmentWorkQueue<T>
    var dropCount: nat
    ghost var warnings: nat

    ghost predicate Counted()
      reads this
    {
      warnings == Warnings(dropCount)
    }

    constructor (capacity: int)
      ensures fresh(queue) && queue.State() == Fresh(capacity)
      ensures dropCount == 0 && warnings == 0 && Counted()
    {
      queue := new EnrichmentWorkQueue(capacity);
      dropCount := 0;
      warnings := 0;
    }

    // A record that finds the queue full is dropped and counted; one that finds
    // it closed is dropped without being counted.
    method EnqueueForEnrichment(req: T)
      requires Counted()
      modifies this, queue
      ensures Counted()
      ensures queue.State() == Offer(old(queue.State()), req)
      ensures dropCount == old(dropCount) +
                           if old(!queue.closed && queue.size >= queue.capacity) then 1 else 0
      ensures dropCount > 0 ==> warnings == Log10(dropCount) + 1
    {
      var enqueued, wasClosed := queue.Enqueue(req);
      if !enqueued && !wasClosed {
        dropCount := dropCount + 1;
        TenPowers(dropCount);
        var warn := IsPowerOfTen(dropCount);
        if warn {
          warnings := warnings + 1;
        }
      }
      if dropCount > 0 {
        WarningsAreLogarithmic(dropCount);
      }
    }
  }
}
