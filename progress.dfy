/**
 * The throttle of `GenericOGRHandler::updateProgress`: a counter of handled
 * objects that calls the progress callback only once it has passed a
 * threshold, so that the (expensive) callback runs on a fraction of the
 * objects.
 */
module Progress {

  /** The counter must exceed this before the callback is called. */
  const Threshold: int := 200

  /** The length of the cycle between two calls of the callback. */
  const Period: int := Threshold + 1

  /** Whether a callback is installed, and the value of `progress_ticks`. */
  datatype Counter = Counter(hasCallback: bool, ticks: int)

  /** Whether one `updateProgress` call in state `c` calls the callback. */
  predicate Fires(c: Counter)
  {
    c.hasCallback && c.ticks > Threshold
  }

  /** The state after one `updateProgress` call. */
  function Tick(c: Counter): (r: Counter)
    ensures r.hasCallback == c.hasCallback
    ensures !c.hasCallback ==> r == c && !Fires(c)
    ensures Fires(c) ==> r.ticks == 1
    ensures c.hasCallback && !Fires(c) ==> r.ticks == c.ticks + 1
    ensures c.hasCallback && 0 <= c.ticks <= Period ==> 1 <= r.ticks <= Period
  {
    if !c.hasCallback then c
    else if c.ticks > Threshold then Counter(true, 1)
    else Counter(true, c.ticks + 1)
  }

  /** `progress_ticks` after `n` calls with a callback, starting from 0. */
  function TicksAfter(n: nat): int
  {
    if n == 0 then 0 else Tick(Counter(true, TicksAfter(n - 1))).ticks
  }

  /** Whether the `n`-th call (counting from 1) calls the callback. */
  predicate FiresOnCall(n: nat)
    requires n >= 1
  {
    Fires(Counter(true, TicksAfter(n - 1)))
  }

  /** How many times the callback has been called after `n` calls. */
  function FiringsAfter(n: nat): nat
  {
    if n == 0 then 0 else FiringsAfter(n - 1) + (if FiresOnCall(n) then 1 else 0)
  }

  /** Counting one further wraps around after 200. */
  lemma ModSuccessor(m: nat)
    ensures (m + 1) % Period == if m % Period == Threshold then 0 else m % Period + 1
  {
    var q, r := m / Period, m % Period;
    assert m == q * Period + r;
    if r == Threshold {
      assert m + 1 == (q + 1) * Period;
    } else {
      assert m + 1 == q * Period + (r + 1);
    }
  }

  /** The counter runs 1, 2, ..., 201, 1, 2, ... */
  lemma {:induction false} TicksClosedForm(n: nat)
    ensures TicksAfter(n) == if n == 0 then 0 else (n - 1) % Period + 1
  {
    if n > 1 {
      TicksClosedForm(n - 1);
      ModSuccessor(n - 2);
      assert TicksAfter(n) == Tick(Counter(true, (n - 2) % Period + 1)).ticks;
    }
  }

  /** `progress_ticks` never leaves 0..201. */
  lemma TicksBounded(n: nat)
    ensures 0 <= TicksAfter(n) <= Period
  {
    TicksClosedForm(n);
  }

  /** The `n`-th call fires exactly when `n` is 202, 403, 604, ... */
  lemma FiresOnCallExactly(n: nat)
    requires n >= 1
    ensures FiresOnCall(n) <==> n > Period && (n - 1) % Period == 0
  {
    if n > 1 {
      TicksClosedForm(n - 1);
      ModSuccessor(n - 2);
      assert FiresOnCall(n) <==> (n - 2) % Period == Threshold;
      if (n - 2) % Period == Threshold {
        assert n - 2 >= Threshold;
      }
    }
  }

  /** The first call of the callback is on the 202nd object. */
  lemma FirstFiring()
    ensures FiresOnCall(Period + 1)
    ensures forall k: nat :: 1 <= k <= Period ==> !FiresOnCall(k)
  {
    FiresOnCallExactly(Period + 1);
    forall k: nat | 1 <= k <= Period ensures !FiresOnCall(k) {
      FiresOnCallExactly(k);
    }
  }

  /** After the first, the callback is called on every 201st object. */
  lemma FiringPeriod(n: nat)
    requires n > Period
    ensures FiresOnCall(n) <==> FiresOnCall(n + Period)
  {
    FiresOnCallExactly(n);
    FiresOnCallExactly(n + Period);
  }

  /** After `n` calls the callback has been called (n - 1) / 201 times. */
  lemma {:induction false} FiringsClosedForm(n: nat)
    ensures FiringsAfter(n) == if n == 0 then 0 else (n - 1) / Period
  {
    if n > 1 {
      FiringsClosedForm(n - 1);
      FiresOnCallExactly(n);
    }
  }
}
