/**
 Catch-up arithmetic of repeating schedules (agent/scheduler.py, cloud/scheduler.py,
 cloud/store.py). Each of those places advances a due time in a loop until it is
 in the future; `NextSlot` is the closed form, and the lemmas say what it means:
 the least slot strictly after `now` in the original phase.
 */
module CatchUp {
  import opened Prelude

  /** Whether `t` is a slot of the grid that starts at `start` with the given step. */
  ghost predicate OnGrid(start: Time, step: int, t: Time) {
    exists k: nat :: t == Slot(start, step, k)
  }

  function Slot(start: Time, step: int, k: int): Time {
    start + k * step
  }

  function NextSlot(start: Time, step: int, now: Time): Time
    requires step > 0
  {
    if now < start then start else Slot(start, step, (now - start) / step + 1)
  }

  lemma {:induction false} ScaledOrder(p: int, q: int, d: int)
    requires d > 0
    ensures p < q ==> p * d + d <= q * d
    decreases q - p
  {
    if p < q {
      ScaledOrder(p + 1, q, d);
      assert (p + 1) * d == p * d + d;
    }
  }

  lemma QuotientIsUnique(a: int, d: int, q: int)
    requires d > 0 && q * d <= a < q * d + d
    ensures a / d == q
  {
    ScaledOrder(a / d, q, d);
    ScaledOrder(q, a / d, d);
  }

  lemma SlotsCompose(start: Time, step: int, j: int, k: int)
    ensures Slot(Slot(start, step, j), step, k) == Slot(start, step, j + k)
  {
    assert j * step + k * step == (j + k) * step;
  }

  /** The slot just past `now` is the one the closed form names. */
  lemma SlotJustPastNow(start: Time, step: int, now: Time, k: nat)
    requires step > 0 && now < Slot(start, step, k)
    requires k > 0 ==> Slot(start, step, k - 1) <= now
    ensures NextSlot(start, step, now) == Slot(start, step, k)
  {
    if k > 0 {
      assert (k - 1) * step + step == k * step;
      assert 0 <= (k - 1) * step;
      QuotientIsUnique(now - start, step, k - 1);
    }
  }

  /** The closed form is on the grid, in the future, and no other future slot of the grid is earlier. */
  lemma NextSlotIsLeast(start: Time, step: int, now: Time)
    requires step > 0
    ensures OnGrid(start, step, NextSlot(start, step, now))
    ensures start <= NextSlot(start, step, now) && now < NextSlot(start, step, now)
    ensures forall k: nat :: now < Slot(start, step, k) ==> NextSlot(start, step, now) <= Slot(start, step, k)
  {
    if now < start {
      assert NextSlot(start, step, now) == Slot(start, step, 0);
      forall k: nat ensures start <= Slot(start, step, k) {
        assert 0 <= k * step;
      }
    } else {
      var q := (now - start) / step;
      assert q * step <= now - start < q * step + step;
      assert (q + 1) * step == q * step + step;
      assert NextSlot(start, step, now) == Slot(start, step, q + 1);
      forall k: nat | now < Slot(start, step, k)
        ensures Slot(start, step, q + 1) <= Slot(start, step, k)
      {
        ScaledOrder(k, q + 1, step);
        ScaledOrder(q + 1, k, step);
      }
    }
  }

  /** Catching up from any later slot of the same grid lands on the same slot, when that slot is still due. */
  lemma CatchingUpFromALaterSlot(start: Time, step: int, now: Time, k: nat)
    requires step > 0 && Slot(start, step, k) <= now
    ensures NextSlot(Slot(start, step, k), step, now) == NextSlot(start, step, now)
  {
    assert 0 <= k * step;
    var q := (now - start) / step;
    assert q * step <= now - start < q * step + step;
    ScaledOrder(q, k, step);
    SlotsCompose(start, step, k, q - k + 1);
    SlotsCompose(start, step, k, q - k);
    SlotsCompose(start, step, q, 1);
    SlotJustPastNow(Slot(start, step, k), step, now, q - k + 1);
  }

  /** A slot of a grid that starts on a slot is a slot. */
  lemma GridClosed(first: Time, step: int, t: Time, next: Time)
    requires OnGrid(first, step, t) && OnGrid(t, step, next)
    ensures OnGrid(first, step, next)
  {
    var j: nat :| t == Slot(first, step, j);
    var k: nat :| next == Slot(t, step, k);
    SlotsCompose(first, step, j, k);
  }

  /** Catching up from a slot, or from the one behind it, lands on a slot. */
  lemma CatchUpStaysOnGrid(first: Time, step: int, t: Time, now: Time)
    requires step > 0 && OnGrid(first, step, t)
    ensures OnGrid(first, step, NextSlot(t, step, now)) && OnGrid(first, step, NextSlot(t + step, step, now))
    ensures t < NextSlot(t + step, step, now) && now < NextSlot(t + step, step, now)
    ensures now < NextSlot(t, step, now)
  {
    NextSlotIsLeast(t, step, now);
    NextSlotIsLeast(t + step, step, now);
    GridClosed(first, step, t, NextSlot(t, step, now));
    assert t + step == Slot(t, step, 1);
    GridClosed(first, step, t, t + step);
    GridClosed(first, step, t + step, NextSlot(t + step, step, now));
  }

  /** The loop of the original. It ends because the step is positive. */
  method AdvancePast(start: Time, step: int, now: Time) returns (next: Time)
    requires step > 0
    ensures next == NextSlot(start, step, now)
  {
    next := start;
    ghost var k: nat := 0;
    while next <= now
      invariant next == Slot(start, step, k)
      invariant k > 0 ==> Slot(start, step, k - 1) <= now
      decreases now - next
    {
      assert k * step + step == (k + 1) * step;
      next := next + step;
      k := k + 1;
    }
    SlotJustPastNow(start, step, now, k);
  }

  /** The least slot of the grid that lies past now. */
  ghost predicate IsNextSlot(start: Time, step: int, now: Time, next: Time) {
    && now < next && OnGrid(start, step, next)
    && forall k: nat :: now < Slot(start, step, k) ==> next <= Slot(start, step, k)
  }
}
