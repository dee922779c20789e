/** The last entries of a history, which the ring buffers keep. */
module Windows {

  function LastN<T>(s: seq<T>, n: nat): seq<T> {
    if |s| <= n then s else s[|s| - n..]
  }

  /** Keeping only the last n at every step keeps the last n of the whole history. */
  lemma LastNStep<T>(history: seq<T>, x: T, n: nat)
    ensures LastN(LastN(history, n) + [x], n) == LastN(history + [x], n)
  {
  }

  /** The entries of a ring, oldest first: `next` is the slot to be written next, `size` the number
      of slots in use, which fill up from slot 0. */
  function Ring<T>(slots: seq<T>, next: nat, size: nat): seq<T>
    requires next <= |slots| && size <= |slots|
  {
    if size < |slots| then slots[..size] else slots[next..] + slots[..next]
  }

  function NextSlot(slot: nat, n: nat): nat
    requires n > 0
  {
    (slot + 1) % n
  }

  lemma SlotAfter(next: nat, n: nat)
    requires next < n
    ensures NextSlot(next, n) == if next + 1 == n then 0 else next + 1
  {
  }

  /** Writing the next slot adds an entry and, once the ring is full, drops the oldest. */
  lemma RingStep<T>(history: seq<T>, slots: seq<T>, next: nat, size: nat, x: T)
    requires next < |slots| && size <= |slots| && (size < |slots| ==> next == size)
    requires Ring(slots, next, size) == LastN(history, |slots|)
    ensures var next', size' := NextSlot(next, |slots|), if size < |slots| then size + 1 else size;
            next' < |slots| && (size' < |slots| ==> next' == size')
            && Ring(slots[next := x], next', size') == LastN(history + [x], |slots|)
  {
    hide Ring, LastN;
    SlotAfter(next, |slots|);
    LastNStep(history, x, |slots|);
    if size < |slots| { RingFills(slots, next, x); } else { RingTurns(slots, next, x); }
  }

  lemma RingFills<T>(slots: seq<T>, size: nat, x: T)
    requires size < |slots|
    ensures var after := slots[size := x];
            Ring(after, if size + 1 == |slots| then 0 else size + 1, size + 1) == LastN(Ring(slots, size, size) + [x], |slots|)
  {
    var after := slots[size := x];
    assert after[..size + 1] == slots[..size] + [x];
    if size + 1 == |slots| { assert after[0..] + after[..0] == after == after[..size + 1]; }
  }

  lemma RingTurns<T>(slots: seq<T>, next: nat, x: T)
    requires next < |slots|
    ensures var after := slots[next := x];
            Ring(after, if next + 1 == |slots| then 0 else next + 1, |slots|) == LastN(Ring(slots, next, |slots|) + [x], |slots|)
  {
    var after, older, newer := slots[next := x], slots[next + 1..], slots[..next];
    assert slots[next..] == [slots[next]] + older;
    assert (slots[next..] + newer + [x])[1..] == older + newer + [x];
    assert after[next + 1..] == older && after[..next + 1] == newer + [x];
    assert after == newer + [x] + older;
    if next + 1 == |slots| {
      assert older == [];
      assert after[0..] + after[..0] == after;
      assert newer + [x] + [] == [] + newer + [x];
    } else {
      assert older + (newer + [x]) == older + newer + [x];
    }
  }

  lemma RingSize<T>(slots: seq<T>, next: nat, size: nat)
    requires next <= |slots| && size <= |slots|
    ensures |Ring(slots, next, size)| == size
  {
  }

  /** Entry i of a ring is found i slots after its oldest one. */
  lemma RingAt<T>(slots: seq<T>, head: nat, size: nat, i: nat)
    requires head < |slots| && i < size <= |slots| && (size < |slots| ==> head == 0)
    ensures (head + i) % |slots| < |slots|
    ensures slots[(head + i) % |slots|] == Ring(slots, if size < |slots| then size else head, size)[i]
  {
    var slot := (head + i) % |slots|;
    assert slot == if head + i < |slots| then head + i else head + i - |slots| by { Wraps(head, i, |slots|); }
  }

  lemma Wraps(head: nat, i: nat, n: nat)
    requires head < n && i < n
    ensures (head + i) % n == if head + i < n then head + i else head + i - n
  {
    if head + i >= n { ModOnce(head + i - n, n); }
  }

  lemma ModOnce(r: nat, n: nat)
    requires r < n
    ensures (r + n) % n == r
  {
  }
}
