/**
 * The wrap-around step of the image and slide viewers: `next` moves to the following
 * position and jumps from the last one to 0, `prev` moves back and jumps from 0 to the last.
 */
module WrapIndex {

  /** `prev === len - 1 ? 0 : prev + 1`. */
  function Next(prev: int, len: int): (r: int)
    ensures 0 <= prev < len ==> 0 <= r < len && r == (prev + 1) % len
  {
    if prev == len - 1 then 0 else prev + 1
  }

  /** `prev === 0 ? len - 1 : prev - 1`. */
  function Prev(prev: int, len: int): (r: int)
    ensures 0 <= prev < len ==> 0 <= r < len && r == (prev + len - 1) % len
  {
    if prev == 0 then len - 1 else prev - 1
  }

  /** Going back undoes going forward, and going forward undoes going back. */
  lemma PrevUndoesNext(i: int, len: int)
    requires 0 <= i < len
    ensures Prev(Next(i, len), len) == i
    ensures Next(Prev(i, len), len) == i
  {
  }

  /** `k` steps forward. */
  function NextTimes(i: int, len: int, k: nat): int
  {
    if k == 0 then i else Next(NextTimes(i, len, k - 1), len)
  }

  /** Up to one full round, `k` steps forward from a valid position land `k` positions further, wrapping once. */
  lemma {:induction false} NextTimesShifts(i: int, len: int, k: nat)
    requires 0 <= i < len && k <= len
    ensures NextTimes(i, len, k) == if i + k < len then i + k else i + k - len
  {
    if k > 0 {
      NextTimesShifts(i, len, k - 1);
    }
  }

  /** Stepping forward once per position returns to the start. */
  lemma FullCycle(i: int, len: int)
    requires 0 <= i < len
    ensures NextTimes(i, len, len) == i
  {
    NextTimesShifts(i, len, len);
  }

  /** With no images at all the steps leave the range: from 0, `next` gives 1 and `prev` gives -1. */
  lemma EmptyListEscapes()
    ensures Next(0, 0) == 1 && Prev(0, 0) == -1
  {
  }
}
