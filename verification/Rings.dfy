/**
 Index arithmetic of a ring of cells, as the byte rings of queue.c and stream_buffer.c do it: by one
 comparison with the end and one subtraction.
 */
module Rings {

  type byte = x: int | 0 <= x < 256

  /** An index at most one lap ahead, brought back into the ring. */
  function Wrap(length: nat, i: nat): nat {
    if i < length then i else i - length
  }

  /** Cells from `tail` up to `head`. */
  function Distance(length: nat, tail: nat, head: nat): nat
    requires tail < length && head < length
  {
    if tail <= head then head - tail else length - tail + head
  }

  /** The `count` cells from `from` on, around the end of the ring. */
  function Span<T>(cells: seq<T>, from: nat, count: nat): (r: seq<T>)
    requires from < |cells| && count <= |cells|
    ensures |r| == count
    ensures forall k :: 0 <= k < count ==> r[k] == cells[Wrap(|cells|, from + k)]
  {
    seq(count, k requires 0 <= k < count => cells[Wrap(|cells|, from + k)])
  }
}
