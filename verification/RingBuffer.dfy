/** The in-memory buffer of received messages, internal/whatsapp/incoming_buffer.go. */
module RingBuffer {
  import opened Common

  /** The slot that is i + 1 behind the head. */
  function Slot(cap: nat, head: nat, i: nat): (s: nat)
    requires head < cap && i < cap
    ensures s < cap
  {
    if i < head then head - 1 - i else head - 1 - i + cap
  }

  lemma StepBack(cap: nat, slot: nat)
    requires slot < cap
    ensures (slot - 1 + cap) % cap == if slot == 0 then cap - 1 else slot - 1
  {
    var x := slot - 1 + cap;
    var q, r := x / cap, x % cap;
    assert x == q * cap + r && 0 <= r < cap;
    assert q == if slot > 0 then 1 else 0;
  }

  lemma StepForward(cap: nat, slot: nat)
    requires slot < cap
    ensures (slot + 1) % cap == if slot + 1 == cap then 0 else slot + 1
  {
  }

  class IncomingBuffer<T> {
    const cap: nat
    const data: array<Option<T>>
    var head: nat
    var len: nat
    /** Every message ever pushed, oldest first. */
    ghost var pushed: seq<T>

    /** The i-th newest message sits i + 1 slots behind the head. */
    ghost predicate Valid()
      reads this, data
    {
      && cap >= 1 && data.Length == cap && head < cap
      && len == Min(|pushed|, cap)
      && forall i {:trigger Slot(cap, head, i)} :: 0 <= i < len ==>
          data[Slot(cap, head, i)] == Some(pushed[|pushed| - 1 - i])
    }

    constructor (size: nat)
      requires size >= 1
      ensures Valid() && fresh(data) && cap == size && pushed == []
    {
      cap, head, len, pushed := size, 0, 0, [];
      data := new Option<T>[size](_ => None);
    }

    /** A nil message is ignored. */
    method Push(m: Option<T>)
      requires Valid()
      modifies this, data
      ensures Valid()
      ensures pushed == if m.Some? then old(pushed) + [m.value] else old(pushed)
    {
      if m.None? { return; }
      StepForward(cap, head);
      data[head] := m;
      head := (head + 1) % cap;
      if len < cap {
        len := len + 1;
      }
      pushed := pushed + [m.value];
      forall i | 0 <= i < len ensures data[Slot(cap, head, i)] == Some(pushed[|pushed| - 1 - i]) {
        if i == 0 {
          assert Slot(cap, head, 0) == old(head);
        } else {
          assert Slot(cap, head, i) == Slot(cap, old(head), i - 1) != old(head);
        }
      }
    }

    /** At most n messages, newest first; a negative n counts as none. */
    method Latest(n: int) returns (out: seq<Option<T>>)
      requires Valid()
      ensures |out| == Max(0, Min(n, Min(cap, |pushed|)))
      ensures forall i :: 0 <= i < |out| ==> out[i] == Some(pushed[|pushed| - 1 - i])
    {
      var k := if n > len then len else n;
      if k <= 0 { return []; }
      out := [];
      StepBack(cap, head);
      var idx := (head - 1 + cap) % cap;
      assert idx == Slot(cap, head, 0);
      var i := 0;
      while i < k
        invariant 0 <= i <= k <= len && |out| == i && idx < cap
        invariant i < k ==> idx == Slot(cap, head, i)
        invariant forall j :: 0 <= j < i ==> out[j] == Some(pushed[|pushed| - 1 - j])
      {
        out := out + [data[idx]];
        StepBack(cap, idx);
        idx := (idx - 1 + cap) % cap;
        i := i + 1;
      }
    }
  }
}
