/** The UART receive ring: one interrupt handler writing, one reader, no lock between them. */
module UartRing {
  import opened Words

  const RX_BUFFER_SIZE := 64

  /** ring_next: (index + 1) & mask for a power-of-two size. */
  function Next(index: byte): byte {
    (index + 1) % RX_BUFFER_SIZE
  }

  lemma MaskIsModulo(index: bv8)
    requires index < 64
    ensures ((index + 1) & 63) as int == (index as int + 1) % 64
  {
  }

  function Distance(head: byte, tail: byte): byte {
    (head - tail) % RX_BUFFER_SIZE
  }

  /** The stored bytes from tail up to head, oldest first. */
  function Contents(buffer: seq<byte>, head: byte, tail: byte): (r: seq<byte>)
    requires |buffer| == RX_BUFFER_SIZE
    ensures |r| == Distance(head, tail)
  {
    seq(Distance(head, tail), k requires 0 <= k < RX_BUFFER_SIZE => buffer[(tail + k) % RX_BUFFER_SIZE])
  }

  lemma ContentsGrow(buffer: seq<byte>, head: byte, tail: byte, b: byte)
    requires |buffer| == RX_BUFFER_SIZE && head < RX_BUFFER_SIZE && tail < RX_BUFFER_SIZE
    ensures Next(head) != tail <==> Distance(head, tail) < RX_BUFFER_SIZE - 1
    ensures Next(head) != tail ==>
              Contents(buffer[head as int := b], Next(head), tail) == Contents(buffer, head, tail) + [b]
  {
    HeadMoves(head, tail);
    if Next(head) != tail {
      var before, after := Contents(buffer, head, tail), Contents(buffer[head as int := b], Next(head), tail);
      var n := Distance(head, tail);
      forall k: nat | k <= n
        ensures after[k] == if k < n then before[k] else b
      {
        SlotOf(head, tail, k);
      }
      hide Contents, Next, Distance;
      assert after == before + [b];
    }
  }

  lemma HeadMoves(head: byte, tail: byte)
    requires head < RX_BUFFER_SIZE && tail < RX_BUFFER_SIZE
    ensures Next(head) != tail <==> Distance(head, tail) < RX_BUFFER_SIZE - 1
    ensures Next(head) != tail ==> Distance(Next(head), tail) == Distance(head, tail) + 1
  {
    assert Distance(head, tail) == if head >= tail then head - tail else head - tail + RX_BUFFER_SIZE;
    assert Next(head) == if head == RX_BUFFER_SIZE - 1 then 0 else head + 1;
  }

  /** The head's slot lies at distance Distance(head, tail) behind the tail, and at no other. */
  lemma SlotOf(head: byte, tail: byte, k: nat)
    requires head < RX_BUFFER_SIZE && tail < RX_BUFFER_SIZE && k < RX_BUFFER_SIZE
    ensures (tail + k) % RX_BUFFER_SIZE == head <==> k == Distance(head, tail)
  {
    assert Distance(head, tail) == if head >= tail then head - tail else head - tail + RX_BUFFER_SIZE;
    assert (tail + k) % RX_BUFFER_SIZE == if tail + k < RX_BUFFER_SIZE then tail + k else tail + k - RX_BUFFER_SIZE;
  }

  lemma ContentsShrink(buffer: seq<byte>, head: byte, tail: byte)
    requires |buffer| == RX_BUFFER_SIZE && head < RX_BUFFER_SIZE && tail < RX_BUFFER_SIZE
    requires head != tail
    ensures Contents(buffer, head, tail) == [buffer[tail]] + Contents(buffer, head, Next(tail))
  {
    TailMoves(head, tail);
    var all, rest := Contents(buffer, head, tail), Contents(buffer, head, Next(tail));
    forall k: nat | k < |rest|
      ensures all[k + 1] == rest[k]
    {
      NextSlot(tail, k);
    }
    assert all[0] == buffer[tail];
    hide Contents, Next, Distance;
    assert all == [buffer[tail]] + rest;
  }

  lemma TailMoves(head: byte, tail: byte)
    requires head < RX_BUFFER_SIZE && tail < RX_BUFFER_SIZE && head != tail
    ensures Distance(head, tail) == 1 + Distance(head, Next(tail))
  {
    assert Distance(head, tail) == if head >= tail then head - tail else head - tail + RX_BUFFER_SIZE;
    var next := Next(tail);
    assert next == if tail == RX_BUFFER_SIZE - 1 then 0 else tail + 1;
    assert Distance(head, next) == if head >= next then head - next else head - next + RX_BUFFER_SIZE;
  }

  lemma NextSlot(tail: byte, k: nat)
    requires tail < RX_BUFFER_SIZE && k < RX_BUFFER_SIZE
    ensures (tail + (k + 1)) % RX_BUFFER_SIZE == (Next(tail) + k) % RX_BUFFER_SIZE
  {
  }

  lemma EmptyIff(head: byte, tail: byte)
    requires head < RX_BUFFER_SIZE && tail < RX_BUFFER_SIZE
    ensures Distance(head, tail) == 0 <==> head == tail
  {
  }

  /** Of bytes arriving in order while nothing is read, those that still find room: the rest is dropped. */
  function Accepted(line: seq<byte>, room: nat): seq<byte> {
    line[..Min(|line|, room)]
  }

  lemma AcceptedConcat(a: seq<byte>, b: seq<byte>, room: nat)
    ensures |Accepted(a, room)| <= room
    ensures Accepted(a + b, room) == Accepted(a, room) + Accepted(b, room - |Accepted(a, room)|)
  {
  }

  class Receiver {
    const buffer: array<byte>    // rx_buffer_
    var head: byte               // rx_head_, written by the interrupt only
    var tail: byte               // rx_tail_, written by the reader only
    ghost var accepted: seq<byte> // every byte the interrupt stored, in order
    ghost var handed: seq<byte>   // every byte the reader took, in order

    ghost predicate Valid()
      reads this, buffer
    {
      && buffer.Length == RX_BUFFER_SIZE
      && head < RX_BUFFER_SIZE && tail < RX_BUFFER_SIZE
      && accepted == handed + Contents(buffer[..], head, tail)
    }

    /** How many more bytes can be stored. */
    ghost function Room(): (n: nat)
      requires Valid()
      reads this, buffer
      ensures n < RX_BUFFER_SIZE && |accepted| == |handed| + RX_BUFFER_SIZE - 1 - n
    {
      RX_BUFFER_SIZE - 1 - |Contents(buffer[..], head, tail)|
    }

    constructor ()
      ensures Valid() && accepted == [] && handed == [] && fresh(buffer)
    {
      buffer := new byte[RX_BUFFER_SIZE](_ => 0);
      head, tail := 0, 0;
      accepted, handed := [], [];
    }

    // ISR(USART_RX_vect): stored, or dropped when 63 bytes are stored.
    method OnReceive(b: byte)
      requires Valid()
      modifies this`head, this`accepted, buffer
      ensures Valid()
      ensures accepted == old(accepted) + Accepted([b], old(Room()))
      ensures Room() == old(Room()) - |Accepted([b], old(Room()))|
    {
      hide Contents, Next;
      var next := Next(head);
      Next64(head);
      ghost var before := buffer[..];
      ContentsGrow(before, head, tail, b);
      if next != tail {
        buffer[head] := b;
        assert buffer[..] == before[head as int := b];
        head := next;
        accepted := accepted + [b];
      }
    }

    /** The interrupt fires for each byte of the line before the reader's next step. */
    method Interrupted(line: seq<byte>)
      requires Valid()
      modifies this`head, this`accepted, buffer
      ensures Valid()
      ensures accepted == old(accepted) + Accepted(line, old(Room()))
      ensures Room() == old(Room()) - |Accepted(line, old(Room()))|
    {
      hide Contents, Accepted;
      ghost var before, room := accepted, Room();
      AcceptedNone(room);
      for i := 0 to |line|
        invariant Valid()
        invariant accepted == before + Accepted(line[..i], room)
        invariant Room() == room - |Accepted(line[..i], room)|
      {
        AcceptedConcat(line[..i], [line[i]], room);
        assert line[..i + 1] == line[..i] + [line[i]];
        OnReceive(line[i]);
      }
      assert line[..|line|] == line;
    }

    /** is_read_data_available, interrupted between its two reads of the indices. */
    method IsReadDataAvailable(line: seq<byte>) returns (r: bool)
      requires Valid()
      modifies this`head, this`accepted, buffer
      ensures Valid()
      ensures accepted == old(accepted) + Accepted(line, old(Room()))
      ensures r <==> accepted != handed
    {
      hide Contents;
      var t := tail;
      Interrupted(line);
      EmptyIff(head, t);
      r := t != head;
    }

    /** read_byte, with line0, line1 and line2 arriving before it compares the indices, before it reads
        the slot and before it advances tail. Nothing read means nothing was stored at the comparison. */
    method ReadByte(line0: seq<byte>, line1: seq<byte>, line2: seq<byte>) returns (r: byte)
      requires Valid()
      modifies this, buffer
      ensures Valid()
      ensures var first := old(accepted) + Accepted(line0, old(Room()));
              if first == old(handed) then
                r == 0 && handed == old(handed) && accepted == first
              else
                && accepted == old(accepted) + Accepted(line0 + (line1 + line2), old(Room()))
                && |old(handed)| < |accepted|
                && r == accepted[|old(handed)|]
                && handed == accepted[..|old(handed)| + 1]
    {
      hide Contents, Accepted;
      var t := tail;
      ghost var room := Room();
      Interrupted(line0);
      EmptyIff(head, t);
      r := 0;
      if t != head {
        AcceptedConcat(line0, line1 + line2, room);
        r := TakeByte(line1, line2);
      }
    }

    /** The rest of read_byte on a ring that is not empty. */
    method TakeByte(line1: seq<byte>, line2: seq<byte>) returns (r: byte)
      requires Valid() && |accepted| > |handed|
      modifies this, buffer
      ensures Valid()
      ensures accepted == old(accepted) + Accepted(line1 + line2, old(Room()))
      ensures r == accepted[|old(handed)|] && handed == accepted[..|old(handed)| + 1]
    {
      hide Contents, Accepted;
      ghost var room, got := Room(), handed;
      Interrupted(line1);
      r := ReadSlot();
      ghost var oldest := accepted;
      Interrupted(line2);
      assert accepted[|got|] == oldest[|got|];
      AcceptedConcat(line1, line2, room);
      AdvanceTail(r);
    }

    /** rx_buffer_[rx_tail_] */
    method ReadSlot() returns (r: byte)
      requires Valid() && |accepted| > |handed|
      ensures r == accepted[|handed|]
    {
      hide Contents;
      EmptyIff(head, tail);
      ContentsShrink(buffer[..], head, tail);
      r := buffer[tail];
    }

    /** rx_tail_ = ring_next(rx_tail_) */
    method AdvanceTail(ghost r: byte)
      requires Valid() && |accepted| > |handed| && r == accepted[|handed|]
      modifies this`tail, this`handed
      ensures Valid()
      ensures handed == old(handed) + [r] && handed == accepted[..|old(handed)| + 1]
    {
      hide Contents, Next;
      EmptyIff(head, tail);
      ContentsShrink(buffer[..], head, tail);
      Next64(tail);
      tail := Next(tail);
      handed := handed + [r];
    }
  }

  lemma AcceptedNone(room: nat)
    ensures forall line: seq<byte> :: Accepted(line[..0], room) == []
  {
  }

  lemma Next64(index: byte)
    ensures Next(index) < RX_BUFFER_SIZE
  {
  }
}
