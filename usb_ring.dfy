/** The receive ring buffer that sits between the USB serial callback and the
    packet dispatcher. */
module UsbRing {
  import opened Bytes

  const USB_BUFFER_SIZE := 4096

  /** A ring of USB_BUFFER_SIZE bytes with a read and a write position (the
      source's two pointers, as indices). Both positions point at the last
      slot consumed or filled, so the unread bytes are the slots after rd up
      to and including wr, and rd == wr means empty. There is no full check:
      one slot is never usable, and writing when 4095 bytes are unread makes
      wr catch up with rd, which reads as empty. */
  class Ring {
    const buffer: array<byte>
    var rd: int
    var wr: int
    /** The unread bytes, oldest first: the slots after rd up to wr. */
    ghost var pending: seq<byte>

    ghost predicate Valid()
      reads this, buffer
    {
      buffer.Length == USB_BUFFER_SIZE && 0 <= rd < USB_BUFFER_SIZE && 0 <= wr < USB_BUFFER_SIZE &&
      |pending| == Count() &&
      forall i :: 0 <= i < |pending| ==> Holds(i)
    }

    /** Unread byte i sits in slot rd + 1 + i, wrapped. */
    ghost predicate Holds(i: int)
      requires 0 <= rd < USB_BUFFER_SIZE && 0 <= i < |pending| < USB_BUFFER_SIZE
      reads this, buffer
    {
      buffer.Length == USB_BUFFER_SIZE && pending[i] == buffer[Wrap(rd + 1 + i)]
    }

    /** An index one lap past the end of the buffer, brought back into it. */
    static function Wrap(k: int): (r: int)
      requires 0 <= k < 2 * USB_BUFFER_SIZE
      ensures 0 <= r < USB_BUFFER_SIZE && r % USB_BUFFER_SIZE == k % USB_BUFFER_SIZE
    {
      if k < USB_BUFFER_SIZE then k else k - USB_BUFFER_SIZE
    }

    /** Number of unread bytes. */
    function Count(): (n: int)
      requires 0 <= rd < USB_BUFFER_SIZE && 0 <= wr < USB_BUFFER_SIZE
      reads this
      ensures 0 <= n < USB_BUFFER_SIZE
      ensures n == 0 <==> rd == wr
    {
      Wrap(wr + USB_BUFFER_SIZE - rd)
    }

    constructor()
      ensures Valid() && fresh(buffer)
      ensures pending == []
    {
      buffer := new byte[USB_BUFFER_SIZE](_ => 0);
      rd, wr := 0, 0;
      pending := [];
    }

    /** usb_avail: whether a byte is waiting. */
    method Avail() returns (b: bool)
      requires Valid()
      ensures b <==> pending != []
    {
      b := rd != wr;
    }

    /** usb_getbyte: consume the oldest byte, or return 0 when none is waiting. */
    method GetByte() returns (v: byte)
      requires Valid()
      modifies this
      ensures Valid()
      ensures old(pending) == [] ==> v == 0 && pending == []
      ensures old(pending) != [] ==> v == old(pending)[0] && pending == old(pending)[1..]
    {
      v := 0;
      if rd != wr {
        ghost var before := pending;
        assert Holds(0);
        rd := rd + 1;
        if rd >= USB_BUFFER_SIZE {
          rd := 0;
        }
        v := buffer[rd];
        pending := before[1..];
        assert v == before[0];
        assert Count() == |before| - 1;
        forall i | 0 <= i < |pending|
          ensures Holds(i)
        {
          assert old(Holds(1 + i));
          assert Wrap(rd + 1 + i) == Wrap(old(rd) + 1 + (1 + i));
        }
      }
    }

    /** usb_peekbyte: the oldest byte without consuming it, or 0 when none is
        waiting. */
    function PeekByte(): (v: byte)
      requires Valid()
      reads this, buffer
      ensures v == if pending == [] then 0 else pending[0]
    {
      if rd == wr then 0
      else
        assert Holds(0);
        buffer[Wrap(rd + 1)]
    }

    /** usb_getbyte_blocking: the source polls the USB stack until a byte
        arrives. No byte arrives while the model waits, so an empty ring
        answers None and is left as it was. */
    method GetByteBlocking() returns (r: Option<byte>)
      requires Valid()
      modifies this
      ensures Valid()
      ensures old(pending) == [] ==> r == None && pending == []
      ensures old(pending) != [] ==> r == Some(old(pending)[0]) && pending == old(pending)[1..]
    {
      var avail := Avail();
      if !avail {
        return None;
      }
      var v := GetByte();
      r := Some(v);
    }

    /** usb_setbyte: store one received byte. Below 4095 unread bytes it is
        appended; at 4095 the write position lands on the read position and
        every unread byte, the new one included, is lost. */
    method SetByte(x: byte)
      requires Valid()
      modifies this, buffer
      ensures Valid() && rd == old(rd)
      ensures old(Count()) < USB_BUFFER_SIZE - 1 ==> pending == old(pending) + [x]
      ensures old(Count()) == USB_BUFFER_SIZE - 1 ==> pending == []
    {
      ghost var before := pending;
      var pos := wr + 1;
      if pos >= USB_BUFFER_SIZE {
        pos := 0;
      }
      buffer[pos] := x;
      wr := pos;
      if |before| < USB_BUFFER_SIZE - 1 {
        pending := before + [x];
        assert Count() == |before| + 1;
        forall i | 0 <= i < |before|
          ensures Holds(i)
        {
          assert old(Holds(i));
          assert Wrap(rd + 1 + i) != pos;
        }
      } else {
        pending := [];
      }
    }
  }
}
