/**
 The stream buffer's own code on wrapped head and tail: space and byte counts, two-part copies, message
 framing. The counts and the copies are proved to be those of module StreamSpec.
 */
module StreamBuffers {
  import opened Turns
  import opened StreamSpec

  class Buffer {
    const message: bool
    const storage: array<Byte>
    var head: nat
    var tail: nat
    ghost var h: nat   // true positions
    ghost var t: nat

    ghost predicate Valid()
      reads this
    {
      && 2 <= storage.Length && head == Slot(h, storage.Length) && tail == Slot(t, storage.Length)
      && t <= h <= t + storage.Length - 1
    }

    /** The unread bytes. */
    ghost function Contents(): (c: seq<Byte>)
      reads this, storage
      requires Valid()
      ensures |c| == h - t
    {
      Window(storage[..], t, h - t)
    }

    /** prvInitialiseNewStreamBuffer */
    constructor (length: nat, message: bool)
      requires length >= 2
      ensures Valid() && fresh(storage) && this.message == message && storage.Length == length && Contents() == []
    {
      this.message := message;
      storage := new Byte[length];
      head, tail, h, t := 0, 0, 0, 0;
    }

    /** prvBytesInBuffer */
    method BytesInBuffer() returns (count: nat)
      requires Valid()
      ensures count == |Contents()|
    {
      SpanOf(t, h, storage.Length);
      count := storage.Length + head - tail;
      if count >= storage.Length {
        count := count - storage.Length;
      }
    }

    /**
     One read of xTail, before which the reader takes some bytes: as many as the next move says, up to all of
     them.
     */
    method TailAfter(moves: seq<nat>) returns (value: nat, rest: seq<nat>)
      requires Valid()
      modifies this`tail, this`t
      ensures Valid() && value == tail && old(t) <= t
      ensures if moves == [] then t == old(t) && rest == [] else rest == moves[1..]
    {
      hide Slot;
      rest := moves;
      if moves != [] {
        var count := BytesInBuffer();
        var step := if moves[0] <= count then moves[0] else count;
        MovedSlot(t, step, storage.Length);
        tail := Moved(tail, step, storage.Length);
        t := t + step;
        rest := moves[1..];
      }
      value := tail;
    }

    /**
     xStreamBufferSpacesAvailable, called by the writer, whose head stands still. However the reader moves
     on between the reads of the tail, the space is right for the tail last read.
     */
    method SpacesAvailable(moves: seq<nat>) returns (space: nat)
      requires Valid()
      modifies this`tail, this`t
      ensures Valid() && old(t) <= t && (moves == [] ==> t == old(t))
      ensures space + |Contents()| == storage.Length - 1 && Contents() == old(Contents())[t - old(t)..]
    {
      hide Slot;
      var rest, again := moves, true;
      space := 0;
      while again
        invariant Valid() && old(t) <= t && (moves == [] ==> t == old(t) && rest == [])
        invariant !again ==> space == storage.Length + tail - head
        decreases if again then |rest| + 1 else 0
      {
        var originalTail, current, last;
        originalTail, rest := TailAfter(rest);
        ghost var start := t;
        current, rest := TailAfter(rest);
        space := storage.Length + current - head;
        last, rest := TailAfter(rest);
        SlotEqual(start, t, storage.Length);
        again := originalTail != last;
      }
      SpanOf(t, h, storage.Length);
      space := space - 1;
      if space >= storage.Length {
        space := space - storage.Length;
      }
      LaterWindow(storage[..], old(t), t, h);
    }

    /** prvWriteBytesToBuffer: in two parts at the end of the storage; the head itself is left to the caller. */
    method WriteBytes(data: seq<Byte>, at: nat, ghost p: nat) returns (next: nat)
      requires Valid() && 0 < |data| <= storage.Length && at == Slot(p, storage.Length)
      modifies storage
      ensures |data| < storage.Length ==> next == Slot(p + |data|, storage.Length)
      ensures storage[..] == Laid(old(storage[..]), at, data)
    {
      hide Slot;
      var length := storage.Length;
      var first := if length - at <= |data| then length - at else |data|;
      CopyIn(at, data[..first]);
      if |data| > first {
        CopyIn(0, data[first..]);
      }
      if |data| < length {
        MovedSlot(p, |data|, length);
      }
      next := Moved(at, |data|, length);
    }

    /** memcpy into the storage */
    method CopyIn(at: nat, data: seq<Byte>)
      requires at + |data| <= storage.Length
      modifies storage
      ensures forall k :: 0 <= k < storage.Length ==>
        storage[k] == if at <= k < at + |data| then data[k - at] else old(storage[k])
    {
      var i := 0;
      while i < |data|
        invariant 0 <= i <= |data|
        invariant forall k :: 0 <= k < storage.Length ==>
          storage[k] == if at <= k < at + i then data[k - at] else old(storage[k])
      {
        storage[at + i] := data[i];
        i := i + 1;
      }
    }

    /** prvReadBytesFromBuffer: likewise; the tail is left to the caller. */
    method ReadBytes(count: nat, at: nat, ghost p: nat) returns (data: seq<Byte>, next: nat)
      requires Valid() && 0 < count < storage.Length && at == Slot(p, storage.Length)
      ensures next == Slot(p + count, storage.Length) && data == Window(storage[..], p, count)
    {
      hide Slot;
      var length := storage.Length;
      var first := if length - at <= count then length - at else count;
      data := storage[at..at + first];
      if count > first {
        data := data + storage[..count - first];
      }
      MovedSlot(p, count, length);
      next := Moved(at, count, length);
      forall i | 0 <= i < count
        ensures data[i] == ByteAt(storage[..], p + i)
      {
        MovedSlot(p, i, length);
      }
    }

    /**
     prvWriteMessageToBuffer with a space value that may be stale. A stream takes as many of the bytes as fit
     into that space; a message goes in whole, behind its length, or not at all.
     */
    method WriteMessage(data: seq<Byte>, space: nat) returns (sent: nat)
      requires Valid() && space + |Contents()| <= storage.Length - 1 && (message ==> |data| < LIMIT)
      modifies this`head, this`h, storage
      ensures Valid() && t == old(t)
      ensures !message ==> sent <= |data| && sent <= space && (sent == |data| || sent == space)
      ensures !message ==> Contents() == old(Contents()) + data[..sent]
      ensures message && data != [] && PREFIX + |data| <= space
        ==> sent == |data| && Contents() == old(Contents()) + Frame(data)
      ensures message && (data == [] || space < PREFIX + |data|) ==> sent == 0 && Contents() == old(Contents())
    {
      hide Slot, Encode, Window, Laid;
      var nextHead := head;
      ghost var p, before := h, storage[..];
      var plan := data;
      if message {
        if space >= |data| + PREFIX {
          nextHead := WriteBytes(Encode(|data|), nextHead, p);
          LaidBehind(before, head, Encode(|data|), t, h);
          p := p + PREFIX;
        } else {
          plan := [];
        }
      } else {
        plan := data[..if |data| <= space then |data| else space];
      }
      if plan != [] {
        ghost var middle := storage[..];
        nextHead := WriteBytes(plan, nextHead, p);
        LaidBehind(middle, Slot(p, storage.Length), plan, t, p);
        head := nextHead;
        h := p + |plan|;
        if message {
          assert Window(storage[..], t, h - t) == (Window(before, t, old(h) - t) + Encode(|data|)) + plan;
        }
      }
      sent := |plan|;
    }

    /**
     prvReadMessageFromBuffer with a byte count that may be stale, in stream mode: all there is room for, or
     all there is
     */
    method ReadStream(room: nat, avail: nat) returns (data: seq<Byte>)
      requires Valid() && !message && avail <= |Contents()|
      modifies this`tail, this`t
      ensures Valid() && h == old(h)
      ensures |data| <= room && |data| <= avail && (|data| == room || |data| == avail)
      ensures old(Contents()) == data + Contents()
    {
      hide Slot;
      var count := if room <= avail then room else avail;
      data := [];
      if count != 0 {
        var next;
        data, next := ReadBytes(count, tail, t);
        tail := next;
        t := t + count;
      }
    }

    /**
     prvReadMessageFromBuffer in message mode: the message at the tail, if the caller has room for it;
     otherwise it stays where it is.
     */
    method ReadMessage(room: nat, avail: nat, ghost m: seq<Byte>, ghost rest: seq<Byte>) returns (data: seq<Byte>)
      requires Valid() && message && 0 < |m| < LIMIT && PREFIX + |m| <= avail <= |Contents()|
      requires Contents() == Frame(m) + rest
      modifies this`tail, this`t
      ensures Valid() && h == old(h)
      ensures if |m| <= room then data == m && Contents() == rest else data == [] && Contents() == old(Contents())
    {
      hide Slot, Encode, Decode;
      DecodeEncode(|m|);
      ghost var c := Contents();
      assert c[..PREFIX] == Encode(|m|) && c[PREFIX..PREFIX + |m|] == m && c[PREFIX + |m|..] == rest;
      var length, nextTail := ReadBytes(PREFIX, tail, t);
      assert length == c[..PREFIX];
      var n := Decode(length);
      if n > room {
        n := 0;
      }
      var count := if n <= avail - PREFIX then n else avail - PREFIX;
      data := [];
      if count != 0 {
        data, nextTail := ReadBytes(count, nextTail, t + PREFIX);
        tail := nextTail;
        t := t + PREFIX + count;
      }
    }
  }

  /** n bytes from position p on. */
  function Window(cells: seq<Byte>, p: nat, n: nat): (w: seq<Byte>)
    requires |cells| > 0
    ensures |w| == n && forall i :: 0 <= i < n ==> w[i] == ByteAt(cells, p + i)
  {
    seq<Byte>(n, i requires 0 <= i < n => ByteAt(cells, p + i))
  }

  lemma LaterWindow(cells: seq<Byte>, t: nat, u: nat, h: nat)
    requires |cells| > 0 && t <= u <= h
    ensures Window(cells, u, h - u) == Window(cells, t, h - t)[u - t..]
  {
    hide ByteAt;
  }

  /** The cells after data has been laid down from cell s on, going round. */
  function Laid(cells: seq<Byte>, s: nat, data: seq<Byte>): (r: seq<Byte>)
    ensures |r| == |cells|
  {
    seq(|cells|, k requires 0 <= k < |cells| =>
      var i := Behind(k, s, |cells|); if 0 <= i < |data| then data[i] else cells[k])
  }

  /** Data laid down behind the window from t to h makes the window longer, and changes nothing in it. */
  lemma LaidBehind(cells: seq<Byte>, s: nat, data: seq<Byte>, t: nat, h: nat)
    requires 0 < |cells| && t <= h && h + |data| <= t + |cells| && s == Slot(h, |cells|)
    ensures var r := Laid(cells, s, data);
            Window(r, t, h - t) == Window(cells, t, h - t)
              && Window(r, t, h + |data| - t) == Window(cells, t, h - t) + data
  {
    hide Slot;
    var r := Laid(cells, s, data);
    forall q | t <= q < h + |data|
      ensures ByteAt(r, q) == if q < h then ByteAt(cells, q) else data[q - h]
    {
      InRun(h, |data|, t, q, |cells|);
    }
    var a, b := Window(r, t, h + |data| - t), Window(cells, t, h - t) + data;
    forall i | 0 <= i < |a|
      ensures a[i] == b[i]
    {
      assert a[i] == ByteAt(r, t + i);
    }
    var c, d := Window(r, t, h - t), Window(cells, t, h - t);
    forall i | 0 <= i < |c|
      ensures c[i] == d[i]
    {
      assert ByteAt(r, t + i) == ByteAt(cells, t + i);
    }
  }

  lemma SpanOf(t: nat, h: nat, length: nat)
    requires 0 < length && t <= h <= t + length - 1
    ensures var a, b := Slot(t, length), Slot(h, length); h - t == if b >= a then b - a else b - a + length
  {
    SlotsApart(t, h, length);
  }
}
