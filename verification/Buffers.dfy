/** core/streambuffer.hh: a fixed array with a window [head, tail) that is filled at the tail,
    drained at the head, and can be pushed back to make room in front. */
module Buffers {
  import opened Codec

  const BUF_SIZE := 35 * 1024
  const HEADROOM := 17 * 1024

  function Min(a: int, b: int): int { if a < b then a else b }

  /** The buffer as a value: where the window starts and what is in it. */
  datatype Buf = Buf(head: nat, data: seq<byte>) {
    ghost predicate Valid() { head + |data| <= BUF_SIZE }

    function Used(): nat { |data| }

    function Avail(): int { BUF_SIZE - head - |data| }

    function Use(d: seq<byte>): Buf { Buf(head, data + d) }

    function Unuse(n: nat): Buf
      requires n <= |data|
    {
      if n == |data| then EMPTY_BUF else Buf(head + n, data[n..])
    }

    predicate Fits(size: nat) { size <= BUF_SIZE - |data| }

    function MakeHeadroom(size: nat): Buf { if size > head then Buf(size, data) else this }

    /** `prepend` receives its size as a `uint8_t`: only that many bytes are placed. */
    function Prepend(stuff: seq<byte>): Buf {
      var n := |stuff| % 256;
      Buf(MakeHeadroom(n).head - n, stuff[..n] + data)
    }
  }

  const EMPTY_BUF := Buf(0, [])

  /** Prepending is exact if and only if the length survives the narrowing to eight bits. */
  lemma PrependExact(b: Buf, stuff: seq<byte>)
    ensures b.Prepend(stuff).data == stuff + b.data <==> |stuff| < 256
  {
    if |stuff| < 256 {
      assert stuff[..|stuff| % 256] == stuff;
    } else {
      assert |b.Prepend(stuff).data| == |stuff| % 256 + |b.data|;
    }
  }

  /** Room is refused exactly when no position of the window would leave it; when granted, the
      window moves only as far back as it must, and what is put in front ends where it began. */
  lemma HeadroomExact(b: Buf, size: nat, stuff: seq<byte>)
    requires b.Valid() && |stuff| < 256
    ensures b.Fits(size) <==> exists h :: h >= size && Buf(h, b.data).Valid()
    ensures b.Fits(size) ==>
              var q := b.MakeHeadroom(size);
              q.Valid() && q.data == b.data && q.head >= size && (q.head == b.head || (b.head < size && q.head == size))
    ensures b.Fits(|stuff|) ==>
              var q := b.Prepend(stuff);
              q.Valid() && q.data == stuff + b.data && (q.head + |stuff| == b.head || (b.head < |stuff| && q.head == 0))
  {
    if b.Fits(size) {
      assert Buf(size, b.data).Valid();
    }
    PrependExact(b, stuff);
  }

  /** One operation of a history of the buffer, within the bounds its callers respect. */
  datatype Op = Append(bytes: seq<byte>) | Drop(count: nat) | Headroom(size: nat) | Front(stuff: seq<byte>)

  ghost predicate InBounds(b: Buf, op: Op) {
    match op
    case Append(d) => |d| <= b.Avail()
    case Drop(n) => n <= b.Used()
    case Headroom(size) => b.Fits(size)
    case Front(stuff) => |stuff| < 256 && b.Fits(|stuff|)
  }

  function Apply(b: Buf, op: Op): Buf
    requires InBounds(b, op)
  {
    match op
    case Append(d) => b.Use(d)
    case Drop(n) => b.Unuse(n)
    case Headroom(size) => b.MakeHeadroom(size)
    case Front(stuff) => b.Prepend(stuff)
  }

  ghost predicate History(b: Buf, ops: seq<Op>)
    decreases |ops|
  {
    ops == [] || (InBounds(b, ops[0]) && History(Apply(b, ops[0]), ops[1..]))
  }

  function Final(b: Buf, ops: seq<Op>): Buf
    requires History(b, ops)
    decreases |ops|
  {
    if ops == [] then b else Final(Apply(b, ops[0]), ops[1..])
  }

  /** The same operation on a plain byte sequence. */
  function OnBytes(s: seq<byte>, op: Op): seq<byte> {
    match op
    case Append(d) => s + d
    case Drop(n) => if n <= |s| then s[n..] else []
    case Headroom(_) => s
    case Front(stuff) => stuff + s
  }

  function BytesFinal(s: seq<byte>, ops: seq<Op>): seq<byte>
    decreases |ops|
  {
    if ops == [] then s else BytesFinal(OnBytes(s, ops[0]), ops[1..])
  }

  /** The buffer refines a byte sequence: over any history of operations within bounds the
      window holds what the same operations make of a plain sequence, and stays in the array. */
  lemma {:induction false} RefinesSequence(b: Buf, ops: seq<Op>)
    requires b.Valid() && History(b, ops)
    ensures Final(b, ops).Valid() && Final(b, ops).data == BytesFinal(b.data, ops)
    decreases |ops|
  {
    if ops == [] {
    } else {
      var next := Apply(b, ops[0]);
      if ops[0].Front? {
        PrependExact(b, ops[0].stuff);
      }
      assert next.data == OnBytes(b.data, ops[0]);
      RefinesSequence(next, ops[1..]);
    }
  }

  /** Everything ever put in at the tail, everything ever taken out at the head. */
  function Appended(ops: seq<Op>): seq<byte> {
    if ops == [] then [] else (if ops[0].Append? then ops[0].bytes else []) + Appended(ops[1..])
  }

  function Drained(b: Buf, ops: seq<Op>): seq<byte>
    requires History(b, ops)
    decreases |ops|
  {
    if ops == [] then []
    else (if ops[0].Drop? then b.data[..ops[0].count] else []) + Drained(Apply(b, ops[0]), ops[1..])
  }

  ghost predicate NoFront(ops: seq<Op>) { forall i :: 0 <= i < |ops| ==> !ops[i].Front? }

  /** Over any history the window stays inside the array, and (while nothing is put in front)
      no byte is lost, duplicated or reordered through resets and overlapping moves. */
  lemma {:induction false} HistoryIsFifo(b: Buf, ops: seq<Op>)
    requires b.Valid() && History(b, ops)
    ensures Final(b, ops).Valid()
    ensures NoFront(ops) ==> Drained(b, ops) + Final(b, ops).data == b.data + Appended(ops)
    decreases |ops|
  {
    if ops == [] {
    } else {
      var next := Apply(b, ops[0]);
      HistoryIsFifo(next, ops[1..]);
      if NoFront(ops) {
        assert !ops[0].Front?;
        assert NoFront(ops[1..]) by {
          forall i | 0 <= i < |ops[1..]| ensures !ops[1..][i].Front? { assert ops[1..][i] == ops[i + 1]; }
        }
        var out := if ops[0].Drop? then b.data[..ops[0].count] else [];
        var inn := if ops[0].Append? then ops[0].bytes else [];
        assert out + next.data == b.data + inn;
        Rearrange(out, Drained(next, ops[1..]), Final(next, ops[1..]).data, next.data, Appended(ops[1..]), b.data, inn);
      }
    }
  }

  lemma Rearrange(out: seq<byte>, drained: seq<byte>, left: seq<byte>, mid: seq<byte>, later: seq<byte>,
                  first: seq<byte>, inn: seq<byte>)
    requires drained + left == mid + later && out + mid == first + inn
    ensures (out + drained) + left == first + (inn + later)
  {
    assert (out + drained) + left == out + (drained + left);
    assert out + (mid + later) == (out + mid) + later;
  }

  class StreamBuffer {
    const buf: array<byte>
    var head: nat
    var tail: nat

    ghost predicate Valid()
      reads this
    {
      buf.Length == BUF_SIZE && head <= tail <= BUF_SIZE
    }

    ghost function View(): Buf
      requires Valid()
      reads this, buf
    {
      Buf(head, buf[head..tail])
    }

    constructor ()
      ensures Valid() && fresh(buf)
      ensures View() == EMPTY_BUF
    {
      buf := new byte[BUF_SIZE];
      head, tail := 0, 0;
    }

    method UsedSize() returns (n: nat)
      requires Valid()
      ensures n == View().Used()
    {
      n := tail - head;
    }

    method AvailSize() returns (n: nat)
      requires Valid()
      ensures n == View().Avail()
    {
      n := BUF_SIZE - tail;
    }

    /** The bytes a `send` of `n` bytes from `getHead()` would transmit. */
    method Peek(n: nat) returns (s: seq<byte>)
      requires Valid() && n <= View().Used()
      ensures s == View().data[..n]
    {
      s := buf[head..head + n];
    }

    /** `memcpy` to position `at`. */
    method CopyIn(at: nat, stuff: seq<byte>)
      requires at + |stuff| <= buf.Length
      modifies buf
      ensures buf[at..at + |stuff|] == stuff
      ensures forall i :: 0 <= i < buf.Length && !(at <= i < at + |stuff|) ==> buf[i] == old(buf[i])
    {
      for i := 0 to |stuff|
        invariant forall j :: 0 <= j < i ==> buf[at + j] == stuff[j]
        invariant forall j :: 0 <= j < buf.Length && !(at <= j < at + i) ==> buf[j] == old(buf[j])
      {
        buf[at + i] := stuff[i];
      }
    }

    /** A `recv` into `getTail()` followed by `use`. */
    method Fill(data: seq<byte>)
      requires Valid() && |data| <= View().Avail()
      modifies this`tail, buf
      ensures Valid() && View() == old(View()).Use(data)
    {
      CopyIn(tail, data);
      tail := tail + |data|;
      assert buf[head..tail] == old(buf[head..tail]) + data;
    }

    method Unuse(count: nat)
      requires Valid() && count <= View().Used()
      modifies this
      ensures Valid() && View() == old(View()).Unuse(count)
    {
      head := head + count;
      if head == tail {
        head, tail := 0, 0;
      }
    }

    /** `memmove` copies towards higher addresses, hence from the last byte down. */
    method MakeHeadroom(size: nat) returns (ok: bool)
      requires Valid()
      modifies this, buf
      ensures Valid()
      ensures ok == old(View()).Fits(size)
      ensures View() == if ok then old(View()).MakeHeadroom(size) else old(View())
    {
      var dataSize := tail - head;
      if BUF_SIZE - dataSize < size {
        return false;
      }
      if size > head {
        var k := dataSize;
        while k > 0
          invariant 0 <= k <= dataSize
          invariant forall i :: head <= i < head + k ==> buf[i] == old(buf[i])
          invariant forall i :: size + k <= i < size + dataSize ==> buf[i] == old(buf[i - size + head])
          modifies buf
        {
          k := k - 1;
          buf[size + k] := buf[head + k];
        }
        tail := tail + size - head;
        head := size;
        assert buf[head..tail] == old(buf[head..tail]);
      }
      ok := true;
    }

    method Prepend(stuff: seq<byte>) returns (ok: bool)
      requires Valid()
      modifies this, buf
      ensures Valid()
      ensures ok == old(View()).Fits(|stuff| % 256)
      ensures View() == if ok then old(View()).Prepend(stuff) else old(View())
    {
      var size := |stuff| % 256;
      ok := MakeHeadroom(size);
      if ok {
        ghost var kept := buf[head..tail];
        assert kept == old(View()).data;
        CopyIn(head - size, stuff[..size]);
        head := head - size;
        assert buf[head + size..tail] == kept;
        assert buf[head..tail] == buf[head..head + size] + buf[head + size..tail];
      }
    }
  }
}
