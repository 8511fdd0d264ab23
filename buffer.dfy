/** The append-only byte buffer of buffer.go. A Go `buffer` is a byte slice
    that every write reassigns; here it is a class whose `bytes` field holds
    the slice's contents and whose `cap` field its capacity. */
module Buffers {
  import opened Text
  import opened Decimal

  /** Buffers of at most this capacity go back to the pool (16 << 10). */
  const MaxBufferSize: nat := 16 * 1024
  /** Capacity of a buffer the pool allocates. */
  const InitialCapacity: nat := 1024
  /** Length of the digit scratch array of `WritePosIntWidth`. */
  const ScratchSize: nat := 20

  /** Capacity after appending up to length `needed`: Go's append policy,
      simplified to doubling (and at least `needed`). */
  function Grown(cap: nat, needed: nat): (r: nat)
    ensures r >= needed && r >= cap
    ensures needed <= cap ==> r == cap
  {
    if needed <= cap then cap else Max(2 * cap, needed)
  }

  class Buffer {
    var bytes: seq<byte>
    var cap: nat

    ghost predicate Valid()
      reads this
    {
      |bytes| <= cap
    }

    /** A buffer as the pool's `New` allocates it (`newBuffer`). */
    constructor ()
      ensures Valid()
      ensures bytes == [] && cap == InitialCapacity
    {
      bytes := [];
      cap := InitialCapacity;
    }

    /** `Free`: truncates and recycles the buffer unless its capacity
        exceeds `MaxBufferSize`, in which case it is left as it was. */
    method Free() returns (recycled: bool)
      requires Valid()
      modifies this
      ensures Valid()
      ensures recycled == (old(cap) <= MaxBufferSize)
      ensures cap == old(cap)
      ensures bytes == if recycled then [] else old(bytes)
    {
      recycled := cap <= MaxBufferSize;
      if recycled {
        bytes := [];
      }
    }

    method Reset()
      requires Valid()
      modifies this
      ensures Valid()
      ensures bytes == [] && cap == old(cap)
    {
      bytes := [];
    }

    /** `Write(p)`: appends `p`, reports `len(p)` and a nil error. */
    method Write(p: seq<byte>) returns (n: nat, err: Option<Text>)
      requires Valid()
      modifies this
      ensures Valid()
      ensures bytes == old(bytes) + p
      ensures cap == Grown(old(cap), |bytes|)
      ensures n == |p| && err == None
    {
      bytes := bytes + p;
      cap := Grown(cap, |bytes|);
      n, err := |p|, None;
    }

    method WriteString(s: seq<byte>)
      requires Valid()
      modifies this
      ensures Valid()
      ensures bytes == old(bytes) + s
      ensures cap == Grown(old(cap), |bytes|)
    {
      bytes := bytes + s;
      cap := Grown(cap, |bytes|);
    }

    method WriteByte(c: byte) returns (err: Option<Text>)
      requires Valid()
      modifies this
      ensures Valid()
      ensures bytes == old(bytes) + [c]
      ensures cap == Grown(old(cap), |bytes|)
      ensures err == None
    {
      bytes := bytes + [c];
      cap := Grown(cap, |bytes|);
      err := None;
    }

    /** `WritePosInt(i)` is `WritePosIntWidth(i, 0)`: the digits of `i`
        without padding. */
    method WritePosInt(i: int) returns (ok: bool)
      requires Valid()
      modifies this
      ensures Valid()
      ensures ok <==> i >= 0 && DigitCount(i as nat) <= ScratchSize
      ensures ok ==> bytes == old(bytes) + Digits(i as nat)
      ensures !ok ==> bytes == old(bytes) && cap == old(cap)
    {
      if i >= 0 {
        ZeroPaddedNoPadding(i, 0);
        ZeroPaddedLength(i, 0);
      }
      ok := WritePosIntWidth(i, 0);
    }

    /** `WritePosIntWidth(i, width)` appends the decimal digits of `i`,
        left-padded with '0' to at least `width` digits, assembled back to
        front in a 20-byte scratch array. It panics before writing anything
        when `i` is negative, and when the digits do not fit the scratch
        array (its index goes below zero); `ok` is false exactly then. */
    method WritePosIntWidth(i: int, width: int) returns (ok: bool)
      requires Valid()
      modifies this
      ensures Valid()
      ensures ok <==> i >= 0 && |ZeroPadded(i as nat, width)| <= ScratchSize
      ensures ok ==> bytes == old(bytes) + ZeroPadded(i as nat, width)
      ensures !ok ==> bytes == old(bytes) && cap == old(cap)
    {
      if i < 0 {
        return false;  // panic("negative int")
      }
      var bb := new byte[ScratchSize];
      var n, w := i, width;
      var bp := ScratchSize - 1;
      ZeroPaddedLength(i, width);
      while n >= 10 || w > 1
        modifies bb
        invariant n >= 0 && 0 <= bp < ScratchSize
        invariant |ZeroPadded(n, w)| + (ScratchSize - 1 - bp) == |ZeroPadded(i, width)|
        invariant ZeroPadded(n, w) + bb[bp + 1..] == ZeroPadded(i, width)
        decreases n, w
      {
        ZeroPaddedLength(n, w);
        ZeroPaddedStep(n, w);
        ZeroPaddedLength(n / 10, w - 1);
        w := w - 1;
        var q := n / 10;
        bb[bp] := Digit(n - q * 10);
        bp := bp - 1;
        n := q;
        if bp < 0 {
          ZeroPaddedLength(n, w);
          return false;  // the next write to bb[bp] is out of range
        }
      }
      ZeroPaddedLast(n, w);
      bb[bp] := Digit(n);
      assert bb[bp..] == ZeroPadded(i, width);
      var _, _ := Write(bb[bp..]);
      return true;
    }

    /** `String()`: the buffer's contents. */
    method String() returns (s: seq<byte>)
      ensures s == bytes
    {
      s := bytes;
    }
  }

  /** The buffer test of buffer_test.go: "hello", ',', " world", then 17
      padded to four digits. */
  method HelloWorld() returns (s: seq<byte>)
    ensures s == "hello, world0017"
  {
    var b := new Buffer();
    b.WriteString("hello");
    var _ := b.WriteByte(',');
    var _, _ := b.Write(" world");
    PaddedSeventeen();
    var ok := b.WritePosIntWidth(17, 4);
    s := b.String();
    var _ := b.Free();
  }

  lemma PaddedSeventeen()
    ensures ZeroPadded(17, 4) == "0017"
  {
    assert Digits(17) == "17";
    assert DigitCount(17) == 2;
    assert Zeros(2) == "00";
  }
}
