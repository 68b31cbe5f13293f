/**
  The gap buffer: a byte vector with a reader and a writer index.  Every method is proved against the
  plain byte sequence `Contents()`, which is what lies between the two indices.
 */
module Buffers {

  import opened Options

  type Byte = c: char | c as int < 256 witness '\0'

  const CHEAP_PREPEND: nat := 8
  const INITIAL_SIZE: nat := 1024
  /** The size of the stack array that `readFd` reads into after the tail of the vector. */
  const EXTRA_BUF: nat := 65536

  // ---------------------------------------------------------------- searching for CRLF

  predicate CrlfAt(s: seq<Byte>, k: nat) {
    k + 2 <= |s| && s[k] == '\r' && s[k + 1] == '\n'
  }

  predicate IsFirstCrlf(s: seq<Byte>, k: nat) {
    CrlfAt(s, k) && forall j: nat :: j < k ==> !CrlfAt(s, j)
  }

  /** `std::search` for CRLF. */
  function FindCrlf(s: seq<Byte>): (r: Option<nat>)
    ensures r.Some? ==> IsFirstCrlf(s, r.value)
    ensures r.None? ==> forall k: nat :: !CrlfAt(s, k)
  {
    if |s| < 2 then None
    else if CrlfAt(s, 0) then Some(0)
    else
      assert forall k: nat :: k > 0 ==> CrlfAt(s, k) == CrlfAt(s[1..], k - 1);
      match FindCrlf(s[1..])
      case None => None
      case Some(k) => Some(k + 1)
  }

  lemma FirstCrlfIsFound(s: seq<Byte>, k: nat)
    requires IsFirstCrlf(s, k)
    ensures FindCrlf(s) == Some(k)
  {
    assert FindCrlf(s).Some?;
  }

  /** More bytes do not move the first CRLF; a CR at the end may become one. */
  lemma FindCrlfExtends(a: seq<Byte>, b: seq<Byte>)
    requires FindCrlf(a).Some?
    ensures FindCrlf(a + b) == FindCrlf(a)
  {
    var k := FindCrlf(a).value;
    assert forall j: nat :: j <= k ==> CrlfAt(a + b, j) == CrlfAt(a, j);
    FirstCrlfIsFound(a + b, k);
  }

  // ---------------------------------------------------------------- integers in network order

  function Power256(n: nat): (p: nat)
    ensures p > 0 && (n > 0 ==> p % 2 == 0)
  {
    if n == 0 then 1 else 256 * Power256(n - 1)
  }

  /** The range of the signed integer of `n` bytes. */
  predicate Fits(n: nat, x: int) {
    0 - Power256(n) <= 2 * x < Power256(n)
  }

  function UnsignedBytes(n: nat, u: nat): (s: seq<Byte>)
    requires u < Power256(n)
    ensures |s| == n
  {
    if n == 0 then []
    else UnsignedBytes(n - 1, u / 256) + [(u % 256) as char]
  }

  function UnsignedValue(s: seq<Byte>): (u: nat)
    ensures u < Power256(|s|)
  {
    if s == [] then 0 else 256 * UnsignedValue(s[..|s| - 1]) + s[|s| - 1] as int
  }

  /** `hostToNetwork` and the bytes of its result: two's complement, most significant byte first. */
  function NetworkBytes(n: nat, x: int): (s: seq<Byte>)
    requires Fits(n, x)
    ensures |s| == n
  {
    UnsignedBytes(n, if x < 0 then x + Power256(n) else x)
  }

  function NetworkValue(s: seq<Byte>): (x: int)
    ensures s != [] ==> Fits(|s|, x)
  {
    var u := UnsignedValue(s);
    if 2 * u < Power256(|s|) then u else u - Power256(|s|)
  }

  lemma {:induction false} UnsignedRoundTrip(n: nat, u: nat)
    requires u < Power256(n)
    ensures UnsignedValue(UnsignedBytes(n, u)) == u
  {
    if n > 0 {
      var s := UnsignedBytes(n, u);
      UnsignedRoundTrip(n - 1, u / 256);
      assert s[..|s| - 1] == UnsignedBytes(n - 1, u / 256);
    }
  }

  lemma {:induction false} UnsignedBytesUnique(s: seq<Byte>)
    ensures UnsignedBytes(|s|, UnsignedValue(s)) == s
  {
    if s != [] {
      UnsignedBytesUnique(s[..|s| - 1]);
      assert s == s[..|s| - 1] + [s[|s| - 1]];
    }
  }

  /** The byte at `k` has the weight of the digits behind it: the most significant byte comes first. */
  lemma {:induction false} MostSignificantFirst(n: nat, u: nat, k: nat)
    requires u < Power256(n) && k < n
    ensures UnsignedBytes(n, u)[k] as int == (u / Power256(n - 1 - k)) % 256
  {
    if k < n - 1 {
      MostSignificantFirst(n - 1, u / 256, k);
      DivideTwice(u, Power256(n - 2 - k));
    }
  }

  lemma DivideTwice(u: nat, p: nat)
    requires p > 0
    ensures u / 256 / p == u / (256 * p)
  {
    var q := u / 256 / p;
    var r := u / 256 % p;
    assert u / 256 == q * p + r;
    assert u == 256 * (q * p + r) + u % 256;
    assert 256 * (q * p) == q * (256 * p);
    Quotient(u, 256 * p, q, 256 * r + u % 256);
  }

  lemma Quotient(u: nat, d: nat, q: nat, r: nat)
    requires d > 0 && u == q * d + r && r < d
    ensures u / d == q
  {
    var p := u / d;
    assert u == p * d + u % d;
    assert (p - q) * d == r - u % d;
    assert p - q >= 1 ==> (p - q) * d >= d;
    assert q - p >= 1 ==> (q - p) * d >= d;
  }

  /** Network byte order: the bytes of the two's complement, the most significant first. */
  lemma NetworkByteOrder(n: nat, x: int, k: nat)
    requires Fits(n, x) && k < n
    ensures NetworkBytes(n, x)[k] as int == ((if x < 0 then x + Power256(n) else x) / Power256(n - 1 - k)) % 256
  {
    MostSignificantFirst(n, if x < 0 then x + Power256(n) else x, k);
  }

  /** Every signed integer of every width survives the trip through the buffer. */
  lemma IntegerRoundTrip(n: nat, x: int)
    requires n > 0 && Fits(n, x)
    ensures NetworkValue(NetworkBytes(n, x)) == x
  {
    UnsignedRoundTrip(n, if x < 0 then x + Power256(n) else x);
  }

  /** And every string of bytes is the encoding of the integer read from it. */
  lemma BytesRoundTrip(s: seq<Byte>)
    requires s != []
    ensures NetworkBytes(|s|, NetworkValue(s)) == s
  {
    UnsignedBytesUnique(s);
  }

  // ---------------------------------------------------------------- the buffer

  lemma JoinSlices(s: seq<Byte>, a: nat, b: nat, c: nat)
    requires a <= b <= c <= |s|
    ensures s[a..c] == s[a..b] + s[b..c]
  {
  }

  class Buffer {
    var data: array<Byte>
    var reader: nat
    var writer: nat

    ghost predicate Valid()
      reads this
    {
      reader <= writer <= data.Length && CHEAP_PREPEND + INITIAL_SIZE <= data.Length
    }

    function Contents(): (s: seq<Byte>)
      requires Valid()
      reads this, data
      ensures |s| == writer - reader
    {
      data[reader..writer]
    }

    function ReadableBytes(): nat
      requires Valid()
      reads this
    {
      writer - reader
    }

    function WritableBytes(): nat
      requires Valid()
      reads this
    {
      data.Length - writer
    }

    function PrependableBytes(): nat
      reads this
    {
      reader
    }

    constructor ()
      ensures Valid() && fresh(data) && Contents() == []
      ensures PrependableBytes() == CHEAP_PREPEND && WritableBytes() == INITIAL_SIZE
    {
      data := new Byte[CHEAP_PREPEND + INITIAL_SIZE];
      reader, writer := CHEAP_PREPEND, CHEAP_PREPEND;
    }

    /** `std::copy` of overlapping ranges, forwards: the readable bytes slide down to the cheap prepend. */
    method SlideDown()
      requires Valid() && CHEAP_PREPEND < reader
      modifies this`reader, this`writer, data
      ensures Valid() && Contents() == old(Contents()) && reader == CHEAP_PREPEND
    {
      var readable := ReadableBytes();
      ghost var was := data[..];
      for i := 0 to readable
        invariant reader == old(reader) && writer == old(writer)
        invariant forall k :: CHEAP_PREPEND <= k < CHEAP_PREPEND + i ==> data[k] == was[k - CHEAP_PREPEND + reader]
        invariant forall k :: reader + i <= k < writer ==> data[k] == was[k]
      {
        data[CHEAP_PREPEND + i] := data[reader + i];
      }
      reader := CHEAP_PREPEND;
      writer := reader + readable;
    }

    /** `std::copy` from outside the vector to offset `at`. */
    method CopyIn(at: nat, bytes: seq<Byte>)
      requires at + |bytes| <= data.Length
      modifies data
      ensures data[at..at + |bytes|] == bytes
      ensures forall k :: 0 <= k < at || at + |bytes| <= k < data.Length ==> data[k] == old(data[k])
    {
      for i := 0 to |bytes|
        invariant data[at..at + i] == bytes[..i]
        invariant forall k :: 0 <= k < at || at + |bytes| <= k < data.Length ==> data[k] == old(data[k])
      {
        data[at + i] := bytes[i];
        assert data[at..at + i + 1] == data[at..at + i] + [data[at + i]];
      }
    }

    /** `vector::resize`. */
    method Resize(size: nat)
      requires Valid() && data.Length <= size
      modifies this`data
      ensures Valid() && fresh(data) && data.Length == size && Contents() == old(Contents())
    {
      var bigger := new Byte[size];
      forall i | 0 <= i < data.Length {
        bigger[i] := data[i];
      }
      data := bigger;
    }

    method MakeSpace(len: nat)
      requires Valid() && WritableBytes() < len
      modifies this, data
      ensures Valid() && (data == old(data) || fresh(data))
      ensures Contents() == old(Contents()) && WritableBytes() >= len
      ensures reader == old(reader) || reader == CHEAP_PREPEND
    {
      if WritableBytes() + PrependableBytes() < len + CHEAP_PREPEND {
        Resize(writer + len);
      } else {
        assert CHEAP_PREPEND < reader;
        SlideDown();
      }
    }

    method EnsureWritableBytes(len: nat)
      requires Valid()
      modifies this, data
      ensures Valid() && (data == old(data) || fresh(data))
      ensures Contents() == old(Contents()) && WritableBytes() >= len
      ensures reader == old(reader) || reader == CHEAP_PREPEND
      ensures len <= old(WritableBytes()) ==> data == old(data) && reader == old(reader) && writer == old(writer)
    {
      if WritableBytes() < len {
        MakeSpace(len);
      }
    }

    method Append(bytes: seq<Byte>)
      requires Valid()
      modifies this, data
      ensures Valid() && (data == old(data) || fresh(data))
      ensures Contents() == old(Contents()) + bytes
      ensures reader == old(reader) || reader == CHEAP_PREPEND
      ensures |bytes| <= old(WritableBytes()) ==>
                data == old(data) && reader == old(reader) && WritableBytes() == old(WritableBytes()) - |bytes|
    {
      EnsureWritableBytes(|bytes|);
      ghost var before := Contents();
      CopyIn(writer, bytes);
      assert data[reader..writer] == before;
      JoinSlices(data[..], reader, writer, writer + |bytes|);
      writer := writer + |bytes|;
    }

    method RetrieveAll()
      requires Valid()
      modifies this`reader, this`writer
      ensures Valid() && Contents() == []
    {
      reader, writer := CHEAP_PREPEND, CHEAP_PREPEND;
    }

    method Retrieve(len: nat)
      requires Valid() && len <= ReadableBytes()
      modifies this`reader, this`writer
      ensures Valid() && Contents() == old(Contents())[len..]
    {
      if len < ReadableBytes() {
        reader := reader + len;
      } else {
        RetrieveAll();
      }
    }

    method RetrieveAsString(len: nat) returns (s: seq<Byte>)
      requires Valid() && len <= ReadableBytes()
      modifies this`reader, this`writer
      ensures Valid() && s == old(Contents())[..len] && Contents() == old(Contents())[len..]
    {
      s := data[reader..reader + len];
      Retrieve(len);
    }

    method Prepend(bytes: seq<Byte>)
      requires Valid() && |bytes| <= PrependableBytes()
      modifies this`reader, data
      ensures Valid() && Contents() == bytes + old(Contents())
      ensures PrependableBytes() == old(PrependableBytes()) - |bytes|
    {
      reader := reader - |bytes|;
      CopyIn(reader, bytes);
      assert data[reader + |bytes|..writer] == old(Contents());
      JoinSlices(data[..], reader, reader + |bytes|, writer);
    }

    method Shrink(reserve: nat)
      requires Valid()
      modifies this
      ensures Valid() && fresh(data)
      ensures Contents() == old(Contents()) && WritableBytes() >= reserve && PrependableBytes() == CHEAP_PREPEND
    {
      var other := new Buffer();
      other.EnsureWritableBytes(ReadableBytes() + reserve);
      assert other.writer == CHEAP_PREPEND;
      other.Append(data[reader..writer]);
      data, reader, writer := other.data, other.reader, other.writer;
    }

    /** `readv` into the tail and then the stack array; `None` is an error of the call. */
    method ReadFd(input: Option<seq<Byte>>) returns (n: int)
      requires Valid()
      requires input.Some? ==> |input.value| <= WritableBytes() + EXTRA_BUF
      modifies this, data
      ensures Valid() && (data == old(data) || fresh(data))
      ensures Contents() == old(Contents()) + (if input.Some? then input.value else [])
      ensures n == if input.Some? then |input.value| else -1
    {
      match input {
        case None =>
          n := -1;
          assert Contents() == old(Contents()) + [];
        case Some(bytes) =>
          n := |bytes|;
          var writable := WritableBytes();
          var tail := if n <= writable then n else writable;
          CopyIn(writer, bytes[..tail]);
          if n <= writable {
            writer := writer + n;
          } else {
            JoinSlices(data[..], reader, writer, data.Length);
            writer := data.Length;
            assert Contents() == old(Contents()) + bytes[..writable];
            Append(bytes[writable..]);
            assert bytes == bytes[..writable] + bytes[writable..];
          }
      }
    }

    method FindCRLF() returns (r: Option<nat>)
      requires Valid()
      ensures r == FindCrlf(Contents())
    {
      var i := 0;
      while i + 2 <= ReadableBytes()
        invariant i <= ReadableBytes()
        invariant forall k: nat :: k < i ==> !CrlfAt(Contents(), k)
      {
        if data[reader + i] == '\r' && data[reader + i + 1] == '\n' {
          FirstCrlfIsFound(Contents(), i);
          return Some(i);
        }
        i := i + 1;
      }
      assert forall k: nat :: !CrlfAt(Contents(), k);
      r := None;
    }

    /** The first `len` readable bytes, left in place. */
    method Peek(len: nat) returns (s: seq<Byte>)
      requires Valid() && len <= ReadableBytes()
      ensures s == Contents()[..len]
    {
      s := data[reader..reader + len];
    }

    method AppendInt(n: nat, x: int)
      requires Valid() && Fits(n, x)
      modifies this, data
      ensures Valid() && (data == old(data) || fresh(data))
      ensures Contents() == old(Contents()) + NetworkBytes(n, x)
    {
      Append(NetworkBytes(n, x));
    }

    method PrependInt(n: nat, x: int)
      requires Valid() && Fits(n, x) && n <= PrependableBytes()
      modifies this`reader, data
      ensures Valid() && Contents() == NetworkBytes(n, x) + old(Contents())
    {
      Prepend(NetworkBytes(n, x));
    }

    method PeekInt(n: nat) returns (x: int)
      requires Valid() && 0 < n <= ReadableBytes()
      ensures Fits(n, x) && Contents()[..n] == NetworkBytes(n, x)
    {
      BytesRoundTrip(Contents()[..n]);
      x := NetworkValue(data[reader..reader + n]);
      assert data[reader..reader + n] == Contents()[..n];
    }

    method ReadInt(n: nat) returns (x: int)
      requires Valid() && 0 < n <= ReadableBytes()
      modifies this`reader, this`writer
      ensures Valid() && Fits(n, x)
      ensures old(Contents()) == NetworkBytes(n, x) + Contents()
    {
      x := PeekInt(n);
      assert Contents() == Contents()[..n] + Contents()[n..];
      Retrieve(n);
    }
  }

  /** Whatever follows it, an integer appended or prepended is the integer read back, and the rest is left. */
  lemma EncodingIsPrefixFree(n: nat, x: int, a: seq<Byte>, y: int, b: seq<Byte>)
    requires n > 0 && Fits(n, x) && Fits(n, y)
    requires NetworkBytes(n, x) + a == NetworkBytes(n, y) + b
    ensures x == y && a == b
  {
    assert NetworkBytes(n, x) == (NetworkBytes(n, x) + a)[..n];
    assert NetworkBytes(n, y) == (NetworkBytes(n, y) + b)[..n];
    assert a == (NetworkBytes(n, x) + a)[n..];
    assert b == (NetworkBytes(n, y) + b)[n..];
    IntegerRoundTrip(n, x);
    IntegerRoundTrip(n, y);
  }
}
