/**
 The length prefix of a frame, as both ends read and write it: the section
 "Base 128 Varints" of the Protocol Buffers Encoding specification.

 JavaScript computes the prefix in doubles.  Each partial sum is a 53-bit integer plus a
 seven-bit payload times a power of two, and it is rejected as soon as it leaves the safe
 range, so integers describe the computation exactly.
 */
module Varints {

  import opened Wrappers

  type Byte = b: int | 0 <= b < 256

  const MAX_SAFE_INTEGER := 9007199254740991
  const TWO_64 := 0x1_0000_0000_0000_0000

  datatype VarintError = InvalidFrameLength | TruncatedFrameLength

  /** What `readVarint` returns, throws, or leaves undefined. */
  datatype HeaderRead = Header(value: nat, next: nat) | Incomplete | Malformed

  /** Little-endian value of the seven-bit payloads. */
  function Weight(bs: seq<Byte>): nat
  {
    if bs == [] then 0 else bs[0] % 128 + 128 * Weight(bs[1..])
  }

  function Pow128(k: nat): (p: nat)
    ensures p > 0
  {
    if k == 0 then 1 else 128 * Pow128(k - 1)
  }

  /** The shortest encoding of a number. */
  function Varint(n: nat): (bs: seq<Byte>)
    ensures bs != []
  {
    if n < 128 then [n] else [n % 128 + 128] + Varint(n / 128)
  }

  /** Number of leading bytes that carry the continuation bit. */
  function Lead(bs: seq<Byte>): (n: nat)
    ensures n <= |bs|
    ensures forall k :: 0 <= k < n ==> bs[k] >= 128
    ensures n < |bs| ==> bs[n] < 128
  {
    if bs == [] || bs[0] < 128 then 0 else 1 + Lead(bs[1..])
  }

  // ---------------------------------------------------------------- weights

  lemma {:induction false} WeightConcat(a: seq<Byte>, b: seq<Byte>)
    ensures Weight(a + b) == Weight(a) + Pow128(|a|) * Weight(b)
  {
    if a == [] {
      assert a + b == b;
    } else {
      WeightConcat(a[1..], b);
      assert (a + b)[1..] == a[1..] + b;
      MulAssociates(128, Pow128(|a| - 1), Weight(b));
    }
  }

  lemma MulAssociates(x: nat, y: nat, z: nat)
    ensures x * (y * z) == x * y * z
  {
  }

  lemma WeightSnoc(a: seq<Byte>, b: Byte)
    ensures Weight(a + [b]) == Weight(a) + (b % 128) * Pow128(|a|)
  {
    hide *;
    WeightConcat(a, [b]);
    WeightSingle(b);
    MulCommutes(Pow128(|a|), b % 128);
  }

  lemma WeightSingle(b: Byte)
    ensures Weight([b]) == b % 128
  {
    assert [b][1..] == [];
  }

  lemma MulCommutes(x: nat, y: nat)
    ensures x * y == y * x
  {
  }

  lemma WeightPrefix(a: seq<Byte>, b: seq<Byte>)
    ensures Weight(a) <= Weight(a + b)
  {
    WeightConcat(a, b);
  }

  lemma {:induction false} WeightBound(bs: seq<Byte>)
    ensures Weight(bs) < Pow128(|bs|)
  {
    if bs != [] {
      WeightBound(bs[1..]);
    }
  }

  // ---------------------------------------------------------------- canonical encodings

  /** The shortest encoding has exactly one byte without the continuation bit, its last one,
      and its payloads spell the number. */
  lemma {:induction false} VarintShape(n: nat)
    ensures Lead(Varint(n)) == |Varint(n)| - 1
    ensures Weight(Varint(n)) == n
  {
    if n >= 128 {
      VarintShape(n / 128);
      assert Varint(n)[1..] == Varint(n / 128);
    }
  }

  lemma {:induction false} VarintLength(n: nat, k: nat)
    requires n < Pow128(k) && k > 0
    ensures |Varint(n)| <= k
  {
    if n >= 128 {
      VarintLength(n / 128, k - 1);
    }
  }

  lemma Powers()
    ensures Pow128(1) == 128
    ensures Pow128(8) == 0x100_0000_0000_0000
    ensures Pow128(9) == 0x8000_0000_0000_0000
    ensures Pow128(10) == 64 * TWO_64
  {
    assert Pow128(1) == 128 * Pow128(0);
    assert Pow128(2) == 128 * Pow128(1);
    assert Pow128(3) == 128 * Pow128(2);
    assert Pow128(4) == 128 * Pow128(3);
    assert Pow128(5) == 128 * Pow128(4);
    assert Pow128(6) == 128 * Pow128(5);
    assert Pow128(7) == 128 * Pow128(6);
    assert Pow128(8) == 128 * Pow128(7);
    assert Pow128(9) == 128 * Pow128(8);
    assert Pow128(10) == 128 * Pow128(9);
  }

  lemma {:induction false} LeadAppend(a: seq<Byte>, b: seq<Byte>)
    ensures Lead(a + b) == if Lead(a) < |a| then Lead(a) else |a| + Lead(b)
  {
    if a == [] {
      assert a + b == b;
    } else {
      assert (a + b)[1..] == a[1..] + b;
      LeadAppend(a[1..], b);
    }
  }

  // ---------------------------------------------------------------- JavaScript side

  /** `readVarint` on the bytes from its offset on, `next` counted from that offset. */
  function ReadHeader(bs: seq<Byte>): (r: HeaderRead)
    ensures r.Header? ==> 0 < r.next <= |bs| && r.next <= 10 && r.value <= MAX_SAFE_INTEGER
  {
    var n := Lead(bs);
    if n >= 10 then Malformed
    else if n < |bs| then
      if Weight(bs[..n + 1]) <= MAX_SAFE_INTEGER then Header(Weight(bs[..n + 1]), n + 1) else Malformed
    else if Weight(bs) <= MAX_SAFE_INTEGER then Incomplete else Malformed
  }

  /** Once a header is read or refused, later bytes do not change the verdict. */
  lemma ReadHeaderStable(a: seq<Byte>, b: seq<Byte>)
    requires !ReadHeader(a).Incomplete?
    ensures ReadHeader(a + b) == ReadHeader(a)
  {
    hide Weight, Lead;
    LeadAppend(a, b);
    var n := Lead(a);
    if n < |a| && n < 10 {
      assert (a + b)[..n + 1] == a[..n + 1];
    } else if n < 10 {
      var m := Lead(a + b);
      if m < |a + b| {
        assert (a + b)[..m + 1] == a + (a + b)[|a|..m + 1];
        WeightPrefix(a, (a + b)[|a|..m + 1]);
      } else {
        WeightPrefix(a, b);
      }
    }
  }

  /** A canonical header in front of any bytes is read back, and consumed exactly. */
  lemma ReadHeaderOfVarint(n: nat, rest: seq<Byte>)
    requires n <= MAX_SAFE_INTEGER
    ensures ReadHeader(Varint(n) + rest) == Header(n, |Varint(n)|)
  {
    hide Varint, Weight, Lead, Pow128;
    VarintShape(n);
    Powers();
    VarintLength(n, 10);
    LeadAppend(Varint(n), rest);
    assert (Varint(n) + rest)[..|Varint(n)|] == Varint(n);
  }

  /** Every proper prefix of a canonical header waits for more bytes. */
  lemma ReadHeaderOfPartialVarint(n: nat, k: nat)
    requires n <= MAX_SAFE_INTEGER && k < |Varint(n)|
    ensures ReadHeader(Varint(n)[..k]) == Incomplete
  {
    hide Varint, Weight, Lead, Pow128;
    var v := Varint(n);
    VarintShape(n);
    Powers();
    VarintLength(n, 10);
    assert v == v[..k] + v[k..];
    LeadAppend(v[..k], v[k..]);
    WeightPrefix(v[..k], v[k..]);
  }

  /** `encodeVarint`: a do-while loop over the remaining quotient. */
  method EncodeVarint(value: int) returns (r: Result<seq<Byte>, VarintError>)
    ensures r == if 0 <= value <= MAX_SAFE_INTEGER then Ok(Varint(value)) else Err(InvalidFrameLength)
  {
    if !(-MAX_SAFE_INTEGER <= value <= MAX_SAFE_INTEGER) || value < 0 {
      return Err(InvalidFrameLength);
    }
    var bytes: seq<Byte> := [];
    var remaining: nat := value;
    var more := true;
    while more
      invariant more ==> bytes + Varint(remaining) == Varint(value)
      invariant !more ==> bytes == Varint(value)
      decreases more, remaining
    {
      var byte: Byte := remaining % 128;
      var before := remaining;
      remaining := remaining / 128;
      if remaining > 0 {
        byte := byte + 128;
      }
      assert Varint(before) == [byte] + if remaining > 0 then Varint(remaining) else [];
      assert bytes + Varint(before) == (bytes + [byte]) + if remaining > 0 then Varint(remaining) else [];
      bytes := bytes + [byte];
      more := remaining > 0;
    }
    return Ok(bytes);
  }

  /** `readVarint`: at most ten bytes from the offset, refused at the first unsafe partial sum. */
  method ReadVarint(bytes: seq<Byte>, offset: nat) returns (r: HeaderRead)
    requires offset <= |bytes|
    ensures match ReadHeader(bytes[offset..])
            case Header(value, next) => r == Header(value, offset + next)
            case verdict => r == verdict
  {
    hide Lead;
    var value: nat, multiplier: nat := 0, 1;
    ghost var tail := bytes[offset..];
    var index := offset;
    while index < |bytes| && index < offset + 10
      invariant offset <= index <= |bytes| && index <= offset + 10
      invariant forall k :: 0 <= k < index - offset ==> tail[k] >= 128
      invariant value == Weight(tail[..index - offset]) <= MAX_SAFE_INTEGER
      invariant multiplier == Pow128(index - offset)
    {
      var byte := bytes[index];
      ghost var k := index - offset;
      WeightSnoc(tail[..k], byte);
      assert tail[..k] + [byte] == tail[..k + 1];
      value := value + byte % 128 * multiplier;
      LeadSplit(tail, k);
      if value > MAX_SAFE_INTEGER {
        UnsafePrefix(tail, k + 1);
        return Malformed;
      }
      if byte < 128 {
        return Header(value, index + 1);
      }
      multiplier := multiplier * 128;
      index := index + 1;
    }
    LeadSplit(tail, index - offset);
    if |bytes| - offset >= 10 {
      return Malformed;
    }
    assert tail[..index - offset] == tail;
    return Incomplete;
  }

  /** If the first k bytes all continue, the leading run reaches at least k, and ends there
      when byte k does not continue. */
  lemma LeadSplit(bs: seq<Byte>, k: nat)
    requires k <= |bs| && forall i :: 0 <= i < k ==> bs[i] >= 128
    ensures Lead(bs) >= k
    ensures k < |bs| && bs[k] < 128 ==> Lead(bs) == k
  {
  }

  /** An unsafe partial sum condemns the header whatever follows it. */
  lemma UnsafePrefix(bs: seq<Byte>, k: nat)
    requires 0 < k <= |bs| && Lead(bs) >= k - 1
    requires Weight(bs[..k]) > MAX_SAFE_INTEGER
    ensures ReadHeader(bs) == Malformed
  {
    var n := Lead(bs);
    if n < |bs| {
      assert bs[..n + 1] == bs[..k] + bs[k..n + 1];
      WeightPrefix(bs[..k], bs[k..n + 1]);
    } else {
      assert bs == bs[..k] + bs[k..];
      WeightPrefix(bs[..k], bs[k..]);
    }
  }

  // ---------------------------------------------------------------- Rust side

  /** What the Rust reader accumulates in its 64-bit word.  The shift stops at 63, so of a tenth
      byte only the lowest payload bit survives. */
  function Weight64(bs: seq<Byte>): nat
    requires |bs| <= 10
  {
    if |bs| < 10 then Weight(bs) else Weight(bs[..9]) + (bs[9] % 2) as nat * 0x8000_0000_0000_0000
  }

  /** `read_varint` on the bytes still to come: the value and the number of bytes taken. */
  function RustHeader(bs: seq<Byte>): Result<Option<(nat, nat)>, VarintError>
  {
    var n := Lead(bs);
    if n >= 10 then Err(InvalidFrameLength)
    else if n < |bs| then Ok(Some((Weight64(bs[..n + 1]), n + 1)))
    else if n == 0 then Ok(None)
    else Err(TruncatedFrameLength)
  }

  lemma Weight64Exact(bs: seq<Byte>)
    requires |bs| <= 10
    ensures Weight64(bs) < TWO_64
    ensures Weight64(bs) == Weight(bs) <==> Weight(bs) < TWO_64
  {
    Powers();
    if |bs| == 10 {
      assert bs == bs[..9] + [bs[9]];
      WeightSnoc(bs[..9], bs[9]);
      WeightBound(bs[..9]);
    } else {
      WeightBound(bs);
      PowMonotone(|bs|, 9);
    }
  }

  lemma {:induction false} PowMonotone(j: nat, k: nat)
    requires j <= k
    ensures Pow128(j) <= Pow128(k)
  {
    if j < k {
      PowMonotone(j, k - 1);
    }
  }

  lemma TopBit(payload: nat)
    ensures payload * 0x8000_0000_0000_0000 % TWO_64 == payload % 2 * 0x8000_0000_0000_0000
  {
    var q, r := payload / 2, payload % 2;
    assert payload * 0x8000_0000_0000_0000 == q * TWO_64 + r * 0x8000_0000_0000_0000;
  }

  /** One turn of the loop: shifting the payload into place adds its 64-bit remainder. */
  lemma Weight64Step(bs: seq<Byte>, k: nat)
    requires k < |bs| && k < 10
    ensures Weight64(bs[..k + 1]) == Weight64(bs[..k]) + bs[k] % 128 * Pow128(k) % TWO_64
  {
    hide Weight, Pow128;
    Powers();
    assert bs[..k + 1] == bs[..k] + [bs[k]];
    if k == 9 {
      assert bs[..10][..9] == bs[..9];
      TopBit(bs[9] % 128);
      assert bs[9] % 128 % 2 == bs[9] % 2;
    } else {
      WeightSnoc(bs[..k], bs[k]);
      WeightBound(bs[..k + 1]);
      PowMonotone(k + 1, 9);
      SmallRemainder(bs[k] % 128 * Pow128(k));
    }
  }

  lemma SmallRemainder(n: nat)
    ensures n < TWO_64 ==> n % TWO_64 == n
  {
  }

  /** `read_varint`, in src/rpc.rs as in src/daemon/mod.rs:1386-1407: the loop over shifts 0, 7, ...,
      63 with its masked or.  The bits already in `value` lie below the shift, so the or is a sum;
      the guard on the tenth byte never fires. */
  method ReadVarintRust(input: seq<Byte>) returns (r: Result<Option<(nat, nat)>, VarintError>)
    ensures r == RustHeader(input)
  {
    var value: nat, shift: nat, scale: nat := 0, 0, 1;
    var index := 0;
    while shift < 70
      invariant 0 <= index <= |input| && index <= 10 && shift == 7 * index
      invariant scale == Pow128(index)
      invariant forall k :: 0 <= k < index ==> input[k] >= 128
      invariant value == Weight64(input[..index])
      decreases 70 - shift
    {
      LeadSplit(input, index);
      if index == |input| {
        if shift != 0 {
          return Err(TruncatedFrameLength);
        }
        return Ok(None);
      }
      var payload := input[index] % 128;
      if !(shift < 64 || payload <= 1) {
        assert false;
      }
      Weight64Step(input, index);
      value := value + payload * scale % TWO_64;
      if input[index] < 128 {
        return Ok(Some((value, index + 1)));
      }
      scale := scale * 128;
      index := index + 1;
      shift := shift + 7;
    }
    LeadSplit(input, 10);
    return Err(InvalidFrameLength);
  }

  /** The two readers agree on every input: JavaScript accepts a header exactly when Rust does and
      the spelled number is a safe integer, and then both see the same number and length. */
  lemma ReadersAgree(bs: seq<Byte>, value: nat, next: nat)
    ensures ReadHeader(bs) == Header(value, next)
            <==> RustHeader(bs) == Ok(Some((value, next))) && next <= |bs| && Weight(bs[..next]) <= MAX_SAFE_INTEGER
  {
    var n := Lead(bs);
    if n < 10 && n < |bs| {
      Weight64Exact(bs[..n + 1]);
    }
  }

  /** Inversion on canonical encodings, for the whole 64-bit range. */
  lemma RustHeaderOfVarint(n: nat, rest: seq<Byte>)
    requires n < TWO_64
    ensures RustHeader(Varint(n) + rest) == Ok(Some((n, |Varint(n)|)))
  {
    VarintShape(n);
    Powers();
    VarintLength(n, 10);
    LeadAppend(Varint(n), rest);
    assert (Varint(n) + rest)[..|Varint(n)|] == Varint(n);
    Weight64Exact(Varint(n));
  }

  /** A header read by Rust means what its payloads spell exactly when they fit 64 bits. */
  lemma RustHeaderFaithful(bs: seq<Byte>)
    requires RustHeader(bs).Ok? && RustHeader(bs).value.Some?
    ensures var (value, next) := RustHeader(bs).value.value;
            0 < next <= |bs| && (value == Weight(bs[..next]) <==> Weight(bs[..next]) < TWO_64)
  {
    Weight64Exact(bs[..Lead(bs) + 1]);
  }

  /** The tenth byte is not checked: nine empty continuations and a 2 spell 2^64 and read as 0. */
  lemma RustAcceptsOverflow(zeros: seq<Byte>)
    requires |zeros| == 9 && forall k :: 0 <= k < 9 ==> zeros[k] == 128
    ensures RustHeader(zeros + [2]) == Ok(Some((0, 10))) && Weight(zeros + [2]) == TWO_64
  {
    hide Weight, Pow128, Lead;
    var bs := zeros + [2];
    assert bs[..9] == zeros && bs[..10] == bs;
    LeadSplit(bs, 9);
    ZeroPayloads(zeros);
    Powers();
    WeightSnoc(zeros, 2);
  }

  lemma {:induction false} ZeroPayloads(bs: seq<Byte>)
    requires forall k :: 0 <= k < |bs| ==> bs[k] == 128
    ensures Weight(bs) == 0
  {
    if bs != [] {
      ZeroPayloads(bs[1..]);
    }
  }
}
