/** Byte encodings: the bridge payload (stellax-bridge/src/lib.rs) and the canonical bytes of a CLOB order
    (stellax-clob/src/lib.rs). */
module Codec {
  import opened Int128

  type Bytes = seq<u8>

  /** A growable byte buffer, as the encoders use it. */
  class Buffer {
    var data: Bytes

    constructor ()
      ensures data == []
    {
      data := [];
    }

    method PushBack(b: u8)
      modifies this
      ensures data == old(data) + [b]
    {
      data := data + [b];
    }

    method Append(bytes: Bytes)
      modifies this
      ensures data == old(data) + bytes
    {
      data := data + bytes;
    }
  }

  // ----- big-endian numbers -----

  /** The low n bytes of v, most significant first; negative v in two's complement. */
  function BigEndian(v: int, n: nat): (b: Bytes)
    ensures |b| == n
    decreases n, v
  {
    if n == 0 then [] else BigEndian(v / 256, n - 1) + [v % 256]
  }

  /** The unsigned number that a byte string writes. */
  function Value(b: Bytes): nat {
    if b == [] then 0 else 256 * Value(b[..|b| - 1]) + b[|b| - 1]
  }

  function Pow256(n: nat): (p: nat)
    ensures p >= 1
  {
    if n == 0 then 1 else 256 * Pow256(n - 1)
  }

  lemma {:induction false} Pow256Words(n: nat)
    requires n == 2
    ensures Pow256(2 * n) == TWO_32 && Pow256(4 * n) == TWO_64 && Pow256(8 * n) == TWO_128
  {
    assert Pow256(n) == 65536;
    Pow256Square(n, 65536);
    Pow256Square(2 * n, TWO_32);
    Pow256Square(4 * n, TWO_64);
  }

  lemma {:induction false} Pow256Add(a: nat, b: nat)
    ensures Pow256(a + b) == Pow256(a) * Pow256(b)
  {
    if a > 0 {
      Pow256Add(a - 1, b);
    }
  }

  lemma {:induction false} Pow256Square(n: nat, v: nat)
    requires Pow256(n) == v
    ensures Pow256(n + n) == v * v
  {
    Pow256Add(n, n);
  }

  /** Decoding n bytes gives the number modulo 256^n: the encoding loses nothing below that width. */
  lemma {:induction false} BigEndianValue(v: int, n: nat)
    ensures Value(BigEndian(v, n)) == v % Pow256(n)
    decreases n
  {
    if n > 0 {
      BigEndianValue(v / 256, n - 1);
      assert BigEndian(v, n)[..n - 1] == BigEndian(v / 256, n - 1);
      NestedModulus(v, Pow256(n - 1));
    }
  }

  lemma {:induction false} NestedModulus(v: int, p: nat)
    requires p > 0
    ensures v % (256 * p) == 256 * ((v / 256) % p) + v % 256
  {
    var q, r := (v / 256) / p, (v / 256) % p;
    assert v / 256 == q * p + r;
    assert v == q * (256 * p) + (256 * r + v % 256);
    RemainderUnique(v, 256 * p, q, 256 * r + v % 256);
  }

  lemma {:induction false} NestedQuotient(v: int, p: nat)
    requires p > 0
    ensures (v / p) / 256 == v / (256 * p)
  {
    var q, r := v / p, v % p;
    var h, l := q / 256, q % 256;
    assert v == q * p + r;
    assert (h * 256 + l) * p == h * (256 * p) + l * p;
    MulMonotone(l, p, 255, p);
    RemainderUnique(v, 256 * p, h, l * p + r);
  }

  // ----- bridge: u32 and i128 fields -----

  method U32ToBytes(v: u32) returns (b: Buffer)
    ensures fresh(b) && b.data == BigEndian(v, 4)
  {
    b := new Buffer();
    b.PushBack((v / 0x100_0000) % 256);
    b.PushBack((v / 0x1_0000) % 256);
    b.PushBack((v / 0x100) % 256);
    b.PushBack(v % 256);
    FourBytes(v);
  }

  lemma {:induction false} FourBytes(v: int)
    ensures BigEndian(v, 4) == [(v / 0x100_0000) % 256, (v / 0x1_0000) % 256, (v / 0x100) % 256, v % 256]
  {
    var a := v / 256;
    var b := a / 256;
    var c := b / 256;
    assert BigEndian(c, 1) == [c % 256];
    assert BigEndian(b, 2) == [c % 256, b % 256];
    assert BigEndian(a, 3) == [c % 256, b % 256, a % 256];
  }

  /** Sixteen zero bytes, then the sixteen bytes of the i128, most significant first. */
  method I128ToBytes32(v: i128) returns (b: Buffer)
    ensures fresh(b) && b.data == Field(v)
  {
    b := new Buffer();
    for k := 0 to 16
      invariant b.data == Zeros(k)
    {
      b.PushBack(0);
    }
    var i := 16;
    assert b.data == Zeros(16) + BigEndian(v / Pow256(16), 0);
    while i > 0
      invariant 0 <= i <= 16
      invariant b.data == Zeros(16) + BigEndian(v / Pow256(i), 16 - i)
    {
      i := i - 1;
      NextByte(Zeros(16), v, i, 15 - i);
      b.PushBack((v / Pow256(i)) % 256);
    }
    assert v / 1 == v;
  }

  lemma {:induction false} NextByte(pad: Bytes, v: int, i: nat, n: nat)
    ensures pad + BigEndian(v / Pow256(i), n + 1) == pad + BigEndian(v / Pow256(i + 1), n) + [(v / Pow256(i)) % 256]
  {
    NestedQuotient(v, Pow256(i));
  }

  function Zeros(n: nat): (b: Bytes)
    ensures |b| == n
  {
    if n == 0 then [] else Zeros(n - 1) + [0]
  }

  /** The 32-byte field of a signed amount. */
  function Field(v: int): (b: Bytes)
    ensures |b| == 32
  {
    Zeros(16) + BigEndian(v, 16)
  }

  /** The number a buffer holds at an offset; None is the InvalidPayload error of a short buffer. */
  function ReadU32(buf: Bytes, offset: nat): Option<nat> {
    if |buf| < offset + 4 then None else Some(Value(buf[offset..offset + 4]))
  }

  /** The low sixteen bytes of a 32-byte field, as a two's complement number. */
  function ReadI128(buf: Bytes, offset: nat): Option<i128> {
    if |buf| < offset + 32 then None else Some(Wrap(Value(buf[offset + 16..offset + 32])))
  }

  /** `decode_u32`, a loop of shifts. */
  method DecodeU32(buf: Bytes, offset: nat) returns (r: Option<u32>)
    ensures r == ReadU32(buf, offset)
  {
    if |buf| < offset + 4 {
      return None;
    }
    var v: u32 := 0;
    Pow256Words(2);
    for i := 0 to 4
      invariant v == Value(buf[offset..offset + i]) && v < Pow256(i)
    {
      Pow256Step(i, 4);
      assert buf[offset..offset + i + 1][..i] == buf[offset..offset + i];
      v := (v * 256) % TWO_32 + buf[offset + i];
    }
    return Some(v);
  }

  lemma {:induction false} Pow256Step(i: nat, n: nat)
    requires i < n
    ensures 256 * Pow256(i) == Pow256(i + 1) <= Pow256(n)
  {
    if i + 1 < n {
      Pow256Step(i, n - 1);
    }
  }

  /** `decode_i128`, a loop of wrapping shifts. */
  method DecodeI128(buf: Bytes, offset: nat) returns (r: Option<i128>)
    ensures r == ReadI128(buf, offset)
  {
    if |buf| < offset + 32 {
      return None;
    }
    var v: i128 := 0;
    for i := 0 to 16
      invariant v == Wrap(Value(buf[offset + 16..offset + 16 + i]))
    {
      var seen := buf[offset + 16..offset + 16 + i];
      assert buf[offset + 16..offset + 16 + i + 1][..i] == seen;
      WrapShift(Value(seen), buf[offset + 16 + i]);
      v := Wrap(v * 256) + buf[offset + 16 + i];
    }
    return Some(v);
  }

  lemma {:induction false} WrapShift(x: int, b: u8)
    ensures Wrap(Wrap(x) * 256) + b == Wrap(256 * x + b)
  {
    var q := (x + TWO_127) / TWO_128;
    assert Wrap(x) == x - q * TWO_128;
    var t := (256 * x + b + TWO_127) / TWO_128;
    assert Wrap(256 * x + b) == 256 * x + b - t * TWO_128;
    RemainderUnique(256 * Wrap(x) + TWO_127, TWO_128, t - 256 * q, Wrap(256 * x + b) - b + TWO_127);
  }

  /** Decoding an encoded amount returns it, for every i128. */
  lemma {:induction false} FieldRoundTrip(v: i128, buf: Bytes, offset: nat)
    requires offset + 32 <= |buf| && buf[offset..offset + 32] == Field(v)
    ensures ReadI128(buf, offset) == Some(v)
  {
    var low := buf[offset + 16..offset + 32];
    assert low == buf[offset..offset + 32][16..];
    assert low == BigEndian(v, 16);
    SignedWord(v, low, 16);
  }

  lemma {:induction false} SignedWord(v: i128, b: Bytes, n: nat)
    requires n == 16 && b == BigEndian(v, n)
    ensures Wrap(Value(b)) == v
  {
    BigEndianValue(v, n);
    Pow256Words(2);
    WrapRemainder(v);
  }

  lemma {:induction false} U32RoundTrip(v: u32, buf: Bytes, offset: nat)
    requires offset + 4 <= |buf| && buf[offset..offset + 4] == BigEndian(v, 4)
    ensures ReadU32(buf, offset) == Some(v)
  {
    BigEndianValue(v, 4);
    Pow256Words(2);
  }

  // ----- bridge: payloads -----

  const ACTION_DEPOSIT: u32 := 1
  const ACTION_WITHDRAW: u32 := 2
  const FIELD3_OFFSET: nat := 68

  /** [action][user][token][amount]; the two identifiers are opaque 32-byte strings. */
  function Payload(action: u32, user: Bytes, token: Bytes, amount: i128): Bytes {
    BigEndian(action, 4) + user + token + Field(amount)
  }

  /** `encode_deposit_payload` and `encode_withdraw_payload` differ in the action alone. */
  method EncodePayload(action: u32, user: Bytes, token: Bytes, amount: i128) returns (b: Buffer)
    ensures fresh(b) && b.data == Payload(action, user, token, amount)
  {
    b := new Buffer();
    var head := U32ToBytes(action);
    b.Append(head.data);
    b.Append(user);
    b.Append(token);
    var field := I128ToBytes32(amount);
    b.Append(field.data);
  }

  /** A built payload is 100 bytes long and decodes to its own action and amount. */
  lemma {:induction false} PayloadRoundTrip(action: u32, user: Bytes, token: Bytes, amount: i128)
    requires |user| == 32 && |token| == 32
    ensures var p := Payload(action, user, token, amount);
            && |p| == 100
            && ReadU32(p, 0) == Some(action)
            && ReadI128(p, FIELD3_OFFSET) == Some(amount)
  {
    var p := Payload(action, user, token, amount);
    assert p[0..4] == BigEndian(action, 4);
    U32RoundTrip(action, p, 0);
    assert p[68..100] == Field(amount);
    FieldRoundTrip(amount, p, 68);
  }

  // ----- CLOB: canonical order bytes -----

  datatype OrderFields = OrderFields(
    orderId: u64, marketId: u32, size: i128, price: i128, isLong: bool, leverage: u32, expiry: u64, nonce: u64)

  function OrderBytes(o: OrderFields): Bytes {
    BigEndian(o.orderId, 8) + BigEndian(o.marketId, 4) + BigEndian(o.size, 16) + BigEndian(o.price, 16)
    + [if o.isLong then 1 else 0] + BigEndian(o.leverage, 4) + BigEndian(o.expiry, 8) + BigEndian(o.nonce, 8)
  }

  method AppendU32(buf: Buffer, v: u32)
    modifies buf
    ensures buf.data == old(buf.data) + BigEndian(v, 4)
  {
    buf.PushBack((v / 0x100_0000) % 256);
    buf.PushBack((v / 0x1_0000) % 256);
    buf.PushBack((v / 0x100) % 256);
    buf.PushBack(v % 256);
    FourBytes(v);
  }

  method AppendU64(buf: Buffer, v: u64)
    modifies buf
    ensures buf.data == old(buf.data) + BigEndian(v, 8)
  {
    AppendU32(buf, v / TWO_32);
    AppendU32(buf, v % TWO_32);
    SplitU64(v);
  }

  function High64(v: i128): u64 { (v / TWO_64) % TWO_64 }

  function Low64(v: i128): u64 { v % TWO_64 }

  method AppendI128(buf: Buffer, v: i128)
    modifies buf
    ensures buf.data == old(buf.data) + BigEndian(v, 16)
  {
    AppendU64(buf, High64(v));
    AppendU64(buf, Low64(v));
    JoinedHalves(old(buf.data), v);
  }

  /** The bytes hashed by `order_canonical_hash`. */
  method CanonicalBytes(o: OrderFields) returns (buf: Buffer)
    ensures fresh(buf) && buf.data == OrderBytes(o)
  {
    buf := new Buffer();
    AppendU64(buf, o.orderId);
    assert buf.data == BigEndian(o.orderId, 8);
    AppendU32(buf, o.marketId);
    AppendI128(buf, o.size);
    AppendI128(buf, o.price);
    buf.PushBack(if o.isLong then 1 else 0);
    AppendU32(buf, o.leverage);
    AppendU64(buf, o.expiry);
    AppendU64(buf, o.nonce);
  }

  lemma {:induction false} BytesFromValue(a: Bytes, b: Bytes)
    requires |a| == |b| && Value(a) == Value(b)
    ensures a == b
  {
    if a != [] {
      var n := |a| - 1;
      BytesFromValue(a[..n], b[..n]);
      assert a == a[..n] + [a[n]] && b == b[..n] + [b[n]];
    }
  }

  /** A 2n-byte number is its high half followed by its low half, each cast to n bytes. */
  lemma {:induction false} SplitHalves(v: int, n: nat, w: nat, high: nat, low: nat)
    requires (n == 4 && w == TWO_32) || (n == 8 && w == TWO_64)
    requires high == (v / w) % w && low == v % w
    ensures BigEndian(high, n) + BigEndian(low, n) == BigEndian(v, 2 * n)
  {
    Pow256Words(2);
    SplitBytes(v, n, n);
    LowBytes(v, n);
    LowBytes(v / w, n);
  }

  lemma {:induction false} JoinedHalves(head: Bytes, v: i128)
    ensures head + BigEndian(High64(v), 8) + BigEndian(Low64(v), 8) == head + BigEndian(v, 16)
  {
    SplitHalves(v, 8, TWO_64, High64(v), Low64(v));
  }

  lemma {:induction false} SplitU64(v: u64)
    ensures BigEndian(v / TWO_32, 4) + BigEndian(v % TWO_32, 4) == BigEndian(v, 8)
  {
    SplitHalves(v, 4, TWO_32, v / TWO_32, v % TWO_32);
  }

  lemma {:induction false} LowBytes(v: int, n: nat)
    ensures BigEndian(v % Pow256(n), n) == BigEndian(v, n)
  {
    BigEndianValue(v, n);
    BigEndianValue(v % Pow256(n), n);
    RemainderIdempotent(v, Pow256(n));
    BytesFromValue(BigEndian(v % Pow256(n), n), BigEndian(v, n));
  }

  lemma {:induction false} RemainderIdempotent(v: int, p: nat)
    requires p > 0
    ensures (v % p) % p == v % p
  {
    var r := v % p;
    assert 0 * p == 0;
    RemainderUnique(r, p, 0, r);
  }

  lemma {:induction false} SplitBytes(v: int, a: nat, b: nat)
    ensures BigEndian(v, a + b) == BigEndian(v / Pow256(b), a) + BigEndian(v, b)
    decreases b
  {
    if b == 0 {
      assert v / 1 == v;
    } else {
      SplitBytes(v / 256, a, b - 1);
      QuotientCommutes(v, Pow256(b - 1));
    }
  }

  lemma {:induction false} QuotientCommutes(v: int, p: nat)
    requires p > 0
    ensures (v / 256) / p == v / (256 * p)
  {
    var q, r := (v / 256) / p, (v / 256) % p;
    assert v / 256 == q * p + r;
    assert v == q * (256 * p) + (256 * r + v % 256);
    RemainderUnique(v, 256 * p, q, 256 * r + v % 256);
  }

  lemma {:induction false} SameNumber(u: int, v: int, n: nat, w: nat)
    requires w == Pow256(n) && BigEndian(u, n) == BigEndian(v, n)
    ensures u % w == v % w
  {
    BigEndianValue(u, n);
    BigEndianValue(v, n);
  }

  lemma {:induction false} SameUnsigned(u: nat, v: nat, n: nat, w: nat)
    requires w == Pow256(n) && u < w && v < w && BigEndian(u, n) == BigEndian(v, n)
    ensures u == v
  {
    SameNumber(u, v, n, w);
    assert 0 * w == 0;
    RemainderUnique(u, w, 0, u);
    RemainderUnique(v, w, 0, v);
  }

  lemma {:induction false} SameSigned(u: i128, v: i128, n: nat)
    requires Pow256(n) == TWO_128 && BigEndian(u, n) == BigEndian(v, n)
    ensures u == v
  {
    SameNumber(u, v, n, TWO_128);
    WrapRemainder(u);
    WrapRemainder(v);
  }

  lemma {:induction false} WrapRemainder(v: i128)
    ensures Wrap(v % TWO_128) == v
  {
  }

  /** Two orders with the same 65 bytes agree in all eight fields. */
  lemma {:induction false} OrderBytesInjective(o: OrderFields, p: OrderFields)
    ensures |OrderBytes(o)| == 65
    ensures OrderBytes(o) == OrderBytes(p) ==> o == p
  {
    OrderSlices(o);
    OrderSlices(p);
    if OrderBytes(o) == OrderBytes(p) {
      SameFields(o, p, 4, 8, 16);
    }
  }

  lemma {:induction false} SameFields(o: OrderFields, p: OrderFields, four: nat, eight: nat, sixteen: nat)
    requires four == 4 && eight == 8 && sixteen == 16 && o.isLong == p.isLong
    requires BigEndian(o.orderId, eight) == BigEndian(p.orderId, eight)
    requires BigEndian(o.marketId, four) == BigEndian(p.marketId, four)
    requires BigEndian(o.size, sixteen) == BigEndian(p.size, sixteen)
    requires BigEndian(o.price, sixteen) == BigEndian(p.price, sixteen)
    requires BigEndian(o.leverage, four) == BigEndian(p.leverage, four)
    requires BigEndian(o.expiry, eight) == BigEndian(p.expiry, eight)
    requires BigEndian(o.nonce, eight) == BigEndian(p.nonce, eight)
    ensures o == p
  {
    Pow256Words(2);
    SameUnsigned(o.orderId, p.orderId, eight, TWO_64);
    SameUnsigned(o.marketId, p.marketId, four, TWO_32);
    SameSigned(o.size, p.size, sixteen);
    SameSigned(o.price, p.price, sixteen);
    SameUnsigned(o.leverage, p.leverage, four, TWO_32);
    SameUnsigned(o.expiry, p.expiry, eight, TWO_64);
    SameUnsigned(o.nonce, p.nonce, eight, TWO_64);
  }

  lemma {:induction false} OrderSlices(o: OrderFields)
    ensures var a := OrderBytes(o);
            && |a| == 65
            && a[0..8] == BigEndian(o.orderId, 8) && a[8..12] == BigEndian(o.marketId, 4)
            && a[12..28] == BigEndian(o.size, 16) && a[28..44] == BigEndian(o.price, 16)
            && a[44] == (if o.isLong then 1 else 0) && a[45..49] == BigEndian(o.leverage, 4)
            && a[49..57] == BigEndian(o.expiry, 8) && a[57..65] == BigEndian(o.nonce, 8)
  {
  }
}
