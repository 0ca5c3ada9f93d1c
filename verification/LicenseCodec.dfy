/** The binary license form (licensemanager/license.go): big-endian fields with 32-bit lengths. */
module LicenseCodec {

  type Byte = b: nat | b < 256
  type Bytes = seq<Byte>

  const BINARY_VERSION := 1
  const LIMIT16 := 0x1_0000
  const LIMIT32 := 0x1_0000_0000
  const LIMIT64 := 0x1_0000_0000_0000_0000
  /** Version, total size, two lengths, start and end. */
  const FIXED := 30

  /** A license in the binary form; its version is the binary one. */
  datatype License = License(product: Bytes, customer: Bytes, start: nat, end: nat)

  /** `Json` stands for handing over to the JSON form, `Panic` for a slice out of range. */
  datatype Result<T> = Ok(value: T) | Invalid | Json | Panic

  // ---- big-endian numbers

  function Put(n: nat, width: nat): (r: Bytes)
    ensures |r| == width
  {
    if width == 0 then [] else Put(n / 256, width - 1) + [n % 256]
  }

  function Take(bs: Bytes): nat
  {
    if bs == [] then 0 else Take(bs[..|bs| - 1]) * 256 + bs[|bs| - 1]
  }

  function Pow256(width: nat): nat
  {
    if width == 0 then 1 else 256 * Pow256(width - 1)
  }

  lemma {:induction false} TakePut(n: nat, width: nat)
    requires n < Pow256(width)
    ensures Take(Put(n, width)) == n
  {
    if width > 0 {
      assert n / 256 < Pow256(width - 1);
      TakePut(n / 256, width - 1);
      assert Put(n, width)[..width - 1] == Put(n / 256, width - 1);
    }
  }

  lemma Widths()
    ensures Pow256(2) == LIMIT16 && Pow256(4) == LIMIT32 && Pow256(8) == LIMIT64
  {
    assert Pow256(1) == 256 && Pow256(3) == 256 * LIMIT16;
    assert Pow256(5) == 256 * LIMIT32 && Pow256(6) == LIMIT16 * LIMIT32 && Pow256(7) == 256 * LIMIT16 * LIMIT32;
  }

  // ---- the format

  function Layout(l: License): Bytes
  {
    Head(l) + (Put(|l.product|, 4) + l.product + (Put(|l.customer|, 4) + l.customer + (Put(l.start, 8) + Put(l.end,
        8))))
  }

  function Head(l: License): Bytes
  {
    Put(BINARY_VERSION, 2) + Put(FIXED + |l.product| + |l.customer|, 4)
  }

  predicate FitsIn32(l: License)
  {
    FIXED + |l.product| + |l.customer| < LIMIT32
  }

  predicate Times64(l: License)
  {
    l.start < LIMIT64 && l.end < LIMIT64
  }

  // ---- marshalling into a buffer of the computed size

  /** Writes all the bytes, or panics when they do not fit. */
  method PutAt(buf: array<Byte>, pos: nat, bytes: Bytes) returns (ok: bool)
    requires pos <= buf.Length
    modifies buf
    ensures ok == (pos + |bytes| <= buf.Length)
    ensures ok ==> buf[..pos + |bytes|] == old(buf[..pos]) + bytes
  {
    if pos + |bytes| > buf.Length {
      return false;
    }
    CopyAt(buf, pos, bytes);
    ok := true;
  }

  /** `copy`: as many bytes as there is room for. */
  method CopyAt(buf: array<Byte>, pos: nat, bytes: Bytes)
    requires pos <= buf.Length
    modifies buf
    ensures buf[..pos] == old(buf[..pos])
    ensures pos + |bytes| <= buf.Length ==> buf[..pos + |bytes|] == old(buf[..pos]) + bytes
  {
    var n := if pos + |bytes| <= buf.Length then |bytes| else buf.Length - pos;
    for i := 0 to n
      invariant buf[..pos + i] == old(buf[..pos]) + bytes[..i]
    {
      buf[pos + i] := bytes[i];
    }
    assert buf[..pos] == buf[..pos + n][..pos];
  }

  /** The conversion to `uint32` keeps the low 32 bits. */
  function Low32(n: nat): (r: nat)
    ensures r < LIMIT32 && (n < LIMIT32 ==> r == n)
  {
    n % LIMIT32
  }

  /** Writes a length and the bytes, then moves on by the length as a 32-bit number. */
  method PutField(buf: array<Byte>, pos: nat, length: Bytes, bytes: Bytes, size: nat) returns (ok: bool, next: nat)
    requires pos <= buf.Length && |length| == 4
    modifies buf
    ensures ok ==> next <= buf.Length && next == pos + 4 + size
    ensures size == |bytes| && pos + 4 + |bytes| <= buf.Length
        ==> ok && buf[..next] == old(buf[..pos]) + (length + bytes)
  {
    next := pos;
    ok := PutAt(buf, pos, length);
    if !ok {
      return;
    }
    CopyAt(buf, pos + 4, bytes);
    next := pos + 4 + size;
    ok := next <= buf.Length;
    if pos + 4 + |bytes| <= buf.Length {
      assert old(buf[..pos]) + length + bytes == old(buf[..pos]) + (length + bytes);
    }
  }

  /** `marshalBinary`: all sizes are 32-bit numbers. */
  method MarshalBinary(l: License) returns (r: Result<Bytes>)
    ensures FitsIn32(l) ==> r == Ok(Layout(l))
    ensures r.Ok? ==> |r.value| < LIMIT32
    ensures r.Ok? || r == Panic
  {
    var prodLen, custLen := Low32(|l.product|), Low32(|l.customer|);
    var totalSize := Low32(FIXED + prodLen + custLen);
    var buf := new Byte[totalSize](i => 0);
    var ok := WriteAll(buf, Put(BINARY_VERSION, 2) + Put(totalSize, 4), Put(prodLen, 4), l.product, prodLen,
                       Put(custLen, 4), l.customer, custLen, Put(l.start, 8) + Put(l.end, 8));
    r := if ok then Ok(buf[..]) else Panic;
    if FitsIn32(l) {
      Regroup(Head(l), Put(|l.product|, 4) + l.product, Put(|l.customer|, 4) + l.customer, Put(l.start, 8)
          + Put(l.end, 8));
    }
  }

  /** The advancing slice: head, product, customer, times. */
  method WriteAll(buf: array<Byte>, head: Bytes, first: Bytes, product: Bytes, prodLen: nat,
                  second: Bytes, customer: Bytes, custLen: nat, times: Bytes) returns (ok: bool)
    requires |head| == 6 && |first| == 4 && |second| == 4 && |times| == 16
    modifies buf
    ensures prodLen == |product| && custLen == |customer| && buf.Length == FIXED + |product| + |customer| ==>
      ok && buf[..] == head + (first + product) + (second + customer) + times
  {
    ok := PutAt(buf, 0, head);
    if !ok {
      return;
    }
    var pos;
    ok, pos := PutField(buf, 6, first, product, prodLen);
    if !ok {
      return;
    }
    ok, pos := PutField(buf, pos, second, customer, custLen);
    if !ok {
      return;
    }
    ok := PutAt(buf, pos, times);
    if ok && pos + 16 == buf.Length {
      assert buf[..] == buf[..pos + 16];
    }
  }

  lemma Regroup(a: Bytes, b: Bytes, c: Bytes, d: Bytes)
    ensures a + b + c + d == a + (b + (c + d))
  {
  }

  // ---- unmarshalling by re-slicing

  function Field(bs: Bytes): (r: Result<(Bytes, Bytes)>)
    ensures r.Ok? ==> 4 + |r.value.0| + |r.value.1| == |bs|
  {
    if |bs| < 4 || |bs| - 4 < Take(bs[..4]) then Panic
    else Ok((bs[4..][..Take(bs[..4])], bs[4..][Take(bs[..4])..]))
  }

  function Unmarshalled(bs: Bytes): (r: Result<License>)
    ensures r.Ok? ==> FIXED + |r.value.product| + |r.value.customer| <= |bs|
  {
    if |bs| < 2 then Panic
    else if Take(bs[..2]) == 2 then Json
    else if Take(bs[..2]) != BINARY_VERSION then Invalid
    else if |bs| < 6 then Panic
    else
      var product := Field(bs[6..]);
      if !product.Ok? then Panic else
      var customer := Field(product.value.1);
      if !customer.Ok? then Panic else
      var rest := customer.value.1;
      if |rest| < 16 then Panic
      else Ok(License(product.value.0, customer.value.0, Take(rest[..8]), Take(rest[8..16])))
  }

  method UnmarshalLicense(data: Bytes) returns (r: Result<License>)
    ensures r == Unmarshalled(data)
  {
    if |data| < 2 {
      return Panic;
    }
    var version := Take(data[..2]);
    var bs := data[2..];
    if version != BINARY_VERSION {
      return if version == 2 then Json else Invalid;
    }
    if |bs| < 4 {
      return Panic;
    }
    bs := bs[4..];
    assert bs == data[6..];
    var product := Field(bs);
    if !product.Ok? {
      return Panic;
    }
    bs := product.value.1;
    var customer := Field(bs);
    if !customer.Ok? {
      return Panic;
    }
    bs := customer.value.1;
    if |bs| < 8 {
      return Panic;
    }
    var start := Take(bs[..8]);
    ghost var rest := bs;
    bs := bs[8..];
    if |bs| < 8 {
      return Panic;
    }
    assert bs[..8] == rest[8..16];
    r := Ok(License(product.value.0, customer.value.0, start, Take(bs[..8])));
  }

  // ---- the round trip

  lemma FieldRoundTrip(length: Bytes, bytes: Bytes, rest: Bytes)
    requires |length| == 4 && Take(length) == |bytes|
    ensures Field(length + bytes + rest) == Ok((bytes, rest))
  {
    var all := length + bytes + rest;
    assert all[..4] == length && all[4..] == bytes + rest;
  }

  lemma ReadBack(head: Bytes, first: Bytes, product: Bytes, second: Bytes, customer: Bytes, start: Bytes, end: Bytes)
    requires |head| == 6 && Take(head[..2]) == BINARY_VERSION
    requires |first| == 4 && Take(first) == |product| && |second| == 4 && Take(second) == |customer|
    requires |start| == 8 && |end| == 8
    ensures Unmarshalled(head + (first + product + (second + customer + (start + end))))
            == Ok(License(product, customer, Take(start), Take(end)))
  {
    var rest := start + end;
    var tail := second + customer + rest;
    var bs := head + (first + product + tail);
    assert bs[6..] == first + product + tail && bs[..2] == head[..2];
    FieldRoundTrip(first, product, tail);
    FieldRoundTrip(second, customer, rest);
    assert rest[..8] == start && rest[8..16] == end;
  }

  /** Reading the layout gives back the license; the stored total is the length. */
  lemma LayoutRoundTrip(l: License)
    requires FitsIn32(l) && Times64(l)
    ensures Unmarshalled(Layout(l)) == Ok(l)
    ensures |Layout(l)| == FIXED + |l.product| + |l.customer| == Take(Layout(l)[2..6])
  {
    Widths();
    NumbersBack(l);
    var head, total := Head(l), Put(FIXED + |l.product| + |l.customer|, 4);
    assert head[..2] == Put(BINARY_VERSION, 2) && Layout(l)[2..6] == total;
    ReadBack(head, Put(|l.product|, 4), l.product, Put(|l.customer|, 4), l.customer, Put(l.start, 8), Put(l.end, 8));
  }

  lemma NumbersBack(l: License)
    requires FitsIn32(l) && Times64(l)
    ensures Take(Put(BINARY_VERSION, 2)) == BINARY_VERSION
    ensures Take(Put(FIXED + |l.product| + |l.customer|, 4)) == FIXED + |l.product| + |l.customer|
    ensures Take(Put(|l.product|, 4)) == |l.product| && Take(Put(|l.customer|, 4)) == |l.customer|
    ensures Take(Put(l.start, 8)) == l.start && Take(Put(l.end, 8)) == l.end
  {
    Widths();
    TakePut(BINARY_VERSION, 2);
    TakePut(FIXED + |l.product| + |l.customer|, 4);
    TakePut(|l.product|, 4);
    TakePut(|l.customer|, 4);
    TakePut(l.start, 8);
    TakePut(l.end, 8);
  }

  /** The round trip holds exactly for the licenses whose total size fits in 32 bits. */
  method RoundTrip(l: License) returns (back: Result<License>)
    requires Times64(l)
    ensures back == Ok(l) <==> FitsIn32(l)
  {
    var r := MarshalBinary(l);
    if r.Panic? {
      return Panic;
    }
    back := UnmarshalLicense(r.value);
    if FitsIn32(l) {
      LayoutRoundTrip(l);
    }
  }

  // ---- the bytes of the format

  /** The most significant byte comes first. */
  lemma {:induction false} MostSignificantFirst(n: nat, width: nat)
    requires width > 0 && n < Pow256(width)
    ensures var b, p := Put(n, width)[0], Pow256(width - 1); b * p <= n < b * p + p
  {
    if width > 1 {
      var b: nat, p := Put(n / 256, width - 1)[0], Pow256(width - 2);
      MostSignificantFirst(n / 256, width - 1);
      assert Put(n, width)[0] == b;
      Scaled(n, b * p, p);
      Moved(b, p);
    }
  }

  lemma Scaled(n: nat, x: nat, p: nat)
    requires x <= n / 256 < x + p
    ensures 256 * x <= n < 256 * x + 256 * p
  {
  }

  lemma Moved(b: nat, p: nat)
    ensures b * (256 * p) == 256 * (b * p)
  {
  }

  /** The first two bytes decide: 1 is this form, 2 is the JSON form, anything else is no license. */
  lemma VersionDecides(bs: Bytes)
    requires |bs| >= 2
    ensures Unmarshalled(bs).Json? <==> bs[..2] == [0, 2]
    ensures Unmarshalled(bs).Invalid? <==> bs[..2] != [0, 1] && bs[..2] != [0, 2]
  {
    var v := bs[..2];
    assert v == [v[0], v[1]] && v[..1] == [v[0]] && v[..1][..0] == [];
    var hi: nat, lo: nat := v[0], v[1];
    assert Take(v[..1]) == hi && Take(v) == hi * 256 + lo;
  }

  /** Where the fields are: version 1, total, product, customer, start and end. */
  lemma LayoutFields(l: License)
    ensures var bs, p, c := Layout(l), |l.product|, |l.customer|;
      && |bs| == FIXED + p + c && bs[..2] == [0, 1] && bs[2..6] == Put(FIXED + p + c, 4)
      && bs[6..10] == Put(p, 4) && bs[10..10 + p] == l.product
      && bs[10 + p..14 + p] == Put(c, 4) && bs[14 + p..14 + p + c] == l.customer
      && bs[14 + p + c..22 + p + c] == Put(l.start, 8) && bs[22 + p + c..] == Put(l.end, 8)
  {
  }

  /** So no two licenses share an encoding. */
  lemma LayoutInjective(a: License, b: License)
    requires FitsIn32(a) && Times64(a) && FitsIn32(b) && Times64(b) && Layout(a) == Layout(b)
    ensures a == b
  {
    LayoutRoundTrip(a);
    LayoutRoundTrip(b);
  }
}
