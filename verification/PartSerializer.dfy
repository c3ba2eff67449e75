/** The encoding of CPF material: every part with its length before it, as four bytes, the highest first. */
module PartSerializer {
  import opened Basics

  type Byte = b: int | 0 <= b < 256

  type Part = seq<Byte>

  const LENGTH_LIMIT := 0x1_0000_0000

  predicate Fits(parts: seq<Part>) { forall part :: part in parts ==> |part| < LENGTH_LIMIT }

  function LengthBytes(n: nat): (r: Part)
    requires n < LENGTH_LIMIT
    ensures |r| == 4
  {
    [n / 0x100_0000, n / 0x1_0000 % 256, n / 256 % 256, n % 256]
  }

  function ReadLength(bytes: Part): nat
    requires |bytes| == 4
  {
    var a: nat, b: nat, c: nat := bytes[0], bytes[1], bytes[2];
    a * 0x100_0000 + b * 0x1_0000 + c * 256 + bytes[3]
  }

  function Encode(parts: seq<Part>): Part
    requires Fits(parts)
  {
    if parts == [] then [] else LengthBytes(|parts[0]|) + parts[0] + Encode(parts[1..])
  }

  /** Reads parts until the bytes are used up; fails when they end within a part. */
  function Decode(bytes: Part): Option<seq<Part>> {
    if bytes == [] then Some([])
    else if |bytes| < 4 || |bytes| < 4 + ReadLength(bytes[..4]) then None
    else
      var end := 4 + ReadLength(bytes[..4]);
      match Decode(bytes[end..])
      case None => None
      case Some(parts) => Some([bytes[4..end]] + parts)
  }

  lemma LengthIsRead(n: nat)
    requires n < LENGTH_LIMIT
    ensures ReadLength(LengthBytes(n)) == n
  {
    var a, b, c := n / 0x100_0000, n / 0x1_0000, n / 256;
    assert c == b * 256 + c % 256 by { Shifted(n, 256); }
    assert b == a * 256 + b % 256 by { Shifted(n, 0x1_0000); }
    assert n == c * 256 + n % 256;
  }

  /** Dividing by one byte more is dividing once more. */
  lemma Shifted(n: nat, power: nat)
    requires power == 256 || power == 0x1_0000
    ensures n / (256 * power) == n / power / 256
  {
  }

  lemma LengthIsWritten(bytes: Part)
    requires |bytes| == 4
    ensures ReadLength(bytes) < LENGTH_LIMIT && LengthBytes(ReadLength(bytes)) == bytes
  {
    var n := ReadLength(bytes);
    var a: nat, b: nat, c: nat := bytes[0], bytes[1], bytes[2];
    assert n / 256 == a * 0x1_0000 + b * 256 + c;
    assert n / 0x1_0000 == a * 256 + b;
  }

  /** The decoder inverts the encoding, whatever the number of parts. */
  lemma {:induction false} DecodeInverts(parts: seq<Part>)
    requires Fits(parts)
    ensures Decode(Encode(parts)) == Some(parts)
    decreases |parts|
  {
    if parts != [] {
      var bytes, end := Encode(parts), 4 + |parts[0]|;
      LengthIsRead(|parts[0]|);
      assert bytes[..4] == LengthBytes(|parts[0]|);
      assert bytes[4..end] == parts[0];
      assert bytes[end..] == Encode(parts[1..]);
      DecodeInverts(parts[1..]);
      assert parts == [parts[0]] + parts[1..];
    }
  }

  lemma EncodeCons(first: Part, rest: seq<Part>)
    requires |first| < LENGTH_LIMIT && Fits(rest)
    ensures Fits([first] + rest) && Encode([first] + rest) == LengthBytes(|first|) + first + Encode(rest)
  {
    hide LengthBytes;
    assert ([first] + rest)[1..] == rest;
  }

  lemma DecodeStep(bytes: Part)
    requires bytes != [] && Decode(bytes).Some?
    ensures |bytes| >= 4 && |bytes| >= 4 + ReadLength(bytes[..4])
    ensures var end := 4 + ReadLength(bytes[..4]);
      Decode(bytes[end..]).Some? && Decode(bytes).value == [bytes[4..end]] + Decode(bytes[end..]).value
  {
    hide ReadLength;
  }

  lemma NothingIsNothing()
    ensures Decode([]) == Some([]) && Fits([]) && Encode([]) == []
  {
  }

  /** What the decoder accepts is the encoding of what it returns. */
  lemma {:induction false} DecodedBytesAreEncodings(bytes: Part)
    requires Decode(bytes).Some?
    ensures Fits(Decode(bytes).value) && Encode(Decode(bytes).value) == bytes
    decreases |bytes|
  {
    hide ReadLength, LengthBytes, Decode, Encode, Fits;
    if bytes == [] {
      NothingIsNothing();
    } else {
      DecodeStep(bytes);
      var end := 4 + ReadLength(bytes[..4]);
      LengthIsWritten(bytes[..4]);
      DecodedBytesAreEncodings(bytes[end..]);
      EncodeCons(bytes[4..end], Decode(bytes[end..]).value);
      assert bytes == bytes[..4] + bytes[4..end] + bytes[end..];
    }
  }

  /** The parts one after the other, each behind its length in four bytes, the highest byte first. */
  predicate IsLaidOut(bytes: Part, parts: seq<Part>)
    decreases |parts|
  {
    if parts == [] then bytes == []
    else
      var size := |parts[0]|;
      && |bytes| >= 4 + size
      && size == bytes[0] as int * 0x100_0000 + bytes[1] as int * 0x1_0000 + bytes[2] as int * 0x100 + bytes[3] as int
      && bytes[4..4 + size] == parts[0]
      && IsLaidOut(bytes[4 + size..], parts[1..])
  }

  lemma LengthHasItsValue(n: nat, bytes: Part)
    requires n < LENGTH_LIMIT && |bytes| == 4
    ensures bytes == LengthBytes(n)
       <==> n == bytes[0] as int * 0x100_0000 + bytes[1] as int * 0x1_0000 + bytes[2] as int * 0x100 + bytes[3] as int
  {
    hide LengthBytes;
    LengthIsRead(n);
    LengthIsWritten(bytes);
  }

  /** Exactly the encoding of parts lays them out. */
  lemma {:induction false} EncodingLaysOut(bytes: Part, parts: seq<Part>)
    ensures IsLaidOut(bytes, parts) <==> Fits(parts) && bytes == Encode(parts)
    decreases |parts|
  {
    hide LengthBytes, Fits;
    if parts == [] {
      NothingIsNothing();
    } else {
      var size := |parts[0]|;
      FirstFits(parts);
      if |bytes| >= 4 + size {
        EncodingLaysOut(bytes[4 + size..], parts[1..]);
        assert bytes == bytes[..4] + bytes[4..4 + size] + bytes[4 + size..];
        if size < LENGTH_LIMIT { LengthHasItsValue(size, bytes[..4]); }
      }
    }
  }

  lemma FirstFits(parts: seq<Part>)
    requires parts != []
    ensures Fits(parts) <==> |parts[0]| < LENGTH_LIMIT && Fits(parts[1..])
  {
    assert parts == [parts[0]] + parts[1..];
  }

  /** Different lists of parts, of any lengths, have different encodings. */
  lemma EncodingIsInjective(a: seq<Part>, b: seq<Part>)
    requires Fits(a) && Fits(b)
    ensures Encode(a) == Encode(b) <==> a == b
  {
    DecodeInverts(a);
    DecodeInverts(b);
  }

  datatype OutOfRange = OutOfRange

  /** Writing a length of 2^32 or more throws. */
  method SerializeParts(parts: seq<Part>) returns (r: Result<Part, OutOfRange>)
    ensures r.Ok? <==> forall part :: part in parts ==> |part| < 0x1_0000_0000
    ensures r.Ok? ==> IsLaidOut(r.value, parts) && Decode(r.value) == Some(parts)
  {
    var buffer: Part := [];
    for i := 0 to |parts|
      invariant Fits(parts[..i]) && buffer == Encode(parts[..i])
    {
      if |parts[i]| >= LENGTH_LIMIT { return Err(OutOfRange); }
      assert Fits(parts[..i + 1]) by { assert parts[..i + 1] == parts[..i] + [parts[i]]; }
      EncodeSnoc(parts[..i], parts[i]);
      assert parts[..i + 1] == parts[..i] + [parts[i]];
      buffer := buffer + LengthBytes(|parts[i]|) + parts[i];
    }
    assert parts[..|parts|] == parts;
    DecodeInverts(parts);
    EncodingLaysOut(buffer, parts);
    return Ok(buffer);
  }

  lemma {:induction false} EncodeSnoc(parts: seq<Part>, part: Part)
    requires Fits(parts + [part])
    ensures Fits(parts) && Encode(parts + [part]) == Encode(parts) + LengthBytes(|part|) + part
    decreases |parts|
  {
    hide LengthBytes;
    assert forall p :: p in parts ==> p in parts + [part];
    if parts == [] {
      assert [part][1..] == [];
      assert Encode([]) == [];
      assert parts + [part] == [part];
    } else {
      assert (parts + [part])[1..] == parts[1..] + [part];
      assert forall p :: p in parts[1..] + [part] ==> p in parts + [part];
      EncodeSnoc(parts[1..], part);
      assert (parts + [part])[0] == parts[0];
    }
  }

  // ----- the two uses

  /** The input of the lookup hash. */
  function LookupMaterial(domain: Part, tenant: Part, keyVersion: Part, cpf: Part): seq<Part> {
    [domain, tenant, keyVersion, cpf]
  }

  /** The additional data of the encryption. */
  function Aad(domain: Part, tenant: Part, keyVersion: Part): seq<Part> {
    [domain, tenant, keyVersion]
  }

  /** Hash material determines tenant, key version and CPF; additional data is never hash material. */
  lemma MaterialsNeverCoincide(domain: Part, t: Part, k: Part, c: Part, u: Part, l: Part, d: Part)
    requires Fits(LookupMaterial(domain, t, k, c)) && Fits(LookupMaterial(domain, u, l, d))
    ensures Fits(Aad(domain, u, l)) && Fits(Aad(domain, t, k))
    ensures Encode(LookupMaterial(domain, t, k, c)) == Encode(LookupMaterial(domain, u, l, d)) <==> t == u && k == l && c == d
    ensures Encode(Aad(domain, t, k)) == Encode(Aad(domain, u, l)) <==> t == u && k == l
    ensures Encode(LookupMaterial(domain, t, k, c)) != Encode(Aad(domain, u, l))
  {
    hide Encode;
    var first, second := LookupMaterial(domain, t, k, c), LookupMaterial(domain, u, l, d);
    assert first[0] in first && first[1] in first && first[2] in first;
    assert second[0] in second && second[1] in second && second[2] in second;
    EncodingIsInjective(first, second);
    EncodingIsInjective(Aad(domain, t, k), Aad(domain, u, l));
    EncodingIsInjective(first, Aad(domain, u, l));
    if t == u && k == l && c == d { assert first == second; }
    if first == second { assert first[1] == second[1] && first[2] == second[2] && first[3] == second[3]; }
    if Aad(domain, t, k) == Aad(domain, u, l) {
      assert Aad(domain, t, k)[1] == Aad(domain, u, l)[1] && Aad(domain, t, k)[2] == Aad(domain, u, l)[2];
    }
  }
}
