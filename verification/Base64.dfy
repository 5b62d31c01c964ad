/** The standard base64 alphabet and encoding of section 4 of RFC 4648, with strict decoding. */
module Base64 {
  import opened Types

  type byte = b: int | 0 <= b < 256

  const PAD := '='

  function CharOf(i: nat): char
    requires i < 64
  {
    if i < 26 then 'A' + i as char
    else if i < 52 then 'a' + (i - 26) as char
    else if i < 62 then '0' + (i - 52) as char
    else if i == 62 then '+' else '/'
  }

  function IndexOf(c: char): (r: Option<nat>)
    ensures r.Some? ==> r.value < 64
  {
    if 'A' <= c <= 'Z' then Some((c - 'A') as nat)
    else if 'a' <= c <= 'z' then Some((c - 'a') as nat + 26)
    else if '0' <= c <= '9' then Some((c - '0') as nat + 52)
    else if c == '+' then Some(62)
    else if c == '/' then Some(63)
    else None
  }

  lemma IndexOfCharOf(i: nat)
    requires i < 64
    ensures IndexOf(CharOf(i)) == Some(i) && CharOf(i) != PAD
  {
  }

  /** Three bytes as a 24-bit number and as four sextets. */
  function Join(a: byte, b: byte, c: byte): nat {
    (a * 256 + b) * 256 + c
  }

  function Sextet(n: nat, k: nat): nat
    requires k < 4
    ensures Sextet(n, k) < 64
  {
    if k == 3 then n % 64 else if k == 2 then n / 64 % 64 else if k == 1 then n / 64 / 64 % 64 else n / 64 / 64 / 64 % 64
  }

  function FromSextets(p: nat, q: nat, r: nat, s: nat): nat {
    ((p * 64 + q) * 64 + r) * 64 + s
  }

  lemma SextetsJoin(n: nat)
    requires n < 0x100_0000
    ensures FromSextets(Sextet(n, 0), Sextet(n, 1), Sextet(n, 2), Sextet(n, 3)) == n
  {
    var n1 := n / 64;
    var n2 := n1 / 64;
    assert n == n1 * 64 + n % 64 && n1 == n2 * 64 + n1 % 64 && n2 == n2 / 64 * 64 + n2 % 64;
    assert n2 / 64 < 64;
  }

  lemma BytesOfJoin(a: byte, b: byte, c: byte)
    ensures Join(a, b, c) < 0x100_0000
    ensures Join(a, b, c) / 256 / 256 == a && Join(a, b, c) / 256 % 256 == b && Join(a, b, c) % 256 == c
  {
    assert Join(a, b, c) / 256 == a * 256 + b;
  }

  function Digit(n: nat, k: nat): char
    requires k < 4
  {
    CharOf(Sextet(n, k))
  }

  function Encode(bytes: seq<byte>): string {
    if |bytes| == 0 then []
    else if |bytes| == 1 then
      var n := Join(bytes[0], 0, 0);
      [Digit(n, 0), Digit(n, 1), PAD, PAD]
    else if |bytes| == 2 then
      var n := Join(bytes[0], bytes[1], 0);
      [Digit(n, 0), Digit(n, 1), Digit(n, 2), PAD]
    else
      Group(bytes[0], bytes[1], bytes[2]) + Encode(bytes[3..])
  }

  /** Decodes the last group, which alone may be padded; unused low bits must be zero. */
  function DecodeGroup(s: string): Option<seq<byte>>
    requires |s| == 4
  {
    var p, q := IndexOf(s[0]), IndexOf(s[1]);
    if p.None? || q.None? then None
    else if s[2] == PAD && s[3] == PAD then
      var n := FromSextets(p.value, q.value, 0, 0);
      if n % 0x1_0000 != 0 || n / 256 / 256 >= 256 then None else Some([n / 256 / 256])
    else
      var r := IndexOf(s[2]);
      if r.None? then None
      else if s[3] == PAD then
        var n := FromSextets(p.value, q.value, r.value, 0);
        if n % 256 != 0 || n / 256 / 256 >= 256 then None else Some([n / 256 / 256, n / 256 % 256])
      else
        var t := IndexOf(s[3]);
        if t.None? then None
        else
          var n := FromSextets(p.value, q.value, r.value, t.value);
          if n / 256 / 256 >= 256 then None else Some([n / 256 / 256, n / 256 % 256, n % 256])
  }

  function Decode(s: string): Option<seq<byte>> {
    if |s| == 0 then Some([])
    else if |s| < 4 then None
    else
      var group := DecodeGroup(s[..4]);
      if group.None? then None
      else if |s| == 4 then group
      else if |group.value| < 3 then None
      else
        var rest := Decode(s[4..]);
        if rest.None? then None else Some(group.value + rest.value)
  }

  lemma FullGroupDecodes(a: byte, b: byte, c: byte)
    ensures DecodeGroup(Group(a, b, c)) == Some([a, b, c])
  {
    var n := Join(a, b, c);
    BytesOfJoin(a, b, c);
    SextetsJoin(n);
    IndexOfCharOf(Sextet(n, 0));
    IndexOfCharOf(Sextet(n, 1));
    IndexOfCharOf(Sextet(n, 2));
    IndexOfCharOf(Sextet(n, 3));
  }

  lemma TwoBytesDecode(a: byte, b: byte)
    ensures DecodeGroup(Encode([a, b])) == Some([a, b])
  {
    var n := Join(a, b, 0);
    BytesOfJoin(a, b, 0);
    SextetsJoin(n);
    assert Sextet(n, 3) == 0;
    IndexOfCharOf(Sextet(n, 0));
    IndexOfCharOf(Sextet(n, 1));
    IndexOfCharOf(Sextet(n, 2));
    assert Encode([a, b]) == [Digit(n, 0), Digit(n, 1), Digit(n, 2), PAD];
  }

  lemma LowSextetsVanish(a: byte, n: nat)
    requires n == 0x1_0000 * a
    ensures Sextet(n, 2) == 0 && Sextet(n, 3) == 0
  {
    assert n == 64 * (1024 * a) && 1024 * a == 64 * (16 * a);
  }

  lemma OneByteValue(a: byte)
    ensures var n := Join(a, 0, 0);
            FromSextets(Sextet(n, 0), Sextet(n, 1), 0, 0) == n && n % 0x1_0000 == 0 && n / 256 / 256 == a
  {
    var n := Join(a, 0, 0);
    BytesOfJoin(a, 0, 0);
    JoinShifted(a);
    ThirdSextetOn(a, n);
  }

  lemma JoinShifted(a: byte)
    ensures Join(a, 0, 0) == 0x1_0000 * a && Join(a, 0, 0) % 0x1_0000 == 0
  {
  }

  lemma ThirdSextetOn(a: byte, n: nat)
    requires n == 0x1_0000 * a && n < 0x100_0000
    ensures FromSextets(Sextet(n, 0), Sextet(n, 1), 0, 0) == n
  {
    SextetsJoin(n);
    LowSextetsVanish(a, n);
  }

  lemma OneByteDecodes(a: byte)
    ensures DecodeGroup(Encode([a])) == Some([a])
  {
    var n := Join(a, 0, 0);
    OneByteValue(a);
    IndexOfCharOf(Sextet(n, 0));
    IndexOfCharOf(Sextet(n, 1));
    assert Encode([a]) == [Digit(n, 0), Digit(n, 1), PAD, PAD];
  }

  ghost predicate Decodes(s: string, bytes: seq<byte>) {
    Decode(s) == Some(bytes) && (s == [] <==> bytes == [])
  }

  lemma ShortDecodes(bytes: seq<byte>)
    requires 0 < |bytes| < 3
    ensures Decodes(Encode(bytes), bytes)
  {
    if |bytes| == 1 {
      OneByteDecodes(bytes[0]);
      assert bytes == [bytes[0]];
    } else {
      TwoBytesDecode(bytes[0], bytes[1]);
      assert bytes == [bytes[0], bytes[1]];
    }
    DecodeSingle(Encode(bytes), bytes);
  }

  lemma LongDecodes(bytes: seq<byte>, rest: string)
    requires |bytes| >= 3 && Decodes(rest, bytes[3..])
    ensures Decodes(Group(bytes[0], bytes[1], bytes[2]) + rest, bytes)
  {
    FullGroupDecodes(bytes[0], bytes[1], bytes[2]);
    DecodeJoins(Group(bytes[0], bytes[1], bytes[2]), rest, [bytes[0], bytes[1], bytes[2]], bytes[3..]);
    assert bytes == [bytes[0], bytes[1], bytes[2]] + bytes[3..];
  }

  /** Decoding inverts encoding on every byte string. */
  lemma {:induction false} DecodeEncode(bytes: seq<byte>)
    ensures Decodes(Encode(bytes), bytes)
  {
    if |bytes| == 0 {
    } else if |bytes| < 3 {
      ShortDecodes(bytes);
    } else {
      DecodeEncode(bytes[3..]);
      LongDecodes(bytes, Encode(bytes[3..]));
    }
  }

  lemma DecodeSingle(group: string, bytes: seq<byte>)
    requires |group| == 4 && DecodeGroup(group) == Some(bytes)
    ensures Decode(group) == Some(bytes)
  {
    assert group[..4] == group;
  }

  function Group(a: byte, b: byte, c: byte): string {
    var n := Join(a, b, c);
    [Digit(n, 0), Digit(n, 1), Digit(n, 2), Digit(n, 3)]
  }

  lemma DecodeJoins(group: string, rest: string, first: seq<byte>, others: seq<byte>)
    requires |group| == 4 && |first| == 3 && DecodeGroup(group) == Some(first) && Decode(rest) == Some(others)
    requires rest == [] <==> others == []
    ensures Decode(group + rest) == Some(first + others)
  {
    var s := group + rest;
    assert s[..4] == group && s[4..] == rest;
    if rest == [] {
      assert first + others == first;
    }
  }

  /** The alphabet: the capital letters, the small letters, the digits, plus and slash, in this order. */
  lemma AlphabetInOrder(i: nat)
    requires i < 64
    ensures CharOf(0) == 'A' && CharOf(25) == 'Z' && CharOf(26) == 'a' && CharOf(51) == 'z' && CharOf(52) == '0' && CharOf(61) == '9'
    ensures CharOf(62) == '+' && CharOf(63) == '/'
    ensures i < 25 || 26 <= i < 51 || 52 <= i < 61 ==> CharOf(i + 1) as int == CharOf(i) as int + 1
  {
  }

  /** Character `k` of a group: six bits of its three bytes, from the left. */
  function CharOfGroup(a: byte, b: byte, c: byte, k: nat): char
    requires k < 4
  {
    CharOf(if k == 0 then a / 4 else if k == 1 then a % 4 * 16 + b / 16 else if k == 2 then b % 16 * 4 + c / 64 else c % 64)
  }

  lemma DigitsAreGroupChars(a: byte, b: byte, c: byte, n: nat)
    requires n == Join(a, b, c)
    ensures forall k :: 0 <= k < 4 ==> Digit(n, k) == CharOfGroup(a, b, c, k)
  {
    SextetsOfBytes(a, b, c);
  }

  /** The bits of a byte string, six at a time from the left, choose characters of the alphabet; what is missing from
      a last group of three bytes counts as zeros and is padded. */
  lemma EncodingByGroups(a: byte, b: byte, c: byte, rest: seq<byte>)
    ensures Encode([]) == ""
    ensures Encode([a]) == [CharOfGroup(a, 0, 0, 0), CharOfGroup(a, 0, 0, 1), '=', '=']
    ensures Encode([a, b]) == [CharOfGroup(a, b, 0, 0), CharOfGroup(a, b, 0, 1), CharOfGroup(a, b, 0, 2), '=']
    ensures Encode([a, b, c] + rest)
            == [CharOfGroup(a, b, c, 0), CharOfGroup(a, b, c, 1), CharOfGroup(a, b, c, 2), CharOfGroup(a, b, c, 3)] + Encode(rest)
  {
    DigitsAreGroupChars(a, 0, 0, Join(a, 0, 0));
    DigitsAreGroupChars(a, b, 0, Join(a, b, 0));
    DigitsAreGroupChars(a, b, c, Join(a, b, c));
    assert ([a, b, c] + rest)[3..] == rest;
  }

  lemma SextetsOfBytes(a: byte, b: byte, c: byte)
    ensures var n := Join(a, b, c);
            && Sextet(n, 0) == a / 4 && Sextet(n, 1) == a % 4 * 16 + b / 16
            && Sextet(n, 2) == b % 16 * 4 + c / 64 && Sextet(n, 3) == c % 64
  {
    var n := Join(a, b, c);
    assert n == (a * 1024 + b * 4 + c / 64) * 64 + c % 64;
    assert n / 64 == a * 1024 + b * 4 + c / 64;
    assert a * 1024 + b * 4 + c / 64 == (a * 16 + b / 16) * 64 + (b % 16 * 4 + c / 64);
    assert n / 64 / 64 == a * 16 + b / 16;
    assert a * 16 + b / 16 == a / 4 * 64 + (a % 4 * 16 + b / 16);
  }

  predicate InAlphabet(c: char) {
    IndexOf(c).Some? || c == PAD
  }

  /** An encoding uses the alphabet and the padding character only. */
  lemma {:induction false} EncodeUsesAlphabet(bytes: seq<byte>)
    ensures forall c :: c in Encode(bytes) ==> InAlphabet(c)
  {
    forall i | 0 <= i < 64
      ensures InAlphabet(CharOf(i))
    {
      IndexOfCharOf(i);
    }
    if |bytes| > 2 {
      EncodeUsesAlphabet(bytes[3..]);
    }
  }
}
