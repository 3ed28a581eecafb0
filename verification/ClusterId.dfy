/**
  The persistent cluster identity: a random RFC 4122 version 4 UUID in canonical
  lowercase form (sections 4.1.1, 4.1.3 and 4.4 of RFC 4122).
 */
module ClusterId {
  import opened Wrappers

  type Byte = x: int | 0 <= x < 256

  function HexDigit(n: int): char
    requires 0 <= n < 16
  {
    if n < 10 then '0' + n as char else 'a' + (n - 10) as char
  }

  predicate IsHex(c: char) { '0' <= c <= '9' || 'a' <= c <= 'f' }

  function HexValue(c: char): (n: int)
    requires IsHex(c)
    ensures 0 <= n < 16 && HexDigit(n) == c
  {
    if c <= '9' then (c - '0') as int else (c - 'a') as int + 10
  }

  /** Two lowercase digits per byte. */
  function Hex(raw: seq<Byte>): string {
    seq(2 * |raw|, i requires 0 <= i < 2 * |raw| =>
      HexDigit(if i % 2 == 0 then raw[i / 2] / 16 else raw[i / 2] % 16))
  }

  /** The bytes written by pairs of digits. */
  function Unhex(digits: string): seq<Byte>
    requires |digits| % 2 == 0
    requires forall i :: 0 <= i < |digits| ==> IsHex(digits[i])
  {
    seq(|digits| / 2, k requires 0 <= k < |digits| / 2 => HexValue(digits[2 * k]) * 16 + HexValue(digits[2 * k + 1]))
  }

  /** The version nibble is set to 4 and the two variant bits to 10. */
  function Mask(raw: seq<Byte>): (r: seq<Byte>)
    requires |raw| == 16
    ensures |r| == 16
  {
    raw[6 := raw[6] % 16 + 0x40][8 := raw[8] % 64 + 0x80]
  }

  /** The arithmetic of Mask is the bit masking of the two bytes. */
  lemma MaskIsBitwise(b: bv8)
    ensures ((b & 0x0f) | 0x40) as int == (b as int) % 16 + 0x40
    ensures ((b & 0x3f) | 0x80) as int == (b as int) % 64 + 0x80
  {
  }

  /** The 8-4-4-4-12 form of sixteen bytes. */
  function Render(raw: seq<Byte>): (id: string)
    requires |raw| == 16
    ensures |id| == 36
  {
    Hex(raw[..4]) + "-" + Hex(raw[4..6]) + "-" + Hex(raw[6..8]) + "-" + Hex(raw[8..10]) + "-" + Hex(raw[10..])
  }

  predicate IsDash(i: int) { i == 8 || i == 13 || i == 18 || i == 23 }

  /** The test made position by position. */
  predicate Valid(id: string) {
    && |id| == 36
    && (forall i :: 0 <= i < 36 ==> if IsDash(i) then id[i] == '-' else IsHex(id[i]))
    && id[14] == '4'
    && (id[19] == '8' || id[19] == '9' || id[19] == 'a' || id[19] == 'b')
  }

  /** The digits of an ID without its dashes. */
  function Digits(id: string): (d: string)
    requires |id| == 36
    ensures |d| == 32
  {
    id[..8] + id[9..13] + id[14..18] + id[19..23] + id[24..]
  }

  lemma HexUnhex(digits: string)
    requires |digits| % 2 == 0
    requires forall i :: 0 <= i < |digits| ==> IsHex(digits[i])
    ensures Hex(Unhex(digits)) == digits
  {
    forall i | 0 <= i < |digits| ensures Hex(Unhex(digits))[i] == digits[i] {
      var k := i / 2;
      var high, low := HexValue(digits[2 * k]), HexValue(digits[2 * k + 1]);
      assert Unhex(digits)[k] == high * 16 + low;
      assert (high * 16 + low) / 16 == high && (high * 16 + low) % 16 == low;
      assert i == 2 * k || i == 2 * k + 1;
    }
  }

  lemma HexInjective(a: seq<Byte>, b: seq<Byte>)
    requires |a| == |b| && Hex(a) == Hex(b)
    ensures a == b
  {
    forall k | 0 <= k < |a| ensures a[k] == b[k] {
      assert Hex(a)[2 * k] == Hex(b)[2 * k] && Hex(a)[2 * k + 1] == Hex(b)[2 * k + 1];
    }
  }

  lemma HexSlice(raw: seq<Byte>, i: nat, j: nat)
    requires i <= j <= |raw|
    ensures Hex(raw[i..j]) == Hex(raw)[2 * i..2 * j]
  {
    forall k | 0 <= k < 2 * (j - i) ensures Hex(raw[i..j])[k] == Hex(raw)[2 * i..2 * j][k] {
      assert (2 * i + k) / 2 == i + k / 2 && (2 * i + k) % 2 == k % 2;
    }
  }

  /** Thirty-two digits in 8-4-4-4-12 groups. */
  function Grouped(h: string): (id: string)
    requires |h| == 32
    ensures |id| == 36
  {
    h[..8] + "-" + h[8..12] + "-" + h[12..16] + "-" + h[16..20] + "-" + h[20..]
  }

  lemma DigitsOfGrouped(h: string)
    requires |h| == 32
    ensures Digits(Grouped(h)) == h
    ensures forall i :: 0 <= i < 36 && IsDash(i) ==> Grouped(h)[i] == '-'
  {
    var id := Grouped(h);
    assert id[..8] == h[..8] && id[9..13] == h[8..12] && id[14..18] == h[12..16];
    assert id[19..23] == h[16..20] && id[24..] == h[20..];
  }

  lemma RenderIsGrouped(raw: seq<Byte>)
    requires |raw| == 16
    ensures Render(raw) == Grouped(Hex(raw))
  {
    HexSlice(raw, 0, 4);
    HexSlice(raw, 4, 6);
    HexSlice(raw, 6, 8);
    HexSlice(raw, 8, 10);
    HexSlice(raw, 10, 16);
    assert raw[0..4] == raw[..4] && raw[10..16] == raw[10..];
    assert Hex(raw)[0..8] == Hex(raw)[..8] && Hex(raw)[20..32] == Hex(raw)[20..];
  }

  /** Removing the dashes of a rendering gives the digits of its bytes. */
  lemma DigitsOfRender(raw: seq<Byte>)
    requires |raw| == 16
    ensures Digits(Render(raw)) == Hex(raw)
    ensures forall i :: 0 <= i < 36 && IsDash(i) ==> Render(raw)[i] == '-'
  {
    RenderIsGrouped(raw);
    DigitsOfGrouped(Hex(raw));
  }

  /** An ID is determined by its dashes and its digits. */
  lemma FromDigits(a: string, b: string)
    requires |a| == 36 && |b| == 36 && Digits(a) == Digits(b)
    requires forall i :: 0 <= i < 36 && IsDash(i) ==> a[i] == b[i]
    ensures a == b
  {
    forall i | 0 <= i < 36 ensures a[i] == b[i] {
      if i < 8 { assert Digits(a)[i] == Digits(b)[i]; }
      else if 8 < i < 13 { assert Digits(a)[i - 1] == Digits(b)[i - 1]; }
      else if 13 < i < 18 { assert Digits(a)[i - 2] == Digits(b)[i - 2]; }
      else if 18 < i < 23 { assert Digits(a)[i - 3] == Digits(b)[i - 3]; }
      else if 23 < i { assert Digits(a)[i - 4] == Digits(b)[i - 4]; }
    }
  }

  /** Rendering is injective, on masked bytes as on any others. */
  lemma RenderInjective(a: seq<Byte>, b: seq<Byte>)
    requires |a| == 16 && |b| == 16 && Render(a) == Render(b)
    ensures a == b
  {
    DigitsOfRender(a);
    DigitsOfRender(b);
    HexInjective(a, b);
  }

  lemma RenderedIsValid(raw: seq<Byte>)
    requires |raw| == 16
    ensures Valid(Render(Mask(raw)))
  {
    var m := Mask(raw);
    var id := Render(m);
    DigitsOfRender(m);
    forall i | 0 <= i < 36 && !IsDash(i) ensures IsHex(id[i]) {
      var d := if i < 8 then i else if i < 13 then i - 1 else if i < 18 then i - 2 else if i < 23 then i - 3 else i - 4;
      assert id[i] == Digits(id)[d] == Hex(m)[d];
    }
    assert id[14] == Digits(id)[12] == Hex(m)[12];
    assert id[19] == Digits(id)[16] == Hex(m)[16];
  }

  lemma DigitsAreHex(id: string)
    requires Valid(id)
    ensures forall i :: 0 <= i < 32 ==> IsHex(Digits(id)[i])
    ensures HexValue(Digits(id)[12]) == 4 && 8 <= HexValue(Digits(id)[16]) <= 11
  {
    var d := Digits(id);
    forall i | 0 <= i < 32 ensures IsHex(d[i]) {
      var p := if i < 8 then i else if i < 12 then i + 1 else if i < 16 then i + 2 else if i < 20 then i + 3 else i + 4;
      assert d[i] == id[p];
    }
    assert d[12] == id[14] && d[16] == id[19];
  }

  lemma MaskedNibbles(d: string)
    requires |d| == 32 && forall i :: 0 <= i < 32 ==> IsHex(d[i])
    requires HexValue(d[12]) == 4 && 8 <= HexValue(d[16]) <= 11
    ensures Mask(Unhex(d)) == Unhex(d)
  {
    assert Unhex(d)[6] == 64 + HexValue(d[13]);
    assert Unhex(d)[8] == HexValue(d[16]) * 16 + HexValue(d[17]);
  }

  lemma ValidIsRendered(id: string) returns (raw: seq<Byte>)
    requires Valid(id)
    ensures |raw| == 16 && Mask(raw) == raw && id == Render(raw)
  {
    var d := Digits(id);
    DigitsAreHex(id);
    raw := Unhex(d);
    HexUnhex(d);
    MaskedNibbles(d);
    DigitsOfRender(raw);
    FromDigits(id, Render(raw));
  }

  /** The validator accepts exactly the renderings of masked bytes. */
  lemma ValidIffRendered(id: string)
    ensures Valid(id) <==> exists raw: seq<Byte> :: |raw| == 16 && id == Render(Mask(raw))
  {
    if Valid(id) {
      var raw := ValidIsRendered(id);
      assert id == Render(Mask(raw));
    }
    if raw: seq<Byte> :| |raw| == 16 && id == Render(Mask(raw)) {
      RenderedIsValid(raw);
    }
  }

  lemma FromGroups(id: string, raw: seq<Byte>)
    requires |raw| == 16 && |id| == 36
    requires id[0..8] == Hex(raw[..4]) && id[9..13] == Hex(raw[4..6]) && id[14..18] == Hex(raw[6..8])
    requires id[19..23] == Hex(raw[8..10]) && id[24..36] == Hex(raw[10..])
    requires forall i :: 0 <= i < 36 && IsDash(i) ==> id[i] == '-'
    ensures id == Render(raw)
  {
    assert id[8..9] == "-" && id[13..14] == "-" && id[18..19] == "-" && id[23..24] == "-";
    assert id[..18] == id[0..8] + "-" + id[9..13] + "-" + id[14..18];
    assert id[18..] == "-" + id[19..23] + "-" + id[24..36];
    assert id == id[..18] + id[18..];
  }

  method Validate(id: string) returns (ok: bool)
    ensures ok <==> exists raw: seq<Byte> :: |raw| == 16 && id == Render(Mask(raw))
  {
    ValidIffRendered(id);
    if |id| != 36 {
      return false;
    }
    var i := 0;
    while i < 36
      invariant 0 <= i <= 36
      invariant forall k :: 0 <= k < i ==> if IsDash(k) then id[k] == '-' else IsHex(id[k])
    {
      if i == 8 || i == 13 || i == 18 || i == 23 {
        if id[i] != '-' { return false; }
      } else if !(('0' <= id[i] <= '9') || ('a' <= id[i] <= 'f')) {
        return false;
      }
      i := i + 1;
    }
    ok := id[14] == '4' && id[19] in "89ab";
  }

  /** Writes the digits of src into dst from position at on. */
  method HexEncode(dst: array<char>, at: nat, src: seq<Byte>)
    requires at + 2 * |src| <= dst.Length
    modifies dst
    ensures dst[at..at + 2 * |src|] == Hex(src)
    ensures forall i :: 0 <= i < dst.Length && !(at <= i < at + 2 * |src|) ==> dst[i] == old(dst[i])
  {
    var k := 0;
    while k < |src|
      invariant 0 <= k <= |src|
      invariant forall i :: 0 <= i < 2 * k ==> dst[at + i] == Hex(src)[i]
      invariant forall i :: 0 <= i < dst.Length && !(at <= i < at + 2 * k) ==> dst[i] == old(dst[i])
    {
      dst[at + 2 * k] := HexDigit(src[k] / 16);
      dst[at + 2 * k + 1] := HexDigit(src[k] % 16);
      k := k + 1;
    }
  }

  /** A fresh ID from sixteen random bytes; failure of the random source is reported. */
  method New(entropy: Option<seq<Byte>>) returns (id: Option<string>)
    requires entropy.Some? ==> |entropy.value| == 16
    ensures id.None? <==> entropy.None?
    ensures id.Some? ==> id.value == Render(Mask(entropy.value)) && Valid(id.value)
  {
    if entropy.None? {
      return None;
    }
    var bytes := new Byte[16](i requires 0 <= i < 16 => entropy.value[i]);
    bytes[6] := bytes[6] % 16 + 0x40;
    bytes[8] := bytes[8] % 64 + 0x80;
    var raw := bytes[..];
    assert raw == Mask(entropy.value);
    var encoded := new char[36];
    HexEncode(encoded, 0, raw[0..4]);
    encoded[8] := '-';
    HexEncode(encoded, 9, raw[4..6]);
    encoded[13] := '-';
    HexEncode(encoded, 14, raw[6..8]);
    encoded[18] := '-';
    HexEncode(encoded, 19, raw[8..10]);
    encoded[23] := '-';
    HexEncode(encoded, 24, raw[10..16]);
    assert raw[0..4] == raw[..4] && raw[10..16] == raw[10..];
    FromGroups(encoded[..], raw);
    RenderedIsValid(entropy.value);
    return Some(encoded[..]);
  }
}
