/**
 * Name-based UUIDs as `java.util.UUID.nameUUIDFromBytes` builds them: version 3 of
 * section 4.3 of RFC 4122, written in the 36-character text form of section 3 of RFC 4122.
 * The MD5 digest itself is a collaborator: callers pass it in as a function from the
 * name to its sixteen digest bytes.
 */
module NameUuid {
  import opened Common

  /** A 128-bit MD5 digest. */
  type Digest = d: seq<Byte> | |d| == 16 witness [0, 0, 0, 0, 0, 0, 0, 0, 0, 0, 0, 0, 0, 0, 0, 0]

  /** MD5 of the name's bytes, supplied by the caller. */
  type Md5 = string -> Digest

  function HexDigit(n: int): char
    requires 0 <= n < 16
  {
    if n < 10 then ('0' as int + n) as char else ('a' as int + n - 10) as char
  }

  predicate IsHexDigit(c: char)
  {
    '0' <= c <= '9' || 'a' <= c <= 'f'
  }

  /** Two lower-case hexadecimal digits per byte, high nibble first. */
  function Hex(bs: seq<Byte>): (r: string)
    ensures |r| == 2 * |bs|
  {
    if bs == [] then "" else [HexDigit(bs[0] / 16), HexDigit(bs[0] % 16)] + Hex(bs[1..])
  }

  lemma {:induction false} HexAt(bs: seq<Byte>, i: int)
    requires 0 <= i < |bs|
    ensures Hex(bs)[2 * i] == HexDigit(bs[i] / 16)
    ensures Hex(bs)[2 * i + 1] == HexDigit(bs[i] % 16)
    decreases |bs|
  {
    if i > 0 {
      HexAt(bs[1..], i - 1);
    }
  }

  lemma {:induction false} HexIsHex(bs: seq<Byte>)
    ensures forall k :: 0 <= k < |Hex(bs)| ==> IsHexDigit(Hex(bs)[k])
  {
    forall k | 0 <= k < |Hex(bs)| ensures IsHexDigit(Hex(bs)[k]) {
      HexAt(bs, k / 2);
      assert k == 2 * (k / 2) || k == 2 * (k / 2) + 1;
    }
  }

  /** Overwrite the version nibble with 3 (byte 6) and the variant bits with 10 (byte 8). */
  function Stamp(d: Digest): (r: Digest)
  {
    d[6 := d[6] % 16 + 0x30][8 := d[8] % 64 + 0x80]
  }

  lemma StampBits(d: Digest)
    ensures Stamp(d)[6] / 16 == 3 && Stamp(d)[6] % 16 == d[6] % 16
    ensures Stamp(d)[8] / 64 == 2 && Stamp(d)[8] % 64 == d[8] % 64
    ensures forall i :: 0 <= i < 16 && i != 6 && i != 8 ==> Stamp(d)[i] == d[i]
  {
  }

  /** `UUID.toString`: 8-4-4-4-12 hexadecimal digits joined by hyphens. */
  function UuidText(d: Digest): string
  {
    Hex(d[0..4]) + "-" + Hex(d[4..6]) + "-" + Hex(d[6..8]) + "-" + Hex(d[8..10]) + "-" + Hex(d[10..16])
  }

  /** `UUID.nameUUIDFromBytes(name.getBytes()).toString()`. */
  function NameUuidText(md5: Md5, name: string): (r: string)
    ensures |r| == 36
  {
    UuidText(Stamp(md5(name)))
  }

  predicate HyphenPosition(k: int)
  {
    k == 8 || k == 13 || k == 18 || k == 23
  }

  /**
   * The text form of section 3 of RFC 4122: 36 characters, hyphens at 8, 13, 18 and 23,
   * lower-case hexadecimal elsewhere, version digit '3' at 14 and a variant digit
   * among 8, 9, a, b at 19.
   */
  lemma NameUuidShape(md5: Md5, name: string)
    ensures var r := NameUuidText(md5, name);
      |r| == 36 &&
      (forall k :: 0 <= k < 36 && HyphenPosition(k) ==> r[k] == '-') &&
      (forall k :: 0 <= k < 36 && !HyphenPosition(k) ==> IsHexDigit(r[k])) &&
      r[14] == '3' && r[19] in {'8', '9', 'a', 'b'}
  {
    var d := Stamp(md5(name));
    var r := NameUuidText(md5, name);
    StampBits(md5(name));
    HexIsHex(d[0..4]);
    HexIsHex(d[4..6]);
    HexIsHex(d[6..8]);
    HexIsHex(d[8..10]);
    HexIsHex(d[10..16]);
    HexAt(d[6..8], 0);
    HexAt(d[8..10], 0);
    assert r[14] == Hex(d[6..8])[0];
    assert r[19] == Hex(d[8..10])[0];
    forall k | 0 <= k < 36 && !HyphenPosition(k) ensures IsHexDigit(r[k]) {
      if k < 8 {
        assert r[k] == Hex(d[0..4])[k];
      } else if k < 13 {
        assert r[k] == Hex(d[4..6])[k - 9];
      } else if k < 18 {
        assert r[k] == Hex(d[6..8])[k - 14];
      } else if k < 23 {
        assert r[k] == Hex(d[8..10])[k - 19];
      } else {
        assert r[k] == Hex(d[10..16])[k - 24];
      }
    }
  }
}
