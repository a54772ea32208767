/** Transaction fingerprints (server/utils/fingerprint.ts): the four
    identifying fields are joined with '|', UTF-8 encoded, hashed with SHA-256
    and written as lowercase hex. The hash and the rendering of an amount as
    text are parameters; the join, the encoding and the hex writing are
    modelled concretely, so equal fingerprints can be traced back to equal
    fields. */
module Fingerprint {
  import opened Text
  import opened Schema

  type Byte = b: int | 0 <= b < 256

  /** A SHA-256 digest (section 6.2 of FIPS 180-4) is 32 bytes. */
  type Digest = d: seq<Byte> | |d| == 32 witness seq(32, _ => 0)

  // ---------------------------------------------------------------------------
  // UTF-8 (what `TextEncoder.encode` produces)
  // ---------------------------------------------------------------------------

  /** The one to four bytes that encode one Unicode scalar value. */
  function EncodeChar(c: char): (bs: seq<Byte>)
    ensures 1 <= |bs| <= 4
  {
    var n := c as int;
    if n < 0x80 then [n]
    else if n < 0x800 then [0xC0 + n / 64, 0x80 + n % 64]
    else if n < 0x10000 then [0xE0 + n / 4096, 0x80 + (n / 64) % 64, 0x80 + n % 64]
    else [0xF0 + n / 262144, 0x80 + (n / 4096) % 64, 0x80 + (n / 64) % 64, 0x80 + n % 64]
  }

  function Utf8(s: string): (bs: seq<Byte>)
    ensures |bs| >= |s|
  {
    if s == [] then [] else EncodeChar(s[0]) + Utf8(s[1..])
  }

  /** How many bytes a sequence starting with lead byte `b` occupies. */
  function SequenceLength(b: Byte): nat {
    if b < 0x80 then 1 else if b < 0xE0 then 2 else if b < 0xF0 then 3 else 4
  }

  /** The scalar value a well-formed one-to-four byte sequence stands for. */
  function ScalarValue(bs: seq<Byte>): int
    requires 1 <= |bs| <= 4
  {
    var b0: int := bs[0];
    if |bs| == 1 then b0
    else
      var b1: int := bs[1] as int - 0x80;
      if |bs| == 2 then (b0 - 0xC0) * 64 + b1
      else
        var b2: int := bs[2] as int - 0x80;
        if |bs| == 3 then ((b0 - 0xE0) * 64 + b1) * 64 + b2
        else
          var b3: int := bs[3] as int - 0x80;
          (((b0 - 0xF0) * 64 + b1) * 64 + b2) * 64 + b3
  }

  /** The lead byte says how long a character's encoding is, and the bytes
      give back its scalar value. */
  lemma EncodeCharDecodes(c: char)
    ensures |EncodeChar(c)| == SequenceLength(EncodeChar(c)[0])
    ensures ScalarValue(EncodeChar(c)) == c as int
  {
    var n := c as int;
    if n >= 0x10000 {
      assert n < 0x110000;
      assert n / 4096 == (n / 262144) * 64 + (n / 4096) % 64;
      assert n / 64 == (n / 4096) * 64 + (n / 64) % 64;
    } else if n >= 0x800 {
      assert n / 64 == (n / 4096) * 64 + (n / 64) % 64;
    }
  }

  /** UTF-8 encoding loses nothing: different strings encode differently. */
  lemma {:induction false} Utf8Injective(a: string, b: string)
    requires Utf8(a) == Utf8(b)
    ensures a == b
  {
    if a != [] && b != [] {
      var ea, eb := EncodeChar(a[0]), EncodeChar(b[0]);
      EncodeCharDecodes(a[0]);
      EncodeCharDecodes(b[0]);
      assert Utf8(a) == ea + Utf8(a[1..]);
      assert Utf8(b) == eb + Utf8(b[1..]);
      assert ea[0] == Utf8(a)[0] == eb[0];
      assert |ea| == |eb|;
      assert ea == Utf8(a)[..|ea|] == eb;
      assert a[0] as int == b[0] as int;
      assert Utf8(a[1..]) == Utf8(a)[|ea|..] == Utf8(b[1..]);
      Utf8Injective(a[1..], b[1..]);
      assert a == [a[0]] + a[1..];
      assert b == [b[0]] + b[1..];
    }
  }

  // ---------------------------------------------------------------------------
  // Hex (what `bytesToHex` produces)
  // ---------------------------------------------------------------------------

  predicate IsHexDigit(c: char) {
    '0' <= c <= '9' || 'a' <= c <= 'f'
  }

  /** The lowercase hex digit for a value below 16. */
  function HexDigit(d: nat): (c: char)
    requires d < 16
    ensures IsHexDigit(c)
  {
    if d < 10 then '0' + d as char else 'a' + (d - 10) as char
  }

  function HexText(bs: seq<Byte>): (h: string)
    ensures |h| == 2 * |bs|
    ensures forall k :: 0 <= k < |h| ==> IsHexDigit(h[k])
  {
    if bs == [] then []
    else [HexDigit(bs[0] / 16), HexDigit(bs[0] % 16)] + HexText(bs[1..])
  }

  function HexDigitValue(c: char): nat {
    if '0' <= c <= '9' then (c - '0') as nat
    else if 'a' <= c <= 'f' then (c - 'a') as nat + 10
    else 0
  }

  function UnHex(h: string): seq<int>
    requires |h| % 2 == 0
  {
    if h == [] then []
    else [HexDigitValue(h[0]) * 16 + HexDigitValue(h[1])] + UnHex(h[2..])
  }

  /** Reading the hex text back gives the bytes, so hex writing is injective. */
  lemma {:induction false} UnHexHexText(bs: seq<Byte>)
    ensures UnHex(HexText(bs)) == bs
  {
    if bs != [] {
      var b := bs[0];
      var h := HexText(bs);
      assert h == [HexDigit(b / 16), HexDigit(b % 16)] + HexText(bs[1..]);
      assert HexDigitValue(h[0]) == b / 16;
      assert HexDigitValue(h[1]) == b % 16;
      assert h[2..] == HexText(bs[1..]);
      UnHexHexText(bs[1..]);
      assert UnHex(h) == [b] + UnHex(h[2..]);
      assert bs == [b] + bs[1..];
    }
  }

  lemma HexTextInjective(a: seq<Byte>, b: seq<Byte>)
    requires HexText(a) == HexText(b)
    ensures a == b
  {
    UnHexHexText(a);
    UnHexHexText(b);
  }

  // ---------------------------------------------------------------------------
  // The fingerprint
  // ---------------------------------------------------------------------------

  /** The text that is hashed: `date|description|amount|purchasedBy`. */
  function Preimage(date: string, description: string, amountText: string, purchasedBy: string): string {
    date + "|" + description + "|" + amountText + "|" + purchasedBy
  }

  /** Splitting the preimage at '|' gives back the four fields, in order,
      when none of them contains '|'. */
  lemma PreimageSplit(date: string, description: string, amountText: string, purchasedBy: string)
    requires '|' !in date && '|' !in description && '|' !in amountText && '|' !in purchasedBy
    ensures Split(Preimage(date, description, amountText, purchasedBy), '|')
            == [date, description, amountText, purchasedBy]
  {
    var parts := [date, description, amountText, purchasedBy];
    assert parts[1..] == [description, amountText, purchasedBy];
    assert parts[1..][1..] == [amountText, purchasedBy];
    assert parts[1..][1..][1..] == [purchasedBy];
    assert Join(parts[1..][1..], '|') == amountText + "|" + purchasedBy;
    assert Join(parts[1..], '|') == description + "|" + (amountText + "|" + purchasedBy);
    assert Preimage(date, description, amountText, purchasedBy) == Join(parts, '|');
    SplitJoin([date, description, amountText, purchasedBy], '|');
  }

  /** `generateFingerprint`: 64 lowercase hex digits. */
  function GenerateFingerprint(
    sha256: seq<Byte> -> Digest, amountText: Amount -> string,
    transactionDate: string, description: string, amount: Amount, purchasedBy: string): (fp: string)
    ensures |fp| == 64
    ensures forall k :: 0 <= k < |fp| ==> IsHexDigit(fp[k])
  {
    HexText(sha256(Utf8(Preimage(transactionDate, description, amountText(amount), purchasedBy))))
  }

  /** Fields without '|' are recovered from the preimage. */
  lemma PreimageInjective(d1: string, s1: string, a1: string, p1: string,
                          d2: string, s2: string, a2: string, p2: string)
    requires '|' !in d1 && '|' !in s1 && '|' !in a1 && '|' !in p1
    requires '|' !in d2 && '|' !in s2 && '|' !in a2 && '|' !in p2
    requires Preimage(d1, s1, a1, p1) == Preimage(d2, s2, a2, p2)
    ensures d1 == d2 && s1 == s2 && a1 == a2 && p1 == p2
  {
    PreimageSplit(d1, s1, a1, p1);
    PreimageSplit(d2, s2, a2, p2);
  }

  /** A '|' inside a field lets two different rows share a preimage, and
      hence a fingerprint. */
  lemma PreimageCollision()
    ensures Preimage("01/02/2024", "x|1", "2", "") == Preimage("01/02/2024", "x", "1", "2|")
  {
  }

  /** The fingerprint depends on the row only through its preimage: rows
      whose joined fields agree get the same fingerprint, whatever the hash. */
  lemma FingerprintDeterministic(
    sha256: seq<Byte> -> Digest, amountText: Amount -> string,
    d1: string, s1: string, m1: Amount, p1: string,
    d2: string, s2: string, m2: Amount, p2: string)
    ensures Preimage(d1, s1, amountText(m1), p1) == Preimage(d2, s2, amountText(m2), p2) ==>
            GenerateFingerprint(sha256, amountText, d1, s1, m1, p1) ==
            GenerateFingerprint(sha256, amountText, d2, s2, m2, p2)
  {
  }

  /** Two rows get the same fingerprint exactly when their preimages agree,
      provided the hash does not collide on these two encoded preimages. */
  lemma {:induction false} FingerprintEqualIffPreimage(
    sha256: seq<Byte> -> Digest, amountText: Amount -> string,
    d1: string, s1: string, m1: Amount, p1: string,
    d2: string, s2: string, m2: Amount, p2: string)
    requires sha256(Utf8(Preimage(d1, s1, amountText(m1), p1))) == sha256(Utf8(Preimage(d2, s2, amountText(m2), p2))) ==>
             Utf8(Preimage(d1, s1, amountText(m1), p1)) == Utf8(Preimage(d2, s2, amountText(m2), p2))
    ensures GenerateFingerprint(sha256, amountText, d1, s1, m1, p1) ==
            GenerateFingerprint(sha256, amountText, d2, s2, m2, p2)
            <==> Preimage(d1, s1, amountText(m1), p1) == Preimage(d2, s2, amountText(m2), p2)
  {
    var x1 := Utf8(Preimage(d1, s1, amountText(m1), p1));
    var x2 := Utf8(Preimage(d2, s2, amountText(m2), p2));
    if GenerateFingerprint(sha256, amountText, d1, s1, m1, p1) ==
       GenerateFingerprint(sha256, amountText, d2, s2, m2, p2) {
      HexTextInjective(sha256(x1), sha256(x2));
      Utf8Injective(Preimage(d1, s1, amountText(m1), p1), Preimage(d2, s2, amountText(m2), p2));
    }
  }

  /** For fields without '|', and a hash that does not collide on the two
      encoded preimages, two rows share a fingerprint exactly when their
      date, description, amount text and payer all agree. */
  lemma FingerprintEqualIffFields(
    sha256: seq<Byte> -> Digest, amountText: Amount -> string,
    d1: string, s1: string, m1: Amount, p1: string,
    d2: string, s2: string, m2: Amount, p2: string)
    requires '|' !in d1 && '|' !in s1 && '|' !in amountText(m1) && '|' !in p1
    requires '|' !in d2 && '|' !in s2 && '|' !in amountText(m2) && '|' !in p2
    requires sha256(Utf8(Preimage(d1, s1, amountText(m1), p1))) == sha256(Utf8(Preimage(d2, s2, amountText(m2), p2))) ==>
             Utf8(Preimage(d1, s1, amountText(m1), p1)) == Utf8(Preimage(d2, s2, amountText(m2), p2))
    ensures GenerateFingerprint(sha256, amountText, d1, s1, m1, p1) ==
            GenerateFingerprint(sha256, amountText, d2, s2, m2, p2)
            <==> d1 == d2 && s1 == s2 && amountText(m1) == amountText(m2) && p1 == p2
  {
    FingerprintEqualIffPreimage(sha256, amountText, d1, s1, m1, p1, d2, s2, m2, p2);
    if Preimage(d1, s1, amountText(m1), p1) == Preimage(d2, s2, amountText(m2), p2) {
      PreimageInjective(d1, s1, amountText(m1), p1, d2, s2, amountText(m2), p2);
    }
  }
}
