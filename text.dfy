/** The JavaScript string operations the core relies on: `toLowerCase`,
    `trim`, `includes`, `endsWith`, `split`, `replace(/,/g, '')`, number
    rendering in template literals, `parseInt`, and `length` and `slice`,
    which count UTF-16 code units. Strings are sequences of Unicode scalar
    values. */
module Text {
  import opened Wrappers

  // ---------------------------------------------------------------------------
  // Whitespace and trimming
  // ---------------------------------------------------------------------------

  /** The ECMAScript WhiteSpace and LineTerminator code points, which
      `String.prototype.trim` removes from both ends. */
  predicate IsSpace(c: char) {
    || c == '\t' || c == '\n' || c == '\U{000B}' || c == '\U{000C}' || c == '\r'
    || c == ' ' || c == '\U{00A0}' || c == '\U{1680}'
    || ('\U{2000}' <= c <= '\U{200A}')
    || c == '\U{2028}' || c == '\U{2029}' || c == '\U{202F}' || c == '\U{205F}'
    || c == '\U{3000}' || c == '\U{FEFF}'
  }

  predicate AllSpace(s: string) {
    forall i :: 0 <= i < |s| ==> IsSpace(s[i])
  }

  /** `trimStart`: the longest suffix of `s` that does not start with whitespace. */
  function TrimStart(s: string): (r: string)
    ensures |r| <= |s| && r == s[|s| - |r|..]
    ensures r == [] || !IsSpace(r[0])
    ensures AllSpace(s[..|s| - |r|])
  {
    if s != [] && IsSpace(s[0]) then
      var r := TrimStart(s[1..]);
      assert s[1..][..|s[1..]| - |r|] == s[1..|s| - |r|];
      r
    else s
  }

  /** `trimEnd`: the longest prefix of `s` that does not end with whitespace. */
  function TrimEnd(s: string): (r: string)
    ensures |r| <= |s| && r == s[..|r|]
    ensures r == [] || !IsSpace(r[|r| - 1])
    ensures AllSpace(s[|r|..])
  {
    if s != [] && IsSpace(s[|s| - 1]) then
      var r := TrimEnd(s[..|s| - 1]);
      assert s[..|s| - 1][|r|..] + [s[|s| - 1]] == s[|r|..];
      r
    else s
  }

  /** `trim`: a contiguous slice of `s`, with whitespace only outside it. */
  function Trim(s: string): (r: string)
    ensures |r| <= |s|
    ensures r == [] || (!IsSpace(r[0]) && !IsSpace(r[|r| - 1]))
  {
    TrimEnd(TrimStart(s))
  }

  /** A string is blank after `trim` exactly when it holds only whitespace. */
  lemma {:induction false} TrimEmptyIffAllSpace(s: string)
    ensures Trim(s) == [] <==> AllSpace(s)
  {
    var t := TrimStart(s);
    if Trim(s) == [] {
      assert s == s[..|s| - |t|] + t;
      assert AllSpace(t[0..]);
    } else {
      var r := Trim(s);
      assert r[0] == t[0] == s[|s| - |t|];
    }
  }

  /** Trimming a trimmed string changes nothing. */
  lemma TrimIdempotent(s: string)
    ensures Trim(Trim(s)) == Trim(s)
  {
    var r := Trim(s);
    if r != [] {
      assert TrimStart(r) == r;
      assert TrimEnd(r) == r;
    }
  }

  /** `trim` returns the middle of its input: what it strips is whitespace. */
  lemma {:induction false} TrimIsSlice(s: string)
    ensures exists a, b :: 0 <= a <= b <= |s| && Trim(s) == s[a..b]
                           && AllSpace(s[..a]) && AllSpace(s[b..])
  {
    var t := TrimStart(s);
    var r := TrimEnd(t);
    var a := |s| - |t|;
    var b := a + |r|;
    assert t[|r|..] == s[b..];
    assert Trim(s) == s[a..b];
  }

  // ---------------------------------------------------------------------------
  // Case mapping
  // ---------------------------------------------------------------------------

  /** Lower-case mapping of one character: ASCII and the Latin-1 capitals. */
  function LowerChar(c: char): (r: char)
    ensures r == c || 'A' <= c <= 'Z' || '\U{00C0}' <= c <= '\U{00DE}'
  {
    if 'A' <= c <= 'Z' || ('\U{00C0}' <= c <= '\U{00DE}' && c != '\U{00D7}') then
      (c as int + 32) as char
    else c
  }

  /** `toLowerCase`: character-wise lower-casing, length preserving. */
  function ToLower(s: string): (r: string)
    ensures |r| == |s|
    ensures forall i :: 0 <= i < |s| ==> r[i] == LowerChar(s[i])
  {
    seq(|s|, i requires 0 <= i < |s| => LowerChar(s[i]))
  }

  /** Lower-casing twice is lower-casing once. */
  lemma ToLowerIdempotent(s: string)
    ensures ToLower(ToLower(s)) == ToLower(s)
  {
  }

  // ---------------------------------------------------------------------------
  // Searching
  // ---------------------------------------------------------------------------

  predicate StartsWith(s: string, p: string) {
    |p| <= |s| && s[..|p|] == p
  }

  /** `endsWith`. */
  predicate EndsWith(s: string, p: string) {
    |p| <= |s| && s[|s| - |p|..] == p
  }

  /** `p` occurs in `s` at position `i`. */
  predicate OccursAt(s: string, p: string, i: int) {
    0 <= i <= |s| - |p| && s[i..i + |p|] == p
  }

  /** `includes`: a left-to-right scan for `p` in `s`. */
  function Contains(s: string, p: string): (b: bool)
    ensures b <==> exists i :: OccursAt(s, p, i)
    decreases |s|
  {
    if |p| > |s| then false
    else if s[..|p|] == p then
      assert OccursAt(s, p, 0);
      true
    else
      var b := Contains(s[1..], p);
      if b then
        var i :| OccursAt(s[1..], p, i);
        assert OccursAt(s, p, i + 1);
        true
      else
        assert forall i :: OccursAt(s, p, i) ==> i > 0 && OccursAt(s[1..], p, i - 1);
        false
  }

  /** Every string contains each of its slices. */
  lemma ContainsSlice(s: string, i: int, j: int)
    requires 0 <= i <= j <= |s|
    ensures Contains(s, s[i..j])
  {
    assert OccursAt(s, s[i..j], i);
  }

  /** A character is contained in a string exactly when it is an element of it. */
  lemma ContainsChar(s: string, c: char)
    ensures Contains(s, [c]) <==> c in s
  {
    if Contains(s, [c]) {
      var i :| OccursAt(s, [c], i);
      assert s[i] == s[i..i + 1][0];
    }
    if c in s {
      var i :| 0 <= i < |s| && s[i] == c;
      assert OccursAt(s, [c], i);
    }
  }

  // ---------------------------------------------------------------------------
  // split and join
  // ---------------------------------------------------------------------------

  /** `split(sep)` for a one-character separator: always at least one part,
      none of which contains the separator. */
  function Split(s: string, sep: char): (parts: seq<string>)
    ensures |parts| >= 1
    ensures forall k :: 0 <= k < |parts| ==> sep !in parts[k]
  {
    if s == [] then [[]]
    else
      var rest := Split(s[1..], sep);
      if s[0] == sep then [[]] + rest
      else [[s[0]] + rest[0]] + rest[1..]
  }

  /** `join(sep)`, the inverse of `Split`. */
  function Join(parts: seq<string>, sep: char): string
    requires |parts| >= 1
  {
    if |parts| == 1 then parts[0] else parts[0] + [sep] + Join(parts[1..], sep)
  }

  /** Joining the parts of a split gives back the original string. */
  lemma {:induction false} JoinSplit(s: string, sep: char)
    ensures Join(Split(s, sep), sep) == s
  {
    if s != [] {
      var rest := Split(s[1..], sep);
      JoinSplit(s[1..], sep);
      if s[0] != sep && |rest| > 1 {
        assert rest == [rest[0]] + rest[1..];
      }
    }
  }

  /** Splitting parts that do not contain the separator after joining them
      gives back the parts. */
  lemma {:induction false} SplitJoin(parts: seq<string>, sep: char)
    requires |parts| >= 1
    requires forall k :: 0 <= k < |parts| ==> sep !in parts[k]
    ensures Split(Join(parts, sep), sep) == parts
    decreases |parts|, |parts[0]|
  {
    if parts[0] == [] {
      if |parts| > 1 {
        SplitJoin(parts[1..], sep);
        SplitAfterSep(Join(parts[1..], sep), sep);
        assert Join(parts, sep) == [sep] + Join(parts[1..], sep);
      }
    } else {
      var p0 := parts[0];
      var tail := [p0[1..]] + parts[1..];
      assert tail[1..] == parts[1..];
      assert p0[0] != sep by { assert p0[0] in parts[0]; }
      SplitJoin(tail, sep);
      JoinFirstChar(parts, sep);
      SplitAfterChar(p0[0], Join(tail, sep), sep);
      assert [p0[0]] + tail[0] == p0;
      assert parts == [p0] + parts[1..];
    }
  }

  /** A string that starts with the separator splits into an empty part
      followed by the parts of the rest. */
  lemma SplitAfterSep(x: string, sep: char)
    ensures Split([sep] + x, sep) == [[]] + Split(x, sep)
  {
    assert ([sep] + x)[1..] == x;
  }

  /** A string that starts with another character has it at the head of its
      first part. */
  lemma SplitAfterChar(c: char, x: string, sep: char)
    requires c != sep
    ensures Split([c] + x, sep) == [[c] + Split(x, sep)[0]] + Split(x, sep)[1..]
  {
    assert ([c] + x)[1..] == x;
  }

  /** Joining parts whose first part is not empty starts with that part's
      first character, followed by the join with it removed. */
  lemma JoinFirstChar(parts: seq<string>, sep: char)
    requires |parts| >= 1 && parts[0] != []
    ensures Join(parts, sep) == [parts[0][0]] + Join([parts[0][1..]] + parts[1..], sep)
  {
    var p0 := parts[0];
    var tail := [p0[1..]] + parts[1..];
    assert tail[1..] == parts[1..];
    assert p0 == [p0[0]] + p0[1..];
  }

  /** `content.split('\n')[0]`: the text before the first line break. */
  function FirstLine(s: string): (r: string)
    ensures '\n' !in r
    ensures StartsWith(s, r)
    ensures |r| < |s| ==> s[|r|] == '\n'
  {
    var parts := Split(s, '\n');
    SplitFirstPart(s, '\n');
    parts[0]
  }

  lemma {:induction false} SplitFirstPart(s: string, sep: char)
    ensures StartsWith(s, Split(s, sep)[0])
    ensures |Split(s, sep)[0]| < |s| ==> s[|Split(s, sep)[0]|] == sep
  {
    if s != [] && s[0] != sep {
      SplitFirstPart(s[1..], sep);
    }
  }

  // ---------------------------------------------------------------------------
  // Removing a character
  // ---------------------------------------------------------------------------

  /** `replace(/c/g, '')`: `s` with every `c` deleted, other characters kept in order. */
  function RemoveChar(s: string, c: char): (r: string)
    ensures c !in r
    ensures |r| <= |s|
    ensures c !in s ==> r == s
    ensures multiset(r) == multiset(s)[c := 0]
  {
    if s == [] then []
    else
      assert s == [s[0]] + s[1..];
      if s[0] == c then RemoveChar(s[1..], c) else [s[0]] + RemoveChar(s[1..], c)
  }

  /** Deleting works piece by piece and keeps order: the result for `a + b`
      is the result for `a` followed by the result for `b`. With the
      one-character case this pins the result down completely. */
  lemma {:induction false} RemoveCharAppend(a: string, b: string, c: char)
    ensures RemoveChar(a + b, c) == RemoveChar(a, c) + RemoveChar(b, c)
  {
    if a == [] {
      assert a + b == b;
    } else {
      assert (a + b)[0] == a[0];
      assert (a + b)[1..] == a[1..] + b;
      RemoveCharAppend(a[1..], b, c);
    }
  }

  /** One `c` between two stretches without `c` is deleted in place. */
  lemma RemoveCharBetween(a: string, b: string, c: char)
    requires c !in a && c !in b
    ensures RemoveChar(a + [c] + b, c) == a + b
  {
    RemoveCharOne(c, c);
    RemoveCharAppend([c], b, c);
    RemoveCharAppend(a, [c] + b, c);
    assert a + [c] + b == a + ([c] + b);
  }

  /** A single character is kept exactly when it is not `c`. */
  lemma RemoveCharOne(x: char, c: char)
    ensures RemoveChar([x], c) == if x == c then [] else [x]
  {
    assert [x][1..] == [];
  }

  // ---------------------------------------------------------------------------
  // Length in UTF-16 code units
  // ---------------------------------------------------------------------------

  /** A JavaScript string stores a character above U+FFFF as a surrogate pair. */
  function Utf16Units(c: char): (n: nat)
    ensures 1 <= n <= 2
    ensures n == 2 <==> c as int >= 0x10000
  {
    if c as int >= 0x10000 then 2 else 1
  }

  /** `s.length` of the JavaScript string holding `s`. */
  function Utf16Length(s: string): (n: nat)
    ensures |s| <= n <= 2 * |s|
  {
    if s == [] then 0 else Utf16Units(s[0]) + Utf16Length(s[1..])
  }

  /** Text within the Basic Multilingual Plane has one code unit per character. */
  lemma {:induction false} Utf16LengthBmp(s: string)
    requires forall i :: 0 <= i < |s| ==> s[i] as int < 0x10000
    ensures Utf16Length(s) == |s|
  {
    if s != [] {
      Utf16LengthBmp(s[1..]);
    }
  }

  /** The longest prefix of `s` that fits in `n` code units without splitting a pair. */
  function Utf16Take(s: string, n: nat): (t: string)
    ensures StartsWith(s, t)
    ensures Utf16Length(t) <= n
    ensures t == s || Utf16Length(t) + Utf16Units(s[|t|]) > n
    ensures Utf16Length(s) <= n ==> t == s
  {
    if s == [] || Utf16Units(s[0]) > n then []
    else
      var rest := Utf16Take(s[1..], n - Utf16Units(s[0]));
      assert ([s[0]] + rest)[1..] == rest;
      assert s == [s[0]] + s[1..];
      [s[0]] + rest
  }

  /** Within the Basic Multilingual Plane the cut is `s.slice(0, n)`. */
  lemma {:induction false} Utf16TakeBmp(s: string, n: nat)
    requires forall i :: 0 <= i < |s| ==> s[i] as int < 0x10000
    requires n <= |s|
    ensures Utf16Take(s, n) == s[..n]
  {
    if n > 0 {
      Utf16TakeBmp(s[1..], n - 1);
      assert s[..n] == [s[0]] + s[1..][..n - 1];
    }
  }

  // ---------------------------------------------------------------------------
  // Numbers as text
  // ---------------------------------------------------------------------------

  function DigitChar(d: nat): char
    requires d < 10
  {
    "0123456789"[d]
  }

  /** Decimal rendering of a natural number, as in a template literal. */
  function NatText(n: nat): (r: string)
    ensures |r| >= 1
    ensures forall k :: 0 <= k < |r| ==> '0' <= r[k] <= '9'
  {
    if n < 10 then [DigitChar(n)] else NatText(n / 10) + [DigitChar(n % 10)]
  }

  /** The value of a digit character in radix 10 or 16 (either case). */
  function DigitValue(c: char, radix: nat): Option<nat>
  {
    if '0' <= c <= '9' then Some(c as int - '0' as int)
    else if radix == 16 && 'a' <= c <= 'f' then Some(c as int - 'a' as int + 10)
    else if radix == 16 && 'A' <= c <= 'F' then Some(c as int - 'A' as int + 10)
    else None
  }

  /** The longest prefix of `s` made of radix digits. */
  function DigitPrefix(s: string, radix: nat): (z: string)
    ensures StartsWith(s, z)
    ensures forall k :: 0 <= k < |z| ==> DigitValue(z[k], radix).Some?
    ensures |z| < |s| ==> DigitValue(s[|z|], radix).None?
  {
    if s == [] || DigitValue(s[0], radix).None? then []
    else [s[0]] + DigitPrefix(s[1..], radix)
  }

  /** The number that a string of radix digits denotes, most significant first. */
  function DigitsValue(z: string, radix: nat): nat
    requires forall k :: 0 <= k < |z| ==> DigitValue(z[k], radix).Some?
  {
    if z == [] then 0
    else
      var init := z[..|z| - 1];
      assert forall k :: 0 <= k < |init| ==> init[k] == z[k];
      DigitsValue(init, radix) * radix + DigitValue(z[|z| - 1], radix).value
  }

  /** ECMAScript `parseInt(string)` without a radix: leading whitespace is
      skipped, one sign is read, a `0x`/`0X` prefix selects radix 16, and the
      longest digit prefix is converted; `None` stands for NaN. */
  function ParseInt(s: string): (r: Option<int>)
  {
    var t := TrimStart(s);
    var negative := t != [] && t[0] == '-';
    var u := if t != [] && (t[0] == '-' || t[0] == '+') then t[1..] else t;
    match ParseUnsigned(u)
    case None => None
    case Some(v) => var w: int := v; Some(if negative then -w else w)
  }

  /** The unsigned part of `parseInt`: a `0x`/`0X` prefix selects radix 16,
      and the longest digit prefix is converted. */
  function ParseUnsigned(u: string): Option<nat> {
    var hex := |u| >= 2 && u[0] == '0' && (u[1] == 'x' || u[1] == 'X');
    var radix := if hex then 16 else 10;
    var digits := if hex then u[2..] else u;
    var z := DigitPrefix(digits, radix);
    if z == [] then None else Some(DigitsValue(z, radix))
  }

  /** The decimal digits of `n`, read back, are `n`. */
  lemma {:induction false} DigitsValueNatText(n: nat)
    ensures DigitsValue(NatText(n), 10) == n
  {
    if n < 10 {
      DigitCharValue(n);
      assert NatText(n)[..0] == [];
    } else {
      var t := NatText(n);
      assert t[..|t| - 1] == NatText(n / 10);
      DigitCharValue(n % 10);
      DigitsValueNatText(n / 10);
    }
  }

  lemma DigitCharValue(d: nat)
    requires d < 10
    ensures DigitValue(DigitChar(d), 10) == Some(d)
  {
  }

  /** `parseInt` reads back what `NatText` writes. */
  lemma ParseIntNatText(n: nat)
    ensures ParseInt(NatText(n)) == Some(n)
  {
    ParseIntDecimal(NatText(n));
    DigitsValueNatText(n);
  }

  /** A string of decimal digits is read as the number it denotes. */
  lemma ParseIntDecimal(t: string)
    requires |t| >= 1 && forall k :: 0 <= k < |t| ==> '0' <= t[k] <= '9'
    ensures ParseInt(t) == Some(DigitsValue(t, 10))
  {
    assert !IsSpace(t[0]);
    assert TrimStart(t) == t;
    UnsignedDecimal(t);
  }

  lemma UnsignedDecimal(t: string)
    requires |t| >= 1 && forall k :: 0 <= k < |t| ==> '0' <= t[k] <= '9'
    ensures ParseUnsigned(t) == Some(DigitsValue(t, 10))
  {
    assert !(|t| >= 2 && t[0] == '0' && (t[1] == 'x' || t[1] == 'X')) by {
      if |t| >= 2 { assert '0' <= t[1] <= '9'; }
    }
    DigitPrefixAll(t, 10);
  }




  lemma {:induction false} DigitPrefixAll(s: string, radix: nat)
    requires forall k :: 0 <= k < |s| ==> DigitValue(s[k], radix).Some?
    ensures DigitPrefix(s, radix) == s
  {
    if s != [] {
      DigitPrefixAll(s[1..], radix);
    }
  }

  /** JavaScript truthiness of a string: the empty string is falsy. */
  function OrElse(s: string, fallback: string): (r: string)
    ensures r == s || (s == [] && r == fallback)
    ensures r != [] <== s != [] || fallback != []
  {
    if s != [] then s else fallback
  }
}
