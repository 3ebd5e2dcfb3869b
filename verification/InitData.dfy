/** The initdata blob: standard base64 (section 4 of RFC 4648) around a gzip member (section 2.3.1 of RFC 1952). */
module InitData {
  import opened Types

  type Byte = n: int | 0 <= n < 256

  type Sextet = n: int | 0 <= n < 64

  function CharOf(v: Sextet): char {
    if v < 26 then ('A' as int + v) as char
    else if v < 52 then ('a' as int + v - 26) as char
    else if v < 62 then ('0' as int + v - 52) as char
    else if v == 62 then '+' else '/'
  }

  function ValueOf(c: char): Option<Sextet> {
    if 'A' <= c <= 'Z' then Some(c as int - 'A' as int)
    else if 'a' <= c <= 'z' then Some(c as int - 'a' as int + 26)
    else if '0' <= c <= '9' then Some(c as int - '0' as int + 52)
    else if c == '+' then Some(62)
    else if c == '/' then Some(63)
    else None
  }

  predicate InAlphabet(c: char) {
    ValueOf(c).Some?
  }

  lemma ValueOfChar(v: Sextet)
    ensures ValueOf(CharOf(v)) == Some(v) && CharOf(v) != '=' && CharOf(v) != '\r' && CharOf(v) != '\n'
  {
  }

  /** The standard alphabet: A to Z, a to z, 0 to 9, + and /, in that order. */
  lemma AlphabetIsStandard(v: Sextet, c: char)
    ensures CharOf(0) == 'A' && CharOf(26) == 'a' && CharOf(52) == '0' && CharOf(62) == '+' && CharOf(63) == '/'
    ensures v < 63 && v != 25 && v != 51 && v != 61 && v != 62 ==> CharOf(v + 1) as int == CharOf(v) as int + 1
    ensures ValueOf(c).Some? <==> 'A' <= c <= 'Z' || 'a' <= c <= 'z' || '0' <= c <= '9' || c == '+' || c == '/'
    ensures ValueOf(CharOf(v)) == Some(v)
  {
  }

  // ---------- decoding ----------

  /** The decoder ignores line breaks. */
  function Strip(s: string): string {
    if s == [] then []
    else if s[0] == '\r' || s[0] == '\n' then Strip(s[1..])
    else [s[0]] + Strip(s[1..])
  }

  /** Groups of four characters to three bytes; only the last group may be padded. The unused low bits of a
      padded group need not be zero. */
  function DecodeGroups(s: string): Option<seq<Byte>> {
    if s == [] then Some([])
    else if |s| < 4 then None
    else match (ValueOf(s[0]), ValueOf(s[1]), ValueOf(s[2]), ValueOf(s[3]))
      case (Some(a), Some(b), Some(c), Some(d)) =>
        (match DecodeGroups(s[4..])
         case None => None
         case Some(rest) => Some([FirstByte(a, b), SecondByte(b, c), ThirdByte(c, d)] + rest))
      case (Some(a), Some(b), Some(c), None) =>
        if |s| == 4 && s[3] == '=' then Some([FirstByte(a, b), SecondByte(b, c)]) else None
      case (Some(a), Some(b), None, None) =>
        if |s| == 4 && s[2] == '=' && s[3] == '=' then Some([FirstByte(a, b)]) else None
      case _ => None
  }

  function FirstByte(a: Sextet, b: Sextet): Byte {
    a * 4 + b / 16
  }

  function SecondByte(b: Sextet, c: Sextet): Byte {
    b % 16 * 16 + c / 4
  }

  function ThirdByte(c: Sextet, d: Sextet): Byte {
    c % 4 * 64 + d
  }

  function Decode(s: string): Option<seq<Byte>> {
    DecodeGroups(Strip(s))
  }

  /** None when the blob is acceptable. */
  function ValidateInitData(blob: string): Option<Message> {
    match Decode(blob)
    case None => Some(BlobNotBase64)
    case Some(raw) =>
      if |raw| < 2 || raw[0] != 0x1f || raw[1] != 0x8b then Some(BlobNotGzip) else None
  }

  // ---------- which strings decode ----------

  /** Whole groups of alphabet characters, with at most two padding characters at the very end. */
  ghost predicate WellFormed(s: string) {
    && |s| % 4 == 0
    && (forall i :: 0 <= i < |s| - 2 ==> InAlphabet(s[i]))
    && (s != [] ==>
          || (InAlphabet(s[|s| - 2]) && InAlphabet(s[|s| - 1]))
          || (InAlphabet(s[|s| - 2]) && s[|s| - 1] == '=')
          || (s[|s| - 2] == '=' && s[|s| - 1] == '='))
  }

  lemma {:induction false} DecodesIffWellFormed(s: string)
    ensures DecodeGroups(s).Some? <==> WellFormed(s)
  {
    if |s| > 4 {
      DecodesIffWellFormed(s[4..]);
      WellFormedTail(s);
    }
  }

  lemma WellFormedTail(s: string)
    requires |s| > 4
    ensures WellFormed(s) <==>
            InAlphabet(s[0]) && InAlphabet(s[1]) && InAlphabet(s[2]) && InAlphabet(s[3]) && WellFormed(s[4..])
  {
    var t := s[4..];
    if WellFormed(t) && InAlphabet(s[0]) && InAlphabet(s[1]) && InAlphabet(s[2]) && InAlphabet(s[3]) {
      assert |t| >= 4;
      forall i | 0 <= i < |s| - 2 ensures InAlphabet(s[i]) {
        if i >= 4 {
          assert s[i] == t[i - 4];
        }
      }
      assert t[|t| - 2] == s[|s| - 2] && t[|t| - 1] == s[|s| - 1];
    }
    if WellFormed(s) {
      assert |s| >= 8;
      forall i | 0 <= i < |t| - 2 ensures InAlphabet(t[i]) {
        assert t[i] == s[i + 4];
      }
      assert t[|t| - 2] == s[|s| - 2] && t[|t| - 1] == s[|s| - 1];
    }
  }

  /** The schema's pattern for the field. */
  predicate InSchemaAlphabet(s: string) {
    forall i :: 0 <= i < |s| ==> InAlphabet(s[i]) || s[i] == '='
  }

  lemma {:induction false} NothingToStrip(s: string)
    requires InSchemaAlphabet(s)
    ensures Strip(s) == s
  {
    if s != [] {
      assert forall i :: 0 <= i < |s[1..]| ==> s[1..][i] == s[i + 1];
      NothingToStrip(s[1..]);
    }
  }

  lemma {:induction false} StripAdds(a: string, b: string)
    ensures Strip(a + b) == Strip(a) + Strip(b)
  {
    if a == [] {
      assert a + b == b;
    } else {
      StripAdds(a[1..], b);
      assert (a + b)[1..] == a[1..] + b;
    }
  }

  /** A line break anywhere in the text makes no difference. */
  lemma BreakIsIgnored(before: string, br: char, after: string)
    requires br == '\n' || br == '\r'
    ensures Decode(before + [br] + after) == Decode(before + after)
  {
    StripAdds(before + [br], after);
    StripAdds(before, [br]);
    StripAdds(before, after);
    assert [br][1..] == [] && Strip([br]) == [];
    hide DecodeGroups, Strip;
    assert Strip(before + [br] + after) == Strip(before) + [] + Strip(after) == Strip(before + after);
  }

  /** The first two bytes are the gzip magic exactly when the text starts H4s, H4t, H4u or H4v. */
  lemma MagicPrefix(s: string)
    requires WellFormed(s) && s != []
    ensures var raw := DecodeGroups(s);
            && raw.Some?
            && ((|raw.value| >= 2 && raw.value[0] == 0x1f && raw.value[1] == 0x8b)
                <==> (s[0] == 'H' && s[1] == '4' && 's' <= s[2] <= 'v'))
  {
    DecodesIffWellFormed(s);
    var a := ValueOf(s[0]).value;
    var b := ValueOf(s[1]).value;
    assert FirstByte(a, b) == 0x1f <==> a == 7 && 48 <= b < 64;
    if ValueOf(s[2]).Some? {
      var c := ValueOf(s[2]).value;
      assert SecondByte(b, c) == 0x8b <==> b % 16 == 8 && 44 <= c < 48;
    }
  }

  /** Within the schema's alphabet a blob is accepted exactly when it is well-formed padded base64 that
      starts with H4 and one of s, t, u, v. */
  lemma AcceptedExactly(blob: string)
    requires InSchemaAlphabet(blob)
    ensures ValidateInitData(blob) == None
       <==> WellFormed(blob) && |blob| >= 4 && blob[0] == 'H' && blob[1] == '4' && 's' <= blob[2] <= 'v'
  {
    NothingToStrip(blob);
    DecodesIffWellFormed(blob);
    if WellFormed(blob) && blob != [] {
      MagicPrefix(blob);
    }
  }

  // ---------- encoding ----------

  function Encode(bytes: seq<Byte>): string {
    if bytes == [] then []
    else if |bytes| == 1 then
      [CharOf(bytes[0] / 4), CharOf(bytes[0] % 4 * 16), '=', '=']
    else if |bytes| == 2 then
      [CharOf(bytes[0] / 4), CharOf(bytes[0] % 4 * 16 + bytes[1] / 16), CharOf(bytes[1] % 16 * 4), '=']
    else
      [CharOf(bytes[0] / 4), CharOf(bytes[0] % 4 * 16 + bytes[1] / 16),
       CharOf(bytes[1] % 16 * 4 + bytes[2] / 64), CharOf(bytes[2] % 64)]
      + Encode(bytes[3..])
  }

  /** Cutting three bytes into four sextets and back. */
  lemma Regroup(x: Byte, y: Byte, z: Byte)
    ensures FirstByte(x / 4, x % 4 * 16 + y / 16) == x
    ensures SecondByte(x % 4 * 16 + y / 16, y % 16 * 4 + z / 64) == y
    ensures ThirdByte(y % 16 * 4 + z / 64, z % 64) == z
  {
    assert (x % 4 * 16 + y / 16) / 16 == x % 4;
    assert (x % 4 * 16 + y / 16) % 16 == y / 16;
    assert (y % 16 * 4 + z / 64) / 4 == y % 16;
    assert (y % 16 * 4 + z / 64) % 4 == z / 64;
  }

  lemma DecodeGroup(a: Sextet, b: Sextet, c: Sextet, d: Sextet, rest: string)
    requires DecodeGroups(rest).Some?
    ensures DecodeGroups([CharOf(a), CharOf(b), CharOf(c), CharOf(d)] + rest)
         == Some([FirstByte(a, b), SecondByte(b, c), ThirdByte(c, d)] + DecodeGroups(rest).value)
  {
    ValueOfChar(a);
    ValueOfChar(b);
    ValueOfChar(c);
    ValueOfChar(d);
    assert ([CharOf(a), CharOf(b), CharOf(c), CharOf(d)] + rest)[4..] == rest;
  }

  lemma DecodePadded(a: Sextet, b: Sextet, c: Sextet)
    ensures DecodeGroups([CharOf(a), CharOf(b), CharOf(c), '=']) == Some([FirstByte(a, b), SecondByte(b, c)])
    ensures DecodeGroups([CharOf(a), CharOf(b), '=', '=']) == Some([FirstByte(a, b)])
  {
    ValueOfChar(a);
    ValueOfChar(b);
    ValueOfChar(c);
  }

  lemma DecodeEncodeOne(x: Byte)
    ensures DecodeGroups(Encode([x])) == Some([x])
  {
    DecodePadded(x / 4, x % 4 * 16, 0);
  }

  lemma DecodeEncodeTwo(x: Byte, y: Byte)
    ensures DecodeGroups(Encode([x, y])) == Some([x, y])
  {
    var a, b, c := x / 4, x % 4 * 16 + y / 16, y % 16 * 4;
    Regroup(x, y, 0);
    assert FirstByte(a, b) == x && SecondByte(b, c) == y;
    DecodePadded(a, b, c);
    assert Encode([x, y]) == [CharOf(a), CharOf(b), CharOf(c), '='];
  }

  lemma DecodeEncodeThree(x: Byte, y: Byte, z: Byte, rest: seq<Byte>)
    requires DecodeGroups(Encode(rest)) == Some(rest)
    ensures DecodeGroups(Encode([x, y, z] + rest)) == Some([x, y, z] + rest)
  {
    var a, b, c, d := x / 4, x % 4 * 16 + y / 16, y % 16 * 4 + z / 64, z % 64;
    Regroup(x, y, z);
    DecodeGroup(a, b, c, d, Encode(rest));
    assert ([x, y, z] + rest)[3..] == rest;
    assert Encode([x, y, z] + rest) == [CharOf(a), CharOf(b), CharOf(c), CharOf(d)] + Encode(rest);
  }

  /** Decoding inverts encoding. */
  lemma {:induction false} DecodeEncode(bytes: seq<Byte>)
    ensures DecodeGroups(Encode(bytes)) == Some(bytes)
  {
    if |bytes| == 1 {
      assert bytes == [bytes[0]];
      DecodeEncodeOne(bytes[0]);
    } else if |bytes| == 2 {
      assert bytes == [bytes[0], bytes[1]];
      DecodeEncodeTwo(bytes[0], bytes[1]);
    } else if |bytes| >= 3 {
      DecodeEncode(bytes[3..]);
      assert bytes == [bytes[0], bytes[1], bytes[2]] + bytes[3..];
      DecodeEncodeThree(bytes[0], bytes[1], bytes[2], bytes[3..]);
    }
  }

  lemma {:induction false} EncodingInSchema(bytes: seq<Byte>)
    ensures InSchemaAlphabet(Encode(bytes))
  {
    forall v: Sextet ensures InAlphabet(CharOf(v)) {
      ValueOfChar(v);
    }
    if |bytes| >= 3 {
      EncodingInSchema(bytes[3..]);
    }
  }

  /** The encoding of a byte string is accepted exactly when the bytes start with the gzip magic. */
  lemma EncodingAccepted(bytes: seq<Byte>)
    ensures ValidateInitData(Encode(bytes)) == None
       <==> |bytes| >= 2 && bytes[0] == 0x1f && bytes[1] == 0x8b
  {
    DecodeEncode(bytes);
    EncodingInSchema(bytes);
    NothingToStrip(Encode(bytes));
  }

  // ---------- canonical texts ----------

  /** The bits of the last group that carry no data are zero. */
  ghost predicate Canonical(s: string)
    requires WellFormed(s)
  {
    s != [] && s[|s| - 1] == '=' ==>
      if s[|s| - 2] == '=' then ValueOf(s[|s| - 3]).value % 16 == 0 else ValueOf(s[|s| - 2]).value % 4 == 0
  }

  lemma CharOfValue(c: char)
    requires InAlphabet(c)
    ensures CharOf(ValueOf(c).value) == c
  {
  }

  /** Packing four sextets into three bytes and cutting them again. */
  lemma Repack(a: Sextet, b: Sextet, c: Sextet, d: Sextet)
    ensures FirstByte(a, b) / 4 == a
    ensures FirstByte(a, b) % 4 * 16 + SecondByte(b, c) / 16 == b
    ensures SecondByte(b, c) % 16 * 4 + ThirdByte(c, d) / 64 == c
    ensures ThirdByte(c, d) % 64 == d
    ensures FirstByte(a, b) % 4 * 16 == b <==> b % 16 == 0
    ensures SecondByte(b, c) % 16 * 4 == c <==> c % 4 == 0
  {
    assert FirstByte(a, b) % 4 == b / 16;
    assert SecondByte(b, c) / 16 == b % 16 && SecondByte(b, c) % 16 == c / 4;
    assert ThirdByte(c, d) / 64 == c % 4;
  }

  lemma CharOfInjective(a: Sextet, b: Sextet)
    ensures CharOf(a) == CharOf(b) <==> a == b
  {
    ValueOfChar(a);
    ValueOfChar(b);
  }

  lemma WholeGroup(a: Sextet, b: Sextet, c: Sextet, d: Sextet, rest: string)
    requires DecodeGroups(rest).Some?
    ensures var s := [CharOf(a), CharOf(b), CharOf(c), CharOf(d)];
            DecodeGroups(s + rest).Some?
            && Encode(DecodeGroups(s + rest).value) == s + Encode(DecodeGroups(rest).value)
  {
    hide DecodeGroups, CharOf, FirstByte, SecondByte, ThirdByte;
    DecodeGroup(a, b, c, d, rest);
    Repack(a, b, c, d);
    var x, y, z := FirstByte(a, b), SecondByte(b, c), ThirdByte(c, d);
    var bytes := DecodeGroups(rest).value;
    assert ([x, y, z] + bytes)[3..] == bytes;
    assert Encode([x, y, z] + bytes) == [CharOf(x / 4), CharOf(x % 4 * 16 + y / 16), CharOf(y % 16 * 4 + z / 64),
        CharOf(z % 64)] + Encode(bytes);
  }

  lemma PaddedGroups(a: Sextet, b: Sextet, c: Sextet)
    ensures var one := [CharOf(a), CharOf(b), '=', '='];
            DecodeGroups(one).Some? && (Encode(DecodeGroups(one).value) == one <==> b % 16 == 0)
    ensures var two := [CharOf(a), CharOf(b), CharOf(c), '='];
            DecodeGroups(two).Some? && (Encode(DecodeGroups(two).value) == two <==> c % 4 == 0)
  {
    hide DecodeGroups, CharOf, FirstByte, SecondByte, ThirdByte;
    DecodePadded(a, b, c);
    Repack(a, b, c, 0);
    var x, y := FirstByte(a, b), SecondByte(b, c);
    CharOfInjective(x % 4 * 16, b);
    CharOfInjective(y % 16 * 4, c);
    assert Encode([x]) == [CharOf(x / 4), CharOf(x % 4 * 16), '=', '='];
    assert Encode([x, y]) == [CharOf(x / 4), CharOf(x % 4 * 16 + y / 16), CharOf(y % 16 * 4), '='];
    assert [CharOf(a), CharOf(x % 4 * 16), '=', '='][1] == CharOf(x % 4 * 16);
    assert [CharOf(a), CharOf(b), CharOf(y % 16 * 4), '='][2] == CharOf(y % 16 * 4);
  }

  lemma LastGroup(s: string)
    requires WellFormed(s) && |s| == 4
    ensures DecodeGroups(s).Some? && (Encode(DecodeGroups(s).value) == s <==> Canonical(s))
  {
    hide DecodeGroups, Encode, CharOf;
    CharOfValue(s[0]);
    CharOfValue(s[1]);
    var a, b := ValueOf(s[0]).value, ValueOf(s[1]).value;
    if s[2] == '=' {
      PaddedGroups(a, b, 0);
      assert s == [s[0], s[1], '=', '='];
    } else {
      CharOfValue(s[2]);
      var c := ValueOf(s[2]).value;
      if s[3] == '=' {
        PaddedGroups(a, b, c);
        assert s == [s[0], s[1], s[2], '='];
      } else {
        CharOfValue(s[3]);
        NothingDecodes();
        WholeGroup(a, b, c, ValueOf(s[3]).value, []);
        assert s == [s[0], s[1], s[2], s[3]] + [];
      }
    }
  }

  lemma NothingDecodes()
    ensures DecodeGroups([]) == Some([]) && Encode([]) == []
  {
  }

  lemma GroupSplits(s: string)
    requires WellFormed(s) && |s| > 4
    ensures InAlphabet(s[0]) && InAlphabet(s[1]) && InAlphabet(s[2]) && InAlphabet(s[3]) && WellFormed(s[4..])
    ensures s[..4] == [CharOf(ValueOf(s[0]).value), CharOf(ValueOf(s[1]).value),
                       CharOf(ValueOf(s[2]).value), CharOf(ValueOf(s[3]).value)]
  {
    WellFormedTail(s);
    CharOfValue(s[0]);
    CharOfValue(s[1]);
    CharOfValue(s[2]);
    CharOfValue(s[3]);
  }

  lemma FirstGroup(s: string)
    requires WellFormed(s) && |s| > 4
    ensures WellFormed(s[4..]) && DecodeGroups(s[4..]).Some? && DecodeGroups(s).Some?
    ensures Encode(DecodeGroups(s).value) == s[..4] + Encode(DecodeGroups(s[4..]).value)
  {
    hide DecodeGroups, Encode, CharOf, ValueOf, WellFormed;
    GroupSplits(s);
    DecodesIffWellFormed(s[4..]);
    WholeGroup(ValueOf(s[0]).value, ValueOf(s[1]).value, ValueOf(s[2]).value, ValueOf(s[3]).value, s[4..]);
    assert s == s[..4] + s[4..];
  }

  /** Encoding gives a text back exactly when the text is canonical. */
  lemma {:induction false} EncodeDecode(s: string)
    requires WellFormed(s)
    ensures DecodeGroups(s).Some? && (Encode(DecodeGroups(s).value) == s <==> Canonical(s))
  {
    if |s| == 4 {
      LastGroup(s);
    } else if s != [] {
      FirstGroup(s);
      EncodeDecode(s[4..]);
      var rest := Encode(DecodeGroups(s[4..]).value);
      assert s == s[..4] + s[4..];
      assert s[..4] + rest == s <==> rest == s[4..];
      assert Canonical(s) <==> Canonical(s[4..]);
    }
  }

  /** Among the accepted texts with a given payload exactly one is canonical, its encoding: so two canonical
      texts with the same payload are the same text. */
  lemma CanonicalTextIsUnique(blob: string, other: string)
    requires InSchemaAlphabet(blob) && ValidateInitData(blob) == None
    requires InSchemaAlphabet(other) && ValidateInitData(other) == None
    ensures WellFormed(blob) && WellFormed(other)
    ensures Canonical(blob) <==> blob == Encode(Decode(blob).value)
    ensures Canonical(blob) && Canonical(other) ==> (Decode(blob) == Decode(other) <==> blob == other)
  {
    AcceptedExactly(blob);
    AcceptedExactly(other);
    NothingToStrip(blob);
    NothingToStrip(other);
    EncodeDecode(blob);
    EncodeDecode(other);
  }

  /** Acceptance does not make the text canonical: the unused bits of a padded group are not checked, so two
      blobs with different text (and so different hashes, in general) can carry the same bytes. */
  lemma AcceptedTextIsNotCanonical()
    ensures "H4s=" != "H4t=" && Decode("H4s=") == Decode("H4t=")
    ensures ValidateInitData("H4s=") == None && ValidateInitData("H4t=") == None
  {
    assert "H4s="[2] != "H4t="[2];
    NothingToStrip("H4s=");
    NothingToStrip("H4t=");
    assert CharOf(7) == 'H' && CharOf(56) == '4' && CharOf(44) == 's' && CharOf(45) == 't';
    DecodePadded(7, 56, 44);
    DecodePadded(7, 56, 45);
  }
}
