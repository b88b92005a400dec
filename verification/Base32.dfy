/**
 * Unpadded base32, section 6 of RFC 4648, with an accumulator that is shifted in 32-bit arithmetic and
 * never masked.
 */
module Base32 {
  import opened Options
  import opened Bits

  datatype Result = Decoded(bytes: seq<nat>) | Invalid(character: char)

  const ALPHABET: string := "ABCDEFGHIJKLMNOPQRSTUVWXYZ234567"

  /** The place of a character in the alphabet. */
  function IndexOf(c: char): Option<nat> {
    if 'A' <= c <= 'Z' then Some(c as nat - 'A' as nat)
    else if '2' <= c <= '7' then Some(26 + (c as nat - '2' as nat))
    else None
  }

  lemma AlphabetIs(v: nat)
    requires v < 32
    ensures IndexOf(ALPHABET[v]) == Some(v)
  {
  }

  /** Table 3 of RFC 4648: the letters stand for 0 to 25, the digits 2 to 7 for 26 to 31; nothing else is a digit. */
  lemma AlphabetIsTable3(c: char, v: nat)
    ensures |ALPHABET| == 32
    ensures v < 26 ==> ALPHABET[v] as int == 65 + v
    ensures 26 <= v < 32 ==> ALPHABET[v] as int == 50 + (v - 26)
    ensures IndexOf(c) == Some(v) <==> v < 32 && ALPHABET[v] == c
  {
    if v < 32 {
      AlphabetIs(v);
    }
    if v < 26 {
      assert c == (65 + v) as char <==> c as int == 65 + v;
    } else if v < 32 {
      assert c == (24 + v) as char <==> c as int == 24 + v;
    }
  }

  // ---------------------------------------------------------------------------
  // Numbers as octets and quintets
  // ---------------------------------------------------------------------------

  predicate AreBytes(bytes: seq<nat>) {
    forall i | 0 <= i < |bytes| :: bytes[i] < 256
  }

  function Value256(ds: seq<nat>): nat {
    if ds == [] then 0 else 256 * Value256(ds[..|ds| - 1]) + ds[|ds| - 1]
  }

  function Value32(ds: seq<nat>): nat {
    if ds == [] then 0 else 32 * Value32(ds[..|ds| - 1]) + ds[|ds| - 1]
  }

  /** The last n octets of x, most significant first. */
  function Octets(x: int, n: nat): (ds: seq<nat>)
    ensures |ds| == n
    decreases n
  {
    if n == 0 then [] else Octets(x / 256, n - 1) + [x % 256]
  }

  function Quintets(x: int, n: nat): (ds: seq<nat>)
    ensures |ds| == n && forall i | 0 <= i < n :: ds[i] < 32
    decreases n
  {
    if n == 0 then [] else Quintets(x / 32, n - 1) + [x % 32]
  }

  lemma {:induction false} OctetsOfValue(bytes: seq<nat>)
    requires AreBytes(bytes)
    ensures Octets(Value256(bytes), |bytes|) == bytes
  {
    if bytes != [] {
      var rest, last := bytes[..|bytes| - 1], bytes[|bytes| - 1];
      OctetsOfValue(rest);
      Remainder256(Value256(bytes), Value256(rest), last);
      assert bytes == rest + [last];
    }
  }

  lemma {:induction false} OctetsAgree(x: int, y: int, n: nat)
    requires Agree(x, y, 8 * n)
    ensures Octets(x, n) == Octets(y, n)
    decreases n
  {
    if n > 0 {
      hide Agree;
      AgreeOnFewer(x, y, 8 * n, 8);
      AgreeByte(x, y);
      AgreeShifted(x, y, 8 * n, 8);
      ByteIs(x);
      ByteIs(y);
      OctetsAgree(x / 256, y / 256, n - 1);
    }
  }

  lemma {:induction false} ValueOfQuintets(x: int, n: nat)
    ensures Agree(Value32(Quintets(x, n)), x, 5 * n)
    decreases n
  {
    if n > 0 {
      var rest, q, r := Quintets(x / 32, n - 1), x / 32, x % 32;
      ValueOfQuintets(q, n - 1);
      assert Quintets(x, n)[..n - 1] == rest;
      var v := Value32(rest);
      assert Value32(Quintets(x, n)) == 32 * v + r && x == 32 * q + r;
      hide Agree, Value32, Quintets;
      AgreeAfterShl(v, q, 5 * (n - 1), 5);
      ShlQuintet(v);
      ShlQuintet(q);
      AgreeAfterAdding(32 * v, 32 * q, r, 5 * n);
    }
  }

  // ---------------------------------------------------------------------------
  // What the codec computes
  // ---------------------------------------------------------------------------

  function Text(ds: seq<nat>): (s: string)
    requires forall i | 0 <= i < |ds| :: ds[i] < 32
    ensures |s| == |ds| && forall i | 0 <= i < |s| :: s[i] == ALPHABET[ds[i]]
  {
    seq(|ds|, i requires 0 <= i < |ds| => ALPHABET[ds[i]])
  }

  function EncodedLength(m: nat): nat {
    (8 * m + 4) / 5
  }

  /** The bits as one number, filled up with zeros to whole quintets. */
  function Encoded(bytes: seq<nat>): string {
    var n := EncodedLength(|bytes|);
    Text(Quintets(Shl(Value256(bytes), 5 * n - 8 * |bytes|), n))
  }

  function IsSpace(c: char): bool {
    c in {'\t', '\n', '\U{000B}', '\U{000C}', '\r', ' ', '\U{00A0}', '\U{1680}', '\U{2028}', '\U{2029}', '\U{202F}',
          '\U{205F}', '\U{3000}', '\U{FEFF}'}
    || '\U{2000}' <= c <= '\U{200A}'
  }

  function StripSpaces(s: string): string {
    if s == "" then "" else (if IsSpace(s[0]) then "" else [s[0]]) + StripSpaces(s[1..])
  }

  /** Upper case, one character at a time; a character may become several. */
  function ToUpper(s: string, upper: char -> string): string {
    if s == "" then "" else upper(s[0]) + ToUpper(s[1..], upper)
  }

  function TrimPadding(s: string): string {
    if s != "" && s[|s| - 1] == '=' then TrimPadding(s[..|s| - 1]) else s
  }

  function FirstInvalid(s: string): Option<char> {
    if s == "" then None else if IndexOf(s[0]).None? then Some(s[0]) else FirstInvalid(s[1..])
  }

  lemma {:induction false} AllValid(s: string, i: nat)
    requires FirstInvalid(s).None? && i < |s|
    ensures IndexOf(s[i]).Some?
  {
    if i > 0 {
      AllValid(s[1..], i - 1);
    }
  }

  function Indexes(s: string): (ds: seq<nat>)
    requires FirstInvalid(s).None?
    ensures |ds| == |s| && forall i | 0 <= i < |ds| :: ds[i] < 32
  {
    if s == "" then [] else [IndexOf(s[0]).value] + Indexes(s[1..])
  }

  /** The quintets as one number, cut to whole octets. */
  function DecodedText(s: string): Result {
    var bad := FirstInvalid(s);
    if bad.Some? then Invalid(bad.value)
    else
      var n := |s|;
      var m := 5 * n / 8;
      Result.Decoded(Octets(Shr(Value32(Indexes(s)), 5 * n - 8 * m), m))
  }

  function Sanitized(input: string, upper: char -> string): string {
    TrimPadding(ToUpper(StripSpaces(input), upper))
  }

  function Groups(s: string): string
    decreases |s|
  {
    if |s| <= 4 then s else s[..4] + " " + Groups(s[4..])
  }

  /** A space after every fourth character, and none at the end. */
  lemma {:induction false} GroupsOfFour(s: string)
    ensures |Groups(s)| == |s| + (if |s| == 0 then 0 else (|s| - 1) / 4)
    ensures forall i | 0 <= i < |Groups(s)| ::
              i - i / 5 < |s| && Groups(s)[i] == if i % 5 == 4 then ' ' else s[i - i / 5]
    decreases |s|
  {
    if |s| > 4 {
      GroupsOfFour(s[4..]);
      var rest := Groups(s[4..]);
      forall i | 0 <= i < |Groups(s)|
        ensures i - i / 5 < |s| && Groups(s)[i] == if i % 5 == 4 then ' ' else s[i - i / 5]
      {
        if i >= 5 {
          assert Groups(s)[i] == rest[i - 5] && i / 5 == (i - 5) / 5 + 1 && i % 5 == (i - 5) % 5;
        }
      }
    }
  }

  function FormatSecretForDisplay(secret: string, upper: char -> string): string {
    Groups(ToUpper(StripSpaces(secret), upper))
  }

  // ---------------------------------------------------------------------------
  // The two loops
  // ---------------------------------------------------------------------------

  method Base32Encode(input: seq<nat>) returns (result: string)
    requires AreBytes(input)
    ensures result == Encoded(input)
  {
    hide Agree, Shr, Shl, ToInt32, Quintets, Value256, Text, Encoded;
    var ds: seq<nat> := [];
    var buffer: int, bitsLeft: nat := 0, 0;
    NothingEncoded(input);
    for i := 0 to |input|
      invariant 5 * |ds| + bitsLeft == 8 * i && bitsLeft < 5
      invariant Agree(buffer, Value256(input[..i]), 32)
      invariant ds == Quintets(Shr(Value256(input[..i]), bitsLeft), |ds|)
    {
      ghost var x := Value256(input[..i + 1]);
      ByteTaken(buffer, input, i, bitsLeft);
      buffer := ShiftIn(buffer, 8, input[i]);
      bitsLeft := bitsLeft + 8;
      while bitsLeft >= 5
        invariant 5 * |ds| + bitsLeft == 8 * (i + 1) && bitsLeft <= 12
        invariant ds == Quintets(Shr(x, bitsLeft), |ds|)
      {
        bitsLeft := bitsLeft - 5;
        QuintetGiven(buffer, x, bitsLeft, |ds|);
        ds := ds + [Shr(buffer, bitsLeft) % 32];
      }
    }
    assert input[..|input|] == input;
    ghost var whole := bitsLeft;
    ghost var before := ds;
    if bitsLeft > 0 {
      ds := ds + [ToInt32(Shl(buffer, 5 - bitsLeft)) % 32];
    }
    EverythingEncoded(input, before, buffer, whole);
    result := Text(ds);
  }

  lemma NothingEncoded(input: seq<nat>)
    ensures Agree(0, Value256(input[..0]), 32) && [] == Quintets(Shr(Value256(input[..0]), 0), 0)
  {
    AgreeSelf(0, 32);
  }

  lemma EverythingEncoded(input: seq<nat>, ds: seq<nat>, buffer: int, bitsLeft: nat)
    requires 5 * |ds| + bitsLeft == 8 * |input| && bitsLeft < 5
    requires Agree(buffer, Value256(input), 32) && ds == Quintets(Shr(Value256(input), bitsLeft), |ds|)
    ensures var last := if bitsLeft > 0 then [ToInt32(Shl(buffer, 5 - bitsLeft)) % 32] else [];
            && (forall i | 0 <= i < |ds + last| :: (ds + last)[i] < 32)
            && Text(ds + last) == Encoded(input)
  {
    hide Agree, ToInt32, Quintets, Value256, Text;
    var x := Value256(input);
    if bitsLeft > 0 {
      LastQuintet(buffer, x, bitsLeft, |ds|);
      assert EncodedLength(|input|) == |ds| + 1;
    } else {
      assert EncodedLength(|input|) == |ds|;
      assert Shl(x, 0) == x == Shr(x, 0);
      assert ds + [] == ds;
    }
  }

  lemma ByteTaken(buffer: int, input: seq<nat>, i: nat, bitsLeft: nat)
    requires AreBytes(input) && i < |input| && Agree(buffer, Value256(input[..i]), 32)
    ensures Agree(ShiftIn(buffer, 8, input[i]), Value256(input[..i + 1]), 32)
    ensures Shr(Value256(input[..i + 1]), bitsLeft + 8) == Shr(Value256(input[..i]), bitsLeft)
  {
    var before, x := Value256(input[..i]), Value256(input[..i + 1]);
    assert input[..i + 1][..i] == input[..i];
    assert x == 256 * before + input[i];
    hide Agree, Shr, Shl, ShiftIn, Value256;
    ShlByte(before);
    ShiftInAgrees(buffer, before, 8, input[i]);
    ShrAdds(x, 8, bitsLeft);
    ByteIs(x);
    Remainder256(x, before, input[i]);
  }

  lemma QuintetGiven(buffer: int, x: int, bitsLeft: nat, k: nat)
    requires Agree(buffer, x, 32) && bitsLeft <= 7
    ensures Quintets(Shr(x, bitsLeft), k + 1) == Quintets(Shr(x, bitsLeft + 5), k) + [Shr(buffer, bitsLeft) % 32]
  {
    hide Agree, Shr;
    AgreeShifted(buffer, x, 32, bitsLeft);
    AgreeOnFewer(Shr(buffer, bitsLeft), Shr(x, bitsLeft), 32 - bitsLeft, 5);
    AgreeQuintet(Shr(buffer, bitsLeft), Shr(x, bitsLeft));
    ShrAdds(x, bitsLeft, 5);
    QuintetIs(Shr(x, bitsLeft));
  }

  lemma LastQuintet(buffer: int, x: int, bitsLeft: nat, k: nat)
    requires Agree(buffer, x, 32) && 0 < bitsLeft < 5
    ensures var p := 5 - bitsLeft;
            Quintets(Shl(x, p), k + 1) == Quintets(Shr(x, bitsLeft), k) + [ToInt32(Shl(buffer, p)) % 32]
  {
    hide Agree, Shr, Shl, ToInt32;
    var p := 5 - bitsLeft;
    ShiftInAgrees(buffer, x, p, 0);
    AgreeOnFewer(ToInt32(Shl(buffer, p)), Shl(x, p), 32, 5);
    AgreeQuintet(ToInt32(Shl(buffer, p)), Shl(x, p));
    QuintetIs(Shl(x, p));
    ShrAdds(Shl(x, p), p, bitsLeft);
    ShlThenShr(x, p);
  }

  method Base32Decode(input: string, upper: char -> string) returns (result: Result)
    ensures result == DecodedText(Sanitized(input, upper))
  {
    var s := Sanitized(input, upper);
    var bad := FirstInvalid(s);
    if bad.Some? {
      return Invalid(bad.value);
    }
    var bytes := DecodeDigits(Indexes(s));
    result := Result.Decoded(bytes);
  }

  method DecodeDigits(values: seq<nat>) returns (bytes: seq<nat>)
    requires forall i | 0 <= i < |values| :: values[i] < 32
    ensures var m := 5 * |values| / 8;
            bytes == Octets(Shr(Value32(values), 5 * |values| - 8 * m), m)
  {
    hide Agree, Shr, Shl, ToInt32, Octets, Value32;
    var outputLength := |values| * 5 / 8;
    var output := new nat[outputLength];
    var buffer: int, bitsLeft: nat, outputIndex: nat := 0, 0, 0;
    NothingDecoded(values);
    for i := 0 to |values|
      invariant 8 * outputIndex + bitsLeft == 5 * i && bitsLeft < 8
      invariant outputIndex <= outputLength
      invariant Agree(buffer, Value32(values[..i]), 32)
      invariant output[..outputIndex] == Octets(Shr(Value32(values[..i]), bitsLeft), outputIndex)
    {
      QuintetTaken(buffer, values, i, bitsLeft);
      buffer := ShiftIn(buffer, 5, values[i]);
      bitsLeft := bitsLeft + 5;
      if bitsLeft >= 8 {
        bitsLeft := bitsLeft - 8;
        OctetGiven(buffer, Value32(values[..i + 1]), bitsLeft, outputIndex);
        output[outputIndex] := Shr(buffer, bitsLeft) % 256;
        outputIndex := outputIndex + 1;
        assert output[..outputIndex] == output[..outputIndex - 1] + [Shr(buffer, bitsLeft) % 256];
      }
    }
    assert values[..|values|] == values;
    assert output[..outputIndex] == output[..];
    bytes := output[..];
  }

  lemma NothingDecoded(values: seq<nat>)
    ensures Agree(0, Value32(values[..0]), 32) && [] == Octets(Shr(Value32(values[..0]), 0), 0)
  {
    AgreeSelf(0, 32);
  }

  lemma QuintetTaken(buffer: int, values: seq<nat>, i: nat, bitsLeft: nat)
    requires i < |values| && values[i] < 32 && Agree(buffer, Value32(values[..i]), 32)
    ensures Agree(ShiftIn(buffer, 5, values[i]), Value32(values[..i + 1]), 32)
    ensures Shr(Value32(values[..i + 1]), bitsLeft + 5) == Shr(Value32(values[..i]), bitsLeft)
  {
    var before, x := Value32(values[..i]), Value32(values[..i + 1]);
    assert values[..i + 1][..i] == values[..i];
    assert x == 32 * before + values[i];
    hide Agree, Shr, Shl, ShiftIn, Value32;
    ShlQuintet(before);
    ShiftInAgrees(buffer, before, 5, values[i]);
    ShrAdds(x, 5, bitsLeft);
    QuintetIs(x);
    Remainder32(x, before, values[i]);
  }

  lemma OctetGiven(buffer: int, x: int, bitsLeft: nat, k: nat)
    requires Agree(buffer, x, 32) && bitsLeft <= 7
    ensures Octets(Shr(x, bitsLeft), k + 1) == Octets(Shr(x, bitsLeft + 8), k) + [Shr(buffer, bitsLeft) % 256]
  {
    hide Agree, Shr;
    AgreeShifted(buffer, x, 32, bitsLeft);
    AgreeOnFewer(Shr(buffer, bitsLeft), Shr(x, bitsLeft), 32 - bitsLeft, 8);
    AgreeByte(Shr(buffer, bitsLeft), Shr(x, bitsLeft));
    ShrAdds(x, bitsLeft, 8);
    ByteIs(Shr(x, bitsLeft));
  }

  // ---------------------------------------------------------------------------
  // Main results
  // ---------------------------------------------------------------------------

  /** A text of alphabet characters. */
  lemma {:induction false} IndexesOfText(ds: seq<nat>)
    requires forall i | 0 <= i < |ds| :: ds[i] < 32
    ensures FirstInvalid(Text(ds)).None? && Indexes(Text(ds)) == ds
  {
    if ds != [] {
      AlphabetIs(ds[0]);
      assert Text(ds)[1..] == Text(ds[1..]);
      IndexesOfText(ds[1..]);
      assert ds == [ds[0]] + ds[1..];
    }
  }

  /** Cutting the padded number back to octets gives back the bytes. */
  lemma SameOctets(bytes: seq<nat>, p: nat, n: nat)
    requires AreBytes(bytes) && 8 * |bytes| + p == 5 * n
    ensures Octets(Shr(Value32(Quintets(Shl(Value256(bytes), p), n)), p), |bytes|) == bytes
  {
    hide Agree, Shr, Shl, Octets, Quintets, Value256, Value32, AreBytes;
    var x := Value256(bytes);
    var y := Value32(Quintets(Shl(x, p), n));
    ValueOfQuintets(Shl(x, p), n);
    AgreeShifted(y, Shl(x, p), 5 * n, p);
    ShlThenShr(x, p);
    OctetsAgree(Shr(y, p), x, |bytes|);
    OctetsOfValue(bytes);
  }

  lemma DecodedTextIs(ds: seq<nat>)
    requires forall i | 0 <= i < |ds| :: ds[i] < 32
    ensures var m := 5 * |ds| / 8;
            DecodedText(Text(ds)) == Result.Decoded(Octets(Shr(Value32(ds), 5 * |ds| - 8 * m), m))
  {
    hide Shr, Octets, Value32, Indexes, FirstInvalid, Text;
    IndexesOfText(ds);
  }

  /** Decoding the digits of an encoding gives back the bytes. */
  lemma DecodesDigits(bytes: seq<nat>)
    requires AreBytes(bytes)
    ensures DecodedText(Encoded(bytes)) == Result.Decoded(bytes)
  {
    hide Shr, Shl, Octets, Quintets, Value256, Value32, AreBytes, DecodedText, Text;
    var m, n, x := |bytes|, EncodedLength(|bytes|), Value256(bytes);
    var p := 5 * n - 8 * m;
    assert 5 * n / 8 == m;
    DecodedTextIs(Quintets(Shl(x, p), n));
    SameOctets(bytes, p, n);
  }

  /** How a case mapping behaves: ASCII letters are mapped, other ASCII stays, and upper case is final. */
  ghost predicate UpperCases(upper: char -> string) {
    && (forall c | IndexOf(c).Some? :: upper(c) == [c])
    && upper('=') == "="
    && (forall c, i | 0 <= i < |upper(c)| :: upper(upper(c)[i]) == [upper(c)[i]])
    && (forall c, i | !IsSpace(c) && 0 <= i < |upper(c)| :: !IsSpace(upper(c)[i]))
  }

  function AsciiUpper(c: char): string {
    if 'a' <= c <= 'z' then [c - ' '] else [c]
  }

  ghost predicate MapsLetters(upper: char -> string) {
    forall c | 'a' <= c <= 'z' :: upper(c) == [c - ' ']
  }

  /** There is such a mapping: that of the ASCII letters alone. */
  lemma AsciiUpperCases()
    ensures UpperCases(AsciiUpper) && MapsLetters(AsciiUpper)
  {
  }

  /** White space is what section 22.2 of the ECMAScript Language Specification says of the class s. */
  lemma SpacesAre(c: char)
    ensures IsSpace(c)
       <==> || 0x09 <= c as int <= 0x0D || 0x2000 <= c as int <= 0x200A
            || c as int in {0x20, 0xA0, 0x1680, 0x2028, 0x2029, 0x202F, 0x205F, 0x3000, 0xFEFF}
  {
    assert c == (c as int) as char;
  }

  // ---------------------------------------------------------------------------
  // Spellings
  // ---------------------------------------------------------------------------

  /** text is s with white space anywhere, letters in either case and padding behind. */
  predicate Spells(text: string, s: string) {
    if text == "" then s == ""
    else if IsSpace(text[0]) then Spells(text[1..], s)
    else if text[0] == '=' then s == "" && Spells(text[1..], "")
    else s != "" && SameLetter(text[0], s[0]) && Spells(text[1..], s[1..])
  }

  predicate SameLetter(c: char, letter: char) {
    c == letter || ('a' <= c <= 'z' && c - ' ' == letter)
  }

  function Padding(n: nat): string {
    if n == 0 then "" else Padding(n - 1) + "="
  }

  lemma {:induction false} PaddingInFront(n: nat)
    ensures "=" + Padding(n) == Padding(n + 1)
  {
    if n > 0 {
      PaddingInFront(n - 1);
      assert "=" + (Padding(n - 1) + "=") == ("=" + Padding(n - 1)) + "=";
    }
  }

  lemma {:induction false} TrimmedPadding(s: string, n: nat)
    requires s != "" ==> s[|s| - 1] != '='
    ensures TrimPadding(s + Padding(n)) == s
  {
    if n == 0 {
      assert s + "" == s;
    } else {
      assert (s + Padding(n))[..|s + Padding(n)| - 1] == s + Padding(n - 1);
      TrimmedPadding(s, n - 1);
    }
  }

  /** Without white space and in upper case a spelling is the text it spells, with padding. */
  lemma {:induction false} Unspelled(text: string, s: string, upper: char -> string) returns (n: nat)
    requires UpperCases(upper) && MapsLetters(upper) && Spells(text, s) && FirstInvalid(s).None?
    ensures ToUpper(StripSpaces(text), upper) == s + Padding(n)
  {
    if text == "" {
      n := 0;
      assert s + "" == s;
    } else {
      var c, rest := text[0], StripSpaces(text[1..]);
      if IsSpace(c) {
        n := Unspelled(text[1..], s, upper);
        assert StripSpaces(text) == "" + rest == rest;
      } else if c == '=' {
        n := Unspelled(text[1..], "", upper);
        UpperOfCons(c, rest, upper);
        PaddingInFront(n);
        assert "" + Padding(n) == Padding(n) && "" + Padding(n + 1) == Padding(n + 1);
        n := n + 1;
      } else {
        n := Unspelled(text[1..], s[1..], upper);
        UpperOfCons(c, rest, upper);
        AllValid(s, 0);
        assert s == [s[0]] + s[1..] && upper(c) == [s[0]];
        assert [s[0]] + (s[1..] + Padding(n)) == s + Padding(n);
      }
    }
  }

  lemma UpperOfCons(c: char, rest: string, upper: char -> string)
    ensures ToUpper([c] + rest, upper) == upper(c) + ToUpper(rest, upper)
  {
    assert ([c] + rest)[1..] == rest;
  }

  /** However a secret is written out, it decodes to the bytes it encodes. */
  lemma AnySpellingDecodes(bytes: seq<nat>, text: string, upper: char -> string)
    requires AreBytes(bytes) && UpperCases(upper) && MapsLetters(upper) && Spells(text, Encoded(bytes))
    ensures DecodedText(Sanitized(text, upper)) == Result.Decoded(bytes)
  {
    var s := Encoded(bytes);
    hide Encoded, StripSpaces, ToUpper, TrimPadding, DecodedText, AreBytes, UpperCases, MapsLetters, Spells;
    EncodedIsValid(bytes);
    RoundTrip(bytes, upper);
    AlphabetIsClean(s, upper);
    var n := Unspelled(text, s, upper);
    if s != "" {
      AllValid(s, |s| - 1);
    }
    TrimmedPadding(s, n);
  }

  /** Sanitising does nothing to alphabet characters. */
  lemma {:induction false} AlphabetIsClean(s: string, upper: char -> string)
    requires UpperCases(upper) && FirstInvalid(s).None?
    ensures StripSpaces(s) == s && ToUpper(s, upper) == s && TrimPadding(s) == s
  {
    if s != "" {
      AlphabetIsClean(s[1..], upper);
      AllValid(s, |s| - 1);
    }
  }

  /** For every byte sequence, decoding its encoding gives it back. */
  lemma RoundTrip(bytes: seq<nat>, upper: char -> string)
    requires AreBytes(bytes) && UpperCases(upper)
    ensures DecodedText(Sanitized(Encoded(bytes), upper)) == Result.Decoded(bytes)
  {
    hide Encoded, FirstInvalid, StripSpaces, ToUpper, TrimPadding, DecodedText, AreBytes, UpperCases;
    EncodedIsValid(bytes);
    AlphabetIsClean(Encoded(bytes), upper);
    DecodesDigits(bytes);
  }

  lemma EncodedIsValid(bytes: seq<nat>)
    ensures FirstInvalid(Encoded(bytes)).None?
  {
    hide FirstInvalid, Shl, Quintets, Value256, Text;
    var n := EncodedLength(|bytes|);
    IndexesOfText(Quintets(Shl(Value256(bytes), 5 * n - 8 * |bytes|), n));
  }

  /** Decoding fills exactly floor(5n/8) bytes, each below 256. */
  lemma DecodedSize(s: string)
    requires FirstInvalid(s).None?
    ensures DecodedText(s).Decoded? && |DecodedText(s).bytes| == 5 * |s| / 8 && AreBytes(DecodedText(s).bytes)
  {
    OctetsAreBytes(Shr(Value32(Indexes(s)), 5 * |s| - 8 * (5 * |s| / 8)), 5 * |s| / 8);
  }

  lemma {:induction false} OctetsAreBytes(x: int, n: nat)
    ensures AreBytes(Octets(x, n))
    decreases n
  {
    if n > 0 {
      OctetsAreBytes(x / 256, n - 1);
    }
  }

  predicate NoSpaces(s: string) {
    forall i | 0 <= i < |s| :: !IsSpace(s[i])
  }

  lemma {:induction false} StripConcat(a: string, b: string)
    ensures StripSpaces(a + b) == StripSpaces(a) + StripSpaces(b)
  {
    if a == "" {
      assert a + b == b;
    } else {
      assert (a + b)[1..] == a[1..] + b;
      StripConcat(a[1..], b);
    }
  }

  lemma {:induction false} StripNothing(s: string)
    requires NoSpaces(s)
    ensures StripSpaces(s) == s
  {
    if s != "" {
      StripNothing(s[1..]);
    }
  }

  lemma {:induction false} StrippedHasNone(s: string)
    ensures NoSpaces(StripSpaces(s))
  {
    if s != "" {
      StrippedHasNone(s[1..]);
    }
  }

  /** Taking the spaces out of the groups gives the ungrouped text back. */
  lemma {:induction false} UngroupedIs(s: string)
    requires NoSpaces(s)
    ensures StripSpaces(Groups(s)) == s
    decreases |s|
  {
    if |s| <= 4 {
      StripNothing(s);
    } else {
      StripConcat(s[..4] + " ", Groups(s[4..]));
      StripConcat(s[..4], " ");
      StripNothing(s[..4]);
      UngroupedIs(s[4..]);
      assert StripSpaces(" ") == "";
      assert s == s[..4] + s[4..];
    }
  }

  /** Upper-cased text without spaces stays as it is. */
  lemma {:induction false} UpperIsFinal(s: string, upper: char -> string)
    requires UpperCases(upper) && NoSpaces(s)
    ensures NoSpaces(ToUpper(s, upper)) && ToUpper(ToUpper(s, upper), upper) == ToUpper(s, upper)
  {
    if s != "" {
      UpperIsFinal(s[1..], upper);
      UpperConcat(upper(s[0]), ToUpper(s[1..], upper), upper);
      AllFinal(upper(s[0]), upper);
    }
  }

  lemma {:induction false} UpperConcat(a: string, b: string, upper: char -> string)
    ensures ToUpper(a + b, upper) == ToUpper(a, upper) + ToUpper(b, upper)
  {
    if a == "" {
      assert a + b == b;
    } else {
      assert (a + b)[1..] == a[1..] + b;
      UpperConcat(a[1..], b, upper);
    }
  }

  lemma {:induction false} AllFinal(s: string, upper: char -> string)
    requires forall i | 0 <= i < |s| :: upper(s[i]) == [s[i]]
    ensures ToUpper(s, upper) == s
  {
    if s != "" {
      AllFinal(s[1..], upper);
    }
  }

  /** Showing a secret in groups does not change what it decodes to, valid or not. */
  lemma FormattingKeepsMeaning(secret: string, upper: char -> string)
    requires UpperCases(upper)
    ensures Sanitized(FormatSecretForDisplay(secret, upper), upper) == Sanitized(secret, upper)
    ensures DecodedText(Sanitized(FormatSecretForDisplay(secret, upper), upper))
         == DecodedText(Sanitized(secret, upper))
  {
    var stripped := StripSpaces(secret);
    StrippedHasNone(secret);
    UpperIsFinal(stripped, upper);
    UngroupedIs(ToUpper(stripped, upper));
  }
}
