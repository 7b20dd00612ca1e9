/**
 base64url as the auth and analysis Workers write it (section 5 of RFC 4648): the platform's
 `btoa` with '+', '/' and padding rewritten, and three decoders over the platform's `atob`, which
 differ in what they check and in whether they pad.
 */
module Base64Url {
  import opened Wrappers

  type Byte = x: int | 0 <= x < 256

  type Sextet = x: int | 0 <= x < 64

  // ---------- bits ----------

  function Hi(a: Byte): Sextet { a / 4 }
  function HiMid(a: Byte, b: Byte): Sextet { a % 4 * 16 + b / 16 }
  function MidLo(b: Byte, c: Byte): Sextet { b % 16 * 4 + c / 64 }
  function Lo(c: Byte): Sextet { c % 64 }

  function First(p: Sextet, q: Sextet): Byte { p * 4 + q / 16 }
  function Second(q: Sextet, r: Sextet): Byte { q % 16 * 16 + r / 4 }
  function Third(r: Sextet, s: Sextet): Byte { r % 4 * 64 + s }

  /** The 6-bit groups of some bytes; the bits left over in the last group are zero. */
  function Sextets(b: seq<Byte>): (s: seq<Sextet>)
    ensures |s| % 4 != 1
  {
    if |b| == 0 then []
    else if |b| == 1 then [Hi(b[0]), HiMid(b[0], 0)]
    else if |b| == 2 then [Hi(b[0]), HiMid(b[0], b[1]), MidLo(b[1], 0)]
    else [Hi(b[0]), HiMid(b[0], b[1]), MidLo(b[1], b[2]), Lo(b[2])] + Sextets(b[3..])
  }

  /** The whole bytes in some 6-bit groups; bits left over are dropped. */
  function Octets(s: seq<Sextet>): (b: seq<Byte>)
    requires |s| % 4 != 1
  {
    if |s| == 0 then []
    else if |s| == 2 then [First(s[0], s[1])]
    else if |s| == 3 then [First(s[0], s[1]), Second(s[1], s[2])]
    else [First(s[0], s[1]), Second(s[1], s[2]), Third(s[2], s[3])] + Octets(s[4..])
  }

  /** The bits of the last group that no byte uses are zero. */
  predicate UnusedBitsZero(s: seq<Sextet>) {
    && (|s| % 4 == 2 ==> s[|s| - 1] % 16 == 0)
    && (|s| % 4 == 3 ==> s[|s| - 1] % 4 == 0)
  }

  lemma ByteBits(a: Byte, b: Byte, c: Byte)
    ensures First(Hi(a), HiMid(a, b)) == a
    ensures Second(HiMid(a, b), MidLo(b, c)) == b
    ensures Third(MidLo(b, c), Lo(c)) == c
    ensures HiMid(a, 0) % 16 == 0 && MidLo(b, 0) % 4 == 0
  {}

  lemma GroupBits(p: Sextet, q: Sextet, r: Sextet, s: Sextet)
    ensures Hi(First(p, q)) == p
    ensures HiMid(First(p, q), Second(q, r)) == q
    ensures MidLo(Second(q, r), Third(r, s)) == r
    ensures Lo(Third(r, s)) == s
    ensures HiMid(First(p, q), 0) == q <==> q % 16 == 0
    ensures MidLo(Second(q, r), 0) == r <==> r % 4 == 0
  {}

  lemma ShortGroups(p: Sextet, q: Sextet, r: Sextet)
    ensures Octets([p, q]) == [First(p, q)]
    ensures Octets([p, q, r]) == [First(p, q), Second(q, r)]
    ensures UnusedBitsZero([p, q]) <==> q % 16 == 0
    ensures UnusedBitsZero([p, q, r]) <==> r % 4 == 0
  {}

  lemma TailReads(a: Byte, b: Byte)
    ensures Octets([Hi(a), HiMid(a, 0)]) == [a] && UnusedBitsZero([Hi(a), HiMid(a, 0)])
    ensures Octets([Hi(a), HiMid(a, b), MidLo(b, 0)]) == [a, b] && UnusedBitsZero([Hi(a), HiMid(a, b), MidLo(b, 0)])
  {
    var none: Byte := 0;
    ShortGroups(Hi(a), HiMid(a, none), 0);
    ByteBits(a, none, none);
    ShortGroups(Hi(a), HiMid(a, b), MidLo(b, none));
    ByteBits(a, b, none);
  }

  lemma WholeGroup(p: Sextet, q: Sextet, r: Sextet, t: Sextet, rest: seq<Sextet>)
    requires |rest| % 4 != 1
    ensures var s := [p, q, r, t] + rest;
      && |s| % 4 == |rest| % 4
      && Octets(s) == [First(p, q), Second(q, r), Third(r, t)] + Octets(rest)
      && (UnusedBitsZero(s) <==> UnusedBitsZero(rest))
  {
    var s := [p, q, r, t] + rest;
    assert s[4..] == rest;
    LastOfTail(s);
  }

  lemma GroupReads(a: Byte, b: Byte, c: Byte, rest: seq<Sextet>)
    requires |rest| % 4 != 1
    ensures var s := [Hi(a), HiMid(a, b), MidLo(b, c), Lo(c)] + rest;
      && |s| % 4 == |rest| % 4
      && Octets(s) == [a, b, c] + Octets(rest)
      && (UnusedBitsZero(s) <==> UnusedBitsZero(rest))
  {
    var p, q, r, t := Hi(a), HiMid(a, b), MidLo(b, c), Lo(c);
    ByteBits(a, b, c);
    WholeGroup(p, q, r, t, rest);
  }

  lemma {:induction false} OctetsOfSextets(b: seq<Byte>)
    ensures Octets(Sextets(b)) == b
    ensures UnusedBitsZero(Sextets(b))
  {
    if |b| == 0 {
    } else if |b| == 1 {
      TailReads(b[0], 0);
      assert b == [b[0]];
    } else if |b| == 2 {
      TailReads(b[0], b[1]);
      assert b == [b[0], b[1]];
    } else {
      OctetsOfSextets(b[3..]);
      GroupReads(b[0], b[1], b[2], Sextets(b[3..]));
      assert b == [b[0], b[1], b[2]] + b[3..];
    }
  }

  lemma LastOfTail(s: seq<Sextet>)
    requires |s| >= 4
    ensures UnusedBitsZero(s) <==> UnusedBitsZero(s[4..])
  {
    if |s| > 4 {
      assert s[4..][|s[4..]| - 1] == s[|s| - 1];
    }
  }

  lemma {:induction false} SextetsOfOctets(s: seq<Sextet>)
    requires |s| % 4 != 1
    ensures Sextets(Octets(s)) == s <==> UnusedBitsZero(s)
  {
    if |s| == 0 {
    } else if |s| == 2 {
      GroupBits(s[0], s[1], 0, 0);
      assert s == [s[0], s[1]];
    } else if |s| == 3 {
      GroupBits(s[0], s[1], s[2], 0);
      assert s == [s[0], s[1], s[2]];
    } else {
      GroupBits(s[0], s[1], s[2], s[3]);
      SextetsOfOctets(s[4..]);
      LastOfTail(s);
      var b := Octets(s);
      assert b[3..] == Octets(s[4..]);
      assert Sextets(b) == [s[0], s[1], s[2], s[3]] + Sextets(Octets(s[4..]));
      assert s == [s[0], s[1], s[2], s[3]] + s[4..];
    }
  }

  // ---------- characters ----------

  function CharOf(x: Sextet): char {
    if x < 26 then ('A' as int + x) as char
    else if x < 52 then ('a' as int + x - 26) as char
    else if x < 62 then ('0' as int + x - 52) as char
    else if x == 62 then '+'
    else '/'
  }

  function ValueOf(c: char): Option<Sextet> {
    if 'A' <= c <= 'Z' then Some(c as int - 'A' as int)
    else if 'a' <= c <= 'z' then Some(c as int - 'a' as int + 26)
    else if '0' <= c <= '9' then Some(c as int - '0' as int + 52)
    else if c == '+' then Some(62)
    else if c == '/' then Some(63)
    else None
  }

  function Url(c: char): char {
    if c == '+' then '-' else if c == '/' then '_' else c
  }

  function Standard(c: char): char {
    if c == '-' then '+' else if c == '_' then '/' else c
  }

  /** `[A-Za-z0-9_-]`. */
  predicate UrlChar(c: char) {
    'A' <= c <= 'Z' || 'a' <= c <= 'z' || '0' <= c <= '9' || c == '_' || c == '-'
  }

  lemma CharsMatch(x: Sextet, c: char)
    ensures ValueOf(CharOf(x)) == Some(x)
    ensures ValueOf(c).Some? ==> CharOf(ValueOf(c).value) == c
    ensures UrlChar(Url(CharOf(x))) && Standard(Url(CharOf(x))) == CharOf(x)
    ensures UrlChar(c) ==> ValueOf(Standard(c)).Some? && Url(Standard(c)) == c
  {}

  function Chars(s: seq<Sextet>): string {
    seq(|s|, i requires 0 <= i < |s| => CharOf(s[i]))
  }

  function ToUrl(text: string): string {
    seq(|text|, i requires 0 <= i < |text| => Url(text[i]))
  }

  function FromUrl(text: string): string {
    seq(|text|, i requires 0 <= i < |text| => Standard(text[i]))
  }

  function Values(text: string): seq<Sextet>
    requires forall i :: 0 <= i < |text| ==> ValueOf(text[i]).Some?
  {
    seq(|text|, i requires 0 <= i < |text| => ValueOf(text[i]).value)
  }

  // ---------- the platform ----------

  function Repeat(c: char, n: nat): string {
    seq(n, _ => c)
  }

  function Latin1(b: seq<Byte>): string {
    seq(|b|, i requires 0 <= i < |b| => b[i] as char)
  }

  predicate IsLatin1(text: string) {
    forall i :: 0 <= i < |text| ==> text[i] as int < 256
  }

  function CodesOf(text: string): seq<Byte>
    requires IsLatin1(text)
  {
    seq(|text|, i requires 0 <= i < |text| => text[i] as int)
  }

  /** How many characters fill `n` up to a multiple of four. */
  function PadLength(n: nat): nat {
    (4 - n % 4) % 4
  }

  /** `btoa`: standard alphabet, padded to a multiple of four. */
  function Btoa(binary: string): string
    requires IsLatin1(binary)
  {
    var s := Sextets(CodesOf(binary));
    Chars(s) + Repeat('=', PadLength(|s|))
  }

  predicate Whitespace(c: char) {
    c == ' ' || c == '\t' || c == '\n' || c == '\r' || c as int == 12
  }

  function WithoutWhitespace(text: string): string {
    if text == "" then ""
    else (if Whitespace(text[0]) then [] else [text[0]]) + WithoutWhitespace(text[1..])
  }

  function WithoutPadding(text: string): string {
    if |text| % 4 != 0 || |text| == 0 || text[|text| - 1] != '=' then text
    else if text[|text| - 2] == '=' then text[..|text| - 2]
    else text[..|text| - 1]
  }

  /** `atob`, the forgiving decoding: no whitespace, at most two '=' to fill a group, no lone character. */
  function Atob(text: string): Option<string> {
    var t := WithoutPadding(WithoutWhitespace(text));
    if |t| % 4 == 1 || exists i :: 0 <= i < |t| && ValueOf(t[i]).None? then None
    else Some(Latin1(Octets(Values(t))))
  }

  // ---------- the encoder and the decoders ----------

  function StripPadding(text: string): string {
    if text != "" && text[|text| - 1] == '=' then StripPadding(text[..|text| - 1]) else text
  }

  function Encode(b: seq<Byte>): string {
    StripPadding(ToUrl(Btoa(Latin1(b))))
  }

  function PadEnd(text: string): string {
    text + Repeat('=', PadLength(|text|))
  }

  function BinaryBytes(binary: Option<string>): Option<seq<Byte>> {
    if binary.Some? && IsLatin1(binary.value) then Some(CodesOf(binary.value)) else None
  }

  /** The decoder of JWT segments and assertions: the alphabet is checked first. */
  function DecodeStrict(input: string): Option<seq<Byte>> {
    if input == "" || (exists i :: 0 <= i < |input| && !UrlChar(input[i])) || |input| % 4 == 1 then None
    else BinaryBytes(Atob(PadEnd(FromUrl(input))))
  }

  /** The decoder of device grants and privacy cursors: padded, unchecked. */
  function DecodePadded(input: string): Option<seq<Byte>> {
    BinaryBytes(Atob(PadEnd(FromUrl(input))))
  }

  /** The decoder of audit cursors: neither checked nor padded. */
  function DecodeUnpadded(input: string): Option<seq<Byte>> {
    BinaryBytes(Atob(FromUrl(input)))
  }

  method BytesToBase64Url(bytes: seq<Byte>) returns (r: string)
    ensures r == Encode(bytes)
  {
    var binary := "";
    for i := 0 to |bytes|
      invariant binary == Latin1(bytes[..i])
    {
      binary := binary + [bytes[i] as char];
    }
    assert bytes[..|bytes|] == bytes;
    r := StripPadding(ToUrl(Btoa(binary)));
  }

  /** Fills a fresh byte array, one character code at a time. */
  method Base64UrlToBytes(input: string) returns (out: Option<array<Byte>>)
    ensures out.Some? <==> DecodeStrict(input).Some?
    ensures out.Some? ==> fresh(out.value) && out.value[..] == DecodeStrict(input).value
  {
    if input == "" || (exists i :: 0 <= i < |input| && !UrlChar(input[i])) || |input| % 4 == 1 {
      return None;
    }
    var padded := PadEnd(FromUrl(input));
    var binary := Atob(padded);
    if binary.None? || !IsLatin1(binary.value) {
      return None;
    }
    var text := binary.value;
    var bytes := new Byte[|text|];
    for i := 0 to |text|
      invariant bytes[..i] == CodesOf(text)[..i]
    {
      bytes[i] := text[i] as int;
      assert bytes[..i + 1] == bytes[..i] + [text[i] as int];
    }
    assert bytes[..] == bytes[..|text|] == CodesOf(text);
    return Some(bytes);
  }

  // ---------- what the platform does to alphabet text ----------

  function Text(s: seq<Sextet>): string {
    ToUrl(Chars(s))
  }

  predicate AllUrl(text: string) {
    forall i :: 0 <= i < |text| ==> UrlChar(text[i])
  }

  /** The 6-bit groups a base64url text spells. */
  function GroupsOf(text: string): seq<Sextet>
    requires AllUrl(text)
  {
    seq(|text|, i requires 0 <= i < |text| => (CharsMatch(0, text[i]); ValueOf(Standard(text[i])).value))
  }

  lemma TextGroups(s: seq<Sextet>)
    ensures AllUrl(Text(s)) && GroupsOf(Text(s)) == s
  {
    forall i | 0 <= i < |s| ensures UrlChar(Text(s)[i]) && ValueOf(Standard(Text(s)[i])) == Some(s[i]) {
      CharsMatch(s[i], 'A');
    }
  }

  lemma GroupsText(text: string)
    requires AllUrl(text)
    ensures Text(GroupsOf(text)) == text
  {
    forall i | 0 <= i < |text| ensures Text(GroupsOf(text))[i] == text[i] {
      CharsMatch(0, text[i]);
      CharsMatch(0, Standard(text[i]));
    }
  }

  lemma {:induction false} StripAll(text: string, n: nat)
    requires text == "" || text[|text| - 1] != '='
    ensures StripPadding(text + Repeat('=', n)) == text
    decreases n
  {
    if n == 0 {
      assert text + Repeat('=', 0) == text;
    } else {
      var t := text + Repeat('=', n);
      assert t[..|t| - 1] == text + Repeat('=', n - 1);
      StripAll(text, n - 1);
    }
  }

  lemma Latin1Codes(b: seq<Byte>)
    ensures IsLatin1(Latin1(b)) && CodesOf(Latin1(b)) == b
  {}

  lemma ToUrlPads(s: seq<Sextet>, pad: nat)
    ensures ToUrl(Chars(s) + Repeat('=', pad)) == Text(s) + Repeat('=', pad)
  {}

  lemma TextHasNoPadding(s: seq<Sextet>)
    ensures Text(s) == "" || Text(s)[|Text(s)| - 1] != '='
  {
    if s != [] {
      CharsMatch(s[|s| - 1], 'A');
    }
  }

  lemma BtoaOf(b: seq<Byte>)
    ensures IsLatin1(Latin1(b))
    ensures Btoa(Latin1(b)) == Chars(Sextets(b)) + Repeat('=', PadLength(|Sextets(b)|))
  {
    Latin1Codes(b);
  }

  /** The encoder writes the 6-bit groups in the URL alphabet and nothing else. */
  lemma EncodeIsText(b: seq<Byte>)
    ensures Encode(b) == Text(Sextets(b))
  {
    BtoaOf(b);
    ToUrlPads(Sextets(b), PadLength(|Sextets(b)|));
    TextHasNoPadding(Sextets(b));
    StripAll(Text(Sextets(b)), PadLength(|Sextets(b)|));
  }

  lemma {:induction false} NoWhitespace(text: string)
    requires forall i :: 0 <= i < |text| ==> !Whitespace(text[i])
    ensures WithoutWhitespace(text) == text
  {
    if text != "" {
      assert forall i :: 0 <= i < |text[1..]| ==> !Whitespace(text[1..][i]);
      NoWhitespace(text[1..]);
    }
  }

  predicate Standard64(text: string) {
    forall i :: 0 <= i < |text| ==> ValueOf(text[i]).Some?
  }

  lemma StandardCharIsPlain(c: char)
    requires ValueOf(c).Some?
    ensures c != '=' && !Whitespace(c)
  {}

  lemma PaddingComesOff(text: string, pad: nat)
    requires |text| % 4 != 1
    requires pad == 0 || pad == PadLength(|text|)
    requires |text| > 0 ==> text[|text| - 1] != '='
    ensures WithoutPadding(text + Repeat('=', pad)) == text
  {
    var padded := text + Repeat('=', pad);
    assert padded[..|text|] == text;
    if pad > 0 {
      assert pad == 1 || pad == 2;
      assert padded[|padded| - 1] == '=';
    } else {
      assert padded == text;
    }
  }

  lemma UnpadsTo(text: string, pad: nat)
    requires Standard64(text) && |text| % 4 != 1
    requires pad == 0 || pad == PadLength(|text|)
    ensures WithoutPadding(WithoutWhitespace(text + Repeat('=', pad))) == text
  {
    var padded := text + Repeat('=', pad);
    forall i | 0 <= i < |padded| ensures !Whitespace(padded[i]) {
      if i < |text| {
        StandardCharIsPlain(text[i]);
      }
    }
    NoWhitespace(padded);
    if |text| > 0 {
      StandardCharIsPlain(text[|text| - 1]);
    }
    PaddingComesOff(text, pad);
  }

  lemma StandardOfUrl(text: string)
    requires AllUrl(text)
    ensures Standard64(FromUrl(text)) && Values(FromUrl(text)) == GroupsOf(text)
  {
    forall i | 0 <= i < |text| ensures ValueOf(FromUrl(text)[i]) == Some(GroupsOf(text)[i]) {
      CharsMatch(0, text[i]);
    }
  }

  /** `atob` on alphabet text, padded or not, is the whole bytes it spells. */
  lemma AtobOfUrl(text: string, pad: nat)
    requires AllUrl(text) && |text| % 4 != 1
    requires pad == 0 || pad == PadLength(|text|)
    ensures Atob(FromUrl(text) + Repeat('=', pad)) == Some(Latin1(Octets(GroupsOf(text))))
  {
    StandardOfUrl(text);
    UnpadsTo(FromUrl(text), pad);
  }

  lemma DecodersOnUrl(text: string)
    requires AllUrl(text) && |text| % 4 != 1
    ensures DecodePadded(text) == Some(Octets(GroupsOf(text)))
    ensures DecodeUnpadded(text) == Some(Octets(GroupsOf(text)))
    ensures text != "" ==> DecodeStrict(text) == Some(Octets(GroupsOf(text)))
  {
    AtobOfUrl(text, PadLength(|text|));
    AtobOfUrl(text, 0);
    assert FromUrl(text) + Repeat('=', 0) == FromUrl(text);
    Latin1Codes(Octets(GroupsOf(text)));
  }

  // ---------- main results ----------

  /** Every decoder gives back what was encoded; only the strict one refuses the text of no bytes. */
  lemma DecodeInvertsEncode(b: seq<Byte>)
    ensures DecodePadded(Encode(b)) == Some(b)
    ensures DecodeUnpadded(Encode(b)) == Some(b)
    ensures DecodeStrict(Encode(b)) == if b == [] then None else Some(b)
  {
    EncodeIsText(b);
    TextGroups(Sextets(b));
    DecodersOnUrl(Encode(b));
    OctetsOfSextets(b);
  }

  /** The strict decoder refuses exactly the empty text, a foreign character and a lone last character. */
  lemma StrictAccepts(text: string)
    ensures DecodeStrict(text).Some? <==> text != "" && AllUrl(text) && |text| % 4 != 1
  {
    if text != "" && AllUrl(text) && |text| % 4 != 1 {
      DecodersOnUrl(text);
    }
  }

  /** An accepted text is the encoding of what it decodes to exactly when its unused bits are zero. */
  lemma ReencodingIsExact(text: string)
    requires DecodeStrict(text).Some?
    ensures Encode(DecodeStrict(text).value) == text <==> UnusedBitsZero(GroupsOf(text))
  {
    DecodersOnUrl(text);
    var s := GroupsOf(text);
    EncodeIsText(Octets(s));
    SextetsOfOctets(s);
    GroupsText(text);
    TextGroups(Sextets(Octets(s)));
    TextGroups(s);
  }

  /** Encoded text needs no escaping: the alphabet only, and never a lone last character. */
  lemma EncodedTextIsPlain(b: seq<Byte>)
    ensures AllUrl(Encode(b)) && |Encode(b)| % 4 != 1
    ensures '.' !in Encode(b) && '=' !in Encode(b)
    ensures Encode(b) == "" <==> b == []
  {
    EncodeIsText(b);
    TextGroups(Sextets(b));
  }
}
