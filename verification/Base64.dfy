/** Base64 in its two alphabets (sections 4 and 5 of RFC 4648): the credential ids that
    internal/auth/enrollment.go decodes, and the helpers of web/src/lib/crypto/encoding.ts. */
module Base64 {
  import opened Common

  type Sextet = b: int | 0 <= b < 64

  datatype Alphabet = Std | Url

  function ToChar(s: Sextet, a: Alphabet): char {
    if s < 26 then (s + 65) as char
    else if s < 52 then (s + 71) as char
    else if s < 62 then (s - 4) as char
    else if s == 62 then (if a.Std? then '+' else '-')
    else (if a.Std? then '/' else '_')
  }

  function FromChar(c: char, a: Alphabet): Option<Sextet> {
    if 'A' <= c <= 'Z' then Some(c as int - 65)
    else if 'a' <= c <= 'z' then Some(c as int - 71)
    else if '0' <= c <= '9' then Some(c as int + 4)
    else if c == (if a.Std? then '+' else '-') then Some(62)
    else if c == (if a.Std? then '/' else '_') then Some(63)
    else None
  }

  /** The alphabets of tables 1 and 2 of RFC 4648: the capital letters, the small ones, the digits, and two
      characters in which they differ. */
  lemma AlphabetsAreTheStandards(s: Sextet, a: Alphabet)
    ensures var n, c := s as int, ToChar(s, a) as int;
      && (n < 26 ==> c == 'A' as int + n)
      && (26 <= n < 52 ==> c == 'a' as int + (n - 26))
      && (52 <= n < 62 ==> c == '0' as int + (n - 52))
    ensures s == 62 ==> ToChar(s, a) == match a case Std => '+' case Url => '-'
    ensures s == 63 ==> ToChar(s, a) == match a case Std => '/' case Url => '_'
  {
  }

  lemma CharRoundTrip(s: Sextet, a: Alphabet)
    ensures FromChar(ToChar(s, a), a) == Some(s) && ToChar(s, a) != '=' && !IsSpace(ToChar(s, a))
  {
  }

  // ------------------------------------------------------------------ bytes and sextets

  function Group(a: Byte, b: Byte, c: Byte): (g: seq<Sextet>)
    ensures |g| == 4
  {
    [a / 4, a % 4 * 16 + b / 16, b % 16 * 4 + c / 64, c % 64]
  }

  // A last group of one or two bytes is filled up with zero bits.
  function Sextets(bs: seq<Byte>): (ss: seq<Sextet>)
    ensures |ss| % 4 != 1
  {
    if bs == [] then []
    else if |bs| == 1 then Group(bs[0], 0, 0)[..2]
    else if |bs| == 2 then Group(bs[0], bs[1], 0)[..3]
    else
      var rest := Sextets(bs[3..]);
      OneGroupMore(|bs[3..]|, |rest|);
      Group(bs[0], bs[1], bs[2]) + rest
  }

  function Join(high: nat, radix: nat, low: nat): Byte
    requires (radix == 4 && high < 64) || (radix == 16 && high < 16) || (radix == 64 && high < 4)
    requires low < radix
  {
    high * radix + low
  }

  /** The sextets of three bytes are those of the 24-bit number they make, the highest first. */
  lemma GroupIsBigEndian(a: Byte, b: Byte, c: Byte)
    ensures var g := Group(a, b, c);
      var w: int, x: int, y: int, z: int := g[0], g[1], g[2], g[3];
      (a as int) * 65536 + (b as int) * 256 + c as int == w * 262144 + x * 4096 + y * 64 + z
  {
    var p: int, q: int, r: int := a, b, c;
    assert p == p / 4 * 4 + p % 4 && q == q / 16 * 16 + q % 16 && r == r / 64 * 64 + r % 64;
  }

  // A last group of two or three sextets gives one or two bytes, whatever bits are left over.
  function Bytes(ss: seq<Sextet>): seq<Byte>
    requires |ss| % 4 != 1
  {
    if ss == [] then []
    else if |ss| == 2 then [Join(ss[0], 4, ss[1] / 16)]
    else if |ss| == 3 then [Join(ss[0], 4, ss[1] / 16), Join(ss[1] % 16, 16, ss[2] / 4)]
    else [Join(ss[0], 4, ss[1] / 16), Join(ss[1] % 16, 16, ss[2] / 4), Join(ss[2] % 4, 64, ss[3])] + Bytes(ss[4..])
  }

  lemma GroupRoundTrip(a: Byte, b: Byte, c: Byte)
    ensures Join(a / 4, 4, (a % 4 * 16 + b / 16) / 16) == a
    ensures Join((a % 4 * 16 + b / 16) % 16, 16, (b % 16 * 4 + c / 64) / 4) == b
    ensures Join((b % 16 * 4 + c / 64) % 4, 64, c % 64) == c
  {
  }

  lemma BytesOfGroup(a: Byte, b: Byte, c: Byte, rest: seq<Sextet>)
    requires |rest| % 4 != 1
    ensures |Group(a, b, c) + rest| % 4 != 1 && Bytes(Group(a, b, c) + rest) == [a, b, c] + Bytes(rest)
  {
    var ss := Group(a, b, c) + rest;
    OneGroupMore(0, |rest|);
    assert |ss| == |rest| + 4 && ss[4..] == rest;
    assert ss[0] == Group(a, b, c)[0] && ss[1] == Group(a, b, c)[1];
    assert ss[2] == Group(a, b, c)[2] && ss[3] == Group(a, b, c)[3];
    GroupRoundTrip(a, b, c);
    assert Bytes(ss) == [Join(ss[0], 4, ss[1] / 16), Join(ss[1] % 16, 16, ss[2] / 4), Join(ss[2] % 4, 64, ss[3])] +
                        Bytes(rest);
  }

  lemma BytesOfTwo(a: Byte, b: Byte, c: Byte)
    ensures Bytes(Group(a, b, c)[..3]) == [a, b]
  {
    var ss := Group(a, b, c)[..3];
    assert ss[0] == Group(a, b, c)[0] && ss[1] == Group(a, b, c)[1] && ss[2] == Group(a, b, c)[2];
    GroupRoundTrip(a, b, c);
  }

  lemma BytesOfOne(a: Byte, b: Byte, c: Byte)
    ensures Bytes(Group(a, b, c)[..2]) == [a]
  {
    var ss := Group(a, b, c)[..2];
    assert ss[0] == Group(a, b, c)[0] && ss[1] == Group(a, b, c)[1];
    GroupRoundTrip(a, b, c);
    assert Bytes(ss) == [Join(ss[0], 4, ss[1] / 16)];
  }

  lemma {:induction false} BytesOfSextets(bs: seq<Byte>)
    ensures Bytes(Sextets(bs)) == bs
  {
    if |bs| >= 3 {
      BytesOfSextets(bs[3..]);
      BytesOfGroup(bs[0], bs[1], bs[2], Sextets(bs[3..]));
      assert bs == [bs[0], bs[1], bs[2]] + bs[3..];
    } else if |bs| == 2 {
      BytesOfTwo(bs[0], bs[1], 0);
      assert bs == [bs[0], bs[1]];
    } else if |bs| == 1 {
      BytesOfOne(bs[0], 0, 0);
      assert bs == [bs[0]];
    }
  }

  // ------------------------------------------------------------------ text

  function Chars(ss: seq<Sextet>, a: Alphabet): (s: string)
    ensures |s| == |ss| && forall i :: 0 <= i < |ss| ==> s[i] == ToChar(ss[i], a)
  {
    seq(|ss|, i requires 0 <= i < |ss| => ToChar(ss[i], a))
  }

  function Padding(n: nat): string {
    if n % 4 == 2 then "==" else if n % 4 == 3 then "=" else ""
  }

  // Unpadded, and padded, text.
  function RawText(bs: seq<Byte>, a: Alphabet): string {
    Chars(Sextets(bs), a)
  }

  function PaddedText(bs: seq<Byte>, a: Alphabet): string {
    RawText(bs, a) + Padding(|Sextets(bs)|)
  }

  /** Whole groups are encoded one after the other, and a last group of one or two bytes as if zero bytes
      followed, less the characters those would have had. */
  lemma GroupByGroup(bs: seq<Byte>)
    ensures |bs| >= 3 ==> Sextets(bs) == Sextets(bs[..3]) + Sextets(bs[3..])
    ensures |bs| == 2 ==> Sextets(bs) == Sextets(bs + [0])[..3]
    ensures |bs| == 1 ==> Sextets(bs) == Sextets(bs + [0, 0])[..2]
    ensures |bs| == 3 ==> Sextets(bs) == Group(bs[0], bs[1], bs[2])
  {
    if |bs| >= 3 {
      ThreeBytes(bs[..3]);
    } else if |bs| == 2 {
      ThreeBytes(bs + [0]);
    } else if |bs| == 1 {
      ThreeBytes(bs + [0, 0]);
    }
  }

  lemma ThreeBytes(bs: seq<Byte>)
    requires |bs| == 3
    ensures Sextets(bs) == Group(bs[0], bs[1], bs[2])
  {
    assert bs[3..] == [];
    assert Sextets(bs) == Group(bs[0], bs[1], bs[2]) + [];
  }

  predicate InAlphabet(s: string, a: Alphabet) {
    forall i :: 0 <= i < |s| ==> FromChar(s[i], a).Some?
  }

  function ReadChars(s: string, a: Alphabet): (ss: seq<Sextet>)
    requires InAlphabet(s, a)
    ensures |ss| == |s|
  {
    seq(|s|, i requires 0 <= i < |s| => FromChar(s[i], a).value)
  }

  function ReadText(s: string, a: Alphabet): Option<seq<Byte>> {
    if InAlphabet(s, a) && |s| % 4 != 1 then Some(Bytes(ReadChars(s, a))) else None
  }

  lemma ReadRawText(bs: seq<Byte>, a: Alphabet)
    ensures ReadText(RawText(bs, a), a) == Some(bs)
  {
    var s := RawText(bs, a);
    forall i | 0 <= i < |s| ensures FromChar(s[i], a) == Some(Sextets(bs)[i]) {
      CharRoundTrip(Sextets(bs)[i], a);
    }
    assert ReadChars(s, a) == Sextets(bs);
    BytesOfSextets(bs);
  }

  // ------------------------------------------------------------------ Go's decoders

  predicate IsSpace(c: char) {
    c == ' ' || c == '\t' || c == '\n' || c == '\r' || c as int == 12
  }

  function Without(s: string, drop: char -> bool): string {
    if s == "" then "" else (if drop(s[0]) then "" else [s[0]]) + Without(s[1..], drop)
  }

  lemma {:induction false} WithoutNothing(s: string, drop: char -> bool)
    requires forall i :: 0 <= i < |s| ==> !drop(s[i])
    ensures Without(s, drop) == s
  {
    if s != "" {
      WithoutNothing(s[1..], drop);
      assert s == [s[0]] + s[1..];
    }
  }

  // Both of Go's decoders skip line ends wherever they are.
  function Lines(s: string): string {
    Without(s, c => c == '\n' || c == '\r')
  }

  // base64.RawURLEncoding.DecodeString
  function DecodeRawURL(s: string): Option<seq<Byte>> {
    ReadText(Lines(s), Url)
  }

  // The text up to its first padding character.
  function Core(s: string): (n: nat)
    ensures n <= |s| && (forall i :: 0 <= i < n ==> s[i] != '=') && (n < |s| ==> s[n] == '=')
  {
    if s == "" || s[0] == '=' then 0 else 1 + Core(s[1..])
  }

  // The last group of four has to be filled up with padding.
  function DecodeFull(t: string): Option<seq<Byte>> {
    var n := Core(t);
    if t[n..] == Padding(n) then ReadText(t[..n], Std) else None
  }

  // base64.StdEncoding.DecodeString
  function DecodeStd(s: string): Option<seq<Byte>> {
    DecodeFull(Lines(s))
  }

  function DecodeCredentialID(s: string): Option<seq<Byte>> {
    var raw := DecodeRawURL(s);
    if raw.Some? then raw else DecodeStd(s)
  }

  // ------------------------------------------------------------------ credential ids

  lemma TextHasNoSpace(bs: seq<Byte>, a: Alphabet)
    ensures forall i :: 0 <= i < |PaddedText(bs, a)| ==> !IsSpace(PaddedText(bs, a)[i])
    ensures forall i :: 0 <= i < |RawText(bs, a)| ==> RawText(bs, a)[i] != '=' && !IsSpace(RawText(bs, a)[i])
  {
    forall i | 0 <= i < |RawText(bs, a)| ensures RawText(bs, a)[i] != '=' && !IsSpace(RawText(bs, a)[i]) {
      CharRoundTrip(Sextets(bs)[i], a);
    }
  }

  lemma {:induction false} CoreOfPadded(raw: string, pad: string)
    requires (forall i :: 0 <= i < |raw| ==> raw[i] != '=') && (pad != "" ==> pad[0] == '=')
    ensures Core(raw + pad) == |raw| && (raw + pad)[..|raw|] == raw && (raw + pad)[|raw|..] == pad
  {
    if raw == "" {
      assert raw + pad == pad;
    } else {
      CoreOfPadded(raw[1..], pad);
      assert (raw + pad)[1..] == raw[1..] + pad;
    }
  }

  lemma StdTextDecodes(bs: seq<Byte>)
    ensures DecodeStd(PaddedText(bs, Std)) == Some(bs)
  {
    TextHasNoSpace(bs, Std);
    WithoutNothing(PaddedText(bs, Std), c => c == '\n' || c == '\r');
    CoreOfPadded(RawText(bs, Std), Padding(|Sextets(bs)|));
    ReadRawText(bs, Std);
  }

  lemma NoPaddingIn(s: string, a: Alphabet)
    requires InAlphabet(s, a)
    ensures Core(s) == |s|
  {
    assert FromChar('=', a).None?;
  }

  /** A text that both attempts can read, they read alike: the order of the attempts does not matter. */
  lemma AttemptsAgree(s: string)
    requires DecodeRawURL(s).Some? && DecodeStd(s).Some?
    ensures DecodeRawURL(s) == DecodeStd(s)
  {
    var t := Lines(s);
    var n := Core(t);
    NoPaddingIn(t, Url);
    assert t[..n] == t;
    forall i | 0 <= i < |t| ensures FromChar(t[i], Url) == FromChar(t[i], Std) {
    }
    assert ReadChars(t, Url) == ReadChars(t, Std);
  }

  /** Any bytes come back from their unpadded base64url text, and from their padded standard text, even
      when the first attempt can already read that. */
  lemma CredentialIDRoundTrip(bs: seq<Byte>)
    ensures DecodeCredentialID(RawText(bs, Url)) == Some(bs)
    ensures DecodeCredentialID(PaddedText(bs, Std)) == Some(bs)
  {
    TextHasNoSpace(bs, Url);
    WithoutNothing(RawText(bs, Url), c => c == '\n' || c == '\r');
    ReadRawText(bs, Url);
    StdTextDecodes(bs);
    if DecodeRawURL(PaddedText(bs, Std)).Some? {
      AttemptsAgree(PaddedText(bs, Std));
    }
  }

  lemma OneGroupMore(bytes: nat, sextets: nat)
    ensures (bytes + 3) % 3 == bytes % 3 && (sextets + 4) % 4 == sextets % 4
  {
  }

  lemma {:induction false} SextetCount(bs: seq<Byte>)
    ensures |Sextets(bs)| % 4 == if |bs| % 3 == 0 then 0 else |bs| % 3 + 1
  {
    if |bs| >= 3 {
      SextetCount(bs[3..]);
      OneGroupMore(|bs[3..]|, |Sextets(bs[3..])|);
      assert |bs| == |bs[3..]| + 3 && |Sextets(bs)| == |Sextets(bs[3..])| + 4;
    }
  }

  lemma StdCharAsUrl(s: Sextet)
    ensures FromChar(ToChar(s, Std), Url).Some? <==> s < 62
  {
  }

  // None of the sextets the alphabets write differently.
  predicate SameInBoth(ss: seq<Sextet>) {
    forall i :: 0 <= i < |ss| ==> ss[i] < 62
  }

  lemma StdTextAsUrl(bs: seq<Byte>)
    ensures InAlphabet(RawText(bs, Std), Url) <==> SameInBoth(Sextets(bs))
  {
    var ss, s := Sextets(bs), RawText(bs, Std);
    if InAlphabet(s, Url) {
      forall i | 0 <= i < |ss| ensures ss[i] < 62 {
        StdCharAsUrl(ss[i]);
        assert FromChar(s[i], Url).Some?;
      }
    } else {
      var i :| 0 <= i < |s| && FromChar(s[i], Url).None?;
      StdCharAsUrl(ss[i]);
      assert ss[i] >= 62;
    }
  }

  lemma PaddedIsNotRaw(bs: seq<Byte>)
    requires |bs| % 3 != 0
    ensures !InAlphabet(PaddedText(bs, Std), Url)
  {
    SextetCount(bs);
    var raw, pad := RawText(bs, Std), Padding(|Sextets(bs)|);
    assert pad != "" && pad[0] == '=' && FromChar('=', Url).None?;
    assert (raw + pad)[|raw|] == pad[0];
  }

  lemma NeedsNoPadding(bs: seq<Byte>)
    requires |bs| % 3 == 0
    ensures PaddedText(bs, Std) == RawText(bs, Std)
  {
    SextetCount(bs);
  }

  /** When the first attempt already reads the standard text: when it needs neither padding nor one of the
      two characters the alphabets differ in. */
  lemma FirstAttemptReadsStdText(bs: seq<Byte>)
    ensures DecodeRawURL(PaddedText(bs, Std)).Some? <==> |bs| % 3 == 0 && SameInBoth(Sextets(bs))
  {
    TextHasNoSpace(bs, Std);
    WithoutNothing(PaddedText(bs, Std), c => c == '\n' || c == '\r');
    StdTextAsUrl(bs);
    if |bs| % 3 != 0 {
      PaddedIsNotRaw(bs);
    } else {
      NeedsNoPadding(bs);
    }
  }

  // ------------------------------------------------------------------ the browser's helpers

  function Replace(s: string, from: char, to: char): (t: string)
    ensures |t| == |s| && forall i :: 0 <= i < |s| ==> t[i] == if s[i] == from then to else s[i]
  {
    seq(|s|, i requires 0 <= i < |s| => if s[i] == from then to else s[i])
  }

  // .replace(/=+$/, '')
  function StripPadding(s: string): string {
    if s != "" && s[|s| - 1] == '=' then StripPadding(s[..|s| - 1]) else s
  }

  function EncodeBase64URL(bs: seq<Byte>): string {
    StripPadding(Replace(Replace(PaddedText(bs, Std), '+', '-'), '/', '_'))
  }

  function Unpadded(t: string): string {
    if |t| % 4 != 0 || t == "" || t[|t| - 1] != '=' then t
    else if t[|t| - 2] == '=' then t[..|t| - 2]
    else t[..|t| - 1]
  }

  lemma UnpadsPadded(raw: string)
    requires |raw| % 4 != 1 && forall i :: 0 <= i < |raw| ==> raw[i] != '='
    ensures Unpadded(raw + Padding(|raw|)) == raw
  {
    assert raw + "" == raw && (raw + "=")[..|raw|] == raw && (raw + "==")[..|raw|] == raw;
  }

  // The browser's atob: white space is dropped, then up to two padding characters of a full last group.
  function Atob(s: string): Option<seq<Byte>> {
    ReadText(Unpadded(Without(s, IsSpace)), Std)
  }

  // How many characters a group of four still lacks.
  function Missing(n: nat): nat {
    if n % 4 == 0 then 0 else 4 - n % 4
  }

  lemma OneLessMissing(n: nat)
    requires n % 4 != 0
    ensures Missing(n + 1) == Missing(n) - 1
  {
  }

  // How the padding loop leaves a text.
  function Padded(s: string): (t: string)
    ensures |t| % 4 == 0
    decreases Missing(|s|)
  {
    if |s| % 4 == 0 then s
    else
      OneLessMissing(|s|);
      Padded(s + "=")
  }

  function DecodeBase64URL(s: string): Option<seq<Byte>> {
    Atob(Padded(Replace(Replace(s, '-', '+'), '_', '/')))
  }

  lemma StdToUrl(s: Sextet)
    ensures var c := ToChar(s, Std);
      ToChar(s, Url) == if c == '+' then '-' else if c == '/' then '_' else c
    ensures var c := ToChar(s, Url);
      ToChar(s, Std) == if c == '-' then '+' else if c == '_' then '/' else c
    ensures ToChar(s, Url) != '='
  {
  }

  lemma SwapsAlphabet(bs: seq<Byte>)
    ensures Replace(Replace(RawText(bs, Std), '+', '-'), '/', '_') == RawText(bs, Url)
    ensures Replace(Replace(RawText(bs, Url), '-', '+'), '_', '/') == RawText(bs, Std)
  {
    forall i | 0 <= i < |Sextets(bs)|
      ensures Replace(Replace(RawText(bs, Std), '+', '-'), '/', '_')[i] == RawText(bs, Url)[i]
      ensures Replace(Replace(RawText(bs, Url), '-', '+'), '_', '/')[i] == RawText(bs, Std)[i]
    {
      StdToUrl(Sextets(bs)[i]);
    }
  }

  lemma StripsOne(s: string)
    ensures StripPadding(s + "=") == StripPadding(s)
  {
    assert (s + "=")[..|s|] == s;
  }

  lemma StripsPadding(raw: string, n: nat)
    requires forall i :: 0 <= i < |raw| ==> raw[i] != '='
    ensures StripPadding(raw + Padding(n)) == raw
  {
    assert StripPadding(raw) == raw;
    StripsOne(raw);
    StripsOne(raw + "=");
    assert raw + "" == raw && raw + "=" + "=" == raw + "==";
  }

  /** The browser's base64url is the unpadded text of the url alphabet: what the server reads back. */
  lemma EncodesRawText(bs: seq<Byte>)
    ensures EncodeBase64URL(bs) == RawText(bs, Url)
    ensures DecodeCredentialID(EncodeBase64URL(bs)) == Some(bs)
  {
    var raw, pad := RawText(bs, Std), Padding(|Sextets(bs)|);
    SwapsAlphabet(bs);
    assert Replace(Replace(raw + pad, '+', '-'), '/', '_') == Replace(Replace(raw, '+', '-'), '/', '_') + pad;
    TextHasNoSpace(bs, Url);
    StripsPadding(RawText(bs, Url), |Sextets(bs)|);
    CredentialIDRoundTrip(bs);
  }

  lemma PadsOnce(s: string)
    requires |s| % 4 != 0
    ensures Padded(s) == Padded(s + "=")
  {
  }

  lemma PaddedByOne(s: string)
    requires |s| % 4 == 3
    ensures Padded(s) == s + "="
  {
    PadsOnce(s);
    assert |s + "="| % 4 == 0;
  }

  lemma PaddedIs(s: string)
    requires |s| % 4 != 1
    ensures Padded(s) == s + Padding(|s|)
  {
    if |s| % 4 == 0 {
      assert s + "" == s;
    } else if |s| % 4 == 3 {
      PaddedByOne(s);
    } else {
      var t := s + "=";
      assert |t| == |s| + 1 && |t| % 4 == 3;
      PadsOnce(s);
      PaddedByOne(t);
      assert s + "=" + "=" == s + "==";
    }
  }

  lemma AtobOfPadded(bs: seq<Byte>)
    ensures Atob(PaddedText(bs, Std)) == Some(bs)
  {
    TextHasNoSpace(bs, Std);
    WithoutNothing(PaddedText(bs, Std), IsSpace);
    UnpadsPadded(RawText(bs, Std));
    ReadRawText(bs, Std);
  }

  /** decodeBase64URL undoes encodeBase64URL, and decodeBase64 (atob) undoes encodeBase64 (the padded
      standard text). */
  lemma Base64URLRoundTrip(bs: seq<Byte>)
    ensures DecodeBase64URL(EncodeBase64URL(bs)) == Some(bs)
    ensures Atob(PaddedText(bs, Std)) == Some(bs)
  {
    EncodesRawText(bs);
    SwapsAlphabet(bs);
    PaddedIs(RawText(bs, Std));
    AtobOfPadded(bs);
  }

  // ------------------------------------------------------------------ what the decoders accept

  lemma {:induction false} WithoutOne(a: string, c: char, b: string, drop: char -> bool)
    requires drop(c)
    ensures Without(a + [c] + b, drop) == Without(a + b, drop)
  {
    if a == "" {
      assert [] + [c] + b == [c] + b && ([c] + b)[1..] == b && [] + b == b;
    } else {
      WithoutOne(a[1..], c, b, drop);
      assert (a + [c] + b)[1..] == a[1..] + [c] + b && (a + b)[1..] == a[1..] + b;
    }
  }

  /** A line end anywhere in a credential id makes no difference, nor does white space in what atob is given. */
  lemma BreaksAreSkipped(a: string, c: char, b: string)
    ensures c as int in [10, 13] ==> DecodeCredentialID(a + [c] + b) == DecodeCredentialID(a + b)
    ensures c as int in [9, 10, 12, 13, 32] ==> Atob(a + [c] + b) == Atob(a + b)
  {
    if c as int in [10, 13] {
      WithoutOne(a, c, b, x => x == '\n' || x == '\r');
    }
    if c as int in [9, 10, 12, 13, 32] {
      WithoutOne(a, c, b, IsSpace);
    }
  }

  predicate Plain(c: char) {
    'A' <= c <= 'Z' || 'a' <= c <= 'z' || '0' <= c <= '9'
  }

  predicate Urlish(s: string) {
    forall i :: 0 <= i < |s| ==> Plain(s[i]) || s[i] == '-' || s[i] == '_'
  }

  predicate Stdish(s: string) {
    forall i :: 0 <= i < |s| ==> Plain(s[i]) || s[i] == '+' || s[i] == '/'
  }

  // A full last group, its last k characters padding.
  predicate EndsPadded(s: string, k: nat) {
    |s| % 4 == 0 && k <= |s| && s[|s| - k..] == seq(k, i => '=') && Stdish(s[..|s| - k])
  }

  lemma StdishIs(s: string)
    ensures InAlphabet(s, Std) <==> Stdish(s)
  {
  }

  lemma CoreAt(s: string, n: nat)
    requires n <= |s| && (forall i :: 0 <= i < n ==> s[i] != '=') && (n < |s| ==> s[n] == '=')
    ensures Core(s) == n
  {
  }

  lemma PaddingIs(n: nat, k: nat)
    requires k <= 2 && (n + k) % 4 == 0
    ensures Padding(n) == seq(k, i => '=') && n % 4 != 1
  {
  }

  lemma CoreIs(s: string, k: nat)
    requires k <= 2 && EndsPadded(s, k)
    ensures Core(s) == |s| - k && s[|s| - k..] == Padding(|s| - k) && (|s| - k) % 4 != 1
  {
    var n := |s| - k;
    PaddingIs(n, k);
    forall i | 0 <= i < n ensures s[i] != '=' {
      assert s[i] == s[..n][i];
    }
    if k > 0 {
      assert s[n] == s[n..][0];
    }
    CoreAt(s, n);
  }

  lemma PaddingFills(n: nat)
    requires n % 4 != 1
    ensures |Padding(n)| <= 2 && (n + |Padding(n)|) % 4 == 0
  {
  }

  lemma PaddedAt(s: string, n: nat)
    requires n <= |s| && s[n..] == Padding(n) && n % 4 != 1 && Stdish(s[..n])
    ensures EndsPadded(s, |s| - n) && |s| - n <= 2
  {
    var k := |Padding(n)|;
    assert |s| == n + k;
    PaddingFills(n);
    PaddingIs(n, k);
  }

  lemma FullAccepts(s: string)
    requires DecodeFull(s).Some?
    ensures EndsPadded(s, 0) || EndsPadded(s, 1) || EndsPadded(s, 2)
  {
    var n := Core(s);
    StdishIs(s[..n]);
    PaddedAt(s, n);
  }

  lemma FullTakes(s: string, k: nat)
    requires k <= 2 && EndsPadded(s, k)
    ensures DecodeFull(s).Some?
  {
    var t := s[..|s| - k];
    CoreIs(s, k);
    StdishIs(t);
    assert DecodeFull(s) == ReadText(t, Std);
  }

  lemma RawAccepts(s: string)
    requires Lines(s) == s
    ensures DecodeRawURL(s).Some? <==> Urlish(s) && |s| % 4 != 1
  {
  }

  lemma NoLineEnds(s: string)
    requires forall i :: 0 <= i < |s| ==> s[i] != '\n' && s[i] != '\r'
    ensures Lines(s) == s
  {
    WithoutNothing(s, c => c == '\n' || c == '\r');
  }

  lemma FullExactly(s: string)
    ensures DecodeFull(s).Some? <==> EndsPadded(s, 0) || EndsPadded(s, 1) || EndsPadded(s, 2)
  {
    if DecodeFull(s).Some? {
      FullAccepts(s);
    } else if EndsPadded(s, 0) {
      FullTakes(s, 0);
    } else if EndsPadded(s, 1) {
      FullTakes(s, 1);
    } else if EndsPadded(s, 2) {
      FullTakes(s, 2);
    }
  }

  /** Of texts without line ends the first attempt takes those of the url alphabet whose last group is not a
      single character; the second those of the standard alphabet in full groups, the last with at most two
      padding characters. */
  lemma AcceptsExactly(s: string)
    requires forall i :: 0 <= i < |s| ==> s[i] != '\n' && s[i] != '\r'
    ensures DecodeRawURL(s).Some? <==> Urlish(s) && |s| % 4 != 1
    ensures DecodeStd(s).Some? <==> EndsPadded(s, 0) || EndsPadded(s, 1) || EndsPadded(s, 2)
  {
    NoLineEnds(s);
    RawAccepts(s);
    FullExactly(s);
  }

  lemma PaddedGroup(s: string, k: nat)
    requires 1 <= k <= 2 && EndsPadded(s, k)
    ensures Unpadded(s) == s[..|s| - k] && |Unpadded(s)| % 4 != 1 && InAlphabet(Unpadded(s), Std)
  {
    assert s[|s| - k..][k - 1] == '=';
    StdishIs(s[..|s| - k]);
    if k == 2 {
      assert s[|s| - k..][0] == '=';
    } else {
      assert s[..|s| - 1][|s| - 2] == s[|s| - 2];
    }
  }

  lemma UnpaddedGroup(s: string)
    requires InAlphabet(Unpadded(s), Std) && Unpadded(s) != s
    ensures EndsPadded(s, 1) || EndsPadded(s, 2)
  {
    StdishIs(Unpadded(s));
    var k := |s| - |Unpadded(s)|;
    assert s[|s| - k..] == seq(k, i => '=');
  }

  /** atob, of texts without white space, takes the same, and unpadded ones. */
  lemma AtobAcceptsExactly(s: string)
    requires forall i :: 0 <= i < |s| ==> s[i] as int !in [9, 10, 12, 13, 32]
    ensures Atob(s).Some? <==> (Stdish(s) && |s| % 4 != 1) || EndsPadded(s, 1) || EndsPadded(s, 2)
  {
    forall i | 0 <= i < |s| ensures !IsSpace(s[i]) {
      assert s[i] as int !in [9, 10, 12, 13, 32];
    }
    WithoutNothing(s, IsSpace);
    StdishIs(s);
    if EndsPadded(s, 1) {
      PaddedGroup(s, 1);
    } else if EndsPadded(s, 2) {
      PaddedGroup(s, 2);
    } else if Atob(s).Some? && Unpadded(s) != s {
      UnpaddedGroup(s);
    } else if Stdish(s) && s != "" {
      assert s[|s| - 1] != '=';
    }
  }

  method PadLoop(s: string) returns (t: string)
    ensures t == Padded(s)
  {
    t := s;
    while |t| % 4 != 0
      invariant Padded(t) == Padded(s)
      decreases Missing(|t|)
    {
      OneLessMissing(|t|);
      PadsOnce(t);
      t := t + "=";
    }
  }

  method DecodeURL(encoded: string) returns (bs: Option<seq<Byte>>)
    ensures bs == DecodeBase64URL(encoded)
  {
    var base64 := PadLoop(Replace(Replace(encoded, '-', '+'), '_', '/'));
    return Atob(base64);
  }
}
