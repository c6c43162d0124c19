/** Quick keys (web/src/lib/quick-keys.ts): key combinations encoded as the bytes a terminal sends, in the
    control-sequence format of section 5.4 of ECMA-48, and concatenated into macros. */
module QuickKeys {
  import opened Common

  const ESC: Byte := 0x1b
  const CSI: Byte := 0x5b
  const SS3: Byte := 0x4f
  const TILDE: Byte := 0x7e
  const SEMICOLON: Byte := 0x3b

  datatype Step = Literal(text: string, enter: bool) | Combo(ctrl: bool, alt: bool, shift: bool, key: string)

  // What CSI_KEYS[key] gives. The lookup is on a plain object, so it also finds what every object inherits.
  datatype CsiKey = CsiKey(num: Option<nat>, final: Byte) | Inherited

  function CsiKeyOf(key: string): Option<CsiKey> {
    match key
    case "up" => Some(CsiKey(None, 0x41))
    case "down" => Some(CsiKey(None, 0x42))
    case "right" => Some(CsiKey(None, 0x43))
    case "left" => Some(CsiKey(None, 0x44))
    case "home" => Some(CsiKey(None, 0x48))
    case "end" => Some(CsiKey(None, 0x46))
    case "page up" => Some(CsiKey(Some(5), TILDE))
    case "page down" => Some(CsiKey(Some(6), TILDE))
    case "f5" => Some(CsiKey(Some(15), TILDE))
    case "f6" => Some(CsiKey(Some(17), TILDE))
    case "f7" => Some(CsiKey(Some(18), TILDE))
    case "f8" => Some(CsiKey(Some(19), TILDE))
    case "f9" => Some(CsiKey(Some(20), TILDE))
    case "f10" => Some(CsiKey(Some(21), TILDE))
    case "f11" => Some(CsiKey(Some(23), TILDE))
    case "f12" => Some(CsiKey(Some(24), TILDE))
    case "constructor" => Some(Inherited)
    case "__proto__" => Some(Inherited)
    case _ => None
  }

  function Ss3KeyOf(key: string): Option<Byte> {
    match key
    case "f1" => Some(0x50)
    case "f2" => Some(0x51)
    case "f3" => Some(0x52)
    case "f4" => Some(0x53)
    case _ => None
  }

  function ModifierCode(ctrl: bool, alt: bool, shift: bool): nat {
    1 + (if shift then 1 else 0) + (if alt then 2 else 0) + (if ctrl then 4 else 0)
  }

  function Digits(n: nat): (ds: seq<Byte>)
    ensures |ds| > 0 && forall d :: d in ds ==> IsDigit(d)
  {
    if n < 10 then [48 + n] else Digits(n / 10) + [48 + n % 10]
  }

  predicate IsDigit(b: Byte) {
    48 <= b < 58
  }

  function UpperLetter(c: char): char
    requires 'a' <= c <= 'z'
  {
    c - 'a' + 'A'
  }

  // The UTF-8 form of one character.
  function Utf8Char(c: char): seq<Byte> {
    var p := c as int;
    if p < 0x80 then [p]
    else if p < 0x800 then [0xC0 + p / 0x40, 0x80 + p % 0x40]
    else if p < 0x10000 then [0xE0 + p / 0x1000, 0x80 + p / 0x40 % 0x40, 0x80 + p % 0x40]
    else [0xF0 + p / 0x40000, 0x80 + p / 0x1000 % 0x40, 0x80 + p / 0x40 % 0x40, 0x80 + p % 0x40]
  }

  function Utf8(s: string): seq<Byte> {
    if s == "" then [] else Utf8Char(s[0]) + Utf8(s[1..])
  }

  predicate IsLetter(key: string) {
    |key| == 1 && 'a' <= key[0] <= 'z'
  }

  predicate IsNumeral(key: string) {
    |key| == 1 && '0' <= key[0] <= '9'
  }

  function WithAlt(alt: bool, bytes: seq<Byte>): seq<Byte> {
    if alt then [ESC] + bytes else bytes
  }

  function EncodeCsi(k: CsiKey, mod: nat): seq<Byte> {
    match k
    case CsiKey(num, final) =>
      if mod == 1 then
        match num
        case None => [ESC, CSI, final]
        case Some(n) => [ESC, CSI] + Digits(n) + [final]
      else [ESC, CSI] + Digits(num.GetOr(1)) + [SEMICOLON] + Digits(mod) + [final]
    case Inherited =>
      // num and final are undefined: String(undefined), and a byte made of undefined is 0.
      if mod == 1 then [ESC, CSI] + Utf8("undefined") + [0]
      else [ESC, CSI] + Digits(1) + [SEMICOLON] + Digits(mod) + [0]
  }

  function EncodeSs3(final: Byte, mod: nat): seq<Byte> {
    if mod == 1 then [ESC, SS3, final]
    else [ESC, CSI, 0x31, SEMICOLON] + Digits(mod) + [final]
  }

  function EncodeCombo(ctrl: bool, alt: bool, shift: bool, key: string): seq<Byte> {
    var mod := ModifierCode(ctrl, alt, shift);
    if key == "escape" then (if alt then [ESC, ESC] else [ESC])
    else if key == "tab" then (if shift then [ESC, CSI, 0x5a] else if alt then [ESC, 0x09] else [0x09])
    else if CsiKeyOf(key).Some? then EncodeCsi(CsiKeyOf(key).value, mod)
    else if Ss3KeyOf(key).Some? then EncodeSs3(Ss3KeyOf(key).value, mod)
    else if ctrl && IsLetter(key) then WithAlt(alt, [UpperLetter(key[0]) as int - 64])
    else if IsLetter(key) then WithAlt(alt, Utf8(if shift then [UpperLetter(key[0])] else key))
    else WithAlt(alt, Utf8(key))
  }

  function EncodeStep(s: Step): seq<Byte> {
    match s
    case Literal(text, enter) => if enter then Utf8(text) + [0x0d] else Utf8(text)
    case Combo(ctrl, alt, shift, key) => EncodeCombo(ctrl, alt, shift, Lower(key))
  }

  function EncodeSpec(spec: seq<Step>): seq<Byte> {
    if spec == [] then [] else EncodeStep(spec[0]) + EncodeSpec(spec[1..])
  }

  // ------------------------------------------------------------------ what can be told apart

  predicate IsNamed(key: string) {
    (CsiKeyOf(key).Some? && CsiKeyOf(key).value.CsiKey?) || Ss3KeyOf(key).Some?
  }

  /** The keys of a keyboard that a macro can use and a reader of its bytes can find again: arrows,
      navigation, F1 to F12, letters, digits and tab, with any modifiers. Left out are escape, whose
      byte begins all the others, Alt+Shift+O, whose bytes begin F1 to F4, and literals. */
  predicate Readable(s: Step) {
    s.Combo? &&
    (var key := Lower(s.key);
     && (IsNamed(key) || IsLetter(key) || IsNumeral(key) || key == "tab")
     && !(key == "o" && s.alt && s.shift && !s.ctrl))
  }

  /** The step that stands for all those that send the same bytes: digits have no Ctrl or Shift,
      Ctrl+letter no Shift, tab no Ctrl, back-tab nothing but Shift, and Ctrl+I is tab. */
  function Canonical(s: Step): Step {
    if s.Literal? then s else CanonicalCombo(s)
  }

  function CanonicalCombo(s: Step): Step
    requires s.Combo?
  {
    var key := Lower(s.key);
    if key == "tab" then (if s.shift then Combo(false, false, true, key) else Combo(false, s.alt, false, key))
    else if IsLetter(key) && s.ctrl then
      if key == "i" then Combo(false, s.alt, false, "tab") else Combo(true, s.alt, false, key)
    else if IsNumeral(key) then Combo(false, s.alt, false, key)
    else Combo(s.ctrl, s.alt, s.shift, key)
  }

  // ------------------------------------------------------------------ the reader

  function NumberOf(ds: seq<Byte>): nat
    requires forall d :: d in ds ==> IsDigit(d)
  {
    if ds == [] then 0
    else
      assert IsDigit(ds[|ds| - 1]);
      10 * NumberOf(ds[..|ds| - 1]) + ds[|ds| - 1] as int - 48
  }

  // How many digits come first.
  function DigitSpan(bs: seq<Byte>): (n: nat)
    ensures n <= |bs| && (forall d :: d in bs[..n] ==> IsDigit(d)) && (n < |bs| ==> !IsDigit(bs[n]))
  {
    if bs == [] || !IsDigit(bs[0]) then 0
    else
      assert bs == [bs[0]] + bs[1..];
      1 + DigitSpan(bs[1..])
  }

  function NamedKey(num: Option<nat>, final: Byte): Option<string> {
    if final == TILDE then
      match num
      case Some(5) => Some("page up")
      case Some(6) => Some("page down")
      case Some(15) => Some("f5")
      case Some(17) => Some("f6")
      case Some(18) => Some("f7")
      case Some(19) => Some("f8")
      case Some(20) => Some("f9")
      case Some(21) => Some("f10")
      case Some(23) => Some("f11")
      case Some(24) => Some("f12")
      case _ => None
    else if num != None && num != Some(1) then None
    else
      match final
      case 0x41 => Some("up")
      case 0x42 => Some("down")
      case 0x43 => Some("right")
      case 0x44 => Some("left")
      case 0x48 => Some("home")
      case 0x46 => Some("end")
      case 0x50 => Some("f1")
      case 0x51 => Some("f2")
      case 0x52 => Some("f3")
      case 0x53 => Some("f4")
      case _ => None
  }

  // A key with no escape sequence of its own, from its one byte.
  function ByteKey(b: Byte, alt: bool): Option<Step> {
    if b == 9 then Some(Combo(false, alt, false, "tab"))
    else if 1 <= b <= 26 then Some(Combo(true, alt, false, [(b + 96) as char]))
    else if IsDigit(b) || 97 <= b <= 122 then Some(Combo(false, alt, false, [b as char]))
    else if 65 <= b <= 90 then Some(Combo(false, alt, true, [(b + 32) as char]))
    else None
  }

  function NamedStep(num: Option<nat>, mod: nat, final: Byte): Option<Step> {
    match NamedKey(num, final)
    case None => None
    case Some(key) => Some(Combo((mod - 1) / 4 % 2 == 1, (mod - 1) / 2 % 2 == 1, (mod - 1) % 2 == 1, key))
  }

  // After ESC [ : an optional number, optionally ; and a modifier, and the final byte.
  function ReadCsi(bs: seq<Byte>): (r: Option<(Step, seq<Byte>)>)
    ensures r.Some? ==> |r.value.1| < |bs|
  {
    var n := DigitSpan(bs);
    ReadFinal(if n == 0 then None else Some(NumberOf(bs[..n])), bs[n..])
  }

  function ReadFinal(num: Option<nat>, bs: seq<Byte>): (r: Option<(Step, seq<Byte>)>)
    ensures r.Some? ==> |r.value.1| < |bs|
  {
    if bs == [] then None
    else if bs[0] == 0x5a then Some((Combo(false, false, true, "tab"), bs[1..]))
    else if bs[0] == SEMICOLON then ReadModifier(num, bs[1..])
    else Found(NamedStep(num, 1, bs[0]), bs[1..])
  }

  function ReadModifier(num: Option<nat>, bs: seq<Byte>): (r: Option<(Step, seq<Byte>)>)
    ensures r.Some? ==> |r.value.1| < |bs|
  {
    var m := DigitSpan(bs);
    if m == 0 || m == |bs| then None
    else Found(NamedStep(num, NumberOf(bs[..m]), bs[m]), bs[m + 1..])
  }

  function Found(s: Option<Step>, rest: seq<Byte>): Option<(Step, seq<Byte>)> {
    if s.None? then None else Some((s.value, rest))
  }

  function ReadStep(bs: seq<Byte>): (r: Option<(Step, seq<Byte>)>)
    ensures r.Some? ==> |r.value.1| < |bs|
  {
    if bs == [] then None
    else if bs[0] != ESC then Found(ByteKey(bs[0], false), bs[1..])
    else if |bs| == 1 then None
    else if bs[1] == CSI then ReadCsi(bs[2..])
    else if bs[1] == SS3 then (if |bs| == 2 then None else Found(NamedStep(None, 1, bs[2]), bs[3..]))
    else Found(ByteKey(bs[1], true), bs[2..])
  }

  function ReadSpec(bs: seq<Byte>): Option<seq<Step>>
    decreases |bs|
  {
    if bs == [] then Some([])
    else match ReadStep(bs)
      case None => None
      case Some((s, rest)) =>
        match ReadSpec(rest)
        case None => None
        case Some(more) => Some([s] + more)
  }

  // ------------------------------------------------------------------ the round trip

  lemma {:induction false} NumberRoundTrip(n: nat)
    ensures NumberOf(Digits(n)) == n
  {
    if n >= 10 {
      NumberRoundTrip(n / 10);
      assert Digits(n)[..|Digits(n)| - 1] == Digits(n / 10);
    }
  }

  lemma {:induction false} SpanIs(ds: seq<Byte>, rest: seq<Byte>)
    requires forall d :: d in ds ==> IsDigit(d)
    requires rest != [] && !IsDigit(rest[0])
    ensures DigitSpan(ds + rest) == |ds| && (ds + rest)[..|ds|] == ds && (ds + rest)[|ds|..] == rest
  {
    if ds == [] {
      assert ds + rest == rest;
    } else {
      assert (ds + rest)[1..] == ds[1..] + rest;
      SpanIs(ds[1..], rest);
    }
  }

  lemma NamedKeyInverts(key: string)
    ensures CsiKeyOf(key).Some? && CsiKeyOf(key).value.CsiKey? ==>
      var k := CsiKeyOf(key).value;
      NamedKey(k.num, k.final) == NamedKey(Some(k.num.GetOr(1)), k.final) == Some(key) &&
      !IsDigit(k.final) && k.final != SEMICOLON && k.final != 0x5a
    ensures Ss3KeyOf(key).Some? ==>
      var final := Ss3KeyOf(key).value;
      NamedKey(None, final) == NamedKey(Some(1), final) == Some(key) &&
      !IsDigit(final) && final != SEMICOLON && final != 0x5a
  {
  }

  lemma NamedStepInverts(ctrl: bool, alt: bool, shift: bool, num: Option<nat>, final: Byte, key: string)
    requires NamedKey(num, final) == Some(key)
    ensures NamedStep(num, ModifierCode(ctrl, alt, shift), final) == Some(Combo(ctrl, alt, shift, key))
  {
  }

  lemma ReadNumber(n: nat, rest: seq<Byte>)
    requires rest != [] && !IsDigit(rest[0])
    ensures ReadCsi(Digits(n) + rest) == ReadFinal(Some(n), rest)
  {
    SpanIs(Digits(n), rest);
    NumberRoundTrip(n);
  }

  lemma ReadModifierIs(num: Option<nat>, mod: nat, final: Byte, rest: seq<Byte>)
    requires !IsDigit(final)
    ensures ReadModifier(num, Digits(mod) + ([final] + rest)) == Found(NamedStep(num, mod, final), rest)
  {
    var bs := Digits(mod) + ([final] + rest);
    SpanIs(Digits(mod), [final] + rest);
    NumberRoundTrip(mod);
    assert bs[|Digits(mod)| + 1..] == rest;
  }

  lemma ReadsPlain(num: Option<nat>, final: Byte, key: string, rest: seq<Byte>)
    requires !IsDigit(final) && final != SEMICOLON && final != 0x5a && NamedKey(num, final) == Some(key)
    ensures ReadStep(EncodeCsi(CsiKey(num, final), 1) + rest) == Some((Combo(false, false, false, key), rest))
  {
    NamedStepInverts(false, false, false, num, final, key);
    var tail := [final] + rest;
    assert tail[1..] == rest;
    match num
    case None =>
      assert (EncodeCsi(CsiKey(num, final), 1) + rest)[2..] == tail;
      SpanIs([], tail);
      assert [] + tail == tail;
    case Some(n) =>
      assert (EncodeCsi(CsiKey(num, final), 1) + rest)[2..] == Digits(n) + tail;
      ReadNumber(n, tail);
  }

  lemma Regroup(a: seq<Byte>, b: seq<Byte>, c: seq<Byte>, d: seq<Byte>, rest: seq<Byte>)
    ensures [ESC, CSI] + a + b + c + d + rest == [ESC, CSI] + (a + (b + (c + (d + rest))))
  {
  }

  function Modified(n: nat, mod: nat, final: Byte): seq<Byte> {
    [ESC, CSI] + Digits(n) + [SEMICOLON] + Digits(mod) + [final]
  }

  lemma ReadsModified(n: nat, mod: nat, final: Byte, rest: seq<Byte>)
    requires !IsDigit(final)
    ensures ReadStep(Modified(n, mod, final) + rest) == Found(NamedStep(Some(n), mod, final), rest)
  {
    var tail := Digits(mod) + ([final] + rest);
    var after := Digits(n) + ([SEMICOLON] + tail);
    Regroup(Digits(n), [SEMICOLON], Digits(mod), [final], rest);
    assert ([ESC, CSI] + after)[2..] == after;
    ReadNumber(n, [SEMICOLON] + tail);
    assert ([SEMICOLON] + tail)[1..] == tail;
    ReadModifierIs(Some(n), mod, final, rest);
  }

  lemma ReadsCsiKey(ctrl: bool, alt: bool, shift: bool, key: string, rest: seq<Byte>)
    requires CsiKeyOf(key).Some? && CsiKeyOf(key).value.CsiKey?
    ensures ReadStep(EncodeCsi(CsiKeyOf(key).value, ModifierCode(ctrl, alt, shift)) + rest) ==
            Some((Combo(ctrl, alt, shift, key), rest))
  {
    NamedKeyInverts(key);
    var k := CsiKeyOf(key).value;
    if ModifierCode(ctrl, alt, shift) == 1 {
      ReadsPlain(k.num, k.final, key, rest);
    } else {
      ReadsModified(k.num.GetOr(1), ModifierCode(ctrl, alt, shift), k.final, rest);
      NamedStepInverts(ctrl, alt, shift, Some(k.num.GetOr(1)), k.final, key);
    }
  }

  lemma ReadsSs3Key(ctrl: bool, alt: bool, shift: bool, key: string, rest: seq<Byte>)
    requires Ss3KeyOf(key).Some?
    ensures ReadStep(EncodeSs3(Ss3KeyOf(key).value, ModifierCode(ctrl, alt, shift)) + rest) ==
            Some((Combo(ctrl, alt, shift, key), rest))
  {
    NamedKeyInverts(key);
    var final := Ss3KeyOf(key).value;
    var mod := ModifierCode(ctrl, alt, shift);
    if mod == 1 {
      NamedStepInverts(ctrl, alt, shift, None, final, key);
      assert ([ESC, SS3, final] + rest)[3..] == rest;
    } else {
      assert Digits(1) == [0x31];
      assert EncodeSs3(final, mod) == Modified(1, mod, final);
      ReadsModified(1, mod, final, rest);
      NamedStepInverts(ctrl, alt, shift, Some(1), final, key);
    }
  }

  lemma OneCharacter(key: string)
    requires |key| == 1
    ensures CsiKeyOf(key).None? && Ss3KeyOf(key).None? && key != "tab" && key != "escape"
    ensures key[0] as int < 0x80 ==> Utf8(key) == [key[0] as int]
    ensures key == [key[0]]
  {
    assert key[1..] == "";
  }

  lemma ReadsByte(b: Byte, alt: bool, rest: seq<Byte>)
    requires b != ESC && (alt ==> b != CSI && b != SS3)
    ensures ReadStep(WithAlt(alt, [b]) + rest) == Found(ByteKey(b, alt), rest)
  {
    assert alt ==> (WithAlt(alt, [b]) + rest)[2..] == rest;
    assert !alt ==> (WithAlt(alt, [b]) + rest)[1..] == rest;
  }

  lemma ReadsLetter(ctrl: bool, alt: bool, shift: bool, key: string, rest: seq<Byte>)
    requires IsLetter(key) && !(key == "o" && alt && shift && !ctrl)
    ensures ReadStep(EncodeCombo(ctrl, alt, shift, key) + rest) ==
            Some((Canonical(Combo(ctrl, alt, shift, key)), rest))
  {
    OneCharacter(key);
    assert Lower(key) == key;
    var upper := [UpperLetter(key[0])];
    OneCharacter(upper);
    if ctrl {
      ReadsByte(UpperLetter(key[0]) as int - 64, alt, rest);
    } else {
      ReadsByte(if shift then UpperLetter(key[0]) as int else key[0] as int, alt, rest);
    }
  }

  lemma ReadsNumeral(ctrl: bool, alt: bool, shift: bool, key: string, rest: seq<Byte>)
    requires IsNumeral(key)
    ensures ReadStep(EncodeCombo(ctrl, alt, shift, key) + rest) ==
            Some((Canonical(Combo(ctrl, alt, shift, key)), rest))
  {
    OneCharacter(key);
    assert Lower(key) == key;
    ReadsByte(key[0] as int, alt, rest);
  }

  lemma ReadsTab(ctrl: bool, alt: bool, shift: bool, rest: seq<Byte>)
    ensures ReadStep(EncodeCombo(ctrl, alt, shift, "tab") + rest) ==
            Some((Canonical(Combo(ctrl, alt, shift, "tab")), rest))
  {
    assert Lower("tab") == "tab";
    if shift {
      var tail := [0x5a] + rest;
      assert ([ESC, CSI, 0x5a] + rest)[2..] == tail && tail[1..] == rest;
      SpanIs([], tail);
      assert [] + tail == tail;
    } else {
      ReadsByte(9, alt, rest);
    }
  }

  lemma ReadsStep(s: Step, rest: seq<Byte>)
    requires Readable(s)
    ensures ReadStep(EncodeStep(s) + rest) == Some((Canonical(s), rest))
  {
    var key := Lower(s.key);
    LowerTwice(s.key);
    if key == "tab" {
      ReadsTab(s.ctrl, s.alt, s.shift, rest);
    } else if IsLetter(key) {
      ReadsLetter(s.ctrl, s.alt, s.shift, key, rest);
    } else if IsNumeral(key) {
      ReadsNumeral(s.ctrl, s.alt, s.shift, key, rest);
    } else if CsiKeyOf(key).Some? {
      NamedIsNamed(key);
      ReadsCsiKey(s.ctrl, s.alt, s.shift, key, rest);
    } else {
      NamedIsNamed(key);
      ReadsSs3Key(s.ctrl, s.alt, s.shift, key, rest);
    }
  }

  lemma NamedIsNamed(key: string)
    ensures IsNamed(key) ==> key != "tab" && key != "escape" && !IsLetter(key) && !IsNumeral(key)
    ensures CsiKeyOf(key).Some? ==> Ss3KeyOf(key).None?
  {
  }

  lemma LowerTwice(s: string)
    ensures Lower(Lower(s)) == Lower(s)
  {
  }

  function AllCanonical(spec: seq<Step>): seq<Step> {
    seq(|spec|, i requires 0 <= i < |spec| => Canonical(spec[i]))
  }

  /** A macro of readable keys, however long, is read back from its bytes, each step in canonical form. */
  lemma {:induction false} MacroRoundTrip(spec: seq<Step>)
    requires forall s :: s in spec ==> Readable(s)
    ensures ReadSpec(EncodeSpec(spec)) == Some(AllCanonical(spec))
  {
    if spec != [] {
      ReadsStep(spec[0], EncodeSpec(spec[1..]));
      MacroRoundTrip(spec[1..]);
      assert AllCanonical(spec) == [Canonical(spec[0])] + AllCanonical(spec[1..]);
      assert EncodeSpec(spec) != [];
    }
  }

  function LowerName(s: Step): Step {
    if s.Combo? then s.(key := Lower(s.key)) else s
  }

  function LowerNames(spec: seq<Step>): seq<Step> {
    seq(|spec|, i requires 0 <= i < |spec| => LowerName(spec[i]))
  }

  /** Arrows, navigation and function keys lose nothing but the case of their names. */
  lemma NamedKeysRoundTrip(spec: seq<Step>)
    requires forall s :: s in spec ==> s.Combo? && IsNamed(Lower(s.key))
    ensures ReadSpec(EncodeSpec(spec)) == Some(LowerNames(spec))
  {
    forall s | s in spec ensures Readable(s) && Canonical(s) == LowerName(s) {
      NamedIsNamed(Lower(s.key));
      assert IsLetter("o");
    }
    MacroRoundTrip(spec);
    assert AllCanonical(spec) == LowerNames(spec);
  }

  lemma CanonicalSendsTheSame(s: Step)
    requires Readable(s)
    ensures Readable(Canonical(s)) && EncodeStep(Canonical(s)) == EncodeStep(s)
  {
    LowerTwice(s.key);
    var key := Lower(s.key);
    NamedIsNamed(key);
    assert Lower("tab") == "tab" && Lower("i") == "i";
    if IsLetter(key) || IsNumeral(key) {
      OneCharacter(key);
    }
  }

  /** Two macros of readable keys send the same bytes exactly when they are step by step the same in
      canonical form: the encoding is injective but for the collapses Canonical lists. */
  lemma {:induction false} SameBytesExactlyWhenSameCanonically(a: seq<Step>, b: seq<Step>)
    requires forall s :: s in a ==> Readable(s)
    requires forall s :: s in b ==> Readable(s)
    ensures EncodeSpec(a) == EncodeSpec(b) <==> AllCanonical(a) == AllCanonical(b)
  {
    MacroRoundTrip(a);
    MacroRoundTrip(b);
    if AllCanonical(a) == AllCanonical(b) {
      CanonicalMacro(a);
      CanonicalMacro(b);
    }
  }

  lemma {:induction false} CanonicalMacro(spec: seq<Step>)
    requires forall s :: s in spec ==> Readable(s)
    ensures EncodeSpec(AllCanonical(spec)) == EncodeSpec(spec)
  {
    if spec != [] {
      CanonicalMacro(spec[1..]);
      CanonicalSendsTheSame(spec[0]);
      assert AllCanonical(spec)[1..] == AllCanonical(spec[1..]);
    }
  }

  lemma Rejoined(x: seq<Byte>, y: seq<Byte>)
    requires x <= y
    ensures x + y[|x|..] == y && y + [] == y
  {
  }

  /** No readable key's bytes begin another's, so a terminal never has to look ahead. */
  lemma PrefixFree(a: Step, b: Step)
    requires Readable(a) && Readable(b) && EncodeStep(a) <= EncodeStep(b)
    ensures Canonical(a) == Canonical(b) && EncodeStep(a) == EncodeStep(b)
  {
    var x, y := EncodeStep(a), EncodeStep(b);
    Rejoined(x, y);
    ReadsStep(a, y[|x|..]);
    ReadsStep(b, []);
  }

  lemma ShortMacros(a: Step, b: Step)
    ensures EncodeSpec([a]) == EncodeStep(a)
    ensures EncodeSpec([a, b]) == EncodeStep(a) + EncodeStep(b)
  {
    assert EncodeSpec([a]) == EncodeStep(a) + EncodeSpec([a][1..]);
    assert [a, b][1..] == [b] && [b][1..] == [];
    assert EncodeSpec([b]) == EncodeStep(b) + EncodeSpec([b][1..]);
  }

  lemma EncodesOneCharacter(alt: bool, shift: bool, key: string)
    requires IsLetter(key)
    ensures EncodeStep(Combo(false, alt, shift, key)) ==
            WithAlt(alt, [if shift then UpperLetter(key[0]) as int else key[0] as int])
  {
    assert Lower(key) == key;
    OneCharacter(key);
    OneCharacter([UpperLetter(key[0])]);
  }

  lemma EncodesNamed(key: string)
    requires Lower(key) == key
    ensures EncodeStep(Combo(false, false, false, key)) == EncodeCombo(false, false, false, key)
  {
  }

  /** Why Readable leaves out escape: Escape then b is Alt+b, and Escape then the text "[A" is the up arrow. */
  lemma EscapeIsAmbiguous()
    ensures EncodeSpec([Combo(false, false, false, "escape"), Combo(false, false, false, "b")]) ==
            EncodeSpec([Combo(false, true, false, "b")])
    ensures EncodeSpec([Combo(false, false, false, "escape"), Literal("[A", false)]) ==
            EncodeSpec([Combo(false, false, false, "up")])
  {
    var escape, b, up := Combo(false, false, false, "escape"), Combo(false, false, false, "b"), Combo(false, false, false, "up");
    EncodesNamed("escape");
    EncodesNamed("up");
    ShortMacros(escape, b);
    ShortMacros(Combo(false, true, false, "b"), b);
    EncodesOneCharacter(false, false, "b");
    EncodesOneCharacter(true, false, "b");
    ShortMacros(escape, Literal("[A", false));
    ShortMacros(up, b);
    assert "[A"[1..] == "A" && "A"[1..] == "";
    assert Utf8("[A") == Utf8Char('[') + Utf8("A") && Utf8("A") == Utf8Char('A') + Utf8("");
  }

  lemma EncodesF1()
    ensures EncodeCombo(false, false, false, "f1") == [ESC, SS3, 0x50]
  {
    assert CsiKeyOf("f1") == None && Ss3KeyOf("f1") == Some(0x50);
  }

  /** And why Alt+Shift+O: followed by Shift+P it is F1. */
  lemma AltShiftOIsAmbiguous()
    ensures EncodeSpec([Combo(false, true, true, "o"), Combo(false, false, true, "p")]) ==
            EncodeSpec([Combo(false, false, false, "f1")])
  {
    var o, p, f1 := Combo(false, true, true, "o"), Combo(false, false, true, "p"), Combo(false, false, false, "f1");
    EncodesNamed("f1");
    EncodesF1();
    ShortMacros(o, p);
    ShortMacros(f1, p);
    EncodesOneCharacter(true, true, "o");
    EncodesOneCharacter(false, true, "p");
  }

  // ------------------------------------------------------------------ text

  predicate Continues(b: Byte) {
    0x80 <= b < 0xC0
  }

  // The bits of a byte after its mark.
  function Payload(b: Byte, mark: nat): nat
    requires mark <= b
  {
    b - mark
  }

  // The character of a number, if it is a Unicode scalar value.
  function Scalar(v: nat): Option<char> {
    if v < 0xD800 || 0xE000 <= v < 0x110000 then Some(v as char) else None
  }

  // The character that bs begins with and how many bytes it takes, by the table of section 3 of RFC 3629.
  function ReadChar(bs: seq<Byte>): (r: Option<(char, nat)>)
    ensures r.Some? ==> 0 < r.value.1 <= |bs|
  {
    if bs == [] then None
    else if bs[0] < 0x80 then Some((bs[0] as char, 1))
    else if 0xC0 <= bs[0] < 0xE0 && |bs| >= 2 && Continues(bs[1])
    then Sized(Scalar(Payload(bs[0], 0xC0) * 0x40 + Payload(bs[1], 0x80)), 2)
    else if 0xE0 <= bs[0] < 0xF0 && |bs| >= 3 && Continues(bs[1]) && Continues(bs[2])
    then Sized(Scalar(Payload(bs[0], 0xE0) * 0x1000 + Payload(bs[1], 0x80) * 0x40 + Payload(bs[2], 0x80)), 3)
    else if 0xF0 <= bs[0] < 0xF8 && |bs| >= 4 && Continues(bs[1]) && Continues(bs[2]) && Continues(bs[3])
    then
      Sized(Scalar(Payload(bs[0], 0xF0) * 0x40000 + Payload(bs[1], 0x80) * 0x1000 + Payload(bs[2], 0x80) * 0x40 +
                   Payload(bs[3], 0x80)), 4)
    else None
  }

  function Sized(c: Option<char>, size: nat): (r: Option<(char, nat)>)
    ensures r.Some? ==> r.value.1 == size
  {
    match c
    case None => None
    case Some(x) => Some((x, size))
  }

  function ReadUtf8(bs: seq<Byte>): Option<string> {
    if bs == [] then Some("")
    else match ReadChar(bs)
      case None => None
      case Some((c, size)) =>
        match ReadUtf8(bs[size..])
        case None => None
        case Some(rest) => Some([c] + rest)
  }

  lemma SixBits(p: nat)
    requires p < 0x110000
    ensures p == p / 0x40 * 0x40 + p % 0x40
    ensures p / 0x1000 == p / 0x40 / 0x40 && p == p / 0x1000 * 0x1000 + p / 0x40 % 0x40 * 0x40 + p % 0x40
    ensures p / 0x40000 == p / 0x1000 / 0x40
    ensures p == p / 0x40000 * 0x40000 + p / 0x1000 % 0x40 * 0x1000 + p / 0x40 % 0x40 * 0x40 + p % 0x40
  {
  }

  lemma CharIsScalar(c: char)
    ensures Scalar(c as int) == Some(c) && c as int < 0x110000
  {
  }

  lemma CharReadsBack(c: char, rest: seq<Byte>)
    ensures ReadChar(Utf8Char(c) + rest) == Some((c, |Utf8Char(c)|))
  {
    SixBits(c as int);
    CharIsScalar(c);
  }

  lemma {:induction false} Utf8RoundTrip(s: string)
    ensures ReadUtf8(Utf8(s)) == Some(s)
  {
    if s != "" {
      Utf8RoundTrip(s[1..]);
      CharReadsBack(s[0], Utf8(s[1..]));
      assert (Utf8Char(s[0]) + Utf8(s[1..]))[|Utf8Char(s[0])|..] == Utf8(s[1..]);
      assert s == [s[0]] + s[1..];
    }
  }

  /** A literal is its text in UTF-8, and Enter adds one carriage return to it. */
  lemma LiteralIsItsText(text: string)
    ensures ReadUtf8(EncodeStep(Literal(text, false))) == Some(text)
    ensures EncodeStep(Literal(text, true)) == EncodeStep(Literal(text, false)) + [0x0d]
  {
    Utf8RoundTrip(text);
  }

  /** A key that is none of the named ones sends itself, in lower case, Alt putting an escape before it; Ctrl
      and Shift change nothing unless it is a letter. */
  lemma OtherKeysSendThemselves(ctrl: bool, alt: bool, shift: bool, key: string)
    requires var low := Lower(key);
      !IsLetter(low) && low != "escape" && low != "tab" && CsiKeyOf(low).None? && Ss3KeyOf(low).None?
    ensures var bytes := EncodeStep(Combo(ctrl, alt, shift, key));
      if alt then bytes != [] && bytes[0] == 0x1b && ReadUtf8(bytes[1..]) == Some(Lower(key))
      else ReadUtf8(bytes) == Some(Lower(key))
  {
    Utf8RoundTrip(Lower(key));
  }

  predicate KeyName(key: string) {
    key in ["escape", "tab", "up", "down", "right", "left", "home", "end", "page up", "page down",
            "f1", "f2", "f3", "f4", "f5", "f6", "f7", "f8", "f9", "f10", "f11", "f12"]
  }

  lemma NoNameNoSequence(key: string)
    requires !KeyName(key) && key != "constructor" && key != "__proto__"
    ensures CsiKeyOf(key).None? && Ss3KeyOf(key).None?
  {
  }

  lemma FirstIsRead(bs: seq<Byte>, text: string)
    requires bs != [] && bs[0] < 0x80 && ReadUtf8(bs) == Some(text)
    ensures text != "" && text[0] as int == bs[0]
  {
    assert ReadChar(bs) == Some((bs[0] as char, 1));
  }

  lemma InheritedSends(key: string)
    requires key == "constructor" || key == "__proto__"
    ensures EncodeCombo(false, false, false, key) == [0x1b, 0x5b] + Utf8("undefined") + [0]
  {
    assert CsiKeyOf(key) == Some(Inherited);
  }

  /** What is typed as a key that has no name of its own is sent as it is, in lower case, exactly if it is not
      the name of a property that every JavaScript object has: then the bytes of "undefined" are sent, in an
      escape sequence that ends with a zero byte. */
  lemma SentAsItIsExactly(key: string)
    requires !KeyName(Lower(key)) && !IsLetter(Lower(key))
    ensures var bytes, low := EncodeStep(Combo(false, false, false, key)), Lower(key);
      && (ReadUtf8(bytes) == Some(low) <==> low != "constructor" && low != "__proto__")
      && (low == "constructor" || low == "__proto__" ==> bytes == [0x1b, 0x5b] + Utf8("undefined") + [0])
  {
    var low := Lower(key);
    if low == "constructor" || low == "__proto__" {
      InheritedSends(low);
      var bytes := EncodeStep(Combo(false, false, false, key));
      if ReadUtf8(bytes) == Some(low) {
        FirstIsRead(bytes, low);
      }
    } else {
      NoNameNoSequence(low);
      OtherKeysSendThemselves(false, false, false, key);
    }
  }

  /** Alt puts an escape byte before whatever is not sent as an escape sequence, back-tab being one; the escape
      key is that byte itself, and Ctrl with a letter the letter's place in the alphabet. */
  lemma AltPutsAnEscapeBefore(ctrl: bool, shift: bool, key: string)
    ensures var low := Lower(key);
      CsiKeyOf(low).None? && Ss3KeyOf(low).None? && !(low == "tab" && shift) ==>
        EncodeStep(Combo(ctrl, true, shift, key)) == [0x1b] + EncodeStep(Combo(ctrl, false, shift, key))
    ensures Lower(key) == "escape" ==> EncodeStep(Combo(ctrl, false, shift, key)) == [0x1b]
    ensures Lower(key) == "tab" ==> EncodeStep(Combo(ctrl, false, shift, key)) == if shift then [0x1b, 0x5b, 0x5a] else [9]
    ensures |key| == 1 && 'a' <= key[0] <= 'z' ==> EncodeStep(Combo(true, false, shift, key)) == [key[0] as int - 96]
  {
    if |key| == 1 && 'a' <= key[0] <= 'z' {
      assert Lower(key) == key;
    }
  }

  // ------------------------------------------------------------------ the loop

  function Concat(parts: seq<seq<Byte>>): seq<Byte> {
    if parts == [] then [] else Concat(parts[..|parts| - 1]) + parts[|parts| - 1]
  }

  function Parts(spec: seq<Step>): seq<seq<Byte>> {
    seq(|spec|, i requires 0 <= i < |spec| => EncodeStep(spec[i]))
  }

  lemma {:induction false} ConcatCons(part: seq<Byte>, parts: seq<seq<Byte>>)
    ensures Concat([part] + parts) == part + Concat(parts)
  {
    if parts == [] {
      assert ([part] + parts)[..0] == [];
    } else {
      var init := parts[..|parts| - 1];
      assert ([part] + parts)[..|parts|] == [part] + init;
      ConcatCons(part, init);
    }
  }

  lemma FirstPart(spec: seq<Step>)
    requires spec != []
    ensures Parts(spec) == [EncodeStep(spec[0])] + Parts(spec[1..])
  {
  }

  lemma {:induction false} SpecIsItsParts(spec: seq<Step>)
    ensures EncodeSpec(spec) == Concat(Parts(spec))
  {
    if spec != [] {
      SpecIsItsParts(spec[1..]);
      FirstPart(spec);
      ConcatCons(EncodeStep(spec[0]), Parts(spec[1..]));
    }
  }

  lemma {:induction false} ConcatGrows(parts: seq<seq<Byte>>, k: nat)
    requires k <= |parts|
    ensures |Concat(parts[..k])| <= |Concat(parts)|
  {
    if k < |parts| {
      ConcatGrows(parts[..|parts| - 1], k);
      assert parts[..|parts| - 1][..k] == parts[..k];
    } else {
      assert parts[..k] == parts;
    }
  }

  // Uint8Array.set(part, offset)
  method SetAt(result: array<Byte>, part: seq<Byte>, offset: nat)
    requires offset + |part| <= result.Length
    modifies result
    ensures result[..offset + |part|] == old(result[..offset]) + part
  {
    forall k | 0 <= k < |part| {
      result[offset + k] := part[k];
    }
  }

  method TotalLength(parts: seq<seq<Byte>>) returns (total: nat)
    ensures total == |Concat(parts)|
  {
    total := 0;
    for i := 0 to |parts|
      invariant total == |Concat(parts[..i])|
    {
      assert parts[..i + 1][..i] == parts[..i];
      total := total + |parts[i]|;
    }
    assert parts[..|parts|] == parts;
  }

  // One part more, at its offset.
  method AddPart(result: array<Byte>, parts: seq<seq<Byte>>, i: nat, offset: nat) returns (next: nat)
    requires i < |parts| && result.Length == |Concat(parts)|
    requires offset <= result.Length && result[..offset] == Concat(parts[..i])
    modifies result
    ensures next <= result.Length && result[..next] == Concat(parts[..i + 1])
  {
    assert parts[..i + 1][..i] == parts[..i];
    ConcatGrows(parts, i + 1);
    next := offset + |parts[i]|;
    SetAt(result, parts[i], offset);
  }

  method Join(parts: seq<seq<Byte>>) returns (result: array<Byte>)
    ensures fresh(result) && result[..] == Concat(parts)
  {
    var total := TotalLength(parts);
    result := new Byte[total];
    var offset: nat := 0;
    for i := 0 to |parts|
      invariant offset <= result.Length && result[..offset] == Concat(parts[..i])
    {
      offset := AddPart(result, parts, i, offset);
    }
    assert parts[..|parts|] == parts;
    assert result[..] == result[..offset];
  }

  /** encodeSpec: the parts' total length first, then each part set at its offset. */
  method Encode(spec: seq<Step>) returns (result: array<Byte>)
    ensures fresh(result) && result[..] == EncodeSpec(spec)
  {
    SpecIsItsParts(spec);
    result := Join(Parts(spec));
  }
}
