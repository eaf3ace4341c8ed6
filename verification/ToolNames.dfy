/** The reversible encoding of tool names for providers that accept only ASCII names. */
module ToolNames {
  import opened Options
  import Sequences
  import Text

  newtype CodePoint = c: int | 0 <= c < 0x110000

  /** The code points of an ASCII text. */
  function Points(s: string): (p: seq<CodePoint>)
    ensures |p| == |s| && forall i :: 0 <= i < |s| ==> p[i] == Point(s[i])
  {
    seq(|s|, i requires 0 <= i < |s| => Point(s[i]))
  }

  function Point(c: char): CodePoint {
    c as int as CodePoint
  }

  const UNDERSCORE: CodePoint := 95
  const LETTER_X: CodePoint := 120
  const PREFIX: seq<CodePoint> := [99, 108, 110, 95]

  predicate IsDecimal(c: CodePoint) {
    48 <= c <= 57
  }

  predicate IsPlain(c: CodePoint) {
    IsDecimal(c) || 65 <= c <= 90 || 97 <= c <= 122 || c == 45
  }

  predicate AllSafe(name: seq<CodePoint>) {
    forall i :: 0 <= i < |name| ==> IsPlain(name[i]) || name[i] == UNDERSCORE
  }

  /** Letters, digits, underscore and hyphen only, and not empty. */
  predicate IsProviderSafe(name: seq<CodePoint>) {
    name != [] && AllSafe(name)
  }

  predicate HasPrefix(name: seq<CodePoint>) {
    |name| >= 4 && name[..4] == PREFIX
  }

  // ----- encoding -----

  function Hex(c: CodePoint): seq<CodePoint> {
    Points(Text.Numeral(c as nat, 16))
  }

  function EncodePoint(c: CodePoint): seq<CodePoint> {
    if IsPlain(c) then [c] else [UNDERSCORE, LETTER_X] + Hex(c) + [UNDERSCORE]
  }

  function EncodeAll(name: seq<CodePoint>): seq<CodePoint> {
    if name == [] then [] else EncodePoint(name[0]) + EncodeAll(name[1..])
  }

  function Encode(name: seq<CodePoint>): seq<CodePoint> {
    if IsProviderSafe(name) && !HasPrefix(name) then name else PREFIX + EncodeAll(name)
  }

  // ----- decoding -----

  predicate IsBlank(c: CodePoint) {
    || c == 32 || 9 <= c <= 13 || c == 0xA0 || c == 0x1680 || 0x2000 <= c <= 0x200A || c == 0x2028 || c == 0x2029 || c == 0x202F || c == 0x205F
    || c == 0x3000 || c == 0xFEFF
  }

  function SkipBlanks(s: seq<CodePoint>): seq<CodePoint> {
    if s != [] && IsBlank(s[0]) then SkipBlanks(s[1..]) else s
  }

  function HexDigit(c: CodePoint): Option<nat> {
    if IsDecimal(c) then Some(c as int - 48) else if 97 <= c <= 102 then Some(c as int - 87) else if 65 <= c <= 70 then Some(c as int - 55) else None
  }

  /** The longest prefix of hexadecimal digits, read after `so far`; absent without a digit. */
  function ReadDigits(s: seq<CodePoint>, soFar: Option<nat>): Option<nat>
    decreases s
  {
    if s == [] || HexDigit(s[0]).None? then soFar
    else ReadDigits(s[1..], Some((if soFar.Some? then soFar.value else 0) * 16 + HexDigit(s[0]).value))
  }

  /** parseInt with radix 16: blanks, a sign, an optional 0x, then as many digits as there are. */
  function ParseHex(s: seq<CodePoint>): Option<int> {
    var t := SkipBlanks(s);
    var negative := t != [] && t[0] == 45;
    var u := if t != [] && (t[0] == 45 || t[0] == 43) then t[1..] else t;
    var v := if |u| >= 2 && u[0] == 48 && (u[1] == 120 || u[1] == 88) then u[2..] else u;
    var n := ReadDigits(v, None);
    if n.None? then None
    else
      var value: int := n.value;
      Some(if negative then -value else value)
  }

  function IndexOfUnderscore(s: seq<CodePoint>, from: nat): (k: int)
    requires from <= |s|
    ensures k == -1 || from <= k < |s|
    decreases |s| - from
  {
    if from == |s| then -1 else if s[from] == UNDERSCORE then from else IndexOfUnderscore(s, from + 1)
  }

  /** What the text from index i on decodes to; absent when an escape is broken. */
  function DecodeFrom(s: seq<CodePoint>, i: nat): Option<seq<CodePoint>>
    requires i <= |s|
    decreases |s| - i
  {
    if i == |s| then Some([])
    else if s[i] != UNDERSCORE || i + 1 == |s| || s[i + 1] != LETTER_X then Prepend(s[i], DecodeFrom(s, i + 1))
    else
      var end := IndexOfUnderscore(s, i + 2);
      if end < 0 then None
      else
        var c := ParseHex(s[i + 2..end]);
        if c.None? || c.value < 0 || c.value > 0x10FFFF then None else Prepend(c.value as CodePoint, DecodeFrom(s, end + 1))
  }

  function Prepend(c: CodePoint, rest: Option<seq<CodePoint>>): Option<seq<CodePoint>> {
    if rest.None? then None else Some([c] + rest.value)
  }

  function Decode(name: seq<CodePoint>): seq<CodePoint> {
    if !HasPrefix(name) then name
    else
      var decoded := DecodeFrom(name[4..], 0);
      if decoded.None? then name else decoded.value
  }

  /** The index loop of the decoder. */
  method DecodeOpenAiToolName(name: seq<CodePoint>) returns (decoded: seq<CodePoint>)
    ensures decoded == Decode(name)
  {
    if !HasPrefix(name) { return name; }
    var encoded := name[4..];
    decoded := [];
    var index := 0;
    if DecodeFrom(encoded, 0).Some? { Sequences.Unit(DecodeFrom(encoded, 0).value); }
    while index < |encoded|
      invariant 0 <= index <= |encoded|
      invariant DecodeFrom(encoded, 0) == AppendTo(decoded, DecodeFrom(encoded, index))
    {
      if encoded[index] != UNDERSCORE || index + 1 == |encoded| || encoded[index + 1] != LETTER_X {
        AppendPrepend(decoded, encoded[index], DecodeFrom(encoded, index + 1));
        decoded := decoded + [encoded[index]];
        index := index + 1;
      } else {
        var end := IndexOfUnderscore(encoded, index + 2);
        if end < 0 { return name; }
        var codePoint := ParseHex(encoded[index + 2..end]);
        if codePoint.None? || codePoint.value < 0 || codePoint.value > 0x10FFFF { return name; }
        AppendPrepend(decoded, codePoint.value as CodePoint, DecodeFrom(encoded, end + 1));
        decoded := decoded + [codePoint.value as CodePoint];
        index := end + 1;
      }
    }
    Sequences.Unit(decoded);
  }

  function AppendTo(a: seq<CodePoint>, rest: Option<seq<CodePoint>>): Option<seq<CodePoint>> {
    if rest.None? then None else Some(a + rest.value)
  }

  lemma {:induction false} AppendPrepend(a: seq<CodePoint>, c: CodePoint, rest: Option<seq<CodePoint>>)
    ensures AppendTo(a, Prepend(c, rest)) == AppendTo(a + [c], rest)
  {
    if rest.Some? { Sequences.Associative(a, [c], rest.value); }
  }

  // ----- round trip -----

  lemma {:induction false} DigitRead(c: char)
    requires Text.IsDigit(c, 16)
    ensures HexDigit(Point(c)) == Some(Text.DigitValue(c)) && Point(c) != UNDERSCORE && IsPlain(Point(c))
    ensures !IsBlank(Point(c)) && Point(c) != 45 && Point(c) != 43 && Point(c) != 120 && Point(c) != 88
  {
  }

  lemma {:induction false} ReadAll(s: string, last: char, soFar: Option<nat>)
    requires Text.AllDigits(s, 16) && Text.IsDigit(last, 16)
    ensures ReadDigits(Points(s + [last]), soFar) == Some((if ReadDigits(Points(s), soFar).Some? then ReadDigits(Points(s), soFar).value else 0) * 16 + Text.DigitValue(last))
    decreases s
  {
    var p := Points(s + [last]);
    if s == [] {
      DigitRead(last);
      assert p[1..] == [];
    } else {
      DigitRead(s[0]);
      assert (s + [last])[0] == s[0] && (s + [last])[1..] == s[1..] + [last];
      assert p[1..] == Points(s[1..] + [last]) && Points(s)[1..] == Points(s[1..]);
      ReadAll(s[1..], last, Some((if soFar.Some? then soFar.value else 0) * 16 + HexDigit(Point(s[0])).value));
    }
  }

  /** Reading digits from left to right gives their value. */
  lemma {:induction false} ReadValue(s: string)
    requires Text.AllDigits(s, 16)
    ensures ReadDigits(Points(s), None) == if s == [] then None else Some(Text.Value(s, 16))
    decreases |s|
  {
    if s != [] {
      var front, last := s[..|s| - 1], s[|s| - 1];
      assert s == front + [last];
      ReadValue(front);
      ReadAll(front, last, None);
    }
  }

  lemma {:induction false} ParseNumeral(c: CodePoint)
    ensures ParseHex(Hex(c)) == Some(c as int)
  {
    var s := Text.Numeral(c as nat, 16);
    var h := Hex(c);
    assert h[0] == Point(s[0]);
    DigitRead(s[0]);
    if |s| >= 2 {
      DigitRead(s[1]);
      assert h[1] == Point(s[1]);
    }
    ReadValue(s);
    Text.NumeralValue(c as nat, 16);
  }

  lemma {:induction false} HexPlain(c: CodePoint)
    ensures forall i :: 0 <= i < |Hex(c)| ==> IsPlain(Hex(c)[i]) && Hex(c)[i] != UNDERSCORE
  {
    var s := Text.Numeral(c as nat, 16);
    forall i | 0 <= i < |s| ensures IsPlain(Hex(c)[i]) && Hex(c)[i] != UNDERSCORE {
      DigitRead(s[i]);
    }
  }

  lemma {:induction false} FirstUnderscore(s: seq<CodePoint>, from: nat, k: nat)
    requires from <= k < |s| && s[k] == UNDERSCORE && forall i :: from <= i < k ==> s[i] != UNDERSCORE
    ensures IndexOfUnderscore(s, from) == k
    decreases k - from
  {
    if from < k { FirstUnderscore(s, from + 1, k); }
  }

  lemma {:induction false} HexEnd(s: seq<CodePoint>, from: nat, c: CodePoint)
    requires from + |Hex(c)| < |s| && s[from..from + |Hex(c)|] == Hex(c) && s[from + |Hex(c)|] == UNDERSCORE
    ensures IndexOfUnderscore(s, from) == from + |Hex(c)|
  {
    var h := Hex(c);
    HexPlain(c);
    forall k | from <= k < from + |h| ensures s[k] != UNDERSCORE {
      assert s[k] == s[from..from + |h|][k - from];
    }
    FirstUnderscore(s, from, from + |h|);
  }

  lemma {:induction false} DecodeEscape(s: seq<CodePoint>, i: nat, c: CodePoint)
    requires i + 3 + |Hex(c)| <= |s| && s[i] == UNDERSCORE && s[i + 1] == LETTER_X
    requires s[i + 2..i + 2 + |Hex(c)|] == Hex(c) && s[i + 2 + |Hex(c)|] == UNDERSCORE
    ensures DecodeFrom(s, i) == Prepend(c, DecodeFrom(s, i + 3 + |Hex(c)|))
  {
    HexEnd(s, i + 2, c);
    ParseNumeral(c);
  }

  /** One encoded code point in the middle of a text decodes to that code point. */
  lemma {:induction false} DecodePoint(s: seq<CodePoint>, i: nat, c: CodePoint)
    requires i + |EncodePoint(c)| <= |s| && s[i..i + |EncodePoint(c)|] == EncodePoint(c)
    ensures DecodeFrom(s, i) == Prepend(c, DecodeFrom(s, i + |EncodePoint(c)|))
  {
    var e, h := EncodePoint(c), Hex(c);
    var part := s[i..i + |e|];
    assert part[0] == s[i];
    if !IsPlain(c) {
      assert part[1] == s[i + 1] && part[2 + |h|] == s[i + 2 + |h|];
      Sequences.Middle([UNDERSCORE, LETTER_X], h, [UNDERSCORE]);
      assert part[2..2 + |h|] == h;
      Sequences.SliceOfSlice(s, i, |e|, 2, 2 + |h|);
      DecodeEscape(s, i, c);
    }
  }

  /** From index i to the end, s is the encoding of the name. */
  predicate Spells(s: seq<CodePoint>, i: nat, name: seq<CodePoint>)
    decreases name
  {
    if name == [] then i == |s|
    else
      var j := i + |EncodePoint(name[0])|;
      j <= |s| && s[i..j] == EncodePoint(name[0]) && Spells(s, j, name[1..])
  }

  lemma {:induction false} EncodingSpells(s: seq<CodePoint>, before: seq<CodePoint>, name: seq<CodePoint>)
    requires s == before + EncodeAll(name)
    ensures Spells(s, |before|, name)
    decreases name
  {
    if name == [] {
      Sequences.Unit(before);
    } else {
      var e, rest := EncodePoint(name[0]), EncodeAll(name[1..]);
      Parts(s, before, e, rest);
      EncodingSpells(s, before + e, name[1..]);
      assert |before + e| == |before| + |e|;
      OneMoreSpelled(s, |before|, |before| + |e|, name);
    }
  }

  lemma {:induction false} OneMoreSpelled(s: seq<CodePoint>, i: nat, j: nat, name: seq<CodePoint>)
    requires name != [] && i <= j <= |s| && s[i..j] == EncodePoint(name[0]) && Spells(s, j, name[1..])
    ensures Spells(s, i, name)
  {
    assert |s[i..j]| == j - i;
  }

  lemma {:induction false} Parts(s: seq<CodePoint>, before: seq<CodePoint>, e: seq<CodePoint>, rest: seq<CodePoint>)
    requires s == before + (e + rest)
    ensures s == (before + e) + rest && |before| + |e| <= |s| && s[|before|..|before| + |e|] == e
  {
    Sequences.Associative(before, e, rest);
    Sequences.Middle(before, e, rest);
  }

  lemma {:induction false} DecodeSpelled(s: seq<CodePoint>, i: nat, name: seq<CodePoint>)
    requires i <= |s| && Spells(s, i, name)
    ensures DecodeFrom(s, i) == Some(name)
    decreases name
  {
    if name != [] {
      var j := i + |EncodePoint(name[0])|;
      DecodeSpelled(s, j, name[1..]);
      DecodePoint(s, i, name[0]);
      assert name == [name[0]] + name[1..];
    }
  }

  /** Decoding undoes encoding, for every sequence of code points. */
  lemma {:induction false} RoundTrip(name: seq<CodePoint>)
    ensures Decode(Encode(name)) == name
  {
    if !(IsProviderSafe(name) && !HasPrefix(name)) {
      var encoded := PREFIX + EncodeAll(name);
      assert encoded[..4] == PREFIX && encoded[4..] == EncodeAll(name);
      Sequences.Unit(EncodeAll(name));
      EncodingSpells(EncodeAll(name), [], name);
      DecodeSpelled(EncodeAll(name), 0, name);
    }
  }

  /** No two names share an encoding. */
  lemma {:induction false} EncodeInjective(a: seq<CodePoint>, b: seq<CodePoint>)
    requires Encode(a) == Encode(b)
    ensures a == b
  {
    RoundTrip(a);
    RoundTrip(b);
  }

  lemma {:induction false} EncodeAllSafe(name: seq<CodePoint>)
    ensures AllSafe(EncodeAll(name))
  {
    if name != [] {
      EncodeAllSafe(name[1..]);
      HexPlain(name[0]);
    }
  }

  /** Every encoded name is accepted by the providers. */
  lemma {:induction false} EncodedSafe(name: seq<CodePoint>)
    ensures IsProviderSafe(Encode(name))
  {
    EncodeAllSafe(name);
  }
}
