/** Numerals, separators and the order of strings, as the printers and parsers of the repository use them. */
module Text {

  // ----- numerals -----

  predicate IsDigit(c: char, base: nat) {
    ('0' <= c <= '9' && c as int - '0' as int < base) || ('a' <= c <= 'f' && c as int - 'a' as int + 10 < base)
  }

  function DigitValue(c: char): nat
    requires IsDigit(c, 16)
  {
    if c <= '9' then c as int - '0' as int else c as int - 'a' as int + 10
  }

  function DigitChar(d: nat): (c: char)
    requires d < 16
    ensures IsDigit(c, 16) && DigitValue(c) == d
    ensures forall base: nat :: d < base ==> IsDigit(c, base)
  {
    if d < 10 then ('0' as int + d) as char else ('a' as int + (d - 10)) as char
  }

  /** The shortest numeral of n, lower-case: String(n) for base 10, toString(16) for base 16. */
  function Numeral(n: nat, base: nat): (s: string)
    requires 2 <= base <= 16
    ensures s != [] && AllDigits(s, base)
  {
    if n < base then [DigitChar(n)]
    else
      DivisionShrinks(n, base);
      Numeral(n / base, base) + [DigitChar(n % base)]
  }

  lemma {:induction false} DivisionShrinks(n: nat, base: nat)
    requires 2 <= base <= n
    ensures n == (n / base) * base + n % base && 0 <= n / base < n
  {
    var q := n / base;
    assert n == q * base + n % base;
    assert q <= 0 ==> q * base <= 0;
    assert q * base >= q * 2;
  }

  predicate AllDigits(s: string, base: nat) {
    forall i :: 0 <= i < |s| ==> IsDigit(s[i], base)
  }

  function Value(s: string, base: nat): nat
    requires base <= 16 && AllDigits(s, base)
  {
    if s == [] then 0 else Value(s[..|s| - 1], base) * base + DigitValue(s[|s| - 1])
  }

  lemma {:induction false} NumeralValue(n: nat, base: nat)
    requires 2 <= base <= 16
    ensures Value(Numeral(n, base), base) == n
  {
    var s := Numeral(n, base);
    if n < base {
      assert s[..0] == [];
    } else {
      DivisionShrinks(n, base);
      NumeralValue(n / base, base);
      assert s[..|s| - 1] == Numeral(n / base, base);
    }
  }

  // ----- prefixes and white space -----

  predicate StartsWith(s: string, prefix: string) {
    prefix == [] || (s != [] && s[0] == prefix[0] && StartsWith(s[1..], prefix[1..]))
  }

  lemma {:induction false} PrefixStarts(prefix: string, rest: string)
    ensures StartsWith(prefix + rest, prefix)
  {
    if prefix != [] {
      assert (prefix + rest)[1..] == prefix[1..] + rest;
      PrefixStarts(prefix[1..], rest);
    }
  }

  predicate IsSpace(c: char) {
    || c == ' ' || '\t' <= c <= '\r' || c == '\U{A0}' || c == '\U{1680}' || '\U{2000}' <= c <= '\U{200A}'
    || c == '\U{2028}' || c == '\U{2029}' || c == '\U{202F}' || c == '\U{205F}' || c == '\U{3000}' || c == '\U{FEFF}'
  }

  function SkipSpaces(s: string): string {
    if s != [] && IsSpace(s[0]) then SkipSpaces(s[1..]) else s
  }

  lemma {:induction false} DigitNotSpace(c: char)
    requires IsDigit(c, 10)
    ensures !IsSpace(c)
  {
  }

  // ----- separators -----

  function Join(parts: seq<string>, separator: char): string {
    if parts == [] then []
    else if |parts| == 1 then parts[0]
    else parts[0] + [separator] + Join(parts[1..], separator)
  }

  function EntryText(id: string, count: nat): (s: string)
    ensures s != []
  {
    id + ":" + Numeral(count, 10)
  }

  /** The last colon ends the id, whatever the id holds. */
  lemma {:induction false} EntryTextInjective(a: string, x: nat, b: string, y: nat)
    requires EntryText(a, x) == EntryText(b, y)
    ensures a == b && x == y
  {
    var s, n, k := EntryText(a, x), Numeral(x, 10), Numeral(y, 10);
    assert s[|s| - |n| - 1] == ':' && s[|s| - |k| - 1] == ':';
    assert forall i :: |s| - |n| <= i < |s| ==> s[i] == n[i - (|s| - |n|)];
    assert forall i :: |s| - |k| <= i < |s| ==> s[i] == k[i - (|s| - |k|)];
    assert |n| == |k|;
    assert a == s[..|a|] && b == s[..|b|];
    assert n == s[|a| + 1..] && k == s[|b| + 1..];
    NumeralValue(x, 10);
    NumeralValue(y, 10);
  }

  /** The text ends like an entry: a colon and digits. */
  predicate EndsInCount(s: string) {
    exists k :: 0 <= k < |s| - 1 && s[k] == ':' && AllDigits(s[k + 1..], 10)
  }

  /** Inside the text a separator follows what looks like the end of an entry. */
  predicate Breaks(s: string) {
    exists i :: 0 <= i < |s| && s[i] == '|' && EndsInCount(s[..i])
  }

  /** A text that ends in a count and cannot be broken before its end. */
  predicate IsPart(s: string) {
    EndsInCount(s) && !Breaks(s)
  }

  /** The text of an entry can be broken early only if its id can. */
  lemma {:induction false} EntryIsPart(id: string, count: nat)
    requires !Breaks(id)
    ensures IsPart(EntryText(id, count))
  {
    var s, n := EntryText(id, count), Numeral(count, 10);
    NumeralValue(count, 10);
    assert s[|id|] == ':' && s[|id| + 1..] == n;
    assert forall k :: |id| < k < |s| ==> s[k] == n[k - |id| - 1] && IsDigit(s[k], 10);
    forall i | 0 <= i < |s| && s[i] == '|' ensures !EndsInCount(s[..i]) {
      assert s[..i] == id[..i] && id[i] == '|';
    }
  }

  /** Of two joined texts that agree, a longer first part holds the first separator of the other. */
  lemma {:induction false} LongerPartBreaks(p: seq<string>, q: seq<string>)
    requires p != [] && q != [] && EndsInCount(p[0]) && Join(p, '|') == Join(q, '|')
    ensures |p[0]| < |q[0]| ==> Breaks(q[0])
  {
    var s := Join(p, '|');
    if |p[0]| < |q[0]| {
      assert |p| >= 2 && s[|p[0]|] == '|' && s[..|p[0]|] == p[0];
      assert q[0] == s[..|q[0]|];
      assert q[0][..|p[0]|] == p[0] && q[0][|p[0]|] == '|';
    }
  }

  /** Joined parts can be told apart. */
  lemma {:induction false} JoinInjective(p: seq<string>, q: seq<string>)
    requires forall s :: s in p || s in q ==> IsPart(s)
    requires Join(p, '|') == Join(q, '|')
    ensures p == q
  {
    assert (p != [] ==> p[0] in p) && (q != [] ==> q[0] in q);
    if p != [] && q != [] {
      LongerPartBreaks(p, q);
      LongerPartBreaks(q, p);
      assert p[0] == Join(p, '|')[..|p[0]|] && q[0] == Join(q, '|')[..|q[0]|];
      if |p| >= 2 && |q| >= 2 {
        assert Join(p, '|')[|p[0]| + 1..] == Join(p[1..], '|') && Join(q, '|')[|q[0]| + 1..] == Join(q[1..], '|');
        assert forall s :: s in p[1..] || s in q[1..] ==> s in p || s in q;
        JoinInjective(p[1..], q[1..]);
      }
      assert p == [p[0]] + p[1..] && q == [q[0]] + q[1..];
    }
  }

  /** a < b by the first character in which they differ. */
  predicate Less(a: string, b: string) {
    b != [] && (a == [] || a[0] < b[0] || (a[0] == b[0] && Less(a[1..], b[1..])))
  }

  lemma {:induction false} LessTotal(a: string, b: string)
    ensures a == b || Less(a, b) || Less(b, a)
  {
    if a != [] && b != [] && a[0] == b[0] {
      LessTotal(a[1..], b[1..]);
      assert a == [a[0]] + a[1..] && b == [b[0]] + b[1..];
    }
  }

  lemma {:induction false} LessTransitive(a: string, b: string, c: string)
    requires Less(a, b) && Less(b, c)
    ensures Less(a, c)
  {
    if a != [] && a[0] == b[0] == c[0] { LessTransitive(a[1..], b[1..], c[1..]); }
  }

  lemma {:induction false} LessIrreflexive(a: string)
    ensures !Less(a, a)
  {
    if a != [] { LessIrreflexive(a[1..]); }
  }
}
