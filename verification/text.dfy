/** String helpers shared by the model: the JavaScript character classes
    the source's regular expressions use, ASCII case mapping, substring
    search, `split`, and decimal rendering of naturals. */
module Text {
  import opened Wrappers

  predicate IsDigit(c: char) {
    '0' <= c <= '9'
  }

  predicate AllDigits(s: string) {
    forall i :: 0 <= i < |s| ==> IsDigit(s[i])
  }

  /** The characters of JavaScript's `\s` class (also what `trim` removes). */
  predicate IsJsSpace(c: char) {
    c == '\t' || c == '\n' || c == '\U{000B}' || c == '\U{000C}' || c == '\r'
    || c == ' ' || c == '\U{00A0}' || c == '\U{1680}'
    || ('\U{2000}' <= c <= '\U{200A}')
    || c == '\U{2028}' || c == '\U{2029}' || c == '\U{202F}' || c == '\U{205F}'
    || c == '\U{3000}' || c == '\U{FEFF}'
  }

  /** The characters at which a regular-expression `.` stops. */
  predicate IsLineTerminator(c: char) {
    c == '\n' || c == '\r' || c == '\U{2028}' || c == '\U{2029}'
  }

  /** `s.replace(/[^0-9]/g, '')`: the digits of `s`, in order. */
  function Digits(s: string): (r: string)
    ensures AllDigits(r)
    ensures |r| <= |s|
    ensures AllDigits(s) ==> r == s
  {
    if s == [] then []
    else (if IsDigit(s[0]) then [s[0]] else []) + Digits(s[1..])
  }

  lemma {:induction false} DigitsAppend(a: string, b: string)
    ensures Digits(a + b) == Digits(a) + Digits(b)
  {
    if a == [] {
      assert a + b == b;
    } else {
      assert (a + b)[1..] == a[1..] + b;
      DigitsAppend(a[1..], b);
    }
  }

  /** `s.replace(/\s/g, '')`: `s` without its whitespace. */
  function RemoveSpaces(s: string): (r: string)
    ensures forall i :: 0 <= i < |r| ==> !IsJsSpace(r[i])
    ensures |r| <= |s|
  {
    if s == [] then []
    else (if IsJsSpace(s[0]) then [] else [s[0]]) + RemoveSpaces(s[1..])
  }

  /** `!s.trim()`: the string has nothing but whitespace. */
  predicate IsBlank(s: string) {
    forall i :: 0 <= i < |s| ==> IsJsSpace(s[i])
  }

  /** `toLowerCase` restricted to ASCII letters. */
  function LowerChar(c: char): (r: char)
    ensures 'A' <= c <= 'Z' ==> 'a' <= r <= 'z'
    ensures !('A' <= c <= 'Z') ==> r == c
  {
    if 'A' <= c <= 'Z' then (c as int + 32) as char else c
  }

  function Lower(s: string): (r: string)
    ensures |r| == |s|
    ensures forall i :: 0 <= i < |s| ==> r[i] == LowerChar(s[i])
  {
    if s == [] then [] else [LowerChar(s[0])] + Lower(s[1..])
  }

  lemma LowerIdempotent(s: string)
    ensures Lower(Lower(s)) == Lower(s)
  {
  }

  lemma LowerAppend(a: string, b: string)
    ensures Lower(a + b) == Lower(a) + Lower(b)
  {
  }

  /** Text without upper-case letters is its own lower case. */
  lemma LowerOfLower(s: string)
    requires forall i :: 0 <= i < |s| ==> !('A' <= s[i] <= 'Z')
    ensures Lower(s) == s
  {
  }

  /** A piece without upper-case letters survives lower-casing around it. */
  lemma LoweredInfix(pre: string, sub: string, post: string)
    requires forall i :: 0 <= i < |sub| ==> !('A' <= sub[i] <= 'Z')
    ensures Contains(Lower(pre + sub + post), sub)
  {
    LowerAppend(pre + sub, post);
    LowerAppend(pre, sub);
    LowerOfLower(sub);
    ContainsSelf(sub);
    ContainsExtend(Lower(pre), sub, Lower(post), sub);
  }

  /** The first letter upper-cased (ASCII), the rest unchanged. */
  function Capitalize(s: string): (r: string)
    ensures |r| == |s|
    ensures s != [] ==> r[1..] == s[1..]
    ensures s != [] && 'a' <= s[0] <= 'z' ==> r[0] as int == s[0] as int - 32
    ensures s != [] && !('a' <= s[0] <= 'z') ==> r[0] == s[0]
  {
    if s == [] then []
    else if 'a' <= s[0] <= 'z' then [(s[0] as int - 32) as char] + s[1..]
    else s
  }

  predicate StartsWith(s: string, prefix: string) {
    |prefix| <= |s| && s[..|prefix|] == prefix
  }

  /** `sub` occurs in `s` starting at index `i`. */
  predicate OccursAt(s: string, sub: string, i: int) {
    0 <= i && i + |sub| <= |s| && s[i..i + |sub|] == sub
  }

  /** `s.includes(sub)`. */
  predicate Contains(s: string, sub: string) {
    exists i | 0 <= i <= |s| :: OccursAt(s, sub, i)
  }

  lemma ContainsEmpty(s: string)
    ensures Contains(s, "")
  {
    assert OccursAt(s, "", 0);
  }

  lemma ContainsSelf(s: string)
    ensures Contains(s, s)
  {
    assert OccursAt(s, s, 0);
  }

  /** Appending on either side keeps a substring a substring. */
  lemma ContainsExtend(a: string, s: string, b: string, sub: string)
    requires Contains(s, sub)
    ensures Contains(a + s + b, sub)
  {
    var i :| 0 <= i <= |s| && OccursAt(s, sub, i);
    assert 0 <= i && i + |sub| <= |s| && s[i..i + |sub|] == sub;
    var t := a + s + b;
    assert t[|a| + i..|a| + i + |sub|] == s[i..i + |sub|];
    assert OccursAt(t, sub, |a| + i);
  }

  /** A regular expression `/A.*B/`: an occurrence of `a`, followed, on the
      same line, by an occurrence of `b`. */
  predicate MatchesThen(s: string, a: string, b: string) {
    exists i | 0 <= i <= |s| :: OccursAt(s, a, i) && Contains(LinePrefix(s[i + |a|..]), b)
  }

  /** The part of `s` before its first line terminator. */
  function LinePrefix(s: string): (r: string)
    ensures |r| <= |s| && r == s[..|r|]
    ensures forall i :: 0 <= i < |r| ==> !IsLineTerminator(r[i])
    ensures |r| < |s| ==> IsLineTerminator(s[|r|])
  {
    if s == [] || IsLineTerminator(s[0]) then [] else [s[0]] + LinePrefix(s[1..])
  }

  lemma {:induction false} LinePrefixOfClean(s: string)
    requires forall i :: 0 <= i < |s| ==> !IsLineTerminator(s[i])
    ensures LinePrefix(s) == s
  {
    if s != [] {
      LinePrefixOfClean(s[1..]);
    }
  }

  /** Index of the first `sep` in `s`, or `|s|` when there is none. */
  function FirstIndex(s: string, sep: char): (k: nat)
    ensures k <= |s|
    ensures forall i :: 0 <= i < k ==> s[i] != sep
    ensures k < |s| ==> s[k] == sep
  {
    if s == [] then 0 else if s[0] == sep then 0 else 1 + FirstIndex(s[1..], sep)
  }

  /** `s.split(sep)` for a one-character separator. */
  function Split(s: string, sep: char): (parts: seq<string>)
    ensures |parts| >= 1
    decreases |s|
  {
    var k := FirstIndex(s, sep);
    if k == |s| then [s] else [s[..k]] + Split(s[k + 1..], sep)
  }

  /** Splitting after a separator-free head yields that head first. */
  lemma SplitCons(head: string, sep: char, rest: string)
    requires sep !in head
    ensures Split(head + [sep] + rest, sep) == [head] + Split(rest, sep)
  {
    var s := head + [sep] + rest;
    assert forall i :: 0 <= i < |head| ==> s[i] == head[i];
    assert s[|head|] == sep;
    var k := FirstIndex(s, sep);
    assert k == |head|;
    assert s[..k] == head;
    assert s[k + 1..] == rest;
  }

  lemma SplitNoSep(s: string, sep: char)
    requires sep !in s
    ensures Split(s, sep) == [s]
  {
  }

  /** Every piece of a split is free of the separator. */
  lemma {:induction false} SplitPiecesFree(s: string, sep: char)
    ensures forall p :: p in Split(s, sep) ==> sep !in p
    decreases |s|
  {
    var k := FirstIndex(s, sep);
    if k < |s| {
      SplitPiecesFree(s[k + 1..], sep);
    }
  }

  /** `parts.join(sep)` for a one-character separator. */
  function Join(parts: seq<string>, sep: char): (s: string)
    requires |parts| >= 1
    ensures |s| >= |parts| - 1
  {
    if |parts| == 1 then parts[0] else parts[0] + [sep] + Join(parts[1..], sep)
  }

  /** Splitting undoes joining separator-free pieces. */
  lemma {:induction false} SplitJoin(parts: seq<string>, sep: char)
    requires |parts| >= 1
    requires forall i :: 0 <= i < |parts| ==> sep !in parts[i]
    ensures Split(Join(parts, sep), sep) == parts
  {
    if |parts| == 1 {
      SplitNoSep(parts[0], sep);
    } else {
      SplitJoin(parts[1..], sep);
      SplitCons(parts[0], sep, Join(parts[1..], sep));
      assert [parts[0]] + parts[1..] == parts;
    }
  }

  /** Joining undoes splitting. */
  lemma {:induction false} JoinSplit(s: string, sep: char)
    ensures Join(Split(s, sep), sep) == s
    decreases |s|
  {
    var k := FirstIndex(s, sep);
    if k < |s| {
      var rest := Split(s[k + 1..], sep);
      var parts := Split(s, sep);
      assert parts == [s[..k]] + rest;
      assert |parts| >= 2 && parts[0] == s[..k] && parts[1..] == rest;
      JoinSplit(s[k + 1..], sep);
      assert Join(parts, sep) == s[..k] + [sep] + Join(rest, sep);
      assert s == s[..k] + [sep] + s[k + 1..];
    }
  }

  /** Decimal rendering of a natural number, as template literals do. */
  function NatToString(n: nat): (r: string)
    ensures |r| >= 1 && AllDigits(r)
    decreases n
  {
    if n < 10 then [DigitChar(n)] else NatToString(n / 10) + [DigitChar(n % 10)]
  }

  function DigitChar(d: nat): (c: char)
    requires d < 10
    ensures IsDigit(c)
  {
    ('0' as int + d) as char
  }

  /** Decimal rendering of an integer (with a leading '-' when negative). */
  function IntToString(n: int): (r: string)
    ensures |r| >= 1
  {
    if n < 0 then "-" + NatToString(-n) else NatToString(n)
  }

  // ------------------------------------------------------------ parseInt

  function DigitValue(c: char): (d: nat)
    requires IsDigit(c)
    ensures d < 10 && DigitChar(d) == c
  {
    (c as int - '0' as int) as nat
  }

  /** The value of a decimal digit string (most significant digit first). */
  function DecimalValue(s: string): (v: nat)
    requires AllDigits(s)
    decreases |s|
  {
    if s == [] then 0 else DecimalValue(s[..|s| - 1]) * 10 + DigitValue(s[|s| - 1])
  }

  /** Reading back a rendered natural gives the natural. */
  lemma {:induction false} DecimalOfNatToString(n: nat)
    ensures DecimalValue(NatToString(n)) == n
    decreases n
  {
    var s := NatToString(n);
    if n >= 10 {
      DecimalOfNatToString(n / 10);
      assert s[..|s| - 1] == NatToString(n / 10);
    } else {
      assert s[..0] == [];
    }
  }

  /** The whitespace `parseInt` skips before the number. */
  function TrimStart(s: string): (r: string)
    ensures |r| <= |s|
    ensures r == [] || !IsJsSpace(r[0])
    decreases |s|
  {
    if s != [] && IsJsSpace(s[0]) then TrimStart(s[1..]) else s
  }

  /** The longest prefix of `s` made of decimal digits. */
  function LeadingDigits(s: string): (r: string)
    ensures AllDigits(r) && |r| <= |s| && r == s[..|r|]
    ensures |r| < |s| ==> !IsDigit(s[|r|])
    decreases |s|
  {
    if s != [] && IsDigit(s[0]) then [s[0]] + LeadingDigits(s[1..]) else []
  }

  lemma {:induction false} LeadingDigitsAppend(d: string, tail: string)
    requires AllDigits(d) && (tail == [] || !IsDigit(tail[0]))
    ensures LeadingDigits(d + tail) == d
    decreases |d|
  {
    if d != [] {
      assert (d + tail)[1..] == d[1..] + tail;
      LeadingDigitsAppend(d[1..], tail);
    } else {
      assert d + tail == tail;
    }
  }

  /** `parseInt(s)` in base ten: leading whitespace and one sign are skipped,
      then the longest run of digits is read; no digit at all is `NaN`
      (`None`). */
  function ParseInt(s: string): (r: Option<int>)
    ensures r.None? <==> LeadingDigits(Unsigned(TrimStart(s))) == []
    ensures r.Some? && !Negative(TrimStart(s)) ==> r.value >= 0
    ensures r.Some? && Negative(TrimStart(s)) ==> r.value <= 0
  {
    var t := TrimStart(s);
    var d := LeadingDigits(Unsigned(t));
    var v: int := DecimalValue(d);
    if d == [] then None
    else if Negative(t) then Some(-v)
    else Some(v)
  }

  predicate Negative(t: string) {
    t != [] && t[0] == '-'
  }

  /** `t` without its leading sign, if it has one. */
  function Unsigned(t: string): string {
    if t != [] && (t[0] == '-' || t[0] == '+') then t[1..] else t
  }

  /** A string that starts with a digit or a sign parses from its first
      character on. */
  lemma ParseIntUnpadded(u: string)
    requires u != [] && (IsDigit(u[0]) || u[0] == '-')
    ensures TrimStart(u) == u
  {
  }

  /** How `ParseInt` reads a string once its trimmed form `t` and its
      digits `d` are known. */
  lemma ParseIntSteps(s: string, t: string, d: string)
    requires t == TrimStart(s) && d == LeadingDigits(Unsigned(t)) && d != []
    ensures ParseInt(s) == Some(if Negative(t) then -(DecimalValue(d) as int) else DecimalValue(d) as int)
  {
  }

  /** Digits followed by anything that is not a digit parse to their value. */
  lemma DigitsThenTail(digits: string, tail: string)
    requires |digits| >= 1 && AllDigits(digits) && (tail == [] || !IsDigit(tail[0]))
    ensures ParseInt(digits + tail) == Some(DecimalValue(digits) as int)
  {
    var u := digits + tail;
    assert u[0] == digits[0];
    ParseIntUnpadded(u);
    assert !Negative(u) && Unsigned(u) == u;
    LeadingDigitsAppend(digits, tail);
    ParseIntSteps(u, u, digits);
  }

  /** The same after a minus sign. */
  lemma MinusDigitsThenTail(digits: string, tail: string)
    requires |digits| >= 1 && AllDigits(digits) && (tail == [] || !IsDigit(tail[0]))
    ensures ParseInt(['-'] + (digits + tail)) == Some(-(DecimalValue(digits) as int))
  {
    var u := digits + tail;
    var w := ['-'] + u;
    assert w[0] == '-' && w[1..] == u;
    ParseIntUnpadded(w);
    assert Negative(w) && Unsigned(w) == u;
    LeadingDigitsAppend(digits, tail);
    ParseIntSteps(w, w, digits);
  }

  lemma RenderedNegative(n: int, tail: string)
    requires n < 0 && (tail == [] || !IsDigit(tail[0]))
    ensures ParseInt(IntToString(n) + tail) == Some(n)
  {
    var digits := NatToString(-n);
    assert IntToString(n) == ['-'] + digits;
    assert IntToString(n) + tail == ['-'] + (digits + tail);
    MinusDigitsThenTail(digits, tail);
    DecimalOfNatToString(-n);
  }

  lemma RenderedNatural(n: nat, tail: string)
    requires tail == [] || !IsDigit(tail[0])
    ensures ParseInt(IntToString(n) + tail) == Some(n)
  {
    DecimalOfNatToString(n);
    DigitsThenTail(NatToString(n), tail);
  }

  lemma ParseIntOfNatToString(n: nat)
    ensures ParseInt(NatToString(n)) == Some(n)
  {
    DecimalOfNatToString(n);
    DigitsThenTail(NatToString(n), []);
    assert NatToString(n) + [] == NatToString(n);
  }

  /** A rendered integer followed by anything that is not a digit parses
      back to that integer, as a price such as "1500/session" does. */
  lemma ParseIntOfRendered(n: int, tail: string)
    requires tail == [] || !IsDigit(tail[0])
    ensures ParseInt(IntToString(n) + tail) == Some(n)
  {
    if n < 0 {
      RenderedNegative(n, tail);
    } else {
      RenderedNatural(n, tail);
    }
  }
}
