/** The part of JavaScript's string behaviour that the form and its two
    renderers rely on: `trim`, `split`, `join`, `replace(/\n/g, …)`,
    `parseInt` and the decimal text of a number. */
module Text {

  datatype Option<T> = None | Some(value: T)

  /** A string-valued JavaScript property: `null` and `undefined` are both
      `Undefined`; anything else is a string. */
  datatype JsString = Undefined | Str(s: string)

  /** JavaScript truthiness of a string-or-missing value. */
  predicate Truthy(t: JsString) {
    t.Str? && t.s != ""
  }

  /** `t || fallback` */
  function Or(t: JsString, fallback: string): string {
    if Truthy(t) then t.s else fallback
  }

  /** Concatenation regrouped, for loops that append a block at a time. */
  lemma AppendAssoc<T>(a: seq<T>, b: seq<T>, c: seq<T>)
    ensures a + (b + c) == a + b + c
  {
  }

  // ---------------------------------------------------------------------
  // trim
  // ---------------------------------------------------------------------

  /** The characters ECMAScript's `String.prototype.trim` removes: the
      WhiteSpace and LineTerminator code points. */
  predicate IsWhitespace(c: char) {
    || c == '\t' || c == '\n' || c == '\U{000B}' || c == '\U{000C}' || c == '\r'
    || c == ' ' || c == '\U{00A0}' || c == '\U{1680}'
    || ('\U{2000}' <= c <= '\U{200A}')
    || c == '\U{2028}' || c == '\U{2029}' || c == '\U{202F}' || c == '\U{205F}'
    || c == '\U{3000}' || c == '\U{FEFF}'
  }

  function TrimStart(s: string): (r: string)
    ensures |r| <= |s| && r == s[|s| - |r|..]
    ensures forall i :: 0 <= i < |s| - |r| ==> IsWhitespace(s[i])
    ensures r != [] ==> !IsWhitespace(r[0])
  {
    if s != [] && IsWhitespace(s[0]) then TrimStart(s[1..]) else s
  }

  function TrimEnd(s: string): (r: string)
    ensures |r| <= |s| && r == s[..|r|]
    ensures forall i :: |r| <= i < |s| ==> IsWhitespace(s[i])
    ensures r != [] ==> !IsWhitespace(r[|r| - 1])
  {
    if s != [] && IsWhitespace(s[|s| - 1]) then TrimEnd(s[..|s| - 1]) else s
  }

  /** `s.trim()` */
  function Trim(s: string): string {
    TrimEnd(TrimStart(s))
  }

  /** Empty, or whitespace only. */
  predicate IsBlank(s: string) {
    forall i :: 0 <= i < |s| ==> IsWhitespace(s[i])
  }

  /** `!s.trim()` holds exactly for the blank strings. */
  lemma TrimEmptyIffBlank(s: string)
    ensures Trim(s) == [] <==> IsBlank(s)
  {
    var t := TrimStart(s);
    if t != [] {
      assert !IsWhitespace(s[|s| - |t|]);
    }
  }

  // ---------------------------------------------------------------------
  // split and join
  // ---------------------------------------------------------------------

  /** `s.split(sep)` for a one-character separator: always at least one
      part, and no part contains the separator. */
  function Split(s: string, sep: char): (parts: seq<string>)
    ensures |parts| >= 1
    ensures forall i :: 0 <= i < |parts| ==> sep !in parts[i]
  {
    if s == [] then [[]]
    else
      var rest := Split(s[1..], sep);
      if s[0] == sep then [[]] + rest
      else [[s[0]] + rest[0]] + rest[1..]
  }

  /** `parts.join(sep)` */
  function Join(parts: seq<string>, sep: string): string {
    if parts == [] then []
    else if |parts| == 1 then parts[0]
    else parts[0] + sep + Join(parts[1..], sep)
  }

  /** Prepending a character to the first part prepends it to the join. */
  lemma JoinConsHead(c: char, parts: seq<string>, sep: string)
    requires |parts| >= 1
    ensures Join([[c] + parts[0]] + parts[1..], sep) == [c] + Join(parts, sep)
  {
    var p := [[c] + parts[0]] + parts[1..];
    if |parts| > 1 {
      assert p[1..] == parts[1..];
    }
  }

  /** Splitting and joining back with the same separator is the identity. */
  lemma {:induction false} JoinSplit(s: string, sep: char)
    ensures Join(Split(s, sep), [sep]) == s
  {
    if s != [] {
      var rest := Split(s[1..], sep);
      JoinSplit(s[1..], sep);
      if s[0] == sep {
        assert ([[]] + rest)[1..] == rest;
      } else {
        JoinConsHead(s[0], rest, [sep]);
      }
    }
  }

  /** A string without the separator splits into itself alone. */
  lemma {:induction false} SplitNoSeparator(s: string, sep: char)
    requires sep !in s
    ensures Split(s, sep) == [s]
  {
    if s != [] {
      SplitNoSeparator(s[1..], sep);
      assert [s[0]] + s[1..] == s;
    }
  }

  /** Replacing the head of `r + q` is replacing the head of `r`, when `r` has one. */
  lemma ReplaceHeadAppend<T>(h: T, r: seq<T>, q: seq<T>)
    requires |r| >= 1
    ensures [h] + (r + q)[1..] == [h] + r[1..] + q
  {
    assert (r + q)[1..] == r[1..] + q;
  }

  /** One step of `Split`, stated on a sequence built by prepending. */
  lemma SplitCons(c: char, t: string, sep: char)
    ensures var rest := Split(t, sep);
      Split([c] + t, sep) == if c == sep then [[]] + rest else [[c] + rest[0]] + rest[1..]
  {
    assert ([c] + t)[1..] == t;
  }

  /** Splitting distributes over a separator occurrence. */
  lemma {:induction false} SplitConcat(a: string, b: string, sep: char)
    ensures Split(a + [sep] + b, sep) == Split(a, sep) + Split(b, sep)
  {
    if a == [] {
      assert a + [sep] + b == [sep] + b;
      SplitCons(sep, b, sep);
    } else {
      var t := a[1..];
      var ra := Split(t, sep);
      var rb := Split(b, sep);
      var rest := Split(t + [sep] + b, sep);
      assert rest == ra + rb by {
        SplitConcat(t, b, sep);
      }
      assert Split(a + [sep] + b, sep)
          == if a[0] == sep then [[]] + rest else [[a[0]] + rest[0]] + rest[1..] by {
        assert a + [sep] + b == [a[0]] + (t + [sep] + b);
        SplitCons(a[0], t + [sep] + b, sep);
      }
      assert Split(a, sep) == if a[0] == sep then [[]] + ra else [[a[0]] + ra[0]] + ra[1..] by {
        assert a == [a[0]] + t;
        SplitCons(a[0], t, sep);
      }
      if a[0] == sep {
        AppendAssoc([[]], ra, rb);
      } else {
        assert rest[0] == ra[0];
        ReplaceHeadAppend([a[0]] + ra[0], ra, rb);
      }
    }
  }

  /** Splitting a join of separator-free parts gives the parts back. */
  lemma {:induction false} SplitJoin(parts: seq<string>, sep: char)
    requires |parts| >= 1
    requires forall i :: 0 <= i < |parts| ==> sep !in parts[i]
    ensures Split(Join(parts, [sep]), sep) == parts
  {
    if |parts| == 1 {
      SplitNoSeparator(parts[0], sep);
    } else {
      SplitJoin(parts[1..], sep);
      SplitNoSeparator(parts[0], sep);
      SplitConcat(parts[0], Join(parts[1..], [sep]), sep);
      assert [parts[0]] + parts[1..] == parts;
    }
  }

  // ---------------------------------------------------------------------
  // replace
  // ---------------------------------------------------------------------

  /** `s.replace(/c/g, by)` for a single character `c`. */
  function ReplaceAll(s: string, c: char, repl: string): (r: string)
    ensures c !in repl ==> c !in r
    ensures c !in s ==> r == s
  {
    if s == [] then []
    else (if s[0] == c then repl else [s[0]]) + ReplaceAll(s[1..], c, repl)
  }

  /** Replacing every occurrence is the same as splitting on it and joining
      with the replacement. */
  lemma {:induction false} ReplaceAllIsJoinSplit(s: string, c: char, repl: string)
    ensures ReplaceAll(s, c, repl) == Join(Split(s, c), repl)
  {
    if s != [] {
      var rest := Split(s[1..], c);
      ReplaceAllIsJoinSplit(s[1..], c, repl);
      if s[0] == c {
        assert ([[]] + rest)[1..] == rest;
      } else {
        JoinConsHead(s[0], rest, repl);
      }
    }
  }

  // ---------------------------------------------------------------------
  // numbers as text
  // ---------------------------------------------------------------------

  predicate IsDigit(c: char) {
    '0' <= c <= '9'
  }

  predicate AllDigits(s: string) {
    forall i :: 0 <= i < |s| ==> IsDigit(s[i])
  }

  function DigitChar(d: nat): (c: char)
    requires d < 10
    ensures IsDigit(c) && c as int - '0' as int == d
  {
    ('0' as int + d) as char
  }

  /** `String(n)` for a natural number: non-empty, decimal digits only. */
  function NatToString(n: nat): (r: string)
    ensures r != [] && AllDigits(r)
  {
    if n < 10 then [DigitChar(n)] else NatToString(n / 10) + [DigitChar(n % 10)]
  }

  /** `String(n)` for an integer. */
  function IntToString(n: int): string {
    if n < 0 then "-" + NatToString(-n) else NatToString(n)
  }

  /** The longest prefix of decimal digits (what `\d+` or `parseInt` consumes). */
  function LeadingDigits(s: string): (r: string)
    ensures |r| <= |s| && r == s[..|r|]
    ensures AllDigits(r)
    ensures |r| < |s| ==> !IsDigit(s[|r|])
  {
    if s != [] && IsDigit(s[0]) then [s[0]] + LeadingDigits(s[1..]) else []
  }

  /** The value of a string of decimal digits. */
  function DigitsValue(ds: string): nat
    requires AllDigits(ds)
  {
    if ds == [] then 0
    else DigitsValue(ds[..|ds| - 1]) * 10 + (ds[|ds| - 1] as int - '0' as int)
  }

  /** `parseInt(s)` in base 10: leading whitespace, an optional sign and the
      longest run of digits; `None` is `NaN` (no digit at all). */
  function ParseInt(s: string): (r: Option<int>)
    ensures s == [] ==> r == None
  {
    var t := TrimStart(s);
    var negative := t != [] && t[0] == '-';
    var body := if t != [] && (t[0] == '-' || t[0] == '+') then t[1..] else t;
    var ds := LeadingDigits(body);
    if ds == [] then None
    else
      var v: int := DigitsValue(ds);
      Some(if negative then -v else v)
  }

  /** The digit prefix of digits followed by a non-digit is those digits. */
  lemma {:induction false} LeadingDigitsOfDigits(ds: string, rest: string)
    requires AllDigits(ds)
    requires rest == [] || !IsDigit(rest[0])
    ensures LeadingDigits(ds + rest) == ds
  {
    if ds != [] {
      assert (ds + rest)[1..] == ds[1..] + rest;
      LeadingDigitsOfDigits(ds[1..], rest);
      assert [ds[0]] + ds[1..] == ds;
    } else {
      assert ds + rest == rest;
    }
  }

  /** Reading back the decimal text of a number gives the number. */
  lemma {:induction false} DigitsValueOfNat(n: nat)
    ensures DigitsValue(NatToString(n)) == n
  {
    if n >= 10 {
      DigitsValueOfNat(n / 10);
      var r := NatToString(n);
      assert r[..|r| - 1] == NatToString(n / 10);
    }
  }

  /** Text that does not start with whitespace is left alone by `TrimStart`. */
  lemma TrimStartNoLeadingSpace(s: string)
    requires s == [] || !IsWhitespace(s[0])
    ensures TrimStart(s) == s
  {
  }

  /** `parseInt` reads a run of digits followed by nothing as its value. */
  lemma ParseIntOfNatString(m: nat)
    ensures var digits := NatToString(m);
      LeadingDigits(digits) == digits && DigitsValue(digits) == m
  {
    var digits := NatToString(m);
    LeadingDigitsOfDigits(digits, []);
    assert digits + [] == digits;
    DigitsValueOfNat(m);
  }

  /** `parseInt` of a run of digits is their value. */
  lemma ParseIntOfDigits(digits: string)
    requires digits != [] && LeadingDigits(digits) == digits
    ensures AllDigits(digits) && ParseInt(digits) == Some(DigitsValue(digits))
  {
    assert IsDigit(digits[0]);
    TrimStartNoLeadingSpace(digits);
  }

  /** `parseInt` of a minus sign before a run of digits is their negated value. */
  lemma ParseIntOfNegatedDigits(digits: string)
    requires digits != [] && LeadingDigits(digits) == digits
    ensures AllDigits(digits) && ParseInt("-" + digits) == Some(-(DigitsValue(digits) as int))
  {
    var s := "-" + digits;
    TrimStartNoLeadingSpace(s);
    assert s[1..] == digits;
  }

  /** `parseInt(String(n)) == n` for every integer. */
  lemma ParseIntOfIntToString(n: int)
    ensures ParseInt(IntToString(n)) == Some(n)
  {
    var m: nat := if n < 0 then -n else n;
    ParseIntOfNatString(m);
    if n < 0 {
      ParseIntOfNegatedDigits(NatToString(m));
    } else {
      ParseIntOfDigits(NatToString(m));
    }
  }

  /** A value that starts with a digit parses to a number, never negative;
      one that starts with anything but whitespace, a sign or a digit is NaN. */
  lemma ParseIntLeadingChar(s: string)
    requires s != []
    ensures IsDigit(s[0]) ==> ParseInt(s).Some? && ParseInt(s).value >= 0
    ensures !IsWhitespace(s[0]) && !IsDigit(s[0]) && s[0] != '-' && s[0] != '+' ==> ParseInt(s) == None
  {
    if !IsWhitespace(s[0]) {
      TrimStartNoLeadingSpace(s);
    }
  }
}
