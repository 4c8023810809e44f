/** The string operations the keys and refs are built with. */
module Text {
  import opened Wrappers

  predicate HasPrefix(s: string, p: string) { |p| <= |s| && s[..|p|] == p }

  predicate HasSuffix(s: string, p: string) { |p| <= |s| && s[|s| - |p|..] == p }

  function TrimPrefix(s: string, p: string): string { if HasPrefix(s, p) then s[|p|..] else s }

  lemma PrefixOfSum(p: string, s: string)
    ensures HasPrefix(p + s, p) && (p + s)[|p|..] == s && TrimPrefix(p + s, p) == s
  {}

  lemma PrefixOfPrefix(s: string, p: string, q: string)
    requires HasPrefix(s, p + q)
    ensures HasPrefix(s, p)
  {
    assert s[..|p|] == s[..|p + q|][..|p|] == p;
  }

  // ---- splitting and joining ----

  /** The parts of s between separators; never empty. */
  function Split(s: string, sep: char): (parts: seq<string>)
    ensures |parts| >= 1
    ensures forall i :: 0 <= i < |parts| ==> sep !in parts[i]
  {
    if s == "" then [""]
    else if s[0] == sep then [""] + Split(s[1..], sep)
    else
      var rest := Split(s[1..], sep);
      [[s[0]] + rest[0]] + rest[1..]
  }

  function Join(parts: seq<string>, sep: char): string
    requires |parts| >= 1
  {
    if |parts| == 1 then parts[0] else parts[0] + [sep] + Join(parts[1..], sep)
  }

  lemma {:induction false} SplitOne(p: string, sep: char)
    requires sep !in p
    ensures Split(p, sep) == [p]
  {
    if p != "" {
      SplitOne(p[1..], sep);
      assert [p[0]] + p[1..] == p;
    }
  }

  lemma {:induction false} SplitSum(p: string, s: string, sep: char)
    requires sep !in p
    ensures Split(p + [sep] + s, sep) == [p] + Split(s, sep)
  {
    var t := p + [sep] + s;
    if p == "" {
      assert t[1..] == s;
    } else {
      assert t[0] == p[0] && t[1..] == p[1..] + [sep] + s;
      SplitSum(p[1..], s, sep);
      assert [p[0]] + p[1..] == p;
    }
  }

  /** Splitting undoes joining when no part contains the separator. */
  lemma {:induction false} SplitJoin(parts: seq<string>, sep: char)
    requires |parts| >= 1 && forall i :: 0 <= i < |parts| ==> sep !in parts[i]
    ensures Split(Join(parts, sep), sep) == parts
  {
    if |parts| == 1 {
      SplitOne(parts[0], sep);
      assert parts == [parts[0]];
    } else {
      SplitSum(parts[0], Join(parts[1..], sep), sep);
      SplitJoin(parts[1..], sep);
      assert parts == [parts[0]] + parts[1..];
    }
  }

  /** Joining undoes splitting, always. */
  lemma {:induction false} JoinSplit(s: string, sep: char)
    ensures Join(Split(s, sep), sep) == s
  {
    if s != "" {
      JoinSplit(s[1..], sep);
      var rest := Split(s[1..], sep);
      if s[0] == sep {
        assert ([""] + rest)[1..] == rest;
      } else if |rest| > 1 {
        assert ([[s[0]] + rest[0]] + rest[1..])[1..] == rest[1..];
      }
    }
  }

  /** A joined text starts with the join of its first parts. */
  lemma {:induction false} JoinPrefix(parts: seq<string>, i: nat, sep: char)
    requires 0 < i < |parts|
    ensures HasPrefix(Join(parts, sep), Join(parts[..i], sep) + [sep])
  {
    if i == 1 {
      assert parts[..1] == [parts[0]];
    } else {
      JoinPrefix(parts[1..], i - 1, sep);
      assert parts[..i][1..] == parts[1..][..i - 1];
      var head := parts[0] + [sep];
      assert Join(parts, sep) == head + Join(parts[1..], sep);
      assert Join(parts[..i], sep) + [sep] == head + (Join(parts[1..][..i - 1], sep) + [sep]);
    }
  }

  lemma JoinThree(a: string, b: string, c: string, sep: char)
    ensures Join([a, b, c], sep) == a + [sep] + b + [sep] + c
  {
    assert [a, b, c][1..] == [b, c];
    assert Join([b, c], sep) == b + [sep] + c;
  }

  lemma JoinFive(a: string, b: string, c: string, d: string, e: string, sep: char)
    ensures Join([a, b, c, d, e], sep) == a + [sep] + b + [sep] + c + [sep] + d + [sep] + e
  {
    assert [a, b, c, d, e][1..] == [b, c, d, e] && [b, c, d, e][1..] == [c, d, e];
    JoinThree(c, d, e, sep);
    assert Join([b, c, d, e], sep) == b + [sep] + (c + [sep] + d + [sep] + e);
  }

  lemma JoinSix(a: string, b: string, c: string, d: string, e: string, f: string, sep: char)
    ensures Join([a, b, c, d, e, f], sep) == a + [sep] + b + [sep] + c + [sep] + d + [sep] + e + [sep] + f
  {
    assert [a, b, c, d, e, f][1..] == [b, c, d, e, f];
    JoinFive(b, c, d, e, f, sep);
  }

  // ---- decimal numbers ----

  const MAX_INT: nat := 0x7fff_ffff_ffff_ffff

  predicate IsDigit(c: char) { '0' <= c <= '9' }

  predicate AllDigits(s: string) { forall i :: 0 <= i < |s| ==> IsDigit(s[i]) }

  function DigitOf(d: nat): (c: char)
    requires d < 10
    ensures IsDigit(c)
  {
    '0' + d as char
  }

  function Itoa(n: nat): (s: string)
    ensures s != "" && AllDigits(s)
  {
    if n < 10 then [DigitOf(n)] else Itoa(n / 10) + [DigitOf(n % 10)]
  }

  /** The value of a digit string. */
  function Value(s: string): nat
    requires AllDigits(s)
  {
    if s == "" then 0 else Value(s[..|s| - 1]) * 10 + (s[|s| - 1] - '0') as nat
  }

  /** A decimal integer of 64 bits, with an optional sign and any leading zeros. */
  function ParseInt(s: string): Option<int> {
    var neg := s != "" && s[0] == '-';
    var body := if s != "" && (s[0] == '-' || s[0] == '+') then s[1..] else s;
    if body == "" || !AllDigits(body) then None
    else
      var v := Value(body);
      if neg then (if v <= MAX_INT + 1 then Some(0 - v) else None) else if v <= MAX_INT then Some(v) else None
  }

  lemma {:induction false} ValueItoa(n: nat)
    ensures Value(Itoa(n)) == n
  {
    if n >= 10 {
      ValueItoa(n / 10);
      var s := Itoa(n);
      assert s[..|s| - 1] == Itoa(n / 10) && s[|s| - 1] == DigitOf(n % 10);
    }
  }

  lemma ParseItoa(n: nat)
    requires n <= MAX_INT
    ensures ParseInt(Itoa(n)) == Some(n)
  {
    ValueItoa(n);
    assert IsDigit(Itoa(n)[0]);
  }

  /** The one decimal text of a number without leading zeros. */
  lemma ItoaExactly(n: nat, s: string)
    ensures Itoa(n) == s <==> s != "" && AllDigits(s) && Value(s) == n && (s[0] == '0' ==> |s| == 1)
  {
    ValueItoa(n);
    NoLeadingZero(n);
    if s != "" && AllDigits(s) && Value(s) == n && (s[0] == '0' ==> |s| == 1) { DigitsOfValue(s); }
  }

  lemma {:induction false} NoLeadingZero(n: nat)
    ensures n > 0 ==> Itoa(n)[0] != '0'
    ensures n < 10 ==> |Itoa(n)| == 1
  {
    if n >= 10 { NoLeadingZero(n / 10); }
  }

  lemma LastDigit(v: nat, d: nat)
    requires d < 10
    ensures (v * 10 + d) / 10 == v && (v * 10 + d) % 10 == d
  {}

  lemma {:induction false} DigitsOfValue(s: string)
    requires s != "" && AllDigits(s) && (s[0] == '0' ==> |s| == 1)
    ensures Itoa(Value(s)) == s && (s[0] != '0' ==> Value(s) > 0)
  {
    var m, d := s[..|s| - 1], (s[|s| - 1] - '0') as nat;
    assert s == m + [s[|s| - 1]];
    if m == "" {
      assert Value(s) == d && Itoa(d) == [DigitOf(d)];
    } else {
      DigitsOfValue(m);
      assert Value(s) == Value(m) * 10 + d;
      LastDigit(Value(m), d);
      assert Itoa(Value(s)) == Itoa(Value(m)) + [DigitOf(d)];
    }
  }

  lemma ItoaInjective(m: nat, n: nat)
    requires Itoa(m) == Itoa(n)
    ensures m == n
  {
    ValueItoa(m);
    ValueItoa(n);
  }
}
