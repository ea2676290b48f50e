/** Splitting, joining and printing, as the Go standard library does them; a char stands for a byte. */
module Texts {
  import opened Options

  // -------------------------------------------------------------- strings.Split

  /** strings.Split by a one-byte separator; the result is never empty. */
  function Split(s: string, sep: char): (parts: seq<string>)
    ensures |parts| >= 1
  {
    if s == "" then [""]
    else
      var rest := Split(s[1..], sep);
      if s[0] == sep then [""] + rest else [[s[0]] + rest[0]] + rest[1..]
  }

  function Join(parts: seq<string>, sep: char): string
    requires |parts| >= 1
  {
    if |parts| == 1 then parts[0] else parts[0] + [sep] + Join(parts[1..], sep)
  }

  lemma {:induction false} JoinOfSplit(s: string, sep: char)
    ensures Join(Split(s, sep), sep) == s
    ensures forall part <- Split(s, sep) :: sep !in part
  {
    if s != "" {
      JoinOfSplit(s[1..], sep);
      var rest := Split(s[1..], sep);
      if s[0] == sep {
        assert ([""] + rest)[1..] == rest;
        assert Join([""] + rest, sep) == "" + [sep] + Join(rest, sep);
      } else if |rest| > 1 {
        var parts := [[s[0]] + rest[0]] + rest[1..];
        assert parts[1..] == rest[1..];
        assert Join(parts, sep) == [s[0]] + (rest[0] + [sep] + Join(rest[1..], sep));
      } else {
        assert Split(s, sep) == [[s[0]] + rest[0]];
      }
    }
  }

  lemma {:induction false} SplitOfJoin(parts: seq<string>, sep: char)
    requires |parts| >= 1 && forall part <- parts :: sep !in part
    ensures Split(Join(parts, sep), sep) == parts
  {
    if |parts| == 1 {
      SplitWhole(parts[0], sep);
    } else {
      SplitOfJoin(parts[1..], sep);
      SplitHead(parts[0], Join(parts[1..], sep), sep);
      assert parts == [parts[0]] + parts[1..];
    }
  }

  lemma {:induction false} SplitWhole(s: string, sep: char)
    requires sep !in s
    ensures Split(s, sep) == [s]
  {
    if s != "" {
      SplitWhole(s[1..], sep);
      assert s == [s[0]] + s[1..];
    }
  }

  lemma {:induction false} SplitHead(head: string, rest: string, sep: char)
    requires sep !in head
    ensures Split(head + [sep] + rest, sep) == [head] + Split(rest, sep)
  {
    var s := head + [sep] + rest;
    if head == "" {
      assert s[1..] == rest;
    } else {
      assert s[0] == head[0] && s[1..] == head[1..] + [sep] + rest;
      SplitHead(head[1..], rest, sep);
      assert [head[0]] + head[1..] == head;
      assert ([head[1..]] + Split(rest, sep))[1..] == Split(rest, sep);
    }
  }

  // -------------------------------------------------------------- decimal numbers

  predicate IsDigit(c: char) { '0' <= c <= '9' }

  function Digit(d: nat): char
    requires d < 10
  {
    ('0' as int + d) as char
  }

  /** %d of a non-negative number. */
  function Decimal(n: nat): (s: string)
    ensures |s| >= 1 && forall c <- s :: IsDigit(c)
  {
    if n < 10 then [Digit(n)] else Decimal(n / 10) + [Digit(n % 10)]
  }

  function DigitValue(c: char): (d: nat)
    requires IsDigit(c)
    ensures d < 10 && Digit(d) == c
  {
    c as int - '0' as int
  }

  function Value(s: string): nat
    requires forall c <- s :: IsDigit(c)
  {
    if s == "" then 0 else Value(s[..|s| - 1]) * 10 + DigitValue(s[|s| - 1])
  }

  /** strconv.ParseUint(s, 10, 32). */
  function ParseUint32(s: string): Option<nat> {
    if s == "" || exists c <- s :: !IsDigit(c) then None
    else if Value(s) >= 0x1_0000_0000 then None
    else Some(Value(s))
  }

  /** No superfluous zero in front. */
  predicate Plain(s: string) { s != "" && (|s| > 1 ==> s[0] != '0') }

  lemma {:induction false} ValueOfDecimal(n: nat)
    ensures Value(Decimal(n)) == n && Plain(Decimal(n))
    ensures n > 0 ==> Decimal(n)[0] != '0'
  {
    var s := Decimal(n);
    if n >= 10 {
      ValueOfDecimal(n / 10);
      assert s[..|s| - 1] == Decimal(n / 10);
    }
  }

  /** Base ten: the last digit is the remainder, in US-ASCII, and the others print the quotient. */
  lemma DecimalIsPositional(n: nat)
    ensures var s := Decimal(n);
            && s[|s| - 1] as int == 0x30 + n % 10
            && (if n < 10 then |s| == 1 else s[..|s| - 1] == Decimal(n / 10))
  {
  }

  lemma {:induction false} DecimalOfValue(s: string)
    requires Plain(s) && forall c <- s :: IsDigit(c)
    ensures Decimal(Value(s)) == s
    ensures s[0] != '0' ==> Value(s) > 0
  {
    var front, last := s[..|s| - 1], s[|s| - 1];
    assert s == front + [last];
    if |s| > 1 {
      DecimalOfValue(front);
      assert Value(s) / 10 == Value(front) && Value(s) % 10 == DigitValue(last);
    }
  }

  lemma {:induction false} DecimalLength(n: nat, digits: nat, bound: nat)
    requires digits >= 1 && n < bound && bound == Power10(digits)
    ensures |Decimal(n)| <= digits
  {
    if n >= 10 { DecimalLength(n / 10, digits - 1, Power10(digits - 1)); }
  }

  function Power10(digits: nat): nat {
    if digits == 0 then 1 else 10 * Power10(digits - 1)
  }
}
