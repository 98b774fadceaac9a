/**
 The text forms a task's numbers take in its hash: decimal integers, written by `fmt.Sprintf("%d")` and read
 by `strconv.ParseInt(s, 10, 64)`, and comma-joined lists of them.
 */
module Decimal {
  import opened Clock
  import opened Wrappers

  function Digit(d: nat): char
    requires d < 10
  {
    ('0' as int + d) as char
  }

  predicate IsDigit(c: char) {
    '0' <= c <= '9'
  }

  function DigitValue(c: char): nat
    requires IsDigit(c)
  {
    c as int - '0' as int
  }

  function PrintNat(n: nat): string {
    if n < 10 then [Digit(n)] else PrintNat(n / 10) + [Digit(n % 10)]
  }

  /** `fmt.Sprintf("%d", n)`. */
  function Print(n: int): string {
    if n < 0 then "-" + PrintNat(-n) else PrintNat(n)
  }

  function ParseDigits(s: string): Option<nat> {
    if s == "" then None
    else if !IsDigit(s[|s| - 1]) then None
    else if |s| == 1 then Some(DigitValue(s[0]))
    else
      var high :- ParseDigits(s[..|s| - 1]);
      Some(10 * high + DigitValue(s[|s| - 1]))
  }

  /** `strconv.ParseInt(s, 10, 64)`: an optional sign, then digits; text out of the 64-bit range is an error. */
  function Parse(s: string): Option<int> {
    var negative := s != "" && s[0] == '-';
    var digits := if s != "" && (s[0] == '-' || s[0] == '+') then s[1..] else s;
    var magnitude :- ParseDigits(digits);
    var n: int := if negative then 0 - magnitude else magnitude;
    if IsInt64(n) then Some(n) else None
  }

  lemma {:induction false} PrintedNat(n: nat)
    ensures PrintNat(n) != ""
    ensures forall c :: c in PrintNat(n) ==> IsDigit(c)
    ensures ParseDigits(PrintNat(n)) == Some(n)
  {
    if n < 10 {
    } else {
      PrintedNat(n / 10);
      var high := PrintNat(n / 10);
      assert PrintNat(n)[..|PrintNat(n)| - 1] == high;
    }
  }

  /** Reading back a printed number gives the number; printed numbers are never empty and hold no comma. */
  lemma ParsePrint(n: int)
    ensures Print(n) != "" && ',' !in Print(n)
    ensures Parse(Print(n)) == if IsInt64(n) then Some(n) else None
  {
    if n < 0 {
      PrintedNat(-n);
      assert Print(n)[1..] == PrintNat(-n);
    } else {
      PrintedNat(n);
      assert PrintNat(n)[0] in PrintNat(n);
    }
  }

  lemma {:induction false} NatCanonical(n: nat)
    ensures PrintNat(n) != "" && (|PrintNat(n)| > 1 ==> PrintNat(n)[0] != '0')
    ensures n > 0 ==> PrintNat(n)[0] != '0'
  {
    if n >= 10 {
      NatCanonical(n / 10);
      assert PrintNat(n)[0] == PrintNat(n / 10)[0];
    }
  }

  /** The printed form is the canonical one: a minus sign for negative numbers only, then digits, no leading zeros. */
  lemma PrintCanonical(n: int)
    ensures var digits := if n < 0 then Print(n)[1..] else Print(n);
            && (n < 0 <==> Print(n)[0] == '-') && digits != "" && (forall c :: c in digits ==> IsDigit(c))
            && (|digits| > 1 ==> digits[0] != '0')
  {
    var m := if n < 0 then -n else n;
    PrintedNat(m);
    NatCanonical(m);
    assert n < 0 ==> Print(n)[1..] == PrintNat(m);
    assert PrintNat(m)[0] in PrintNat(m);
  }

  lemma {:induction false} DigitsReadable(s: string)
    ensures ParseDigits(s).Some? <==> s != "" && forall c :: c in s ==> IsDigit(c)
  {
    if s != "" {
      var init, last := s[..|s| - 1], s[|s| - 1];
      DigitsReadable(init);
      assert s == init + [last];
      assert last in s;
    }
  }

  /** What `ParseInt` reads: a sign at most, then digits and nothing else, within 64 bits. */
  lemma ParseReads(s: string)
    ensures var digits := if s != "" && (s[0] == '-' || s[0] == '+') then s[1..] else s;
            Parse(s).Some? <==>
              && digits != "" && (forall c :: c in digits ==> IsDigit(c)) && ParseDigits(digits).Some?
              && IsInt64(if s[0] == '-' then 0 - ParseDigits(digits).value else ParseDigits(digits).value)
    ensures Parse(s).Some? && s[0] == '-' ==> Parse(s).value <= 0
    ensures Parse(s).Some? && s[0] != '-' ==> Parse(s).value >= 0
  {
    DigitsReadable(if s != "" && (s[0] == '-' || s[0] == '+') then s[1..] else s);
  }

  /** `strings.Join(parts, ",")`. */
  function Join(parts: seq<string>): string {
    if parts == [] then ""
    else if |parts| == 1 then parts[0]
    else parts[0] + "," + Join(parts[1..])
  }

  /** `strings.Split(s, ",")`: always at least one part. */
  function Split(s: string): (parts: seq<string>)
    ensures parts != []
  {
    if s == "" then [""]
    else if s[0] == ',' then [""] + Split(s[1..])
    else
      var rest := Split(s[1..]);
      [[s[0]] + rest[0]] + rest[1..]
  }

  lemma {:induction false} SplitPart(part: string, rest: string)
    requires ',' !in part
    ensures Split(part) == [part]
    ensures Split(part + "," + rest) == [part] + Split(rest)
  {
    if part == "" {
      assert part + "," + rest == "," + rest;
      assert ("," + rest)[1..] == rest;
    } else {
      var tail := part[1..];
      SplitPart(tail, rest);
      assert part == [part[0]] + tail;
      assert (part + "," + rest)[1..] == tail + "," + rest;
      assert (part + "," + rest)[0] == part[0];
    }
  }

  /** Splitting undoes joining for every non-empty list of comma-free parts, of any length. */
  lemma {:induction false} SplitJoin(parts: seq<string>)
    requires parts != []
    requires forall i :: 0 <= i < |parts| ==> ',' !in parts[i]
    ensures Split(Join(parts)) == parts
  {
    if |parts| == 1 {
      SplitPart(parts[0], "");
    } else {
      SplitJoin(parts[1..]);
      SplitPart(parts[0], Join(parts[1..]));
      assert parts == [parts[0]] + parts[1..];
    }
  }

  /** Joining undoes splitting for every text. */
  lemma {:induction false} JoinSplit(s: string)
    ensures Join(Split(s)) == s
  {
    if s != "" {
      JoinSplit(s[1..]);
      var rest := Split(s[1..]);
      assert Split(s)[1..] == if s[0] == ',' then rest else rest[1..];
      assert s == [s[0]] + s[1..];
    }
  }
}
