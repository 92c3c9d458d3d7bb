/** Text order, joining and decimal numerals. */
module Text {

  /** Order by character code: SQLite's binary collation of ASCII text, Python's string order. */
  predicate Less(a: string, b: string) {
    b != "" && (a == "" || a[0] < b[0] || (a[0] == b[0] && Less(a[1..], b[1..])))
  }

  lemma {:induction false} Irreflexive(s: string)
    ensures !Less(s, s)
  {
    if s != "" {
      Irreflexive(s[1..]);
    }
  }

  lemma {:induction false} LessTransitive(a: string, b: string, c: string)
    requires Less(a, b) && Less(b, c)
    ensures Less(a, c)
    decreases |a|
  {
    if a != "" && a[0] == b[0] == c[0] {
      LessTransitive(a[1..], b[1..], c[1..]);
    }
  }

  lemma {:induction false} LessTotal(a: string, b: string)
    ensures a == b || Less(a, b) || Less(b, a)
    decreases |a|
  {
    if a != "" && b != "" && a[0] == b[0] {
      LessTotal(a[1..], b[1..]);
      assert a == [a[0]] + a[1..] && b == [b[0]] + b[1..];
    }
  }

  /** separator.join(parts) */
  function Join(separator: string, parts: seq<string>): string {
    if parts == [] then "" else if |parts| == 1 then parts[0]
    else parts[0] + separator + Join(separator, parts[1..])
  }

  /** str(n) */
  function Decimal(n: nat): (text: string)
    ensures text != ""
  {
    (if n < 10 then "" else Decimal(n / 10)) + [('0' as int + n % 10) as char]
  }

  /** Joining two nonempty lists puts one separator between their texts. */
  lemma {:induction false} JoinAppend(separator: string, first: seq<string>, rest: seq<string>)
    requires first != [] && rest != []
    ensures Join(separator, first + rest) == Join(separator, first) + separator + Join(separator, rest)
  {
    var all := first + rest;
    if |first| == 1 {
      assert all[1..] == rest;
    } else {
      assert all[1..] == first[1..] + rest;
      JoinAppend(separator, first[1..], rest);
      assert Join(separator, all)
             == first[0] + separator + (Join(separator, first[1..]) + separator + Join(separator, rest));
    }
  }

  function DigitValue(c: char): int {
    if '0' <= c <= '9' then c as int - '0' as int else c as int - 'a' as int + 10
  }

  /** The number a text of digits spells. */
  function Value(base: nat, text: string): int {
    if text == "" then 0 else Value(base, text[..|text| - 1]) * base + DigitValue(text[|text| - 1])
  }

  lemma {:induction false} DecimalReadsBack(n: nat)
    ensures Value(10, Decimal(n)) == n
    ensures n != 0 ==> Decimal(n)[0] != '0'
  {
    var last := [('0' as int + n % 10) as char];
    assert Decimal(n) == (if n < 10 then "" else Decimal(n / 10)) + last;
    assert Decimal(n)[..|Decimal(n)| - 1] == if n < 10 then "" else Decimal(n / 10);
    if n >= 10 {
      DecimalReadsBack(n / 10);
    }
  }
}
