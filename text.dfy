/** String helpers the Go code gets from its standard library: `strconv.Itoa`
    and `fmt.Sprintf("%d")` (decimal text), `strings.Join`, and the byte-wise
    order that `sort.Strings` sorts by. */
module Text {
  import opened Wrappers

  // ---------------------------------------------------------------------
  // Decimal text of integers (`strconv.Itoa`, `%d`)

  predicate IsDigit(c: char) { '0' <= c <= '9' }

  function DigitChar(d: int): (c: char)
    requires 0 <= d < 10
    ensures IsDigit(c) && c as int - '0' as int == d
  {
    ('0' as int + d) as char
  }

  /** Decimal digits of a natural number, no leading zeros. */
  function NatToDecimal(n: nat): (s: string)
    ensures |s| > 0 && IsDigit(s[0])
    decreases n
  {
    if n < 10 then [DigitChar(n)] else NatToDecimal(n / 10) + [DigitChar(n % 10)]
  }

  /** `strconv.Itoa(n)`: a leading '-' for negative numbers. */
  function IntToDecimal(n: int): (s: string)
    ensures |s| > 0
    ensures (s[0] == '-') <==> n < 0
  {
    if n < 0 then "-" + NatToDecimal(-n) else NatToDecimal(n)
  }

  predicate AllDigits(s: string) {
    forall i :: 0 <= i < |s| ==> IsDigit(s[i])
  }

  /** The value of a string of decimal digits. */
  function DecimalValue(s: string): nat
    requires AllDigits(s)
  {
    if |s| == 0 then 0
    else DecimalValue(s[..|s| - 1]) * 10 + (s[|s| - 1] as int - '0' as int)
  }

  /** Reads back what `IntToDecimal` writes (the `strconv.Atoi` direction). */
  function ParseDecimal(s: string): Option<int> {
    if |s| > 0 && s[0] == '-' && |s| > 1 && AllDigits(s[1..]) then Some(-(DecimalValue(s[1..]) as int))
    else if |s| > 0 && AllDigits(s) then Some(DecimalValue(s))
    else None
  }

  lemma {:induction false} NatToDecimalRoundTrip(n: nat)
    ensures AllDigits(NatToDecimal(n)) && DecimalValue(NatToDecimal(n)) == n
    decreases n
  {
    var s := NatToDecimal(n);
    if n >= 10 {
      NatToDecimalRoundTrip(n / 10);
      var p := NatToDecimal(n / 10);
      assert s == p + [DigitChar(n % 10)];
      assert s[..|s| - 1] == p;
    }
  }

  /** Decimal text is read back as the number written. */
  lemma IntToDecimalRoundTrip(n: int)
    ensures ParseDecimal(IntToDecimal(n)) == Some(n)
  {
    if n < 0 {
      NatToDecimalRoundTrip(-n);
      assert IntToDecimal(n)[1..] == NatToDecimal(-n);
    } else {
      NatToDecimalRoundTrip(n);
      var d := NatToDecimal(n);
      assert IsDigit(d[0]);
    }
  }

  // ---------------------------------------------------------------------
  // strings.Join

  /** `strings.Join(parts, sep)`: separators only between parts. */
  function Join(parts: seq<string>, sep: string): (r: string)
    ensures |parts| == 0 ==> r == ""
    ensures |parts| == 1 ==> r == parts[0]
  {
    if |parts| == 0 then ""
    else if |parts| == 1 then parts[0]
    else parts[0] + sep + Join(parts[1..], sep)
  }

  // ---------------------------------------------------------------------
  // Lexicographic order of strings (the order `sort.Strings` establishes;
  // byte order of UTF-8 text coincides with code-point order)

  predicate Below(a: string, b: string) {
    |a| == 0 || (|b| > 0 && (a[0] < b[0] || (a[0] == b[0] && Below(a[1..], b[1..]))))
  }

  lemma {:induction false} BelowTotal(a: string, b: string)
    ensures Below(a, b) || Below(b, a)
  {
    if |a| > 0 && |b| > 0 && a[0] == b[0] {
      BelowTotal(a[1..], b[1..]);
    }
  }

  lemma {:induction false} BelowAntisymmetric(a: string, b: string)
    requires Below(a, b) && Below(b, a)
    ensures a == b
  {
    if |a| > 0 && |b| > 0 {
      BelowAntisymmetric(a[1..], b[1..]);
      assert a == [a[0]] + a[1..];
      assert b == [b[0]] + b[1..];
    }
  }

  lemma {:induction false} BelowTransitive(a: string, b: string, c: string)
    requires Below(a, b) && Below(b, c)
    ensures Below(a, c)
  {
    if |a| > 0 && |b| > 0 && |c| > 0 && a[0] == b[0] && b[0] == c[0] {
      BelowTransitive(a[1..], b[1..], c[1..]);
    }
  }

  /** Strictly ascending: sorted and free of duplicates. */
  predicate StrictlySorted(s: seq<string>) {
    forall i, j :: 0 <= i < j < |s| ==> Below(s[i], s[j]) && s[i] != s[j]
  }

  function Elements(s: seq<string>): set<string> {
    set i | 0 <= i < |s| :: s[i]
  }

  lemma ElementsMembers(s: seq<string>)
    ensures forall x :: x in Elements(s) <==> x in s
  {
    forall x | x in s ensures x in Elements(s) {
      var i :| 0 <= i < |s| && s[i] == x;
    }
  }

  lemma ElementsSmall(s: seq<string>)
    ensures (Elements(s) == {}) == (|s| == 0)
    ensures |s| == 1 ==> Elements(s) == {s[0]}
  {
    if |s| > 0 { assert s[0] in Elements(s); }
  }

  lemma ElementsConcat(a: seq<string>, b: seq<string>)
    ensures Elements(a + b) == Elements(a) + Elements(b)
  {
    forall x | x in Elements(a + b) ensures x in Elements(a) + Elements(b) {
      var i :| 0 <= i < |a + b| && (a + b)[i] == x;
      if i >= |a| { assert b[i - |a|] == x; }
    }
    forall x | x in Elements(a) + Elements(b) ensures x in Elements(a + b) {
      if x in Elements(a) {
        var i :| 0 <= i < |a| && a[i] == x;
        assert (a + b)[i] == x;
      } else {
        var i :| 0 <= i < |b| && b[i] == x;
        assert (a + b)[|a| + i] == x;
      }
    }
  }

  /** A finite non-empty set of strings has a least element. */
  lemma {:induction false} LeastExists(s: set<string>)
    requires s != {}
    ensures exists m :: m in s && forall x :: x in s ==> Below(m, x)
    decreases |s|
  {
    var y :| y in s;
    if s == {y} {
      assert forall x :: x in s ==> x == y;
      assert Below(y, y) by { BelowTotal(y, y); }
    } else {
      LeastExists(s - {y});
      var m :| m in s - {y} && forall x :: x in s - {y} ==> Below(m, x);
      BelowTotal(m, y);
      if Below(m, y) {
        assert forall x :: x in s ==> Below(m, x);
      } else {
        forall x | x in s ensures Below(y, x) {
          if x != y { BelowTransitive(y, m, x); } else { BelowTotal(y, y); }
        }
      }
    }
  }

  /** The strings of a set in ascending order. */
  ghost function SortedOf(s: set<string>): (r: seq<string>)
    ensures StrictlySorted(r) && Elements(r) == s && |r| == |s|
    decreases |s|
  {
    if s == {} then []
    else
      LeastExists(s);
      var m :| m in s && forall x :: x in s ==> Below(m, x);
      var rest := SortedOf(s - {m});
      ConsSorted(m, rest);
      ElementsConcat([m], rest);
      ElementsSmall([m]);
      [m] + rest
  }

  /** Putting a string below every element, and different from each, in
      front of an ascending sequence keeps it ascending. */
  lemma ConsSorted(m: string, rest: seq<string>)
    requires StrictlySorted(rest)
    requires forall x :: x in Elements(rest) ==> Below(m, x) && m != x
    ensures StrictlySorted([m] + rest)
  {
    var r := [m] + rest;
    forall i, j | 0 <= i < j < |r| ensures Below(r[i], r[j]) && r[i] != r[j] {
      assert r[j] == rest[j - 1];
      if i == 0 {
        assert rest[j - 1] in Elements(rest);
      } else {
        assert r[i] == rest[i - 1];
      }
    }
  }

  /** Two strictly ascending sequences with the same elements are equal. */
  lemma {:induction false} StrictlySortedUnique(a: seq<string>, b: seq<string>)
    requires StrictlySorted(a) && StrictlySorted(b) && Elements(a) == Elements(b)
    ensures a == b
    decreases |a|
  {
    if |a| > 0 {
      assert a[0] in Elements(b);
      var j :| 0 <= j < |b| && b[j] == a[0];
      assert b[0] in Elements(a);
      var i :| 0 <= i < |a| && a[i] == b[0];
      if j > 0 {
        assert Below(b[0], b[j]) && b[0] != b[j];
        if i > 0 {
          assert Below(a[0], a[i]);
          BelowAntisymmetric(a[0], b[0]);
        }
        assert false;
      }
      assert Elements(a[1..]) == Elements(a) - {a[0]};
      assert Elements(b[1..]) == Elements(b) - {b[0]};
      StrictlySortedUnique(a[1..], b[1..]);
      assert a == [a[0]] + a[1..];
      assert b == [b[0]] + b[1..];
    } else {
      ElementsSmall(a);
      ElementsSmall(b);
    }
  }

  /** Inserts a new string into an ascending sequence at its place. */
  function InsertSorted(s: seq<string>, k: string): (r: seq<string>)
    requires StrictlySorted(s) && k !in Elements(s)
    ensures StrictlySorted(r) && Elements(r) == Elements(s) + {k} && |r| == |s| + 1
  {
    if |s| == 0 then
      ElementsSmall([k]);
      [k]
    else if Below(k, s[0]) then
      var r := [k] + s;
      assert forall j :: 0 < j < |s| ==> Below(s[0], s[j]);
      forall j | 0 < j < |r| ensures Below(k, r[j]) && k != r[j] {
        if j > 1 { BelowTransitive(k, s[0], r[j]); }
      }
      ElementsConcat([k], s);
      ElementsSmall([k]);
      r
    else
      assert s[0] in Elements(s);
      assert Elements(s[1..]) == Elements(s) - {s[0]};
      var tail := InsertSorted(s[1..], k);
      BelowTotal(k, s[0]);
      assert forall j :: 0 < j < |s| ==> Below(s[0], s[j]) && s[0] != s[j];
      assert forall x :: x in Elements(tail) ==> Below(s[0], x) && s[0] != x;
      var r := [s[0]] + tail;
      assert forall j :: 0 < j < |r| ==> r[j] in Elements(tail);
      ElementsConcat([s[0]], tail);
      ElementsSmall([s[0]]);
      r
  }
}
