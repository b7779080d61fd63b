/**
 * The string conventions the services rely on: decimal rendering of numbers
 * (`String(n)`, moment's zero-filled date fields, the 20-character sort-key
 * fields), `String.prototype.split` on one separator character, `slice(-n)`,
 * and `Number(string)` for the values the services read back.
 */
module Text {
  import opened Base

  predicate IsDigit(c: char) {
    '0' <= c <= '9'
  }

  predicate AllDigits(s: string) {
    forall i :: 0 <= i < |s| ==> IsDigit(s[i])
  }

  function Pow10(w: nat): (p: nat)
    ensures p >= 1
  {
    if w == 0 then 1 else 10 * Pow10(w - 1)
  }

  function DigitChar(d: nat): (c: char)
    requires d < 10
    ensures IsDigit(c)
  {
    (d + 48) as char
  }

  function CharDigit(c: char): (d: nat)
    requires IsDigit(c)
    ensures d < 10 && DigitChar(d) == c
  {
    c as int - 48
  }

  function Zeros(n: nat): (s: string)
    ensures |s| == n
    ensures forall i :: 0 <= i < n ==> s[i] == '0'
  {
    if n == 0 then "" else Zeros(n - 1) + "0"
  }

  /** The last `w` decimal digits of `n`, zero-filled to exactly `w` characters. */
  function FixedDigits(n: nat, w: nat): (s: string)
    ensures |s| == w && AllDigits(s)
  {
    if w == 0 then "" else FixedDigits(n / 10, w - 1) + [DigitChar(n % 10)]
  }

  /** The number a string of decimal digits denotes. */
  function DigitsValue(s: string): nat
    requires AllDigits(s)
  {
    if s == "" then 0 else DigitsValue(s[..|s| - 1]) * 10 + CharDigit(s[|s| - 1])
  }

  /** `String(n)` for a non-negative integer: no leading zeros, "0" for zero. */
  function NatToString(n: nat): string
  {
    if n < 10 then [DigitChar(n)] else NatToString(n / 10) + [DigitChar(n % 10)]
  }

  /** `String(i)` for an integer. */
  function IntToString(i: int): string
  {
    if i < 0 then "-" + NatToString(-i) else NatToString(i)
  }

  function NumDigits(n: nat): (k: nat)
    ensures k >= 1
  {
    if n < 10 then 1 else 1 + NumDigits(n / 10)
  }

  /** `s.slice(-n)`: the last `n` characters, or all of `s` when it is shorter. */
  function LastChars(s: string, n: nat): (r: string)
    ensures |r| == if |s| < n then |s| else n
    ensures r == s[|s| - |r|..]
  {
    if |s| <= n then s else s[|s| - n..]
  }

  /** `` `00000000000000000000${s}`.slice(-20) ``, as the sales report builds its sort keys. */
  function SortKeyField(s: string): (r: string)
    ensures |r| == 20
  {
    LastChars(Zeros(20) + s, 20)
  }

  // ---------------------------------------------------------------------------
  // Digits: round trip and fixed width

  lemma {:induction false} FixedDigitsValue(n: nat, w: nat)
    requires n < Pow10(w)
    ensures DigitsValue(FixedDigits(n, w)) == n
  {
    if w > 0 {
      var s := FixedDigits(n, w);
      var q := n / 10;
      assert n == 10 * q + n % 10;
      assert q < Pow10(w - 1);
      assert s[..|s| - 1] == FixedDigits(q, w - 1);
      assert s[|s| - 1] == DigitChar(n % 10);
      FixedDigitsValue(q, w - 1);
    }
  }

  /** Zero-filled fields of one width are distinct for distinct numbers that fit. */
  lemma {:induction false} FixedDigitsInjective(a: nat, b: nat, w: nat)
    requires a < Pow10(w) && b < Pow10(w)
    requires FixedDigits(a, w) == FixedDigits(b, w)
    ensures a == b
  {
    FixedDigitsValue(a, w);
    FixedDigitsValue(b, w);
  }

  lemma {:induction false} FixedDigitsOfZero(w: nat)
    ensures FixedDigits(0, w) == Zeros(w)
  {
    if w > 0 {
      FixedDigitsOfZero(w - 1);
    }
  }

  /** Widening a zero-filled field prepends zeros. */
  lemma {:induction false} FixedDigitsWiden(n: nat, w: nat, t: nat)
    requires n < Pow10(w) && w <= t
    ensures FixedDigits(n, t) == Zeros(t - w) + FixedDigits(n, w)
  {
    if w == 0 {
      FixedDigitsOfZero(t);
    } else {
      var q := n / 10;
      assert n == 10 * q + n % 10;
      assert q < Pow10(w - 1);
      FixedDigitsWiden(q, w - 1, t - 1);
      assert FixedDigits(n, t) == FixedDigits(q, t - 1) + [DigitChar(n % 10)];
      assert FixedDigits(n, w) == FixedDigits(q, w - 1) + [DigitChar(n % 10)];
      assert Zeros(t - w) + FixedDigits(q, w - 1) + [DigitChar(n % 10)]
          == Zeros(t - w) + (FixedDigits(q, w - 1) + [DigitChar(n % 10)]);
    }
  }

  lemma {:induction false} NatToStringFixed(n: nat)
    ensures NatToString(n) == FixedDigits(n, NumDigits(n))
    ensures n < Pow10(NumDigits(n))
    ensures n >= 10 ==> Pow10(NumDigits(n) - 1) <= n
  {
    if n >= 10 {
      NatToStringFixed(n / 10);
    }
  }

  lemma {:induction false} NatToStringDigits(n: nat)
    ensures |NatToString(n)| == NumDigits(n) && AllDigits(NatToString(n))
    ensures DigitsValue(NatToString(n)) == n
  {
    NatToStringFixed(n);
    FixedDigitsValue(n, NumDigits(n));
  }

  lemma {:induction false} NumDigitsBound(n: nat, w: nat)
    requires n < Pow10(w)
    ensures NumDigits(n) <= w || (n < 10 && w == 0)
  {
    if n >= 10 {
      NatToStringFixed(n);
      assert w >= 1;
      NumDigitsBound(n / 10, w - 1);
    }
  }

  lemma {:induction false} DropZeros(d: string, w: nat)
    requires |d| <= w
    ensures LastChars(Zeros(w) + d, w) == Zeros(w - |d|) + d
  {
    var s := Zeros(w) + d;
    assert s[|d|..] == Zeros(w)[|d|..] + d;
    assert Zeros(w)[|d|..] == Zeros(w - |d|);
  }

  lemma {:induction false} PadFixedDigits(n: nat, k: nat, w: nat)
    requires k <= w && n < Pow10(k)
    ensures LastChars(Zeros(w) + FixedDigits(n, k), w) == FixedDigits(n, w)
  {
    FixedDigitsWiden(n, k, w);
    DropZeros(FixedDigits(n, k), w);
  }

  /** Zero-filling a rendered number to a width it fits in gives the fixed-width field. */
  lemma {:induction false} PadNatToString(n: nat, w: nat)
    requires w > 0 && n < Pow10(w)
    ensures LastChars(Zeros(w) + NatToString(n), w) == FixedDigits(n, w)
  {
    NatToStringFixed(n);
    NumDigitsBound(n, w);
    PadFixedDigits(n, NumDigits(n), w);
  }

  /**
   * A sort-key field built from a number that has at most 20 digits is that
   * number zero-filled to 20 digits, so it reads back as the number.
   */
  lemma {:induction false} SortKeyFieldOfNat(n: nat)
    requires n < Pow10(20)
    ensures SortKeyField(NatToString(n)) == FixedDigits(n, 20)
    ensures AllDigits(SortKeyField(NatToString(n))) && DigitsValue(SortKeyField(NatToString(n))) == n
  {
    PadNatToString(n, 20);
    FixedDigitsValue(n, 20);
  }

  // ---------------------------------------------------------------------------
  // split / join on one separator character

  /** `s.split(sep)`: the pieces between separators, always at least one. */
  function Split(s: string, sep: char): (parts: seq<string>)
    ensures |parts| >= 1
    ensures forall p :: p in parts ==> sep !in p
    decreases |s|
  {
    if |s| == 0 then [""]
    else if s[0] == sep then [""] + Split(s[1..], sep)
    else
      var t := Split(s[1..], sep);
      [[s[0]] + t[0]] + t[1..]
  }

  /** `parts.join(sep)`. */
  function Join(parts: seq<string>, sep: char): string
  {
    if |parts| == 0 then ""
    else if |parts| == 1 then parts[0]
    else parts[0] + [sep] + Join(parts[1..], sep)
  }

  lemma {:induction false} SplitNoSeparator(s: string, sep: char)
    requires sep !in s
    ensures Split(s, sep) == [s]
    decreases |s|
  {
    if |s| > 0 {
      assert sep !in s[1..];
      SplitNoSeparator(s[1..], sep);
      assert [s[0]] + s[1..] == s;
    }
  }

  /** Splitting at the first separator peels off the text before it. */
  lemma {:induction false} SplitAtFirst(a: string, sep: char, b: string)
    requires sep !in a
    ensures Split(a + [sep] + b, sep) == [a] + Split(b, sep)
    decreases |a|
  {
    if |a| == 0 {
      assert a + [sep] + b == [sep] + b;
      assert ([sep] + b)[1..] == b;
    } else {
      var s := a + [sep] + b;
      assert s[1..] == a[1..] + [sep] + b;
      assert sep !in a[1..];
      SplitAtFirst(a[1..], sep, b);
      assert [a[0]] + a[1..] == a;
    }
  }

  /** Joining the pieces of a split gives the string back. */
  lemma {:induction false} JoinSplit(s: string, sep: char)
    ensures Join(Split(s, sep), sep) == s
    decreases |s|
  {
    if |s| > 0 {
      JoinSplit(s[1..], sep);
      var t := Split(s[1..], sep);
      if s[0] == sep {
        assert Split(s, sep) == [""] + t;
        if |t| == 1 {
          assert Join([""] + t, sep) == "" + [sep] + Join(t, sep);
        } else {
          assert ([""] + t)[1..] == t;
        }
        assert [s[0]] + s[1..] == s;
      } else {
        var u := [[s[0]] + t[0]] + t[1..];
        assert Split(s, sep) == u;
        if |t| == 1 {
          assert Join(t, sep) == t[0];
          assert Join(u, sep) == [s[0]] + t[0];
        } else {
          assert u[1..] == t[1..];
          assert Join(u, sep) == [s[0]] + t[0] + [sep] + Join(t[1..], sep);
          assert Join(t, sep) == t[0] + [sep] + Join(t[1..], sep);
        }
        assert [s[0]] + s[1..] == s;
      }
    }
  }

  /** Splitting a join of separator-free pieces gives the pieces back. */
  lemma {:induction false} SplitJoin(parts: seq<string>, sep: char)
    requires |parts| >= 1
    requires forall i :: 0 <= i < |parts| ==> sep !in parts[i]
    ensures Split(Join(parts, sep), sep) == parts
  {
    if |parts| == 1 {
      SplitNoSeparator(parts[0], sep);
    } else {
      SplitJoin(parts[1..], sep);
      SplitAtFirst(parts[0], sep, Join(parts[1..], sep));
      assert [parts[0]] + parts[1..] == parts;
    }
  }

  // ---------------------------------------------------------------------------
  // Number(string)

  /**
   * `Number(s)` for the values the services store as strings: the empty
   * string is 0, an optional sign followed by decimal digits is that integer,
   * and everything else is NaN (`None`).
   */
  function StringToNumber(s: string): (r: Option<int>)
    ensures AllDigits(s) && s != "" ==> r == Some(DigitsValue(s))
  {
    if s == "" then Some(0)
    else if AllDigits(s) then Some(DigitsValue(s))
    else if (s[0] == '-' || s[0] == '+') && |s| > 1 && AllDigits(s[1..]) then
      Some(if s[0] == '-' then -(DigitsValue(s[1..]) as int) else DigitsValue(s[1..]))
    else None
  }

  /** Reading back a rendered integer gives the integer. */
  lemma {:induction false} NumberOfIntToString(i: int)
    ensures StringToNumber(IntToString(i)) == Some(i)
  {
    if i < 0 {
      NatToStringDigits(-i);
      var s := IntToString(i);
      assert s[1..] == NatToString(-i);
      assert !IsDigit(s[0]);
    } else {
      NatToStringDigits(i);
    }
  }

  // ---------------------------------------------------------------------------
  // String order

  /** JavaScript's `a < b` on strings: code-unit order, a proper prefix first. */
  predicate LexLess(a: string, b: string)
    decreases |a|
  {
    if |a| == 0 then |b| > 0
    else if |b| == 0 then false
    else a[0] < b[0] || (a[0] == b[0] && LexLess(a[1..], b[1..]))
  }

  /** Between strings of one length, the order is decided by the first difference. */
  lemma {:induction false} LexLessSnoc(a: string, b: string, x: char, y: char)
    requires |a| == |b|
    ensures LexLess(a + [x], b + [y]) <==> LexLess(a, b) || (a == b && x < y)
    decreases |a|
  {
    if |a| == 0 {
      assert a + [x] == [x] && b + [y] == [y];
      assert [x][1..] == [] && [y][1..] == [];
    } else {
      assert (a + [x])[1..] == a[1..] + [x] && (b + [y])[1..] == b[1..] + [y];
      LexLessSnoc(a[1..], b[1..], x, y);
      assert a == [a[0]] + a[1..] && b == [b[0]] + b[1..];
    }
  }

  /** A difference inside equal-length prefixes decides the order of the whole strings. */
  lemma {:induction false} LexLessPrefix(a: string, b: string, c: string, d: string)
    requires |a| == |b| && LexLess(a, b)
    ensures LexLess(a + c, b + d)
    decreases |a|
  {
    assert |a| > 0;
    if a[0] == b[0] && !(a[0] < b[0]) {
      assert (a + c)[1..] == a[1..] + c && (b + d)[1..] == b[1..] + d;
      LexLessPrefix(a[1..], b[1..], c, d);
    }
  }

  lemma {:induction false} LexLessIrreflexive(a: string)
    ensures !LexLess(a, a)
    decreases |a|
  {
    if |a| > 0 {
      LexLessIrreflexive(a[1..]);
    }
  }

  /**
   * Zero-filled fields of one width sort as the numbers they hold — which is
   * why the report pads its sort-key fields.
   */
  lemma {:induction false} FixedDigitsOrder(n: nat, m: nat, w: nat)
    requires n < Pow10(w) && m < Pow10(w)
    ensures LexLess(FixedDigits(n, w), FixedDigits(m, w)) <==> n < m
  {
    if w == 0 {
      assert n == 0 && m == 0;
    } else {
      var a, b := FixedDigits(n / 10, w - 1), FixedDigits(m / 10, w - 1);
      LexLessSnoc(a, b, DigitChar(n % 10), DigitChar(m % 10));
      FixedDigitsOrder(n / 10, m / 10, w - 1);
      if a == b {
        FixedDigitsInjective(n / 10, m / 10, w - 1);
      }
      if n / 10 == m / 10 {
        LexLessIrreflexive(a);
      }
    }
  }

  /** A sort-key field of a number with at most 20 digits is in the number's order. */
  lemma {:induction false} SortKeyFieldOrder(n: nat, m: nat)
    requires n < Pow10(20) && m < Pow10(20)
    ensures LexLess(SortKeyField(NatToString(n)), SortKeyField(NatToString(m))) <==> n < m
  {
    SortKeyFieldOfNat(n);
    SortKeyFieldOfNat(m);
    FixedDigitsOrder(n, m, 20);
  }

  /** A sort-key field contains a character other than '0' only if the text it pads does. */
  lemma {:induction false} SortKeyFieldChars(s: string, c: char)
    requires c != '0' && c !in s
    ensures c !in SortKeyField(s)
  {
    var padded := Zeros(20) + s;
    var r := SortKeyField(s);
    forall i | 0 <= i < |r|
      ensures r[i] != c
    {
      var k := |padded| - |r| + i;
      assert r[i] == padded[k];
      if k >= 20 {
        assert padded[k] == s[k - 20];
      }
    }
  }

  lemma {:induction false} IntToStringChars(i: int, c: char)
    requires c != '-' && !IsDigit(c)
    ensures c !in IntToString(i)
  {
    NatToStringDigits(if i < 0 then -i else i);
    var s := IntToString(i);
    if i < 0 {
      assert forall k :: 1 <= k < |s| ==> s[k] == NatToString(-i)[k - 1];
    }
  }
}
