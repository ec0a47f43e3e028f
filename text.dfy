/**
 * Text encodings the core relies on: decimal rendering of integers (JavaScript's
 * number-to-string conversion, Python's int-to-str), path prefix/suffix stripping
 * as a URL router does, and Python's repr of strings and tuples of strings.
 */
module Text {
  import opened Wrappers

  predicate IsDigit(c: char) { '0' <= c <= '9' }

  predicate AllDigits(s: string) { forall i :: 0 <= i < |s| ==> IsDigit(s[i]) }

  function DigitChar(d: nat): (c: char)
    requires d < 10
    ensures IsDigit(c) && c as int - '0' as int == d
  {
    ('0' as int + d) as char
  }

  /** Decimal digits of a natural number, most significant first, no leading zeros. */
  function NatToDecimal(n: nat): (s: string)
    ensures |s| > 0 && AllDigits(s)
    ensures |s| > 1 ==> s[0] != '0'
    decreases n
  {
    if n < 10 then [DigitChar(n)] else NatToDecimal(n / 10) + [DigitChar(n % 10)]
  }

  /** The string JavaScript and Python produce for an integer. */
  function IntToDecimal(n: int): (s: string)
    ensures |s| > 0
    ensures (s[0] == '-') <==> n < 0
  {
    if n < 0 then "-" + NatToDecimal(-n) else NatToDecimal(n)
  }

  /** Value of a string of decimal digits. */
  function DigitsValue(s: string): nat
    requires AllDigits(s)
    decreases |s|
  {
    if s == [] then 0 else DigitsValue(s[..|s| - 1]) * 10 + (s[|s| - 1] as int - '0' as int)
  }

  /** A non-empty run of decimal digits read as a natural number; anything else is rejected. */
  function ParseNat(s: string): Option<nat>
  {
    if s != [] && AllDigits(s) then Some(DigitsValue(s)) else None
  }

  /** Reading back the decimal rendering of a natural number gives the number. */
  lemma {:induction false} ParseNatDecimal(n: nat)
    ensures ParseNat(NatToDecimal(n)) == Some(n)
  {
    var s := NatToDecimal(n);
    if n >= 10 {
      ParseNatDecimal(n / 10);
      var t := NatToDecimal(n / 10);
      assert s == t + [DigitChar(n % 10)];
      assert s[..|s| - 1] == t;
      assert DigitsValue(s) == DigitsValue(t) * 10 + n % 10;
    }
  }

  /** Distinct natural numbers have distinct decimal digits. */
  lemma NatToDecimalInjective(a: nat, b: nat)
    requires a != b
    ensures NatToDecimal(a) != NatToDecimal(b)
  {
    ParseNatDecimal(a);
    ParseNatDecimal(b);
  }

  /** Decimal rendering is injective: distinct integers render differently. */
  lemma IntToDecimalInjective(m: int, n: int)
    requires m != n
    ensures IntToDecimal(m) != IntToDecimal(n)
  {
    if m < 0 && n < 0 {
      NatToDecimalInjective(-m, -n);
      var sm, sn := NatToDecimal(-m), NatToDecimal(-n);
      assert ("-" + sm)[1..] == sm && ("-" + sn)[1..] == sn;
    } else if m >= 0 && n >= 0 {
      NatToDecimalInjective(m, n);
    } else {
      assert IntToDecimal(m)[0] != IntToDecimal(n)[0];
    }
  }

  predicate StartsWith(s: string, prefix: string)
  {
    |prefix| <= |s| && s[..|prefix|] == prefix
  }

  /** A string starts with anything it was built from by appending. */
  lemma StartsWithConcat(prefix: string, rest: string)
    ensures StartsWith(prefix + rest, prefix)
  {
    assert (prefix + rest)[..|prefix|] == prefix;
  }

  /** `t` occurs in `s` as a contiguous piece. */
  ghost predicate Contains(s: string, t: string)
  {
    exists i :: 0 <= i <= |s| && OccursAt(s, t, i)
  }

  predicate OccursAt(s: string, t: string, i: int)
  {
    0 <= i <= |s| - |t| && s[i..i + |t|] == t
  }

  lemma ContainsInConcat(a: string, b: string, t: string)
    requires Contains(a, t) || Contains(b, t)
    ensures Contains(a + b, t)
  {
    if Contains(a, t) {
      var i :| 0 <= i <= |a| && OccursAt(a, t, i);
      assert (a + b)[i..i + |t|] == t;
      assert OccursAt(a + b, t, i);
    } else {
      var i :| 0 <= i <= |b| && OccursAt(b, t, i);
      assert 0 <= i <= |b| - |t| && b[i..i + |t|] == t;
      assert (a + b)[|a| + i..|a| + i + |t|] == b[i..i + |t|];
      assert OccursAt(a + b, t, |a| + i);
    }
  }

  /**
   * The piece of `s` between `prefix` and `suffix`, whatever it holds (it may be
   * empty or contain `/`); None when `s` does not have that shape.
   */
  function StripAffixes(s: string, prefix: string, suffix: string): Option<string>
  {
    if |prefix| + |suffix| <= |s| && s[..|prefix|] == prefix && s[|s| - |suffix|..] == suffix
    then Some(s[|prefix|..|s| - |suffix|])
    else None
  }

  /** Stripping the affixes a path was built from gives back the piece in between. */
  lemma StripAffixesOfConcat(prefix: string, middle: string, suffix: string)
    ensures StripAffixes(prefix + middle + suffix, prefix, suffix) == Some(middle)
  {
    var s := prefix + middle + suffix;
    assert s[..|prefix|] == prefix;
    assert s[|s| - |suffix|..] == suffix;
    assert s[|prefix|..|s| - |suffix|] == middle;
  }

  /** The quote character Python's repr chooses for a string. */
  function PyQuote(s: string): char
  {
    if '\'' in s && '"' !in s then '"' else '\''
  }

  /** Python's escaping of one character inside a repr quoted with `q`. */
  function PyEscapeChar(c: char, q: char): string
  {
    if c == '\\' then "\\\\"
    else if c == q then ['\\', q]
    else if c == '\n' then "\\n"
    else if c == '\r' then "\\r"
    else if c == '\t' then "\\t"
    else [c]
  }

  function PyEscape(s: string, q: char): string
  {
    if s == [] then [] else PyEscapeChar(s[0], q) + PyEscape(s[1..], q)
  }

  /** Python's `repr` of a string. */
  function PyRepr(s: string): (r: string)
    ensures |r| >= 2 && r[0] == r[|r| - 1] == PyQuote(s)
  {
    [PyQuote(s)] + PyEscape(s, PyQuote(s)) + [PyQuote(s)]
  }

  /** The reprs of `items` separated by ", ". */
  function PyReprJoin(items: seq<string>): string
    requires |items| > 0
  {
    if |items| == 1 then PyRepr(items[0]) else PyRepr(items[0]) + ", " + PyReprJoin(items[1..])
  }

  /** Python's `repr` (and `str`) of a tuple of strings: `()`, `('a',)`, `('a', 'b')`. */
  function PyTupleRepr(items: seq<string>): string
  {
    if |items| == 0 then "()"
    else if |items| == 1 then "(" + PyRepr(items[0]) + ",)"
    else "(" + PyReprJoin(items) + ")"
  }

  lemma {:induction false} PyReprJoinNamesEach(items: seq<string>, k: string)
    requires |items| > 0 && k in items
    ensures Contains(PyReprJoin(items), PyRepr(k))
  {
    var r := PyRepr(k);
    if items[0] == k {
      assert Contains(r, r) by {
        assert OccursAt(r, r, 0);
      }
      if |items| > 1 {
        ContainsInConcat(r, ", " + PyReprJoin(items[1..]), r);
        assert PyReprJoin(items) == r + (", " + PyReprJoin(items[1..]));
      }
    } else {
      assert k in items[1..];
      PyReprJoinNamesEach(items[1..], k);
      ContainsInConcat(PyRepr(items[0]) + ", ", PyReprJoin(items[1..]), r);
    }
  }

  /** Every item's repr occurs in the tuple's repr. */
  lemma PyTupleReprNamesEach(items: seq<string>, k: string)
    requires k in items
    ensures Contains(PyTupleRepr(items), PyRepr(k))
  {
    if |items| == 1 {
      assert items[0] == k;
      assert OccursAt("(" + PyRepr(k) + ",)", PyRepr(k), 1);
    } else {
      PyReprJoinNamesEach(items, k);
      ContainsInConcat("(", PyReprJoin(items), PyRepr(k));
      ContainsInConcat("(" + PyReprJoin(items), ")", PyRepr(k));
    }
  }
}
