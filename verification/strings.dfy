/** The string operations the core relies on: `String.prototype.split` and
    `Array.prototype.join` with a one-character separator, removal of the first
    occurrence of a character (`replace` with a string pattern), and the decimal
    spelling of integers that JavaScript uses for array indices and for numbers
    inside template literals. */
module Strings {
  import opened Wrappers

  /** JavaScript truthiness of a string that may be `undefined`: set and
      non-empty. */
  predicate TruthyString(v: Option<string>)
  {
    v.Some? && v.value != ""
  }

  /** `parts.join([sep])`. */
  function Join(parts: seq<string>, sep: char): string
  {
    if |parts| == 0 then ""
    else if |parts| == 1 then parts[0]
    else parts[0] + [sep] + Join(parts[1..], sep)
  }

  /** `s.split(sep)`: the pieces between separators, never an empty list. */
  function Split(s: string, sep: char): (parts: seq<string>)
    ensures |parts| >= 1
    ensures forall i :: 0 <= i < |parts| ==> sep !in parts[i]
    ensures Join(parts, sep) == s
    ensures sep in s <==> |parts| >= 2
    decreases |s|
  {
    if |s| == 0 then [""]
    else
      var rest := Split(s[1..], sep);
      if s[0] == sep then
        [""] + rest
      else
        assert s == [s[0]] + s[1..];
        [[s[0]] + rest[0]] + rest[1..]
  }

  /** Splitting the join of separator-free pieces gives the pieces back. */
  lemma {:induction false} SplitJoin(parts: seq<string>, sep: char)
    requires |parts| >= 1
    requires forall i :: 0 <= i < |parts| ==> sep !in parts[i]
    ensures Split(Join(parts, sep), sep) == parts
    decreases |parts|
  {
    if |parts| == 1 {
      SplitFree(parts[0], sep);
    } else {
      SplitJoin(parts[1..], sep);
      SplitCons(parts[0], Join(parts[1..], sep), sep);
    }
  }

  lemma {:induction false} SplitFree(s: string, sep: char)
    requires sep !in s
    ensures Split(s, sep) == [s]
    decreases |s|
  {
    if |s| > 0 {
      SplitFree(s[1..], sep);
      assert [s[0]] + s[1..] == s;
    }
  }

  lemma {:induction false} SplitCons(a: string, b: string, sep: char)
    requires sep !in a
    ensures Split(a + [sep] + b, sep) == [a] + Split(b, sep)
    decreases |a|
  {
    if |a| == 0 {
      assert a + [sep] + b == [sep] + b;
      assert ([sep] + b)[1..] == b;
    } else {
      var s := a + [sep] + b;
      assert s[0] == a[0];
      assert s[1..] == a[1..] + [sep] + b;
      SplitCons(a[1..], b, sep);
      assert [a[0]] + a[1..] == a;
    }
  }

  /** Position of the first `c` in `s`, or `|s|` when there is none. */
  function FirstIndex(s: string, c: char): (i: nat)
    ensures i <= |s| && c !in s[..i]
    ensures i < |s| <==> c in s
    ensures i < |s| ==> s[i] == c
  {
    if |s| == 0 then 0
    else if s[0] == c then 0
    else
      var j := FirstIndex(s[1..], c);
      assert s[..j+1] == [s[0]] + s[1..][..j];
      assert c in s ==> c in s[1..] by {
        if c in s {
          var k :| 0 <= k < |s| && s[k] == c;
          assert k > 0 && s[1..][k-1] == c;
        }
      }
      j + 1
  }

  /** The first piece of a split is the text before the first separator, and
      the other pieces are the split of the text after it. */
  lemma SplitAtFirst(s: string, sep: char)
    ensures Split(s, sep)[0] == s[..FirstIndex(s, sep)]
    ensures sep in s ==> Split(s, sep) == [s[..FirstIndex(s, sep)]] + Split(s[FirstIndex(s, sep) + 1..], sep)
  {
    var i := FirstIndex(s, sep);
    if i < |s| {
      assert s == s[..i] + [sep] + s[i + 1..];
      SplitCons(s[..i], s[i + 1..], sep);
    } else {
      SplitFree(s, sep);
      assert s[..i] == s;
    }
  }

  /** `s.replace(c, '')` for a one-character string pattern: only the first
      occurrence is removed. */
  function RemoveFirst(s: string, c: char): (r: string)
    ensures c !in s ==> r == s
    ensures c in s ==> |r| == |s| - 1 && c !in s[..FirstIndex(s, c)]
  {
    var i := FirstIndex(s, c);
    if i < |s| then s[..i] + s[i+1..] else s
  }

  predicate IsDigit(c: char)
  {
    '0' <= c <= '9'
  }

  function DigitChar(d: nat): (c: char)
    requires d < 10
    ensures IsDigit(c) && c as int - '0' as int == d
  {
    ('0' as int + d) as char
  }

  /** Decimal spelling of a natural number, without leading zeros. */
  function NatToString(n: nat): (s: string)
    ensures |s| >= 1
    decreases n
  {
    if n < 10 then [DigitChar(n)] else NatToString(n / 10) + [DigitChar(n % 10)]
  }

  /** Decimal spelling of an integer, as a template literal renders it. */
  function IntToString(n: int): string
  {
    if n < 0 then "-" + NatToString(-n) else NatToString(n)
  }

  /** The value of a string of decimal digits. */
  function DigitsValue(s: string): nat
    requires forall i :: 0 <= i < |s| ==> IsDigit(s[i])
    decreases |s|
  {
    if |s| == 0 then 0
    else
      assert IsDigit(s[|s|-1]);
      DigitsValue(s[..|s|-1]) * 10 + (s[|s|-1] as int - '0' as int)
  }

  /** A canonical array index: digits only, no leading zero unless it is "0". */
  predicate IsCanonicalIndex(s: string)
  {
    && |s| >= 1
    && (forall i :: 0 <= i < |s| ==> IsDigit(s[i]))
    && (|s| == 1 || s[0] != '0')
  }

  /** The array index a property key names, if it names one. */
  function ParseIndex(s: string): Option<nat>
  {
    if IsCanonicalIndex(s) then Some(DigitsValue(s)) else None
  }

  lemma {:induction false} NatToStringCanonical(n: nat)
    ensures IsCanonicalIndex(NatToString(n))
    ensures DigitsValue(NatToString(n)) == n
    decreases n
  {
    if n >= 10 {
      NatToStringCanonical(n / 10);
      var s := NatToString(n);
      assert s[..|s|-1] == NatToString(n / 10);
      assert s[0] == NatToString(n / 10)[0];
    }
  }

  lemma {:induction false} LeadingDigitPositive(s: string)
    requires IsCanonicalIndex(s) && s[0] != '0'
    ensures DigitsValue(s) >= 1
    decreases |s|
  {
    if |s| > 1 {
      var p := s[..|s|-1];
      assert p[0] == s[0];
      LeadingDigitPositive(p);
    }
  }

  /** A key reads as an array index exactly when it is the spelling of that index:
      the two directions of the round trip between indices and keys. */
  lemma {:induction false} IndexKeyRoundTrip(n: nat, s: string)
    ensures ParseIndex(NatToString(n)) == Some(n)
    ensures ParseIndex(s) == Some(n) ==> NatToString(n) == s
    decreases |s|
  {
    NatToStringCanonical(n);
    if ParseIndex(s) == Some(n) {
      if |s| == 1 {
        assert IsDigit(s[0]);
        assert s[..|s|-1] == [];
        assert n == DigitsValue(s) == DigitsValue(s[..|s|-1]) * 10 + (s[0] as int - '0' as int);
        assert n == s[0] as int - '0' as int;
        assert NatToString(n) == [DigitChar(n)];
        assert DigitChar(n) == s[0];
      } else {
        var p := s[..|s|-1];
        var d := s[|s|-1] as int - '0' as int;
        assert p[0] == s[0];
        LeadingDigitPositive(p);
        assert IsCanonicalIndex(p);
        IndexKeyRoundTrip(DigitsValue(p), p);
        assert n == DigitsValue(p) * 10 + d;
        assert n / 10 == DigitsValue(p) && n % 10 == d;
        assert s == p + [s[|s|-1]];
      }
    }
  }

  /** Distinct indices have distinct keys. */
  lemma NatToStringInjective(m: nat, n: nat)
    ensures NatToString(m) == NatToString(n) ==> m == n
  {
    IndexKeyRoundTrip(m, "");
    IndexKeyRoundTrip(n, "");
  }

  /** The first `c` in `p + [c] + q` is the one after `p` when `p` has none. */
  lemma FirstIndexAt(p: string, c: char, q: string)
    requires c !in p
    ensures FirstIndex(p + [c] + q, c) == |p|
  {
    var s := p + [c] + q;
    var i := FirstIndex(s, c);
    assert s[|p|] == c;
    assert s[..|p|] == p;
  }

  /** Removing the first `c` from `p + [c] + q` gives `p + q`. */
  lemma RemoveFirstAt(p: string, c: char, q: string)
    requires c !in p
    ensures RemoveFirst(p + [c] + q, c) == p + q
  {
    FirstIndexAt(p, c, q);
    var s := p + [c] + q;
    assert s[..|p|] == p;
    assert s[|p| + 1..] == q;
  }
}
