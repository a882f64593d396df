/** The small pieces of Rust's `format!` that the report generator relies on:
    decimal rendering of `usize` values, `{:03}` zero padding and `join`. */
module Text {

  /** The decimal digit character for `d`. */
  function DigitChar(d: nat): (c: char)
    requires d < 10
    ensures '0' <= c <= '9'
    ensures (c as int) - ('0' as int) == d
  {
    (('0' as int) + d) as char
  }

  predicate IsDigits(s: string)
  {
    forall i :: 0 <= i < |s| ==> '0' <= s[i] <= '9'
  }

  /** `n` printed with `{}`: its decimal digits, most significant first, no leading zero. */
  function NatToString(n: nat): (s: string)
    ensures |s| >= 1 && IsDigits(s)
    decreases n
  {
    if n < 10 then [DigitChar(n)] else NatToString(n / 10) + [DigitChar(n % 10)]
  }

  /** The number a string of decimal digits denotes (the inverse of `NatToString`). */
  function DigitsValue(s: string): nat
    requires IsDigits(s)
    decreases |s|
  {
    if s == [] then 0 else DigitsValue(s[..|s| - 1]) * 10 + ((s[|s| - 1] as int) - ('0' as int))
  }

  lemma {:induction false} NatToStringRoundTrip(n: nat)
    ensures DigitsValue(NatToString(n)) == n
    decreases n
  {
    if n >= 10 {
      var p := NatToString(n / 10);
      NatToStringRoundTrip(n / 10);
      assert (p + [DigitChar(n % 10)])[..|p|] == p;
    }
  }

  /** Different numbers print differently. */
  lemma NatToStringInjective(a: nat, b: nat)
    ensures NatToString(a) == NatToString(b) ==> a == b
  {
    NatToStringRoundTrip(a);
    NatToStringRoundTrip(b);
  }

  /** A number of at least 100 prints with at least three digits. */
  lemma {:induction false} NatToStringWidth(n: nat)
    requires n >= 100
    ensures |NatToString(n)| >= 3
  {
    assert NatToString(n) == NatToString(n / 10) + [DigitChar(n % 10)];
    assert NatToString(n / 10) == NatToString(n / 100) + [DigitChar((n / 10) % 10)];
  }

  /** `s` left-padded with '0' to at least `width` characters, as `{:0width}` pads a number. */
  function ZeroPad(s: string, width: nat): string
    decreases width - |s|
  {
    if |s| >= width then s else ZeroPad("0" + s, width)
  }

  /** `parts.join(sep)`. */
  function Join(parts: seq<string>, sep: string): (r: string)
    ensures |parts| == 1 ==> r == parts[0]
    ensures |parts| == 0 ==> r == ""
    decreases |parts|
  {
    if |parts| == 0 then "" else if |parts| == 1 then parts[0] else parts[0] + sep + Join(parts[1..], sep)
  }

  /** Where part `i` starts in `Join(parts, sep)`: after the parts before it and one separator each. */
  function JoinOffset(parts: seq<string>, sep: string, i: nat): nat
    requires i <= |parts|
    decreases i
  {
    if i == 0 then 0 else |parts[0]| + |sep| + JoinOffset(parts[1..], sep, i - 1)
  }

  /** The next part starts after this one and one separator. */
  lemma {:induction false} JoinOffsetStep(parts: seq<string>, sep: string, i: nat)
    requires i < |parts|
    ensures JoinOffset(parts, sep, i + 1) == JoinOffset(parts, sep, i) + |parts[i]| + |sep|
    decreases i
  {
    if i > 0 {
      JoinOffsetStep(parts[1..], sep, i - 1);
      assert parts[1..][i - 1] == parts[i];
    }
  }

  /** Every part occurs in the joined text, at its offset. */
  lemma {:induction false} JoinPartAt(parts: seq<string>, sep: string, i: nat)
    requires i < |parts|
    ensures JoinOffset(parts, sep, i) + |parts[i]| <= |Join(parts, sep)|
    ensures Join(parts, sep)[JoinOffset(parts, sep, i)..JoinOffset(parts, sep, i) + |parts[i]|] == parts[i]
    decreases i
  {
    if i == 0 {
      JoinHead(parts, sep);
    } else {
      var front, rest := parts[0] + sep, Join(parts[1..], sep);
      JoinPartAt(parts[1..], sep, i - 1);
      assert parts[1..][i - 1] == parts[i];
      JoinSlice(front, rest, JoinOffset(parts[1..], sep, i - 1), |parts[i]|);
    }
  }

  lemma JoinHead(parts: seq<string>, sep: string)
    requires |parts| > 0
    ensures |parts[0]| <= |Join(parts, sep)| && Join(parts, sep)[..|parts[0]|] == parts[0]
  {
    if |parts| > 1 {
      assert Join(parts, sep) == parts[0] + (sep + Join(parts[1..], sep));
    }
  }

  /** Between a part and the next one stands exactly one separator. */
  lemma {:induction false} JoinSeparatorAt(parts: seq<string>, sep: string, i: nat)
    requires i + 1 < |parts|
    ensures JoinOffset(parts, sep, i) + |parts[i]| + |sep| <= |Join(parts, sep)|
    ensures
      var end := JoinOffset(parts, sep, i) + |parts[i]|;
      Join(parts, sep)[end..end + |sep|] == sep
    decreases i
  {
    var front, rest := parts[0] + sep, Join(parts[1..], sep);
    assert Join(parts, sep) == front + rest;
    if i == 0 {
      assert (front + rest)[|parts[0]|..|front|] == sep;
    } else {
      JoinSeparatorAt(parts[1..], sep, i - 1);
      assert parts[1..][i - 1] == parts[i];
      JoinSlice(front, rest, JoinOffset(parts[1..], sep, i - 1) + |parts[i]|, |sep|);
    }
  }

  lemma JoinSlice(front: string, rest: string, o: nat, n: nat)
    requires o + n <= |rest|
    ensures (front + rest)[|front| + o..|front| + o + n] == rest[o..o + n]
  {
  }

  /** The concatenation of `parts`, in order (a buffer the parts are pushed onto one by one). */
  function Concat(parts: seq<string>): string
    decreases |parts|
  {
    if parts == [] then "" else Concat(parts[..|parts| - 1]) + parts[|parts| - 1]
  }

  /** Pushing the next part extends the concatenation of a prefix. */
  lemma ConcatPrefixStep(parts: seq<string>, i: nat)
    requires i < |parts|
    ensures Concat(parts[..i + 1]) == Concat(parts[..i]) + parts[i]
  {
    assert parts[..i + 1][..i] == parts[..i];
  }

  /** Regrouping pushes: appending `a` then `b` is appending `a + b`. */
  lemma Regroup(buffer: string, a: string, b: string)
    ensures buffer + a + b == buffer + (a + b)
  {
  }

  /** Every part appears in the concatenation, between the parts before it and the parts after it. */
  lemma {:induction false} ConcatParts(parts: seq<string>, k: nat)
    requires k < |parts|
    ensures Concat(parts) == Concat(parts[..k]) + parts[k] + Concat(parts[k + 1..])
    decreases |parts|
  {
    var n := |parts|;
    assert parts[..n][..n - 1] == parts[..n - 1];
    if k == n - 1 {
      assert parts[k + 1..] == [];
    } else {
      var init, after := parts[..n - 1], parts[k + 1..];
      ConcatParts(init, k);
      assert init[..k] == parts[..k];
      assert init[k + 1..] == after[..|after| - 1];
      Regroup(Concat(parts[..k]) + parts[k], Concat(init[k + 1..]), parts[n - 1]);
    }
  }
}
