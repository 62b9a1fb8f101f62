/** String helpers with the meaning Python gives them (ASCII case mapping only). */
module Text {
  import opened Wrappers

  /** `c.lower()` for one character; only 'A'..'Z' are mapped. */
  function LowerChar(c: char): char {
    if 'A' <= c <= 'Z' then (c as int + 32) as char else c
  }

  /** `s.lower()`: the same length, each ASCII capital mapped to its small letter. */
  function Lower(s: string): (r: string)
    ensures |r| == |s|
    ensures forall i :: 0 <= i < |s| ==> r[i] == LowerChar(s[i])
  {
    seq(|s|, i requires 0 <= i < |s| => LowerChar(s[i]))
  }

  predicate IsLower(s: string) {
    forall i :: 0 <= i < |s| ==> !('A' <= s[i] <= 'Z')
  }

  /** Lower-casing yields a lower-case string and is idempotent. */
  lemma LowerIsLower(s: string)
    ensures IsLower(Lower(s))
    ensures Lower(Lower(s)) == Lower(s)
  {
  }

  lemma LowerOfLower(s: string)
    requires IsLower(s)
    ensures Lower(s) == s
  {
  }

  lemma LowerAppend(a: string, b: string)
    ensures Lower(a + b) == Lower(a) + Lower(b)
  {
  }

  /** Python's `k in s` for strings: `k` occurs in `s` as a contiguous substring. */
  function Contains(s: string, k: string): (r: bool)
    ensures k == [] ==> r
    ensures r ==> |k| <= |s|
    decreases |s|
  {
    if |k| > |s| then false
    else if s[..|k|] == k then true
    else Contains(s[1..], k)
  }

  lemma {:induction false} ContainsAt(s: string, k: string, i: nat)
    requires i + |k| <= |s| && s[i..i + |k|] == k
    ensures Contains(s, k)
    decreases i
  {
    if i > 0 && s[..|k|] != k {
      assert s[1..][i - 1..i - 1 + |k|] == s[i..i + |k|];
      ContainsAt(s[1..], k, i - 1);
    }
  }

  lemma {:induction false} ContainsWitness(s: string, k: string) returns (i: nat)
    requires Contains(s, k)
    ensures i + |k| <= |s| && s[i..i + |k|] == k
    decreases |s|
  {
    if s[..|k|] == k {
      i := 0;
    } else {
      var j := ContainsWitness(s[1..], k);
      assert s[1..][j..j + |k|] == s[j + 1..j + 1 + |k|];
      i := j + 1;
    }
  }

  /** An occurrence in `a` is an occurrence in `a + b`. */
  lemma ContainsAppendRight(a: string, b: string, k: string)
    requires Contains(a, k)
    ensures Contains(a + b, k)
  {
    var i := ContainsWitness(a, k);
    assert (a + b)[i..i + |k|] == a[i..i + |k|];
    ContainsAt(a + b, k, i);
  }

  /** A string occurs in any concatenation that has it in the middle. */
  lemma ContainsMiddle(a: string, k: string, b: string)
    ensures Contains(a + k + b, k)
  {
    assert (a + k + b)[|a|..|a| + |k|] == k;
    ContainsAt(a + k + b, k, |a|);
  }

  /** An occurrence in `b` is an occurrence in `a + b`. */

  lemma ContainsAppendLeft(a: string, b: string, k: string)
    requires Contains(b, k)
    ensures Contains(a + b, k)
  {
    var i := ContainsWitness(b, k);
    assert (a + b)[|a| + i..|a| + i + |k|] == b[i..i + |k|];
    ContainsAt(a + b, k, |a| + i);
  }

  /** Every string contains itself. */
  lemma ContainsSelf(k: string)
    ensures Contains(k, k)
  {
    assert k[0..|k|] == k;
    ContainsAt(k, k, 0);
  }

  /** `s.startswith(prefix)`. */
  predicate StartsWith(s: string, prefix: string) {
    |prefix| <= |s| && s[..|prefix|] == prefix
  }

  /** A string starting with `p` neither equals nor starts with a string `q` that
      differs from `p` at position `j`. */
  lemma CharDiffers(p: string, k: string, q: string, j: nat)
    requires j < |p| && j < |q| && p[j] != q[j]
    ensures !StartsWith(p + k, q) && p + k != q
  {
    assert (p + k)[j] == p[j];
    if |q| <= |p + k| {
      assert (p + k)[..|q|][j] == (p + k)[j];
    }
  }

  /** The number of strings in `xs` that start with `prefix`. */
  function CountStartingWith(xs: seq<string>, prefix: string): nat {
    if xs == [] then 0
    else (if StartsWith(xs[0], prefix) then 1 else 0) + CountStartingWith(xs[1..], prefix)
  }

  lemma {:induction false} CountStartingWithAppend(a: seq<string>, b: seq<string>, prefix: string)
    ensures CountStartingWith(a + b, prefix) == CountStartingWith(a, prefix) + CountStartingWith(b, prefix)
  {
    if a != [] {
      assert (a + b)[1..] == a[1..] + b;
      CountStartingWithAppend(a[1..], b, prefix);
    } else {
      assert a + b == b;
    }
  }

  /** The first word of `words`, in list order, that occurs in `text`
      (a `for` loop over the list that stops at the first hit). */
  function FirstContained(words: seq<string>, text: string): Option<string> {
    if words == [] then None
    else if Contains(text, words[0]) then Some(words[0])
    else FirstContained(words[1..], text)
  }

  /** `FirstContained` finds a word of the list that occurs, and none before it;
      it finds nothing exactly when no word occurs. */
  lemma {:induction false} FirstContainedSpec(words: seq<string>, text: string)
    ensures FirstContained(words, text).None? <==>
      forall i :: 0 <= i < |words| ==> !Contains(text, words[i])
    ensures FirstContained(words, text).Some? ==>
      exists i :: 0 <= i < |words| && words[i] == FirstContained(words, text).value &&
        Contains(text, words[i]) && forall j :: 0 <= j < i ==> !Contains(text, words[j])
  {
    if words != [] && !Contains(text, words[0]) {
      FirstContainedSpec(words[1..], text);
      var r := FirstContained(words, text);
      if r.Some? {
        var i :| 0 <= i < |words[1..]| && words[1..][i] == r.value &&
          Contains(text, words[1..][i]) && forall j :: 0 <= j < i ==> !Contains(text, words[1..][j]);
        assert words[i + 1] == r.value;
        assert forall j :: 0 <= j < i + 1 ==> !Contains(text, words[j]) by {
          forall j | 0 <= j < i + 1 ensures !Contains(text, words[j]) {
            if j > 0 { assert words[j] == words[1..][j - 1]; }
          }
        }
      } else {
        forall i | 0 <= i < |words| ensures !Contains(text, words[i]) {
          if i > 0 { assert words[i] == words[1..][i - 1]; }
        }
      }
    }
  }

  /** `sep.join(xs)`. */
  function Join(xs: seq<string>, sep: string): string {
    if |xs| == 0 then ""
    else if |xs| == 1 then xs[0]
    else xs[0] + sep + Join(xs[1..], sep)
  }

  /** Each joined string occurs in the joined text. */
  lemma {:induction false} JoinContains(xs: seq<string>, sep: string, i: nat)
    requires i < |xs|
    ensures Contains(Join(xs, sep), xs[i])
  {
    if |xs| == 1 {
      ContainsSelf(xs[0]);
    } else if i == 0 {
      ContainsSelf(xs[0]);
      ContainsAppendRight(xs[0], sep + Join(xs[1..], sep), xs[0]);
      assert xs[0] + sep + Join(xs[1..], sep) == xs[0] + (sep + Join(xs[1..], sep));
    } else {
      JoinContains(xs[1..], sep, i - 1);
      ContainsAppendLeft(xs[0] + sep, Join(xs[1..], sep), xs[i]);
    }
  }

  /** The decimal digit character for `d`. */
  function Digit(d: nat): (c: char)
    requires d < 10
    ensures '0' <= c <= '9'
    ensures c as int - '0' as int == d
  {
    ('0' as int + d) as char
  }

  /** The number a string of decimal digits denotes, read most significant digit first. */
  function DigitsValue(s: string): int
    decreases |s|
  {
    if s == [] then 0 else DigitsValue(s[..|s| - 1]) * 10 + (s[|s| - 1] as int - '0' as int)
  }

  /** `str(n)` for a natural number. */
  function NatToString(n: nat): (r: string)
    ensures |r| >= 1
    ensures forall i :: 0 <= i < |r| ==> '0' <= r[i] <= '9'
    ensures |r| > 1 ==> r[0] != '0'
    decreases n
  {
    if n < 10 then [Digit(n)] else NatToString(n / 10) + [Digit(n % 10)]
  }

  /** `str(n)` reads back as `n`: the digits `NatToString` writes denote the number. */
  lemma {:induction false} NatToStringValue(n: nat)
    ensures DigitsValue(NatToString(n)) == n
    decreases n
  {
    var r := NatToString(n);
    if n >= 10 {
      NatToStringValue(n / 10);
      assert r[..|r| - 1] == NatToString(n / 10);
    }
  }
}
