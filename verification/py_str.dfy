/**
 The Python string operations the input checks use, over code points
 (Dafny's `char` is a Unicode scalar value, as a Python `str` element is).
 */
module PyStr {

  /** `ord(c) < 32`: the characters the sanitiser treats as control characters. */
  predicate IsControl(c: char)
  {
    (c as int) < 32
  }

  predicate NoControl(s: string)
  {
    forall k | 0 <= k < |s| :: !IsControl(s[k])
  }

  /** `"".join(c for c in s if ord(c) >= 32)`. */
  function StripControl(s: string): (r: string)
    ensures NoControl(r)
    ensures |r| <= |s|
    ensures NoControl(s) ==> r == s
  {
    if |s| == 0 then ""
    else (if IsControl(s[0]) then "" else [s[0]]) + StripControl(s[1..])
  }

  /** Filtering works character by character, so it distributes over concatenation. */
  lemma {:induction false} StripControlAppend(a: string, b: string)
    ensures StripControl(a + b) == StripControl(a) + StripControl(b)
  {
    if |a| == 0 {
      assert a + b == b;
    } else {
      var ab := a + b;
      assert ab[0] == a[0];
      assert ab[1..] == a[1..] + b;
      StripControlAppend(a[1..], b);
      var head := if IsControl(a[0]) then "" else [a[0]];
      assert StripControl(ab) == head + StripControl(a[1..] + b);
      assert StripControl(a) == head + StripControl(a[1..]);
    }
  }

  /** Exactly the control characters are dropped: every other character keeps
      its number of occurrences. */
  lemma {:induction false} StripControlKeepsOthers(s: string, c: char)
    ensures IsControl(c) ==> multiset(StripControl(s))[c] == 0
    ensures !IsControl(c) ==> multiset(StripControl(s))[c] == multiset(s)[c]
  {
    if |s| > 0 {
      StripControlKeepsOthers(s[1..], c);
      assert s == [s[0]] + s[1..];
    } else {
      assert StripControl(s) == "";
    }
  }

  /** A string of control characters only filters to the empty string. */
  lemma {:induction false} StripControlAllControl(s: string)
    requires forall k | 0 <= k < |s| :: IsControl(s[k])
    ensures StripControl(s) == ""
  {
    if |s| > 0 {
      StripControlAllControl(s[1..]);
    }
  }

  /** `s[:n]` for a non-negative `n`. */
  function Take(s: string, n: nat): (r: string)
    ensures r <= s
    ensures |r| <= n
    ensures |s| <= n ==> r == s
    ensures |s| >= n ==> |r| == n
  {
    if |s| <= n then s else s[..n]
  }

  /** Number of occurrences of `c` in `s`. */
  function Count(s: string, c: char): nat
  {
    if |s| == 0 then 0 else (if s[0] == c then 1 else 0) + Count(s[1..], c)
  }

  /** `s.replace(c, rep)` for a one-character `c`: every occurrence of `c`,
      scanning left to right, becomes `rep`. */
  function ReplaceChar(s: string, c: char, rep: string): (r: string)
    ensures c !in rep ==> c !in r
    ensures c !in s ==> r == s
  {
    if |s| == 0 then ""
    else (if s[0] == c then rep else [s[0]]) + ReplaceChar(s[1..], c, rep)
  }

  /** Each occurrence of `c` grows the string by `|rep| - 1`. */
  lemma {:induction false} ReplaceCharLength(s: string, c: char, rep: string)
    ensures |ReplaceChar(s, c, rep)| == |s| + Count(s, c) * (|rep| - 1)
  {
    if |s| > 0 {
      ReplaceCharLength(s[1..], c, rep);
      var n := Count(s[1..], c);
      var tail := ReplaceChar(s[1..], c, rep);
      if s[0] == c {
        assert |ReplaceChar(s, c, rep)| == |rep| + |tail|;
        MulSucc(n, |rep| - 1);
      } else {
        assert |ReplaceChar(s, c, rep)| == 1 + |tail|;
      }
    }
  }

  lemma MulSucc(n: nat, g: int)
    ensures (n + 1) * g == n * g + g
  {
  }

  /** Replacement works character by character, so it distributes over concatenation. */
  lemma {:induction false} ReplaceCharAppend(a: string, b: string, c: char, rep: string)
    ensures ReplaceChar(a + b, c, rep) == ReplaceChar(a, c, rep) + ReplaceChar(b, c, rep)
  {
    if |a| == 0 {
      assert a + b == b;
    } else {
      assert (a + b)[0] == a[0];
      assert (a + b)[1..] == a[1..] + b;
      ReplaceCharAppend(a[1..], b, c, rep);
    }
  }
}
