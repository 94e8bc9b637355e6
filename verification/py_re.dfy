/**
 `re.match` for the fragment of Python regular expressions the product check
 uses: anchors, literal characters and `\d`, with counted repetition written
 out. Patterns in this fragment have no alternatives, so matching never
 backtracks.
 */
module PyRe {

  datatype Item =
    | Begin         // `^`: only at position 0 (no MULTILINE flag)
    | End           // `$`: at the end, or just before a final "\n"
    | Lit(c: char)  // a literal character
    | Digit         // `\d`

  /** The digits `\d` accepts, restricted to ASCII '0'..'9'. */
  predicate IsDigit(c: char)
  {
    '0' <= c <= '9'
  }

  /** Whether a character-consuming item accepts `c`. */
  predicate Accepts(it: Item, c: char)
  {
    match it
    case Lit(x) => c == x
    case Digit => IsDigit(c)
    case _ => false
  }

  /** Whether the items `p` match `s` starting at position `i`; what follows
      the matched part is not looked at. */
  function MatchFrom(p: seq<Item>, s: string, i: nat): bool
    requires i <= |s|
    decreases |p|
  {
    if |p| == 0 then true
    else match p[0]
      case Begin => i == 0 && MatchFrom(p[1..], s, i)
      case End => (i == |s| || (i + 1 == |s| && s[i] == '\n')) && MatchFrom(p[1..], s, i)
      case _ => i < |s| && Accepts(p[0], s[i]) && MatchFrom(p[1..], s, i + 1)
  }

  /** `re.match(p, s)` returns a match object (rather than None). */
  predicate Match(p: seq<Item>, s: string)
  {
    MatchFrom(p, s, 0)
  }

  /** The pattern for a literal string. */
  function Literal(t: string): (p: seq<Item>)
    ensures |p| == |t|
    ensures forall k | 0 <= k < |t| :: p[k] == Lit(t[k])
  {
    seq(|t|, k requires 0 <= k < |t| => Lit(t[k]))
  }

  /** `x{n}` for a single item `x`. */
  function Repeat(x: Item, n: nat): (p: seq<Item>)
    ensures |p| == n
    ensures forall k | 0 <= k < n :: p[k] == x
  {
    seq(n, _ => x)
  }

  /** `BATCH-\d{4}-\d{3}`, the part of the batch pattern between the anchors. */
  function BatchBody(): seq<Item>
  {
    Literal("BATCH-") + Repeat(Digit, 4) + [Lit('-')] + Repeat(Digit, 3)
  }

  /** `^BATCH-\d{4}-\d{3}$` (src/utils/validators.py:18). */
  function BatchPattern(): seq<Item>
  {
    [Begin] + BatchBody() + [End]
  }

  /** A batch number such as "BATCH-2024-001", stated character by character. */
  predicate IsBatchShape(t: string)
  {
    && |t| == 14
    && t[..6] == "BATCH-"
    && (forall k | 6 <= k < 10 :: IsDigit(t[k]))
    && t[10] == '-'
    && (forall k | 11 <= k < 14 :: IsDigit(t[k]))
  }

  /** The strings the batch check accepts: a batch number, optionally
      followed by a single "\n" because `$` also matches before a final newline. */
  predicate IsBatchNumber(s: string)
  {
    || IsBatchShape(s)
    || (|s| == 15 && s[14] == '\n' && IsBatchShape(s[..14]))
  }

  predicate IsCharItems(p: seq<Item>)
  {
    forall k | 0 <= k < |p| :: p[k].Lit? || p[k].Digit?
  }

  /** The characters of `s` from position `i` on are accepted one by one by `p`. */
  predicate AcceptsAll(p: seq<Item>, s: string, i: nat)
  {
    i + |p| <= |s| && forall k | 0 <= k < |p| :: Accepts(p[k], s[i + k])
  }

  /** A run of character items consumes exactly one character each. */
  lemma {:induction false} MatchCharItems(p: seq<Item>, rest: seq<Item>, s: string, i: nat)
    requires IsCharItems(p)
    requires i <= |s|
    ensures MatchFrom(p + rest, s, i) <==> AcceptsAll(p, s, i) && MatchFrom(rest, s, i + |p|)
    decreases |p|
  {
    if |p| == 0 {
      assert p + rest == rest;
    } else {
      assert (p + rest)[0] == p[0];
      assert (p + rest)[1..] == p[1..] + rest;
      if i < |s| && Accepts(p[0], s[i]) {
        MatchCharItems(p[1..], rest, s, i + 1);
        assert AcceptsAll(p, s, i) <==> AcceptsAll(p[1..], s, i + 1) by {
          if AcceptsAll(p[1..], s, i + 1) {
            forall k | 0 <= k < |p|
              ensures Accepts(p[k], s[i + k])
            {
              if k > 0 {
                assert p[k] == p[1..][k - 1];
              }
            }
          }
          if AcceptsAll(p, s, i) {
            forall k | 0 <= k < |p| - 1
              ensures Accepts(p[1..][k], s[i + 1 + k])
            {
              assert p[1..][k] == p[k + 1];
            }
          }
        }
      } else {
        assert !AcceptsAll(p, s, i) by {
          if i + |p| <= |s| {
            assert !Accepts(p[0], s[i + 0]);
          }
        }
      }
    }
  }

  /** Position by position, the items of the batch pattern body. */
  lemma BatchBodyItems()
    ensures |BatchBody()| == 14
    ensures IsCharItems(BatchBody())
    ensures forall k | 0 <= k < 6 :: BatchBody()[k] == Lit("BATCH-"[k])
    ensures forall k | 6 <= k < 10 :: BatchBody()[k] == Digit
    ensures BatchBody()[10] == Lit('-')
    ensures forall k | 11 <= k < 14 :: BatchBody()[k] == Digit
  {
  }

  /** A 14-character string has the batch shape exactly when the pattern body
      accepts it character by character. */
  lemma BatchShapeByItems(t: string)
    requires |t| == 14
    ensures IsBatchShape(t) <==> AcceptsAll(BatchBody(), t, 0)
  {
    BatchBodyItems();
    var body := BatchBody();
    assert AcceptsAll(body, t, 0) <==> forall k | 0 <= k < 14 :: Accepts(body[k], t[k]);
    if AcceptsAll(body, t, 0) {
      assert forall k | 0 <= k < 6 :: t[k] == "BATCH-"[k] by {
        forall k | 0 <= k < 6
          ensures t[k] == "BATCH-"[k]
        {
          assert Accepts(body[k], t[k]);
        }
      }
      assert t[..6] == "BATCH-";
      assert Accepts(body[10], t[10]);
      assert forall k | 6 <= k < 10 :: Accepts(body[k], t[k]);
      assert forall k | 11 <= k < 14 :: Accepts(body[k], t[k]);
    }
    if IsBatchShape(t) {
      forall k | 0 <= k < 14
        ensures Accepts(body[k], t[k])
      {
        if k < 6 {
          assert t[k] == t[..6][k];
        }
      }
    }
  }

  /** The regular expression accepts exactly the batch numbers, plus the same
      followed by one trailing newline. */
  lemma BatchPatternIsBatchNumber(s: string)
    ensures Match(BatchPattern(), s) <==> IsBatchNumber(s)
  {
    BatchBodyItems();
    var body := BatchBody();
    assert BatchPattern()[0] == Begin;
    assert BatchPattern()[1..] == body + [End];
    MatchCharItems(body, [End], s, 0);
    assert Match(BatchPattern(), s) <==> AcceptsAll(body, s, 0) && MatchFrom([End], s, 14);
    if 14 <= |s| {
      assert MatchFrom([End], s, 14) <==> |s| == 14 || (|s| == 15 && s[14] == '\n') by {
        assert [End][1..] == [];
      }
      var t := s[..14];
      BatchShapeByItems(t);
      assert AcceptsAll(body, s, 0) <==> AcceptsAll(body, t, 0) by {
        assert forall k | 0 <= k < 14 :: s[k] == t[k];
      }
      if |s| == 14 {
        assert t == s;
      }
    } else {
      assert !AcceptsAll(body, s, 0);
    }
  }
}
