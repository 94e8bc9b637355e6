/**
 `sanitize_input` (src/utils/validators.py:71-94): rebuilds a dict with every
 string value stripped of control characters and cut to 1000 characters,
 nested dicts sanitised recursively, and lists rebuilt with their dict
 elements sanitised and every other element left alone.
 */
module Sanitize {
  import opened PyValues
  import opened PyStr

  /** The length a string value is cut to. */
  const MaxLength: nat := 1000

  /** A string the sanitiser leaves as it is. */
  predicate IsCleanString(s: string)
  {
    NoControl(s) && |s| <= MaxLength
  }

  /** `value[:1000]` after the control characters have been removed. */
  function SanitizeString(s: string): (r: string)
    ensures IsCleanString(r)
    ensures r <= StripControl(s)
    ensures |r| == if |StripControl(s)| <= MaxLength then |StripControl(s)| else MaxLength
    ensures IsCleanString(s) ==> r == s
  {
    Take(StripControl(s), MaxLength)
  }

  /** Everything `sanitize_input` promises about a dict it returns: each
      string value is clean, each dict value is clean, and each dict directly
      inside a list value is clean. */
  predicate IsCleanDict(d: Dict)
    decreases VDict(d), 0
  {
    forall i | 0 <= i < |d| :: IsCleanValue(d[i].1)
  }

  predicate IsCleanValue(v: Value)
    decreases v, 1
  {
    match v
    case VStr(s) => IsCleanString(s)
    case VDict(e) => IsCleanDict(e)
    case VList(xs) => forall j | 0 <= j < |xs| :: xs[j].VDict? ==> IsCleanDict(xs[j].entries)
    case _ => true
  }

  /** `f` is what `sanitize_input` may return for `e`: the same keys in the
      same order, each value related to its original by `Sanitised`. */
  predicate SanitisedDict(e: Dict, f: Dict)
    decreases VDict(e), 0
  {
    |f| == |e| &&
    forall i | 0 <= i < |e| :: f[i].0 == e[i].0 && Sanitised(e[i].1, f[i].1)
  }

  /** `b` is `a` rewritten as lines 76-90 rewrite a value, at every nesting
      level: a string becomes its sanitised form, a dict is rewritten key by
      key, a list keeps its length with its dict elements rewritten and every
      other element unchanged, and a number, bool or None is unchanged. */
  predicate Sanitised(a: Value, b: Value)
    decreases a, 1
  {
    match a
    case VStr(s) => b.VStr? && b.s == SanitizeString(s)
    case VDict(e) => b.VDict? && SanitisedDict(e, b.entries)
    case VList(xs) =>
      b.VList? && |b.items| == |xs| &&
      forall j | 0 <= j < |xs| ::
        if xs[j].VDict? then b.items[j].VDict? && SanitisedDict(xs[j].entries, b.items[j].entries)
        else b.items[j] == xs[j]
    case _ => b == a
  }

  /** `sanitize_input(d)`. */
  function SanitizeInput(d: Dict): (r: Dict)
    ensures SanitisedDict(d, r)
    ensures IsCleanDict(r)
    decreases VDict(d), 0
  {
    seq(|d|, i requires 0 <= i < |d| => (d[i].0, SanitizeValue(d[i].1)))
  }

  /** The rewrite of one value stored under a key (lines 76-90). */
  function SanitizeValue(v: Value): (r: Value)
    ensures IsCleanValue(r)
    ensures Sanitised(v, r)
    decreases v, 1
  {
    match v
    case VStr(s) => VStr(SanitizeString(s))
    case VDict(e) => VDict(SanitizeInput(e))
    case VList(xs) => VList(seq(|xs|, j requires 0 <= j < |xs| => SanitizeListItem(xs[j])))
    case _ => v
  }

  /** An element of a list value (line 87): only a dict is rewritten. */
  function SanitizeListItem(x: Value): (r: Value)
    ensures x.VDict? ==> r.VDict? && IsCleanDict(r.entries) && SanitisedDict(x.entries, r.entries)
    ensures !x.VDict? ==> r == x
    decreases x, 2
  {
    if x.VDict? then VDict(SanitizeInput(x.entries)) else x
  }

  /** The contract of `SanitizeInput` leaves no choice: at most one dict is
      sanitised from a given one. */
  lemma {:induction false} SanitisedDictUnique(e: Dict, f: Dict, g: Dict)
    requires SanitisedDict(e, f) && SanitisedDict(e, g)
    ensures f == g
    decreases VDict(e), 0
  {
    forall i | 0 <= i < |e|
      ensures f[i] == g[i]
    {
      SanitisedUnique(e[i].1, f[i].1, g[i].1);
    }
  }

  lemma {:induction false} SanitisedUnique(a: Value, b: Value, c: Value)
    requires Sanitised(a, b) && Sanitised(a, c)
    ensures b == c
    decreases a, 1
  {
    match a
    case VStr(s) =>
    case VDict(e) =>
      SanitisedDictUnique(e, b.entries, c.entries);
    case VList(xs) =>
      forall j | 0 <= j < |xs|
        ensures b.items[j] == c.items[j]
      {
        if xs[j].VDict? {
          SanitisedDictUnique(xs[j].entries, b.items[j].entries, c.items[j].entries);
        }
      }
    case _ =>
  }

  /** Sanitising leaves a clean dict exactly as it is. */
  lemma {:induction false} SanitizeKeepsClean(d: Dict)
    requires IsCleanDict(d)
    ensures SanitizeInput(d) == d
    decreases VDict(d), 0
  {
    forall i | 0 <= i < |d|
      ensures SanitizeInput(d)[i] == d[i]
    {
      SanitizeValueKeepsClean(d[i].1);
    }
  }

  lemma {:induction false} SanitizeValueKeepsClean(v: Value)
    requires IsCleanValue(v)
    ensures SanitizeValue(v) == v
    decreases v, 1
  {
    match v
    case VStr(s) =>
    case VDict(e) =>
      SanitizeKeepsClean(e);
    case VList(xs) =>
      forall j | 0 <= j < |xs|
        ensures SanitizeListItem(xs[j]) == xs[j]
      {
        if xs[j].VDict? {
          SanitizeKeepsClean(xs[j].entries);
        }
      }
      assert SanitizeValue(v).items == xs;
    case _ =>
  }

  /** A dict is a fixed point of the sanitiser exactly when it is clean. */
  lemma CleanIffFixed(d: Dict)
    ensures IsCleanDict(d) <==> SanitizeInput(d) == d
  {
    if IsCleanDict(d) {
      SanitizeKeepsClean(d);
    }
  }

  /** Sanitising twice is the same as sanitising once. */
  lemma SanitizeIdempotent(d: Dict)
    ensures SanitizeInput(SanitizeInput(d)) == SanitizeInput(d)
  {
    SanitizeKeepsClean(SanitizeInput(d));
  }

  /** Control characters are removed before the cut, so they do not use up
      any of the 1000 characters: a leading run of them changes nothing. */
  lemma ControlPrefixIgnored(c: string, t: string)
    requires forall k | 0 <= k < |c| :: IsControl(c[k])
    ensures SanitizeString(c + t) == SanitizeString(t)
  {
    StripControlAppend(c, t);
    StripControlAllControl(c);
    assert StripControl(c + t) == StripControl(t);
  }

  /** Only code points below 32 count as control characters: DEL (U+007F)
      is kept. */
  lemma DeleteIsKept()
    ensures SanitizeString("\U{7F}") == "\U{7F}"
  {
  }
}
