/** Failure-compatible wrappers and the few string operations the service relies on
    (suffix tests, substring search, first-occurrence replacement, decimal rendering). */
module Common {

  datatype Option<+T> = None | Some(value: T)

  datatype Result<+T, +E> = Ok(value: T) | Err(error: E)

  /** The outcome of a call made only for its effect: it returned, or it raised. */
  datatype Outcome<+E> = Pass | Fail(error: E)

  function Min(a: int, b: int): int
  {
    if a <= b then a else b
  }

  predicate StartsWith(s: string, prefix: string)
  {
    |prefix| <= |s| && s[..|prefix|] == prefix
  }

  /** Python's `str.endswith`, case-sensitive. */
  predicate EndsWith(s: string, suffix: string)
  {
    |suffix| <= |s| && s[|s| - |suffix|..] == suffix
  }

  /** Python's `pat in s`. */
  predicate Contains(s: string, pat: string)
    decreases |s|
  {
    StartsWith(s, pat) || (s != [] && Contains(s[1..], pat))
  }

  lemma {:induction false} ContainsWithin(a: string, b: string, c: string)
    ensures Contains(a + b + c, b)
    decreases |a|
  {
    if a == [] {
      assert (a + b + c)[..|b|] == b;
    } else {
      assert (a + b + c)[1..] == a[1..] + b + c;
      ContainsWithin(a[1..], b, c);
    }
  }

  /** Python's `s.replace(pat, repl, 1)` for a non-empty `pat`: the leftmost occurrence, if any,
      is replaced; everything else is kept. */
  function ReplaceFirst(s: string, pat: string, repl: string): string
    requires pat != []
    decreases |s|
  {
    if StartsWith(s, pat) then repl + s[|pat|..]
    else if s == [] then []
    else [s[0]] + ReplaceFirst(s[1..], pat, repl)
  }

  /** An occurrence at the very start is the one replaced. */
  lemma ReplaceFirstAtFront(pat: string, y: string, repl: string)
    requires pat != []
    ensures ReplaceFirst(pat + y, pat, repl) == repl + y
  {
    assert (pat + y)[..|pat|] == pat;
    assert (pat + y)[|pat|..] == y;
  }

  /** Without an occurrence of `pat`, nothing is replaced. */
  lemma {:induction false} ReplaceFirstAbsent(s: string, pat: string, repl: string)
    requires pat != [] && !Contains(s, pat)
    ensures ReplaceFirst(s, pat, repl) == s
    decreases |s|
  {
    if s != [] {
      ReplaceFirstAbsent(s[1..], pat, repl);
      assert [s[0]] + s[1..] == s;
    }
  }

  lemma NoEarlierMatch(s: string, pat: string, k: nat)
    requires s != [] && !StartsWith(s, pat) && k <= |s| - 1
    requires forall j :: 0 <= j < k ==> !StartsWith(s[1..][j..], pat)
    ensures forall j :: 0 <= j < k + 1 ==> !StartsWith(s[j..], pat)
  {
    forall j | 0 <= j < k + 1
      ensures !StartsWith(s[j..], pat)
    {
      if j > 0 {
        assert s[j..] == s[1..][j - 1..];
      }
    }
  }

  lemma ShiftedSplit(s: string, m: nat, k: nat, repl: string)
    requires s != [] && k + m <= |s| - 1
    ensures s[1..][k..k + m] == s[k + 1..k + 1 + m]
    ensures [s[0]] + (s[1..][..k] + repl + s[1..][k + m..]) == s[..k + 1] + repl + s[k + 1 + m..]
  {
    assert s[..k + 1] == [s[0]] + s[1..][..k];
    assert s[k + 1 + m..] == s[1..][k + m..];
  }

  /** `ReplaceFirst` replaces the leftmost occurrence: `pat` starts at `i`, at no earlier
      position, and the text around it is kept. */
  lemma {:induction false} ReplaceFirstSplit(s: string, pat: string, repl: string) returns (i: nat)
    requires pat != [] && Contains(s, pat)
    ensures i + |pat| <= |s| && s[i..i + |pat|] == pat
    ensures forall j :: 0 <= j < i ==> !StartsWith(s[j..], pat)
    ensures ReplaceFirst(s, pat, repl) == s[..i] + repl + s[i + |pat|..]
    decreases |s|
  {
    if StartsWith(s, pat) {
      i := 0;
      assert s[..0] + repl == repl;
    } else {
      var k := ReplaceFirstSplit(s[1..], pat, repl);
      i := k + 1;
      assert ReplaceFirst(s, pat, repl) == [s[0]] + ReplaceFirst(s[1..], pat, repl);
      ShiftedSplit(s, |pat|, k, repl);
      NoEarlierMatch(s, pat, k);
    }
  }

  lemma FirstCharMismatch(s: string, pat: string)
    requires s != [] && pat != [] && s[0] != pat[0]
    ensures !StartsWith(s, pat)
  {
    assert |pat| <= |s| ==> s[..|pat|][0] == s[0];
  }

  /** A prefix in which `pat` cannot start is kept as it is. */
  lemma {:induction false} ReplaceFirstSkips(a: string, b: string, pat: string, repl: string)
    requires pat != [] && forall i :: 0 <= i < |a| ==> a[i] != pat[0]
    ensures ReplaceFirst(a + b, pat, repl) == a + ReplaceFirst(b, pat, repl)
    decreases |a|
  {
    if a == [] {
      assert a + b == b;
    } else {
      var s := a + b;
      assert s[0] == a[0];
      FirstCharMismatch(s, pat);
      assert s[1..] == a[1..] + b;
      ReplaceFirstSkips(a[1..], b, pat, repl);
      assert a + ReplaceFirst(b, pat, repl) == [a[0]] + (a[1..] + ReplaceFirst(b, pat, repl));
    }
  }

  /** Python's `s.strip(c)`: every leading and trailing `c` is removed. */
  function Strip(s: string, c: char): (r: string)
    ensures r == [] || (r[0] != c && r[|r| - 1] != c)
    ensures |r| <= |s|
  {
    StripTrailing(StripLeading(s, c), c)
  }

  /** Text that neither starts nor ends with `c` is left alone. */
  lemma StripUnchanged(s: string, c: char)
    requires s != [] && s[0] != c && s[|s| - 1] != c
    ensures Strip(s, c) == s
  {
  }

  /** A run of `c` on each side of a text that neither starts nor ends with `c` is removed,
      and only that run. */
  lemma StripRuns(w1: string, x: string, w2: string, c: char)
    requires forall i :: 0 <= i < |w1| ==> w1[i] == c
    requires forall i :: 0 <= i < |w2| ==> w2[i] == c
    requires x != [] && x[0] != c && x[|x| - 1] != c
    ensures Strip(w1 + x + w2, c) == x
  {
    StripLeadingRun(w1, x + w2, c);
    assert w1 + x + w2 == w1 + (x + w2);
    StripTrailingRun(x, w2, c);
  }

  lemma {:induction false} StripLeadingRun(w: string, y: string, c: char)
    requires forall i :: 0 <= i < |w| ==> w[i] == c
    requires y != [] && y[0] != c
    ensures StripLeading(w + y, c) == y
    decreases |w|
  {
    if w == [] {
      assert w + y == y;
    } else {
      assert (w + y)[1..] == w[1..] + y;
      StripLeadingRun(w[1..], y, c);
    }
  }

  lemma {:induction false} StripTrailingRun(y: string, w: string, c: char)
    requires forall i :: 0 <= i < |w| ==> w[i] == c
    requires y != [] && y[|y| - 1] != c
    ensures StripTrailing(y + w, c) == y
    decreases |w|
  {
    if w == [] {
      assert y + w == y;
    } else {
      assert (y + w)[..|y + w| - 1] == y + w[..|w| - 1];
      StripTrailingRun(y, w[..|w| - 1], c);
    }
  }

  function StripLeading(s: string, c: char): (r: string)
    ensures r == [] || r[0] != c
    ensures |r| <= |s| && r == s[|s| - |r|..]
    decreases |s|
  {
    if s != [] && s[0] == c then StripLeading(s[1..], c) else s
  }

  function StripTrailing(s: string, c: char): (r: string)
    ensures r == [] || r[|r| - 1] != c
    ensures |r| <= |s| && r == s[..|r|]
    decreases |s|
  {
    if s != [] && s[|s| - 1] == c then StripTrailing(s[..|s| - 1], c) else s
  }

  function DigitChar(d: nat): char
    requires d < 10
  {
    ['0', '1', '2', '3', '4', '5', '6', '7', '8', '9'][d]
  }

  /** Decimal rendering of a natural number, as Python's `str(n)` or `f'{n}'`. */
  function NatToString(n: nat): (r: string)
    ensures r != []
    ensures forall i :: 0 <= i < |r| ==> '0' <= r[i] <= '9'
  {
    if n < 10 then [DigitChar(n)] else NatToString(n / 10) + [DigitChar(n % 10)]
  }

  function IntToString(n: int): (r: string)
    ensures r != []
    ensures (r[0] == '-') <==> n < 0
  {
    if n < 0 then "-" + NatToString(-n) else NatToString(n)
  }
  /** The positions where `mask` holds, in ascending order. */
  function TruePositions(mask: seq<bool>): (ps: seq<nat>)
    ensures forall j :: 0 <= j < |ps| ==> ps[j] < |mask| && mask[ps[j]]
    ensures forall j, j' :: 0 <= j < j' < |ps| ==> ps[j] < ps[j']
    ensures forall k :: 0 <= k < |mask| && mask[k] ==> k in ps
  {
    if mask == [] then []
    else
      var last := |mask| - 1;
      var ps := TruePositions(mask[..last]);
      if mask[last] then ps + [last] else ps
  }

  /** The positions where `mask` holds. */
  function TrueSet(mask: seq<bool>): set<nat>
  {
    set k: nat | k < |mask| && mask[k]
  }

  /** A mask's true positions are those of all but its last entry, and the last one if it
      holds. */
  lemma TrueSetSplit(mask: seq<bool>)
    requires mask != []
    ensures TrueSet(mask) == TrueSet(mask[..|mask| - 1]) + (if mask[|mask| - 1] then {|mask| - 1} else {})
    ensures |mask| - 1 !in TrueSet(mask[..|mask| - 1])
  {
  }

  /** There are as many true positions as positions where the mask holds. */
  lemma {:induction false} TruePositionsCount(mask: seq<bool>)
    ensures |TruePositions(mask)| == |TrueSet(mask)|
  {
    if mask != [] {
      TruePositionsCount(mask[..|mask| - 1]);
      TrueSetSplit(mask);
    }
  }

  /** Boolean indexing, `s[mask]` for a mask as long as `s`: the elements where the mask
      holds, in their order, each once. */
  function Select<T>(s: seq<T>, mask: seq<bool>): (r: seq<T>)
    requires |mask| == |s|
    ensures |r| == |TruePositions(mask)|
    ensures forall j :: 0 <= j < |r| ==> r[j] == s[TruePositions(mask)[j]]
  {
    if s == [] then []
    else
      var last := |s| - 1;
      var r := Select(s[..last], mask[..last]);
      if mask[last] then r + [s[last]] else r
  }
  /** `r` lists the elements of `s` at the positions where `mask` holds, in their order,
      each exactly once. */
  ghost predicate IsSelection<T>(s: seq<T>, mask: seq<bool>, r: seq<T>)
    requires |mask| == |s|
  {
    exists ps: seq<nat> ::
      && |ps| == |r|
      && (forall j :: 0 <= j < |ps| ==> ps[j] < |s| && r[j] == s[ps[j]])
      && (forall j, j' :: 0 <= j < j' < |ps| ==> ps[j] < ps[j'])
      && (forall k :: 0 <= k < |s| ==> (k in ps <==> mask[k]))
  }

  /** Boolean indexing selects what the mask names, and as many elements as the mask has
      true entries. */
  lemma SelectIsSelection<T>(s: seq<T>, mask: seq<bool>)
    requires |mask| == |s|
    ensures IsSelection(s, mask, Select(s, mask))
    ensures |Select(s, mask)| == |TrueSet(mask)|
  {
    var ps := TruePositions(mask);
    assert forall k :: 0 <= k < |s| && k in ps ==> mask[k];
    TruePositionsCount(mask);
  }
}
