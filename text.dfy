/** Python's substring test `pat in s` and `s.replace(old, new)` on strings. */
module Text {

  /** `pat` occurs in `s` at position 0. */
  predicate StartsWith(s: string, pat: string)
  {
    |pat| <= |s| && s[..|pat|] == pat
  }

  /** `pat in s`. */
  predicate Contains(s: string, pat: string)
    decreases |s|
  {
    StartsWith(s, pat) || (s != [] && Contains(s[1..], pat))
  }

  /**
   * `s.replace(old, new)` for a non-empty `old` (here `target`, and `repl` for `new`): occurrences
   * are found left to right and do not overlap, and the text put in is not searched again.
   */
  function ReplaceAll(s: string, target: string, repl: string): string
    requires target != []
    decreases |s|
  {
    if |s| < |target| then s
    else if StartsWith(s, target) then repl + ReplaceAll(s[|target|..], target, repl)
    else [s[0]] + ReplaceAll(s[1..], target, repl)
  }

  /** A single character occurs in `s` exactly when it is one of its elements. */
  lemma {:induction false} ContainsChar(s: string, c: char)
    ensures Contains(s, [c]) <==> c in s
    decreases |s|
  {
    if s != [] {
      ContainsChar(s[1..], c);
      assert s == [s[0]] + s[1..];
    }
  }

  /** Replacing a pattern that does not occur changes nothing. */
  lemma {:induction false} ReplaceAbsent(s: string, target: string, repl: string)
    requires target != [] && !Contains(s, target)
    ensures ReplaceAll(s, target, repl) == s
    decreases |s|
  {
    if |s| >= |target| {
      ReplaceAbsent(s[1..], target, repl);
    }
  }

  /** Replacing every `c` by a text without `c` leaves no `c`. */
  lemma {:induction false} ReplaceCharRemoves(s: string, c: char, repl: string)
    requires c !in repl
    ensures c !in ReplaceAll(s, [c], repl)
    decreases |s|
  {
    if |s| >= 1 {
      ReplaceCharRemoves(s[1..], c, repl);
      if !StartsWith(s, [c]) {
        assert s[0] != c;
      }
    }
  }

  /** A text without `c` cannot contain a pattern that has `c` in it. */
  lemma {:induction false} NoCharNoPattern(s: string, pat: string, c: char)
    requires c in pat && c !in s
    ensures !Contains(s, pat)
    decreases |s|
  {
    if s != [] {
      NoCharNoPattern(s[1..], pat, c);
    }
  }

  /** The character `ch` after every `c` is replaced by `d`. */
  function SwapChar(ch: char, c: char, d: char): char
  {
    if ch == c then d else ch
  }

  /** Replacing a single character by a single character rewrites the text position by position. */
  lemma {:induction false} ReplaceCharIsMap(s: string, c: char, d: char)
    ensures |ReplaceAll(s, [c], [d])| == |s|
    ensures forall i :: 0 <= i < |s| ==> ReplaceAll(s, [c], [d])[i] == SwapChar(s[i], c, d)
    decreases |s|
  {
    if |s| >= 1 {
      ReplaceCharIsMap(s[1..], c, d);
      var tail := ReplaceAll(s[1..], [c], [d]);
      assert s[..1] == [s[0]];
      assert StartsWith(s, [c]) <==> s[0] == c;
      var r := ReplaceAll(s, [c], [d]);
      assert r == [SwapChar(s[0], c, d)] + tail;
      assert forall i :: 1 <= i < |s| ==> r[i] == tail[i - 1] && s[i] == s[1..][i - 1];
    }
  }

  /** A pattern at the front that does not occur again is the only one replaced. */
  lemma ReplaceLeadingOnly(t: string, target: string, repl: string)
    requires target != [] && !Contains(t, target)
    ensures ReplaceAll(target + t, target, repl) == repl + t
  {
    var s := target + t;
    assert s[..|target|] == target;
    assert s[|target|..] == t;
    ReplaceAbsent(t, target, repl);
  }
}
