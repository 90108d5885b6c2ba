/** The JavaScript string operations the command pipeline relies on:
    `trim`, `startsWith`, `split("\n")` and the search for a literal marker. */
module Text {
  import opened Wrappers

  /** The characters JavaScript's `\s` and `String.prototype.trim` treat as white space:
      the WhiteSpace and LineTerminator productions of ECMA-262 (tab, vertical tab,
      form feed, space, no-break space, byte order mark, the Unicode space separators,
      line feed, carriage return, line and paragraph separators). */
  predicate IsSpace(c: char)
  {
    c == '\t' || c == '\n' || c == '\U{000B}' || c == '\U{000C}' || c == '\r' || c == ' '
    || c == '\U{00A0}' || c == '\U{1680}' || ('\U{2000}' <= c <= '\U{200A}')
    || c == '\U{2028}' || c == '\U{2029}' || c == '\U{202F}' || c == '\U{205F}'
    || c == '\U{3000}' || c == '\U{FEFF}'
  }

  predicate AllSpace(s: string)
  {
    forall i :: 0 <= i < |s| ==> IsSpace(s[i])
  }

  /** A string `trim` leaves as it is: empty, or no white space at either end. */
  predicate IsTrimmed(s: string)
  {
    s == [] || (!IsSpace(s[0]) && !IsSpace(s[|s| - 1]))
  }

  predicate StartsWith(s: string, prefix: string)
  {
    |prefix| <= |s| && s[..|prefix|] == prefix
  }

  predicate EndsWith(s: string, suffix: string)
  {
    |suffix| <= |s| && s[|s| - |suffix|..] == suffix
  }

  /** A concatenation starts with its first part. */
  lemma {:induction false} Leading(w: string, x: string, rest: string)
    ensures StartsWith((w + x) + rest, w)
    ensures forall i :: 0 <= i < |w| ==> ((w + x) + rest)[i] == w[i]
  {
    assert ((w + x) + rest)[..|w|] == w;
  }

  /** Number of white-space characters at the start of `s`. */
  function LeadingSpace(s: string): (n: nat)
    ensures n <= |s| && AllSpace(s[..n])
    ensures n < |s| ==> !IsSpace(s[n])
  {
    if |s| > 0 && IsSpace(s[0]) then
      var n := 1 + LeadingSpace(s[1..]);
      assert s[..n] == [s[0]] + s[1..][..n - 1];
      n
    else 0
  }

  /** Index at which the white space at the end of `s` begins. */
  function TrailingStart(s: string): (j: nat)
    ensures j <= |s| && AllSpace(s[j..])
    ensures 0 < j ==> !IsSpace(s[j - 1])
  {
    if |s| > 0 && IsSpace(s[|s| - 1]) then
      var j := TrailingStart(s[..|s| - 1]);
      assert s[j..] == s[..|s| - 1][j..] + [s[|s| - 1]];
      j
    else |s|
  }

  /** `String.prototype.trim`. */
  function Trim(s: string): (r: string)
    ensures IsTrimmed(r)
    ensures |r| <= |s|
  {
    var i := LeadingSpace(s);
    var j := TrailingStart(s);
    if i < j then s[i..j] else []
  }

  /** `trim` removes white space at both ends and nothing else: the result is the
      slice of `s` between a white-space prefix and a white-space suffix. */
  lemma {:induction false} TrimBounds(s: string) returns (i: nat, j: nat)
    ensures i <= j <= |s| && Trim(s) == s[i..j]
    ensures AllSpace(s[..i]) && AllSpace(s[j..])
  {
    i, j := LeadingSpace(s), TrailingStart(s);
    if j <= i {
      assert AllSpace(s[..i]);
      assert forall k :: j <= k < |s| ==> IsSpace(s[k]) by {
        forall k | j <= k < |s| ensures IsSpace(s[k]) { assert s[j..][k - j] == s[k]; }
      }
      assert forall k :: 0 <= k < i ==> IsSpace(s[k]) by {
        forall k | 0 <= k < i ensures IsSpace(s[k]) { assert s[..i][k] == s[k]; }
      }
      i, j := 0, 0;
      assert AllSpace(s[j..]) by {
        forall k | 0 <= k < |s| ensures IsSpace(s[k]) {
          if k < LeadingSpace(s) { assert s[..LeadingSpace(s)][k] == s[k]; }
        }
      }
    }
  }

  /** `trim` leaves a trimmed string unchanged. */
  lemma {:induction false} TrimOfTrimmed(s: string)
    requires IsTrimmed(s)
    ensures Trim(s) == s
  {
    if s != [] {
      assert LeadingSpace(s) == 0;
      assert TrailingStart(s) == |s|;
    }
  }

  /** `trim` is idempotent. */
  lemma {:induction false} TrimIdempotent(s: string)
    ensures Trim(Trim(s)) == Trim(s)
  {
    TrimOfTrimmed(Trim(s));
  }

  /** `trim` leaves nothing exactly when the string is all white space. */
  lemma {:induction false} TrimEmpty(s: string)
    ensures Trim(s) == [] <==> AllSpace(s)
  {
    var i, j := TrimBounds(s);
    if Trim(s) == [] {
      forall k | 0 <= k < |s| ensures IsSpace(s[k]) {
        if k < i { assert s[..i][k] == s[k]; } else { assert s[j..][k - j] == s[k]; }
      }
    }
    if AllSpace(s) {
      assert LeadingSpace(s) == |s|;
    }
  }

  /** `m` occurs in `s` starting at index `k`. */
  predicate OccursAt(m: string, s: string, k: int)
  {
    0 <= k && k + |m| <= |s| && s[k..k + |m|] == m
  }

  ghost predicate Occurs(m: string, s: string)
  {
    exists k :: OccursAt(m, s, k)
  }

  /** The last index at or before `k` where `m` occurs in `s`, if any. */
  function LastAtOrBefore(m: string, s: string, k: nat): (r: Option<nat>)
    ensures r.Some? ==> r.value <= k && OccursAt(m, s, r.value)
    ensures r.Some? ==> forall j :: r.value < j <= k ==> !OccursAt(m, s, j)
    ensures r.None? ==> forall j :: 0 <= j <= k ==> !OccursAt(m, s, j)
  {
    if OccursAt(m, s, k) then Some(k)
    else if k == 0 then None
    else LastAtOrBefore(m, s, k - 1)
  }

  /** Index of the last occurrence of `m` in `s`: the start of the last match that
      a left-to-right scan finds, for a marker that cannot overlap itself. */
  function LastOccurrence(m: string, s: string): (r: Option<nat>)
    ensures r.Some? ==> OccursAt(m, s, r.value) && forall j :: r.value < j ==> !OccursAt(m, s, j)
    ensures r.None? ==> !Occurs(m, s)
  {
    LastAtOrBefore(m, s, |s|)
  }

  /** The starts of the matches `[...s.matchAll(re)]` lists for a global expression
      `re` that is the literal `m`, scanning from index `k`: after a match the scan
      resumes at its end, otherwise one character further on. */
  function MatchStarts(m: string, s: string, k: nat): (r: seq<nat>)
    requires |m| > 0 && k <= |s|
    ensures forall i :: 0 <= i < |r| ==> k <= r[i] && OccursAt(m, s, r[i])
    decreases |s| - k
  {
    if k + |m| > |s| then []
    else if OccursAt(m, s, k) then [k] + MatchStarts(m, s, k + |m|)
    else MatchStarts(m, s, k + 1)
  }

  /** The scan finds no match exactly when there is no occurrence from `k` on. */
  lemma {:induction false} NoMatchStart(m: string, s: string, k: nat)
    requires |m| > 0 && k <= |s|
    ensures MatchStarts(m, s, k) == [] <==> forall j :: k <= j ==> !OccursAt(m, s, j)
    decreases |s| - k
  {
    if k + |m| > |s| {
      assert forall j :: k <= j ==> !OccursAt(m, s, j);
    } else if !OccursAt(m, s, k) {
      NoMatchStart(m, s, k + 1);
      assert MatchStarts(m, s, k) == MatchStarts(m, s, k + 1);
    }
  }

  /** An occurrence after the last match of the scan starts inside that match: the
      scan skipped it because it overlaps the match. */
  lemma {:induction false} LastMatchStart(m: string, s: string, k: nat, j: int)
    requires |m| > 0 && k <= |s| && OccursAt(m, s, j)
    requires MatchStarts(m, s, k) != [] && Last(MatchStarts(m, s, k)) < j
    ensures j < Last(MatchStarts(m, s, k)) + |m|
    decreases |s| - k
  {
    ScanStep(m, s, k);
    if OccursAt(m, s, k) {
      var rest := MatchStarts(m, s, k + |m|);
      if rest == [] {
        NoMatchStart(m, s, k + |m|);
      } else {
        LastOfAppend([k], rest);
        LastMatchStart(m, s, k + |m|, j);
      }
    } else {
      LastMatchStart(m, s, k + 1, j);
    }
  }

  /** One step of the scan, from a position where it still finds a match. */
  lemma ScanStep(m: string, s: string, k: nat)
    requires |m| > 0 && k <= |s| && MatchStarts(m, s, k) != []
    ensures k + |m| <= |s|
    ensures OccursAt(m, s, k) ==> MatchStarts(m, s, k) == [k] + MatchStarts(m, s, k + |m|)
    ensures !OccursAt(m, s, k) ==> MatchStarts(m, s, k) == MatchStarts(m, s, k + 1)
  {
  }

  /** The last element of a non-empty sequence. */
  function Last<T>(xs: seq<T>): T
    requires xs != []
  {
    xs[|xs| - 1]
  }

  /** Appending on the left does not change the last element. */
  lemma LastOfAppend<T>(xs: seq<T>, ys: seq<T>)
    requires ys != []
    ensures Last(xs + ys) == Last(ys)
  {
  }

  /** An occurrence in a slice is an occurrence in the whole string. */
  lemma {:induction false} OccursInSlice(m: string, s: string, i: nat, j: nat, k: int)
    requires i <= j <= |s| && OccursAt(m, s[i..j], k)
    ensures OccursAt(m, s, i + k)
  {
    forall x | 0 <= x < |m| ensures s[i + k..i + k + |m|][x] == m[x] {
      assert s[i..j][k..k + |m|][x] == m[x];
    }
  }

  /** A slice of a string in which `m` does not occur does not contain `m` either. */
  lemma {:induction false} AbsentFromSlice(m: string, s: string, i: nat, j: nat)
    requires i <= j <= |s| && !Occurs(m, s)
    ensures !Occurs(m, s[i..j])
  {
    forall k | OccursAt(m, s[i..j], k) ensures false {
      OccursInSlice(m, s, i, j, k);
    }
  }

  /** `s` holds no line feed. */
  predicate SingleLined(s: string)
  {
    forall i :: 0 <= i < |s| ==> s[i] != '\n'
  }

  /** Index of the first line feed in `s`, or `|s|` if there is none. */
  function NewlineIndex(s: string): (k: nat)
    ensures k <= |s| && SingleLined(s[..k])
    ensures k < |s| ==> s[k] == '\n'
  {
    if |s| == 0 || s[0] == '\n' then 0
    else
      var k := 1 + NewlineIndex(s[1..]);
      assert s[..k] == [s[0]] + s[1..][..k - 1];
      k
  }

  /** `s.split("\n")[0]`. */
  function FirstLine(s: string): (r: string)
    ensures SingleLined(r) && StartsWith(s, r)
    ensures |r| < |s| ==> s[|r|] == '\n'
  {
    s[..NewlineIndex(s)]
  }

  /** `s.split("\n")`. */
  function Lines(s: string): (ls: seq<string>)
    ensures |ls| > 0 && ls[0] == FirstLine(s)
    ensures forall i :: 0 <= i < |ls| ==> SingleLined(ls[i])
    decreases |s|
  {
    var k := NewlineIndex(s);
    if k == |s| then [s] else [s[..k]] + Lines(s[k + 1..])
  }

  /** Splitting lines at a line feed splits the list of lines there. */
  lemma {:induction false} LinesConcat(a: string, b: string)
    ensures Lines(a + "\n" + b) == Lines(a) + Lines(b)
    decreases |a|
  {
    var k := NewlineIndex(a);
    if k == |a| {
      assert a[..k] == a;
      LinesAfterBreak(a, b);
      SingleLine(a);
    } else {
      var first, rest, after := a[..k], Lines(a[k + 1..]), Lines(b);
      calc {
        Lines(a + "\n" + b);
        { LinesShift(a, b, k); }
        [first] + Lines(a[k + 1..] + "\n" + b);
        { LinesConcat(a[k + 1..], b); }
        [first] + (rest + after);
        ([first] + rest) + after;
        { LinesUnfold(a); }
        Lines(a) + after;
      }
    }
  }

  /** The first line of `a + "\n" + b` is `a` when `a` holds no line feed. */
  lemma {:induction false} LinesAfterBreak(a: string, b: string)
    requires SingleLined(a)
    ensures Lines(a + "\n" + b) == [a] + Lines(b)
  {
    var s := a + "\n" + b;
    assert s[..|a|] == a;
    NewlineAt(s, |a|);
    LinesUnfold(s);
    assert s[|a| + 1..] == b;
  }

  /** The first line of `a + "\n" + b` is that of `a` when `a` holds a line feed. */
  lemma {:induction false} LinesShift(a: string, b: string, k: nat)
    requires k == NewlineIndex(a) < |a|
    ensures Lines(a + "\n" + b) == [a[..k]] + Lines(a[k + 1..] + "\n" + b)
  {
    var s := a + "\n" + b;
    assert s[..k] == a[..k];
    NewlineAt(s, k);
    LinesUnfold(s);
    assert s[k + 1..] == a[k + 1..] + "\n" + b;
  }

  /** One step of `Lines`: the first line, then the lines after the first line feed. */
  lemma {:induction false} LinesUnfold(s: string)
    requires NewlineIndex(s) < |s|
    ensures Lines(s) == [s[..NewlineIndex(s)]] + Lines(s[NewlineIndex(s) + 1..])
  {
  }

  /** A string without line feeds is a single line. */
  lemma {:induction false} SingleLine(s: string)
    requires SingleLined(s)
    ensures Lines(s) == [s]
  {
    assert s[..|s|] == s;
  }

  /** `NewlineIndex` finds the first line feed. */
  lemma {:induction false} NewlineAt(s: string, k: nat)
    requires k < |s| && s[k] == '\n' && SingleLined(s[..k])
    ensures NewlineIndex(s) == k
  {
  }
}
