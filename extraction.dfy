/** `extractFunctionCall` (app/src/App.tsx): the function call in a language model's
    completion is the first line after the last `Function Call:` marker, trimmed; a
    completion without the marker is used whole, trimmed. */
module Extraction {
  import opened Wrappers
  import opened Text
  import Prompt

  const Marker: string := "Function Call:"

  /** `extractFunctionCall`. The last match of the global regular expression
      `/Function Call:/g` is the last occurrence of the marker, because the marker
      cannot overlap itself (`LastMatchIsLastOccurrence`). */
  function ExtractFunctionCall(llmOutput: string): (r: string)
    ensures IsTrimmed(r) && |r| <= |llmOutput|
  {
    match LastOccurrence(Marker, llmOutput)
    case None => Trim(llmOutput)
    case Some(k) => Trim(FirstLine(Trim(llmOutput[k + |Marker|..])))
  }

  /** Two occurrences of the marker are at least a marker's length apart: no
      character of the marker after the first is an `F`. */
  lemma {:induction false} MarkerDoesNotOverlap(s: string, i: nat, j: nat)
    requires OccursAt(Marker, s, i) && OccursAt(Marker, s, j) && i < j
    ensures i + |Marker| <= j
  {
    assert s[j] == Marker[0] by { assert s[j..j + |Marker|][0] == s[j]; }
    assert forall p :: i <= p < i + |Marker| ==> s[p] == Marker[p - i] by {
      forall p | i <= p < i + |Marker| ensures s[p] == Marker[p - i] {
        assert s[i..i + |Marker|][p - i] == s[p];
      }
    }
    assert forall d :: 1 <= d < |Marker| ==> Marker[d] != 'F';
  }

  /** The last of the matches `matchAll` lists for `/Function Call:/g` is the last
      occurrence of the marker, and there is none exactly when the marker does not
      occur. */
  lemma {:induction false} LastMatchIsLastOccurrence(s: string)
    ensures MatchStarts(Marker, s, 0) == [] <==> LastOccurrence(Marker, s).None?
    ensures MatchStarts(Marker, s, 0) != [] ==>
      LastOccurrence(Marker, s) == Some(Last(MatchStarts(Marker, s, 0)))
  {
    NoMatchStart(Marker, s, 0);
    var starts := MatchStarts(Marker, s, 0);
    if starts != [] && LastOccurrence(Marker, s).Some? {
      var k := LastOccurrence(Marker, s).value;
      if Last(starts) < k {
        var last := Last(starts);
        LastMatchStart(Marker, s, 0, k);
        MarkerDoesNotOverlap(s, last, k);
      }
    }
  }

  /** Without a marker, the whole completion is used, trimmed. */
  lemma {:induction false} WithoutMarker(s: string)
    requires !Occurs(Marker, s)
    ensures ExtractFunctionCall(s) == Trim(s)
  {
  }

  /** A piece cut from `s` by `Trim`, `FirstLine` and `Trim` again, starting after
      index `from`, is a slice of `s` that starts after `from`. */
  lemma {:induction false} CutIsSlice(s: string, from: nat) returns (lo: nat, hi: nat)
    requires from <= |s|
    ensures from <= lo <= hi <= |s|
    ensures Trim(FirstLine(Trim(s[from..]))) == s[lo..hi]
  {
    assert s[from..] == s[from..|s|];
    var a, b := TrimSlice(s, from, |s|);
    var c := FirstLineSlice(s, a, b);
    lo, hi := TrimSlice(s, a, c);
  }

  /** Trimming a slice leaves a slice within it. */
  lemma {:induction false} TrimSlice(s: string, a: nat, b: nat) returns (lo: nat, hi: nat)
    requires a <= b <= |s|
    ensures a <= lo <= hi <= b && Trim(s[a..b]) == s[lo..hi]
  {
    var i, j := TrimBounds(s[a..b]);
    SliceOfSlice(s, a, b, i, j);
    lo, hi := a + i, a + j;
  }

  /** The first line of a slice is a slice with the same start. */
  lemma {:induction false} FirstLineSlice(s: string, a: nat, b: nat) returns (hi: nat)
    requires a <= b <= |s|
    ensures a <= hi <= b && FirstLine(s[a..b]) == s[a..hi]
  {
    var n := |FirstLine(s[a..b])|;
    assert FirstLine(s[a..b]) == s[a..b][0..n];
    SliceOfSlice(s, a, b, 0, n);
    hi := a + n;
  }

  lemma {:induction false} SliceOfSlice(s: string, a: nat, b: nat, c: nat, d: nat)
    requires a <= b <= |s| && c <= d <= b - a
    ensures s[a..b][c..d] == s[a + c..a + d]
  {
    assert forall x :: 0 <= x < d - c ==> s[a..b][c..d][x] == s[a + c..a + d][x];
  }

  /** A slice of a one-line string is one line. */
  lemma {:induction false} SliceSingleLined(s: string, i: nat, j: nat)
    requires i <= j <= |s| && SingleLined(s)
    ensures SingleLined(s[i..j])
  {
    assert forall x :: 0 <= x < j - i ==> s[i..j][x] == s[i + x];
  }

  /** The cut line holds no line feed. */
  lemma {:induction false} CutOneLine(t: string)
    ensures SingleLined(Trim(FirstLine(Trim(t))))
  {
    var line := FirstLine(Trim(t));
    var i, j := TrimBounds(line);
    SliceSingleLined(line, i, j);
  }

  /** The line cut after the last marker holds no marker. */
  lemma {:induction false} CutAfterLast(s: string, k: nat)
    requires LastOccurrence(Marker, s) == Some(k)
    ensures !Occurs(Marker, Trim(FirstLine(Trim(s[k + |Marker|..]))))
  {
    var lo, hi := CutIsSlice(s, k + |Marker|);
    forall m | OccursAt(Marker, s[lo..hi], m) ensures false {
      OccursInSlice(Marker, s, lo, hi, m);
    }
  }

  /** When the marker occurs, the result is one line and holds no marker. */
  lemma {:induction false} ExtractedLine(s: string)
    requires Occurs(Marker, s)
    ensures SingleLined(ExtractFunctionCall(s))
    ensures !Occurs(Marker, ExtractFunctionCall(s))
  {
    var k := LastOccurrence(Marker, s).value;
    CutOneLine(s[k + |Marker|..]);
    CutAfterLast(s, k);
  }

  /** The result never holds the marker. */
  lemma {:induction false} NoMarkerLeft(s: string)
    ensures !Occurs(Marker, ExtractFunctionCall(s))
  {
    if Occurs(Marker, s) {
      ExtractedLine(s);
    } else {
      WithoutMarker(s);
      var i, j := TrimBounds(s);
      AbsentFromSlice(Marker, s, i, j);
    }
  }

  /** Extracting from an extracted call changes nothing. */
  lemma {:induction false} ExtractIdempotent(s: string)
    ensures ExtractFunctionCall(ExtractFunctionCall(s)) == ExtractFunctionCall(s)
  {
    var r := ExtractFunctionCall(s);
    NoMarkerLeft(s);
    WithoutMarker(r);
    TrimOfTrimmed(r);
  }

  /** Text that ends with the marker, followed by a completion without one: the call
      is taken from the completion. */
  lemma {:induction false} ExtractAfterEcho(t: string, c: string)
    requires EndsWith(t, Marker)
    requires !Occurs(Marker, c)
    ensures ExtractFunctionCall(t + c) == Trim(FirstLine(Trim(c)))
  {
    var s, e := t + c, |t| - |Marker|;
    assert OccursAt(Marker, s, e) by { assert s[e..e + |Marker|] == t[e..]; }
    var k := LastOccurrence(Marker, s).value;
    assert e <= k;
    if k != e {
      MarkerDoesNotOverlap(s, e, k);
      assert OccursAt(Marker, c, k - |t|) by {
        assert c[k - |t|..k - |t| + |Marker|] == s[k..k + |Marker|];
      }
    }
    assert s[k + |Marker|..] == c;
  }

  /** A completion that echoes `constructPrompt`'s prompt and continues without a
      marker yields the first line of the continuation. */
  lemma {:induction false} ExtractAfterPrompt(q: string, c: string)
    requires !Occurs(Marker, c)
    ensures ExtractFunctionCall(Prompt.PromptText(q) + c) == Trim(FirstLine(Trim(c)))
  {
    ExtractAfterEcho(Prompt.PromptText(q), c);
  }
}
