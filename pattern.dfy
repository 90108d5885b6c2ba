/** The regular expressions the dispatcher applies to a command string
    (`/Move\(([-\d.]+),\s*([-\d.]+)\)/` and its siblings), written as sequences of pieces.

    Each such expression is a chain of literals, capturing groups `(C+)` over one
    character class and `\s*` runs, in which every group is followed by a literal whose
    first character lies outside the group's class and every `\s*` is followed by a
    group whose class holds no white space (`WellFormed`). For such a chain a backtracking
    matcher can only succeed by taking every run maximal, so the greedy matcher below gives
    the same captures as JavaScript's `String.prototype.match` (`GreedyIsBacktracking`,
    `BacktrackingIsGreedy`). */
module Pattern {
  import opened Wrappers
  import opened Text

  /** The character classes the dispatcher's expressions use. */
  datatype CharClass =
    | Digit       // \d
    | NumberChar  // [-\d.]
    | NotQuote    // [^']
    | Space       // \s

  predicate InClass(c: char, k: CharClass)
  {
    match k
    case Digit => '0' <= c <= '9'
    case NumberChar => c == '-' || c == '.' || '0' <= c <= '9'
    case NotQuote => c != '\''
    case Space => IsSpace(c)
  }

  predicate AllIn(s: string, k: CharClass)
  {
    forall i :: 0 <= i < |s| ==> InClass(s[i], k)
  }

  /** One element of an expression. */
  datatype Piece =
    | Lit(text: string)      // the literal text
    | Group(cls: CharClass)  // a capturing group `(cls+)`
    | Spaces                 // `\s*`, not captured

  type Regex = seq<Piece>

  /** Length of the longest prefix of `s` inside class `k`. */
  function Span(s: string, k: CharClass): (n: nat)
    ensures n <= |s| && AllIn(s[..n], k)
    ensures n < |s| ==> !InClass(s[n], k)
  {
    if |s| > 0 && InClass(s[0], k) then
      var n := 1 + Span(s[1..], k);
      assert s[..n] == [s[0]] + s[1..][..n - 1];
      n
    else 0
  }

  /** A run of class `k` that ends where the class ends is what `Span` measures. */
  lemma {:induction false} SpanExact(s: string, k: CharClass, n: nat)
    requires n <= |s| && AllIn(s[..n], k)
    requires n < |s| ==> !InClass(s[n], k)
    ensures Span(s, k) == n
  {
  }

  /** The classes of the capturing groups of `p`, in order. */
  function GroupClasses(p: Regex): seq<CharClass>
  {
    if p == [] then []
    else if p[0].Group? then [p[0].cls] + GroupClasses(p[1..])
    else GroupClasses(p[1..])
  }

  /** `groups` are possible captures for groups of the given classes: one per group,
      each non-empty and inside its class. */
  predicate Fits(groups: seq<string>, classes: seq<CharClass>)
  {
    |groups| == |classes|
    && forall i :: 0 <= i < |groups| ==> groups[i] != [] && AllIn(groups[i], classes[i])
  }

  /** Matches `p` against a prefix of `s`; the captured groups on success. */
  function MatchPrefix(p: Regex, s: string): (r: Option<seq<string>>)
    ensures r.Some? ==> Fits(r.value, GroupClasses(p))
    decreases |p|
  {
    if p == [] then Some([])
    else
      match p[0]
      case Lit(w) =>
        if StartsWith(s, w) then MatchPrefix(p[1..], s[|w|..]) else None
      case Spaces =>
        MatchPrefix(p[1..], s[Span(s, Space)..])
      case Group(k) =>
        var n := Span(s, k);
        if n == 0 then None
        else
          match MatchPrefix(p[1..], s[n..])
          case None => None
          case Some(rest) => Some([s[..n]] + rest)
  }

  datatype Found = Found(at: nat, groups: seq<string>)

  /** The leftmost match of `p` in `s` at index `i` or later. */
  function SearchFrom(p: Regex, s: string, i: nat): (r: Option<Found>)
    requires i <= |s|
    ensures r.Some? ==> i <= r.value.at <= |s| && Fits(r.value.groups, GroupClasses(p))
    decreases |s| - i
  {
    match MatchPrefix(p, s[i..])
    case Some(groups) => Some(Found(i, groups))
    case None => if i == |s| then None else SearchFrom(p, s, i + 1)
  }

  /** What `SearchFrom` finds is a match of `p`, with that match's captures. */
  lemma {:induction false} SearchFromMatches(p: Regex, s: string, i: nat)
    requires i <= |s|
    ensures SearchFrom(p, s, i).Some? ==>
      MatchPrefix(p, s[SearchFrom(p, s, i).value.at..]) == Some(SearchFrom(p, s, i).value.groups)
    decreases |s| - i
  {
    if MatchPrefix(p, s[i..]).None? && i < |s| {
      SearchFromMatches(p, s, i + 1);
    }
  }

  /** `p` matches at no index between `i` and the one `SearchFrom` finds. */
  lemma {:induction false} SearchFromLeftmost(p: Regex, s: string, i: nat)
    requires i <= |s|
    ensures SearchFrom(p, s, i).Some? ==>
      forall j :: i <= j < SearchFrom(p, s, i).value.at ==> MatchPrefix(p, s[j..]).None?
    decreases |s| - i
  {
    if MatchPrefix(p, s[i..]).None? && i < |s| {
      SearchFromLeftmost(p, s, i + 1);
    }
  }

  /** `SearchFrom` finds nothing only when `p` matches at no index from `i` on. */
  lemma {:induction false} SearchFromNothing(p: Regex, s: string, i: nat)
    requires i <= |s| && SearchFrom(p, s, i).None?
    ensures forall j :: i <= j <= |s| ==> MatchPrefix(p, s[j..]).None?
    decreases |s| - i
  {
    assert MatchPrefix(p, s[i..]).None?;
    if i < |s| {
      SearchFromNothing(p, s, i + 1);
    }
  }

  /** `s.match(p)`: the groups of the leftmost match, if there is one. */
  function Search(p: Regex, s: string): (r: Option<seq<string>>)
    ensures r.Some? ==> Fits(r.value, GroupClasses(p))
  {
    match SearchFrom(p, s, 0)
    case Some(f) => Some(f.groups)
    case None => None
  }

  /** `Search` fails exactly when `p` matches at no index of `s`. */
  lemma {:induction false} SearchNone(p: Regex, s: string)
    ensures Search(p, s).None? <==> forall j :: 0 <= j <= |s| ==> MatchPrefix(p, s[j..]).None?
  {
    if Search(p, s).None? {
      SearchFromNothing(p, s, 0);
    }
    SearchFromMatches(p, s, 0);
  }

  /** What may follow piece `x`: after a group, a non-empty literal starting outside the
      group's class; after `\s*`, a group whose class holds no white space. */
  predicate FollowsWell(x: Piece, rest: Regex)
  {
    match x
    case Lit(_) => true
    case Group(k) => rest != [] && rest[0].Lit? && rest[0].text != [] && !InClass(rest[0].text[0], k)
    case Spaces => rest != [] && rest[0].Group? && (rest[0].cls.Digit? || rest[0].cls.NumberChar?)
  }

  /** Every piece of `p` is followed by what it needs. */
  predicate WellFormed(p: Regex)
    decreases |p|
  {
    p == [] || (FollowsWell(p[0], p[1..]) && WellFormed(p[1..]))
  }

  /** The backtracking reading of an anchored match, as JavaScript's engine explores
      it: `p` matches a prefix of `s` with captures `groups` when some choice of run
      lengths works — any run of white space for a `\s*`, any non-empty run inside the
      class for a group. */
  ghost predicate Matches(p: Regex, s: string, groups: seq<string>)
    decreases |p|
  {
    if p == [] then groups == []
    else
      match p[0]
      case Lit(w) => StartsWith(s, w) && Matches(p[1..], s[|w|..], groups)
      case Spaces => exists n :: 0 <= n <= |s| && AllIn(s[..n], Space) && Matches(p[1..], s[n..], groups)
      case Group(k) =>
        groups != [] && 0 < |groups[0]| <= |s| && s[..|groups[0]|] == groups[0] && AllIn(groups[0], k)
        && Matches(p[1..], s[|groups[0]|..], groups[1..])
  }

  /** What the greedy matcher finds, the backtracking reading admits. */
  lemma {:induction false} GreedyIsBacktracking(p: Regex, s: string)
    ensures MatchPrefix(p, s).Some? ==> Matches(p, s, MatchPrefix(p, s).value)
    decreases |p|
  {
    if p != [] && MatchPrefix(p, s).Some? {
      match p[0]
      case Lit(w) =>
        GreedyIsBacktracking(p[1..], s[|w|..]);
      case Spaces =>
        var n := Span(s, Space);
        GreedyIsBacktracking(p[1..], s[n..]);
      case Group(k) =>
        var n := Span(s, k);
        GreedyIsBacktracking(p[1..], s[n..]);
        var g := MatchPrefix(p, s).value;
        assert g[0] == s[..n] && g[1..] == MatchPrefix(p[1..], s[n..]).value;
    }
  }

  /** On a well-formed chain every backtracking match is the greedy one: the run
      lengths are forced, so the captures are unique and the greedy matcher finds
      them. */
  lemma {:induction false} BacktrackingIsGreedy(p: Regex, s: string, groups: seq<string>)
    requires WellFormed(p) && Matches(p, s, groups)
    ensures MatchPrefix(p, s) == Some(groups)
    decreases |p|
  {
    if p != [] {
      match p[0]
      case Lit(w) =>
        BacktrackingIsGreedy(p[1..], s[|w|..], groups);
      case Spaces =>
        var n :| 0 <= n <= |s| && AllIn(s[..n], Space) && Matches(p[1..], s[n..], groups);
        var k := p[1].cls;
        assert groups != [] && 0 < |groups[0]| && s[n..][..|groups[0]|] == groups[0] && AllIn(groups[0], k);
        assert s[n..][0] == groups[0][0];
        NumbersAreNotSpace(s[n], k);
        SpanExact(s, Space, n);
        BacktrackingIsGreedy(p[1..], s[n..], groups);
      case Group(k) =>
        var m := |groups[0]|;
        var w := p[1].text;
        var after := s[m..];
        assert StartsWith(after, w);
        assert after[0] == w[0] by { assert after[..|w|][0] == after[0]; }
        assert s[..m] == groups[0];
        SpanExact(s, k, m);
        BacktrackingIsGreedy(p[1..], after, groups[1..]);
        assert [s[..m]] + groups[1..] == groups;
    }
  }

  /** For a well-formed chain, `Search` is `match` under the backtracking reading: it
      fails exactly when no index admits a match, and otherwise returns the captures
      of a match at the leftmost index that admits one. */
  lemma {:induction false} SearchIsBacktracking(p: Regex, s: string)
    requires WellFormed(p)
    ensures Search(p, s).None? <==> forall j, g :: 0 <= j <= |s| ==> !Matches(p, s[j..], g)
    ensures Search(p, s).Some? ==>
      var f := SearchFrom(p, s, 0).value;
      Matches(p, s[f.at..], Search(p, s).value) && forall i, g :: 0 <= i < f.at ==> !Matches(p, s[i..], g)
  {
    SearchNone(p, s);
    forall j, g | 0 <= j <= |s| && Matches(p, s[j..], g) ensures MatchPrefix(p, s[j..]).Some? {
      BacktrackingIsGreedy(p, s[j..], g);
    }
    if Search(p, s).Some? {
      var f := SearchFrom(p, s, 0).value;
      SearchFromMatches(p, s, 0);
      SearchFromLeftmost(p, s, 0);
      GreedyIsBacktracking(p, s[f.at..]);
      assert Matches(p, s[f.at..], Search(p, s).value);
    }
  }

  /** The canonical text of `p` with the given captures: each `\s*` written as one space,
      the way the few-shot examples and the slot-filling templates write commands. */
  function Render(p: Regex, groups: seq<string>): string
    requires |groups| == |GroupClasses(p)|
    decreases |p|
  {
    if p == [] then ""
    else
      match p[0]
      case Lit(w) => w + Render(p[1..], groups)
      case Spaces => " " + Render(p[1..], groups)
      case Group(_) => groups[0] + Render(p[1..], groups[1..])
  }

  /** The first character of a rendered well-formed expression that starts with a group
      lies in that group's class. */
  lemma {:induction false} RenderStartsWithGroup(p: Regex, groups: seq<string>)
    requires |p| > 0 && p[0].Group? && Fits(groups, GroupClasses(p))
    ensures |Render(p, groups)| > 0 && Render(p, groups)[0] == groups[0][0]
    ensures InClass(Render(p, groups)[0], p[0].cls)
  {
    assert GroupClasses(p)[0] == p[0].cls;
  }

  /** The captures after the first group fit the groups after the first piece. */
  lemma {:induction false} FitsTail(p: Regex, groups: seq<string>)
    requires p != [] && Fits(groups, GroupClasses(p))
    ensures p[0].Group? ==> |groups| > 0 && Fits(groups[1..], GroupClasses(p[1..]))
    ensures !p[0].Group? ==> Fits(groups, GroupClasses(p[1..]))
  {
    if p[0].Group? {
      assert GroupClasses(p) == [p[0].cls] + GroupClasses(p[1..]);
      forall i | 0 <= i < |groups| - 1
        ensures groups[1..][i] != [] && AllIn(groups[1..][i], GroupClasses(p[1..])[i])
      {
        assert groups[1..][i] == groups[i + 1];
      }
    }
  }

  /** The matcher recovers the captures from the canonical text, whatever follows it. */
  lemma {:induction false} MatchRendered(p: Regex, groups: seq<string>, rest: string)
    requires WellFormed(p) && Fits(groups, GroupClasses(p))
    ensures MatchPrefix(p, Render(p, groups) + rest) == Some(groups)
    decreases |p|
  {
    if p != [] {
      FitsTail(p, groups);
      match p[0]
      case Lit(w) =>
        MatchRendered(p[1..], groups, rest);
        MatchLitStep(p, groups, rest);
      case Spaces =>
        MatchRendered(p[1..], groups, rest);
        MatchSpacesStep(p, groups, rest);
      case Group(k) =>
        MatchRendered(p[1..], groups[1..], rest);
        MatchGroupStep(p, groups, rest);
    }
  }

  lemma {:induction false} MatchLitStep(p: Regex, groups: seq<string>, rest: string)
    requires p != [] && p[0].Lit? && |groups| == |GroupClasses(p)|
    requires MatchPrefix(p[1..], Render(p[1..], groups) + rest) == Some(groups)
    ensures MatchPrefix(p, Render(p, groups) + rest) == Some(groups)
  {
    var w := p[0].text;
    var s := Render(p, groups) + rest;
    assert s == w + (Render(p[1..], groups) + rest);
    assert s[|w|..] == Render(p[1..], groups) + rest;
  }

  lemma {:induction false} MatchSpacesStep(p: Regex, groups: seq<string>, rest: string)
    requires p != [] && p[0].Spaces? && WellFormed(p) && Fits(groups, GroupClasses(p))
    requires MatchPrefix(p[1..], Render(p[1..], groups) + rest) == Some(groups)
    ensures MatchPrefix(p, Render(p, groups) + rest) == Some(groups)
  {
    var s := Render(p, groups) + rest;
    var t := Render(p[1..], groups);
    SpacesBeforeGroup(p, groups, rest);
    assert s[1..] == t + rest;
    SkipSpaces(p, s);
  }

  /** The one space the canonical text writes for `\s*` is all that `\s*` takes. */
  lemma {:induction false} SpacesBeforeGroup(p: Regex, groups: seq<string>, rest: string)
    requires p != [] && p[0].Spaces? && WellFormed(p) && Fits(groups, GroupClasses(p))
    ensures Render(p, groups) + rest == " " + (Render(p[1..], groups) + rest)
    ensures Span(Render(p, groups) + rest, Space) == 1
  {
    var t := Render(p[1..], groups);
    assert Render(p, groups) == " " + t;
    assert FollowsWell(p[0], p[1..]);
    assert GroupClasses(p) == GroupClasses(p[1..]);
    RenderStartsWithGroup(p[1..], groups);
    SpaceThenNumber(" " + (t + rest), p[1].cls);
  }

  /** A single space followed by a digit or number character is a white-space run of one. */
  lemma {:induction false} SpaceThenNumber(s: string, k: CharClass)
    requires |s| >= 2 && s[0] == ' ' && (k.Digit? || k.NumberChar?) && InClass(s[1], k)
    ensures Span(s, Space) == 1
  {
    NumbersAreNotSpace(s[1], k);
    SpanExact(s, Space, 1);
  }

  lemma {:induction false} SkipSpaces(p: Regex, s: string)
    requires p != [] && p[0].Spaces?
    ensures MatchPrefix(p, s) == MatchPrefix(p[1..], s[Span(s, Space)..])
  {
  }

  lemma {:induction false} NumbersAreNotSpace(c: char, k: CharClass)
    requires (k.Digit? || k.NumberChar?) && InClass(c, k)
    ensures !IsSpace(c)
  {
  }

  lemma {:induction false} MatchGroupStep(p: Regex, groups: seq<string>, rest: string)
    requires p != [] && p[0].Group? && WellFormed(p) && Fits(groups, GroupClasses(p))
    requires |groups| > 0 && |groups| - 1 == |GroupClasses(p[1..])|
    requires MatchPrefix(p[1..], Render(p[1..], groups[1..]) + rest) == Some(groups[1..])
    ensures MatchPrefix(p, Render(p, groups) + rest) == Some(groups)
  {
    var k := p[0].cls;
    var s := Render(p, groups) + rest;
    var g := groups[0];
    var t := Render(p[1..], groups[1..]);
    assert FollowsWell(p[0], p[1..]);
    assert GroupClasses(p)[0] == k;
    assert s == g + (t + rest);
    assert s[..|g|] == g;
    assert t == p[1].text + Render(p[2..], groups[1..]);
    assert s[|g|] == p[1].text[0];
    SpanExact(s, k, |g|);
    assert s[|g|..] == t + rest;
    assert [g] + groups[1..] == groups;
  }

  /** Searching the canonical text finds the captures at its start. */
  lemma {:induction false} SearchRendered(p: Regex, groups: seq<string>, rest: string)
    requires WellFormed(p) && Fits(groups, GroupClasses(p))
    ensures Search(p, Render(p, groups) + rest) == Some(groups)
  {
    var s := Render(p, groups) + rest;
    MatchRendered(p, groups, rest);
    assert s[0..] == s;
  }

  /** `(C+),\s*(C+),\s*...`: `n` number groups separated by a comma and optional white space. */
  function NumberList(n: nat): Regex
    requires n >= 1
  {
    if n == 1 then [Group(NumberChar)]
    else [Group(NumberChar), Lit(","), Spaces] + NumberList(n - 1)
  }

  /** The canonical text of a list of numbers, separated by a comma and one space, and
      then the text `after`. */
  function ListedThen(items: seq<string>, after: string): string
    requires |items| >= 1
  {
    if |items| == 1 then items[0] + after else items[0] + (", " + ListedThen(items[1..], after))
  }

  /** A comma and a space rendered one after the other are the separator `", "`. */
  lemma {:induction false} Separator(x: string)
    ensures "," + (" " + x) == ", " + x
  {
  }

  /** The requirement on what closes a number list: a literal that cannot continue a number. */
  predicate ClosesNumber(tail: Regex)
  {
    WellFormed(tail) && tail != [] && tail[0].Lit? && tail[0].text != []
    && !InClass(tail[0].text[0], NumberChar)
  }

  /** The first three pieces of a list of more than one number, and what follows them. */
  lemma {:induction false} NumberListUnfold(n: nat, tail: Regex)
    requires n >= 2
    ensures var p := NumberList(n) + tail;
      p[0] == Group(NumberChar) && p[1] == Lit(",") && p[2] == Spaces
      && p[1..] == [Lit(","), Spaces] + (NumberList(n - 1) + tail)
      && p[1..][1..] == [Spaces] + (NumberList(n - 1) + tail)
      && p[1..][1..][1..] == NumberList(n - 1) + tail
  {
  }

  /** A number list closed by a literal that cannot continue a number is well formed. */
  lemma {:induction false} NumberListWellFormed(n: nat, tail: Regex)
    requires n >= 1 && ClosesNumber(tail)
    ensures WellFormed(NumberList(n) + tail)
    ensures (NumberList(n) + tail)[0] == Group(NumberChar)
  {
    var p := NumberList(n) + tail;
    if n == 1 {
      assert p[1..] == tail;
    } else {
      NumberListUnfold(n, tail);
      NumberListWellFormed(n - 1, tail);
    }
  }

  /** The groups of a number list are `n` number groups, followed by those of its tail. */
  lemma {:induction false} NumberListClasses(n: nat, tail: Regex)
    requires n >= 1
    ensures GroupClasses(NumberList(n) + tail) == seq(n, _ => NumberChar) + GroupClasses(tail)
  {
    var p := NumberList(n) + tail;
    if n == 1 {
      assert p[1..] == tail;
      assert seq(n, _ => NumberChar) == [NumberChar];
    } else {
      var rest := NumberList(n - 1) + tail;
      NumberListUnfold(n, tail);
      NumberListClasses(n - 1, tail);
      assert GroupClasses(p[1..][1..]) == GroupClasses(rest);
      assert GroupClasses(p[1..]) == GroupClasses(rest);
      assert seq(n, _ => NumberChar) == [NumberChar] + seq(n - 1, _ => NumberChar);
    }
  }

  /** The canonical text of a number list lists the numbers, separated by `", "`. */
  lemma {:induction false} NumberListRender(n: nat, tail: Regex, numbers: seq<string>, more: seq<string>)
    requires n >= 1 && |numbers| == n && |more| == |GroupClasses(tail)|
    ensures |numbers + more| == |GroupClasses(NumberList(n) + tail)|
    ensures Render(NumberList(n) + tail, numbers + more) == ListedThen(numbers, Render(tail, more))
  {
    NumberListClasses(n, tail);
    var p := NumberList(n) + tail;
    if n == 1 {
      assert p[1..] == tail;
      assert (numbers + more)[1..] == more;
    } else {
      var rest := NumberList(n - 1) + tail;
      NumberListUnfold(n, tail);
      NumberListClasses(n - 1, tail);
      assert (numbers + more)[1..] == numbers[1..] + more;
      calc {
        Render(p, numbers + more);
        numbers[0] + Render(p[1..], numbers[1..] + more);
        numbers[0] + ("," + Render(p[1..][1..], numbers[1..] + more));
        numbers[0] + ("," + (" " + Render(rest, numbers[1..] + more)));
        { NumberListRender(n - 1, tail, numbers[1..], more); }
        numbers[0] + ("," + (" " + ListedThen(numbers[1..], Render(tail, more))));
        { Separator(ListedThen(numbers[1..], Render(tail, more))); }
        numbers[0] + (", " + ListedThen(numbers[1..], Render(tail, more)));
      }
    }
  }

  /** `p` has a capturing group of class `k`. */
  predicate HasGroup(p: Regex, k: CharClass)
    decreases |p|
  {
    p != [] && (p[0] == Group(k) || HasGroup(p[1..], k))
  }

  /** An expression whose groups include one of class `k` has a group of that class. */
  lemma {:induction false} ClassHasGroup(p: Regex, k: CharClass, i: nat)
    requires i < |GroupClasses(p)| && GroupClasses(p)[i] == k
    ensures HasGroup(p, k)
    decreases |p|
  {
    if !p[0].Group? {
      ClassHasGroup(p[1..], k, i);
    } else if i > 0 {
      ClassHasGroup(p[1..], k, i - 1);
    }
  }

  /** An expression with a group of class `k` matches nowhere in a string that holds
      no character of that class. */
  lemma {:induction false} NoCapture(p: Regex, s: string, k: CharClass)
    requires HasGroup(p, k)
    requires forall i :: 0 <= i < |s| ==> !InClass(s[i], k)
    ensures MatchPrefix(p, s).None?
    decreases |p|
  {
    match p[0]
    case Lit(w) =>
      if StartsWith(s, w) { NoCapture(p[1..], s[|w|..], k); }
    case Spaces =>
      NoCapture(p[1..], s[Span(s, Space)..], k);
    case Group(c) =>
      var n := Span(s, c);
      if c != k && n > 0 { NoCapture(p[1..], s[n..], k); }
  }
}
