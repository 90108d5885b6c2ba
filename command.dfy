/** The textual function-call language shared by the three translation strategies,
    and the recognition step of `executeFunctionOnMap` (app/src/App.tsx): the test of
    six fixed prefixes, in order, followed by the regular expression of the function
    the prefix names. */
module Command {
  import opened Wrappers
  import opened Text
  import opened Pattern

  /** A recognised command. Number arguments stay the token strings the expressions
      captured (`[-\d.]+`, or `\d+` for zoom levels); the map converts them. */
  datatype Operation =
    | ZoomIn(levels: string)
    | ZoomOut(levels: string)
    | Move(lon: string, lat: string)
    | MoveToExtent(lat1: string, lon1: string, lat2: string, lon2: string)
    | AddMarker(name: string, lon: string, lat: string)
    | AddWms(url: string)

  /** The six prefixes the dispatcher tests with `startsWith`, one per function. */
  datatype Prefix =
    | ZoomInPrefix | ZoomOutPrefix | MovePrefix | MoveToExtentPrefix | AddMarkerPrefix | AddWmsPrefix

  function PrefixText(f: Prefix): string
  {
    match f
    case ZoomInPrefix => "ZoomIn("
    case ZoomOutPrefix => "ZoomOut("
    case MovePrefix => "Move("
    case MoveToExtentPrefix => "MoveToExtent("
    case AddMarkerPrefix => "AddMarker("
    case AddWmsPrefix => "AddWMS("
  }

  /** The function an operation calls. */
  function PrefixOf(op: Operation): Prefix
  {
    match op
    case ZoomIn(_) => ZoomInPrefix
    case ZoomOut(_) => ZoomOutPrefix
    case Move(_, _) => MovePrefix
    case MoveToExtent(_, _, _, _) => MoveToExtentPrefix
    case AddMarker(_, _, _) => AddMarkerPrefix
    case AddWms(_) => AddWmsPrefix
  }

  /** The command string starts with one of the six prefixes. */
  predicate HasKnownPrefix(cmd: string)
  {
    StartsWith(cmd, "ZoomIn(") || StartsWith(cmd, "ZoomOut(") || StartsWith(cmd, "Move(")
    || StartsWith(cmd, "MoveToExtent(") || StartsWith(cmd, "AddMarker(") || StartsWith(cmd, "AddWMS(")
  }

  /** The branch of the dispatcher a command string takes: the first prefix, in the
      order the code tests them, that the string starts with. */
  function Selected(cmd: string): (r: Option<Prefix>)
    ensures r.Some? ==> StartsWith(cmd, PrefixText(r.value))
    ensures r.None? <==> !HasKnownPrefix(cmd)
  {
    if StartsWith(cmd, "ZoomIn(") then Some(ZoomInPrefix)
    else if StartsWith(cmd, "ZoomOut(") then Some(ZoomOutPrefix)
    else if StartsWith(cmd, "Move(") then Some(MovePrefix)
    else if StartsWith(cmd, "MoveToExtent(") then Some(MoveToExtentPrefix)
    else if StartsWith(cmd, "AddMarker(") then Some(AddMarkerPrefix)
    else if StartsWith(cmd, "AddWMS(") then Some(AddWmsPrefix)
    else None
  }

  /** `/ZoomIn\((\d+)\)/` */
  function ZoomInRegex(): (p: Regex)
    ensures WellFormed(p) && GroupClasses(p) == [Digit]
  {
    [Lit("ZoomIn("), Group(Digit), Lit(")")]
  }

  /** `/ZoomOut\((\d+)\)/` */
  function ZoomOutRegex(): (p: Regex)
    ensures WellFormed(p) && GroupClasses(p) == [Digit]
  {
    [Lit("ZoomOut("), Group(Digit), Lit(")")]
  }

  /** `/Move\(([-\d.]+),\s*([-\d.]+)\)/` */
  function MoveRegex(): (p: Regex)
    ensures WellFormed(p) && GroupClasses(p) == [NumberChar, NumberChar]
  {
    var tail := [Lit(")")];
    NumberListWellFormed(2, tail);
    NumberListClasses(2, tail);
    Opened("Move(", NumberList(2) + tail);
    assert seq(2, _ => NumberChar) == [NumberChar, NumberChar];
    [Lit("Move(")] + (NumberList(2) + tail)
  }

  /** `/MoveToExtent\(([-\d.]+),\s*([-\d.]+),\s*([-\d.]+),\s*([-\d.]+)\)/` */
  function MoveToExtentRegex(): (p: Regex)
    ensures WellFormed(p) && GroupClasses(p) == [NumberChar, NumberChar, NumberChar, NumberChar]
  {
    var tail := [Lit(")")];
    NumberListWellFormed(4, tail);
    NumberListClasses(4, tail);
    Opened("MoveToExtent(", NumberList(4) + tail);
    assert seq(4, _ => NumberChar) == [NumberChar, NumberChar, NumberChar, NumberChar];
    [Lit("MoveToExtent(")] + (NumberList(4) + tail)
  }

  /** `/AddMarker\('([^']+)', \[([-\d.]+),\s*([-\d.]+)\]\)/` */
  function AddMarkerRegex(): (p: Regex)
    ensures WellFormed(p) && GroupClasses(p) == [NotQuote, NumberChar, NumberChar]
  {
    var tail := [Lit("])")];
    NumberListWellFormed(2, tail);
    NumberListClasses(2, tail);
    var numbers := [Lit("', [")] + (NumberList(2) + tail);
    Opened("', [", NumberList(2) + tail);
    QuotedFirst(numbers);
    Opened("AddMarker('", [Group(NotQuote)] + numbers);
    assert seq(2, _ => NumberChar) == [NumberChar, NumberChar];
    [Lit("AddMarker('")] + ([Group(NotQuote)] + numbers)
  }

  /** `/AddWMS\('([^']+)'\)/` */
  function AddWmsRegex(): (p: Regex)
    ensures WellFormed(p) && GroupClasses(p) == [NotQuote]
  {
    [Lit("AddWMS('"), Group(NotQuote), Lit("')")]
  }

  /** A literal in front of a well-formed expression keeps it well formed and adds no group. */
  lemma {:induction false} Opened(w: string, q: Regex)
    requires WellFormed(q)
    ensures WellFormed([Lit(w)] + q)
    ensures GroupClasses([Lit(w)] + q) == GroupClasses(q)
  {
    assert ([Lit(w)] + q)[1..] == q;
  }

  /** The canonical text of a literal in front of an expression. */
  lemma {:induction false} OpenedRender(w: string, q: Regex, g: seq<string>)
    requires |g| == |GroupClasses(q)|
    ensures |g| == |GroupClasses([Lit(w)] + q)|
    ensures Render([Lit(w)] + q, g) == w + Render(q, g)
  {
    assert ([Lit(w)] + q)[1..] == q;
  }

  /** A quoted-text group in front of an expression that starts with a quote. */
  lemma {:induction false} QuotedFirst(q: Regex)
    requires WellFormed(q) && q != [] && q[0].Lit? && q[0].text != [] && q[0].text[0] == '\''
    ensures WellFormed([Group(NotQuote)] + q)
    ensures GroupClasses([Group(NotQuote)] + q) == [NotQuote] + GroupClasses(q)
  {
    assert ([Group(NotQuote)] + q)[1..] == q;
  }

  /** The canonical text of a quoted-text group in front of an expression. */
  lemma {:induction false} QuotedRender(q: Regex, name: string, g: seq<string>)
    requires |g| == |GroupClasses(q)|
    ensures |[name] + g| == |GroupClasses([Group(NotQuote)] + q)|
    ensures Render([Group(NotQuote)] + q, [name] + g) == name + Render(q, g)
  {
    assert ([Group(NotQuote)] + q)[1..] == q;
    assert ([name] + g)[1..] == g;
  }

  /** The expression the dispatcher matches for an operation's function. */
  function RegexOf(op: Operation): (p: Regex)
    ensures WellFormed(p) && GroupClasses(p) == Classes(op)
  {
    match op
    case ZoomIn(_) => ZoomInRegex()
    case ZoomOut(_) => ZoomOutRegex()
    case Move(_, _) => MoveRegex()
    case MoveToExtent(_, _, _, _) => MoveToExtentRegex()
    case AddMarker(_, _, _) => AddMarkerRegex()
    case AddWms(_) => AddWmsRegex()
  }

  /** The captured groups that stand for an operation's arguments, in group order. */
  function Arguments(op: Operation): seq<string>
  {
    match op
    case ZoomIn(n) => [n]
    case ZoomOut(n) => [n]
    case Move(lon, lat) => [lon, lat]
    case MoveToExtent(lat1, lon1, lat2, lon2) => [lat1, lon1, lat2, lon2]
    case AddMarker(name, lon, lat) => [name, lon, lat]
    case AddWms(url) => [url]
  }

  /** The classes of the groups of an operation's expression, one per argument. */
  function Classes(op: Operation): (ks: seq<CharClass>)
    ensures |ks| == |Arguments(op)|
  {
    match op
    case ZoomIn(_) => [Digit]
    case ZoomOut(_) => [Digit]
    case Move(_, _) => [NumberChar, NumberChar]
    case MoveToExtent(_, _, _, _) => [NumberChar, NumberChar, NumberChar, NumberChar]
    case AddMarker(_, _, _) => [NotQuote, NumberChar, NumberChar]
    case AddWms(_) => [NotQuote]
  }

  /** A non-empty run of characters of class `k`: what one capturing group takes. */
  predicate Token(s: string, k: CharClass)
  {
    s != [] && AllIn(s, k)
  }

  /** Captures that are tokens of their classes fit those classes. */
  lemma {:induction false} TokensFit(groups: seq<string>, classes: seq<CharClass>)
    requires |groups| == |classes| && forall i :: 0 <= i < |groups| ==> Token(groups[i], classes[i])
    ensures Fits(groups, classes)
  {
  }

  /** Arguments the operation's expression can capture: digits for zoom levels, number
      characters for coordinates, quote-free text for names and URLs, none of them empty. */
  predicate ValidArguments(op: Operation)
  {
    match op
    case ZoomIn(n) => Token(n, Digit)
    case ZoomOut(n) => Token(n, Digit)
    case Move(lon, lat) => Token(lon, NumberChar) && Token(lat, NumberChar)
    case MoveToExtent(lat1, lon1, lat2, lon2) =>
      Token(lat1, NumberChar) && Token(lon1, NumberChar) && Token(lat2, NumberChar) && Token(lon2, NumberChar)
    case AddMarker(name, lon, lat) => Token(name, NotQuote) && Token(lon, NumberChar) && Token(lat, NumberChar)
    case AddWms(url) => Token(url, NotQuote)
  }

  /** Valid arguments fit the groups of the operation's expression. */
  lemma {:induction false} ValidArgumentsFit(op: Operation)
    requires ValidArguments(op)
    ensures Fits(Arguments(op), Classes(op))
  {
  }

  /** The zoom level text: the captured digits, or `"0"` when the expression finds no
      match (`m?.[1] || "0"`). */
  function LevelsOrZero(m: Option<seq<string>>): (r: string)
    requires m.Some? ==> |m.value| == 1
    ensures m.None? ==> r == "0"
    ensures (m.Some? ==> Token(m.value[0], Digit)) ==> Token(r, Digit)
  {
    match m
    case Some(groups) => groups[0]
    case None => "0"
  }

  /** What the branch of function `f` makes of a command string: the arguments the
      function's expression captures at its leftmost match. A zoom branch always
      yields an operation, with level `"0"` when the expression finds no digits;
      the other branches yield none when their expression finds no match. */
  function Recognise(f: Prefix, cmd: string): (r: Option<Operation>)
    ensures f == ZoomInPrefix || f == ZoomOutPrefix ==> r.Some?
  {
    match f
    case ZoomInPrefix => Some(ZoomIn(LevelsOrZero(Search(ZoomInRegex(), cmd))))
    case ZoomOutPrefix => Some(ZoomOut(LevelsOrZero(Search(ZoomOutRegex(), cmd))))
    case MovePrefix =>
      (match Search(MoveRegex(), cmd)
       case Some(g) => Some(Move(g[0], g[1]))
       case None => None)
    case MoveToExtentPrefix =>
      (match Search(MoveToExtentRegex(), cmd)
       case Some(g) => Some(MoveToExtent(g[0], g[1], g[2], g[3]))
       case None => None)
    case AddMarkerPrefix =>
      (match Search(AddMarkerRegex(), cmd)
       case Some(g) => Some(AddMarker(g[0], g[1], g[2]))
       case None => None)
    case AddWmsPrefix =>
      (match Search(AddWmsRegex(), cmd)
       case Some(g) => Some(AddWms(g[0]))
       case None => None)
  }

  /** What `executeFunctionOnMap` recognises in a command string: the branch the
      prefixes select, then that branch's expression. */
  function Parse(cmd: string): (r: Option<Operation>)
    ensures r.Some? ==> Selected(cmd) == Some(PrefixOf(r.value))
    ensures !HasKnownPrefix(cmd) ==> r.None?
  {
    match Selected(cmd)
    case None => None
    case Some(f) => RecogniseShape(f, cmd); Recognise(f, cmd)
  }

  /** What the dispatcher recognises starts with its function's prefix and has
      capturable arguments; a string with none of the prefixes yields no operation,
      and one with a zoom prefix always yields one. */
  lemma {:induction false} ParseShape(cmd: string)
    ensures Parse(cmd).Some? ==>
      StartsWith(cmd, PrefixText(PrefixOf(Parse(cmd).value))) && ValidArguments(Parse(cmd).value)
    ensures !HasKnownPrefix(cmd) ==> Parse(cmd).None?
    ensures StartsWith(cmd, "ZoomIn(") || StartsWith(cmd, "ZoomOut(") ==> Parse(cmd).Some?
  {
    match Selected(cmd) {
      case None =>
      case Some(f) => RecogniseShape(f, cmd);
    }
    if StartsWith(cmd, "ZoomIn(") {
      PrefixesExclusive(ZoomInPrefix, cmd);
    } else if StartsWith(cmd, "ZoomOut(") {
      PrefixesExclusive(ZoomOutPrefix, cmd);
    }
  }

  /** A branch yields an operation of its own function, with arguments the
      function's expression can capture; the zoom branches always yield one. */
  lemma {:induction false} RecogniseShape(f: Prefix, cmd: string)
    ensures Recognise(f, cmd).Some? ==>
      PrefixOf(Recognise(f, cmd).value) == f && ValidArguments(Recognise(f, cmd).value)
    ensures f == ZoomInPrefix || f == ZoomOutPrefix ==> Recognise(f, cmd).Some?
  {
    var p := match f
      case ZoomInPrefix => ZoomInRegex()
      case ZoomOutPrefix => ZoomOutRegex()
      case MovePrefix => MoveRegex()
      case MoveToExtentPrefix => MoveToExtentRegex()
      case AddMarkerPrefix => AddMarkerRegex()
      case AddWmsPrefix => AddWmsRegex();
    var m := Search(p, cmd);
    if m.Some? {
      assert forall i :: 0 <= i < |m.value| ==> Token(m.value[i], GroupClasses(p)[i]);
    }
  }

  /** The canonical command string of an operation: the way the few-shot examples and
      the slot-filling templates write it (`"Move(" + lon + ", " + lat + ")"` and so on;
      the parentheses only group the concatenations from the right). */
  function Format(op: Operation): (r: string)
    ensures StartsWith(r, PrefixText(PrefixOf(op)))
  {
    match op
    case ZoomIn(n) => "ZoomIn(" + (n + ")")
    case ZoomOut(n) => "ZoomOut(" + (n + ")")
    case Move(lon, lat) => "Move(" + (lon + (", " + (lat + ")")))
    case MoveToExtent(lat1, lon1, lat2, lon2) =>
      "MoveToExtent(" + (lat1 + (", " + (lon1 + (", " + (lat2 + (", " + (lon2 + ")")))))))
    case AddMarker(name, lon, lat) => "AddMarker('" + (name + ("', [" + (lon + (", " + (lat + "])")))))
    case AddWms(url) => "AddWMS('" + (url + "')")
  }

  /** The canonical string is the text the operation's expression describes, with the
      arguments as captures and every `\s*` written as one space. */
  lemma {:induction false} FormatIsRender(op: Operation)
    ensures Format(op) == Render(RegexOf(op), Arguments(op))
  {
    match op
    case ZoomIn(n) => OneGroupRender("ZoomIn(", Digit, ")", n);
    case ZoomOut(n) => OneGroupRender("ZoomOut(", Digit, ")", n);
    case AddWms(url) => OneGroupRender("AddWMS('", NotQuote, "')", url);
    case Move(lon, lat) => MoveRender(lon, lat);
    case MoveToExtent(lat1, lon1, lat2, lon2) => MoveToExtentRender(lat1, lon1, lat2, lon2);
    case AddMarker(name, lon, lat) => AddMarkerRender(name, lon, lat);
  }

  lemma {:induction false} OneGroupRender(opening: string, k: CharClass, closing: string, g: string)
    ensures GroupClasses([Lit(opening), Group(k), Lit(closing)]) == [k]
    ensures Render([Lit(opening), Group(k), Lit(closing)], [g]) == opening + (g + closing)
  {
    var p := [Lit(opening), Group(k), Lit(closing)];
    var q, r := p[1..], p[1..][1..];
    assert q == [Group(k), Lit(closing)] && r == [Lit(closing)] && r[1..] == [];
    assert GroupClasses(r) == [];
    assert GroupClasses(q) == [k] + GroupClasses(r);
    assert Render(r, []) == closing + "";
    assert [g][1..] == [];
    assert Render(q, [g]) == g + Render(r, []);
  }

  lemma {:induction false} MoveRender(lon: string, lat: string)
    ensures Render(MoveRegex(), [lon, lat]) == Format(Move(lon, lat))
  {
    var tail := [Lit(")")];
    NumberListRender(2, tail, [lon, lat], []);
    OpenedRender("Move(", NumberList(2) + tail, [lon, lat]);
    assert [lon, lat] + [] == [lon, lat];
    assert [lon, lat][1..] == [lat];
  }

  lemma {:induction false} MoveToExtentRender(lat1: string, lon1: string, lat2: string, lon2: string)
    ensures Render(MoveToExtentRegex(), [lat1, lon1, lat2, lon2]) == Format(MoveToExtent(lat1, lon1, lat2, lon2))
  {
    var tail := [Lit(")")];
    var numbers := [lat1, lon1, lat2, lon2];
    assert Render(tail, []) == ")";
    NumberListRender(4, tail, numbers, []);
    OpenedRender("MoveToExtent(", NumberList(4) + tail, numbers);
    assert numbers + [] == numbers;
    assert ListedThen(numbers, ")") == lat1 + (", " + (lon1 + (", " + (lat2 + (", " + (lon2 + ")")))))) by {
      assert numbers[1..] == [lon1, lat2, lon2];
      assert numbers[1..][1..] == [lat2, lon2];
      assert numbers[1..][1..][1..] == [lon2];
      calc {
        ListedThen(numbers[1..][1..], ")");
        lat2 + (", " + ListedThen(numbers[1..][1..][1..], ")"));
        lat2 + (", " + (lon2 + ")"));
      }
    }
  }

  lemma {:induction false} AddMarkerRender(name: string, lon: string, lat: string)
    ensures Render(AddMarkerRegex(), [name, lon, lat]) == Format(AddMarker(name, lon, lat))
  {
    var tail := [Lit("])")];
    var numbers := [Lit("', [")] + (NumberList(2) + tail);
    NumberListRender(2, tail, [lon, lat], []);
    assert [lon, lat] + [] == [lon, lat];
    assert [lon, lat][1..] == [lat];
    OpenedRender("', [", NumberList(2) + tail, [lon, lat]);
    QuotedRender(numbers, name, [lon, lat]);
    assert [name] + [lon, lat] == [name, lon, lat];
    OpenedRender("AddMarker('", [Group(NotQuote)] + numbers, [name, lon, lat]);
  }

  /** The canonical string of an operation selects the branch of its function. */
  lemma {:induction false} SelectedFormat(op: Operation, rest: string)
    ensures Selected(Format(op) + rest) == Some(PrefixOf(op))
  {
    match op {
      case ZoomIn(n) => Leading("ZoomIn(", n + ")", rest);
      case ZoomOut(n) => Leading("ZoomOut(", n + ")", rest);
      case Move(lon, lat) => Leading("Move(", lon + (", " + (lat + ")")), rest);
      case MoveToExtent(lat1, lon1, lat2, lon2) =>
        Leading("MoveToExtent(", lat1 + (", " + (lon1 + (", " + (lat2 + (", " + (lon2 + ")")))))), rest);
      case AddMarker(name, lon, lat) => Leading("AddMarker('", name + ("', [" + (lon + (", " + (lat + "])")))), rest);
      case AddWms(url) => Leading("AddWMS('", url + "')", rest);
    }
    PrefixesExclusive(PrefixOf(op), Format(op) + rest);
  }

  /** No two of the six prefixes can start the same string, so the order in which the
      dispatcher tests them does not matter: a string that starts with one of them
      selects that one's branch. */
  lemma {:induction false} PrefixesExclusive(f: Prefix, cmd: string)
    requires StartsWith(cmd, PrefixText(f))
    ensures Selected(cmd) == Some(f)
  {
    var w := PrefixText(f);
    assert forall i :: 0 <= i < |w| ==> cmd[i] == w[i] by {
      forall i | 0 <= i < |w| ensures cmd[i] == w[i] { assert cmd[..|w|][i] == cmd[i]; }
    }
    match f
    case ZoomInPrefix =>
    case ZoomOutPrefix =>
      Differs(cmd, "ZoomIn(", 4);
    case MovePrefix =>
      Differs(cmd, "ZoomIn(", 0);
      Differs(cmd, "ZoomOut(", 0);
    case MoveToExtentPrefix =>
      Differs(cmd, "ZoomIn(", 0);
      Differs(cmd, "ZoomOut(", 0);
      Differs(cmd, "Move(", 4);
    case AddMarkerPrefix =>
      Differs(cmd, "ZoomIn(", 0);
      Differs(cmd, "ZoomOut(", 0);
      Differs(cmd, "Move(", 0);
      Differs(cmd, "MoveToExtent(", 0);
    case AddWmsPrefix =>
      Differs(cmd, "ZoomIn(", 0);
      Differs(cmd, "ZoomOut(", 0);
      Differs(cmd, "Move(", 0);
      Differs(cmd, "MoveToExtent(", 0);
      Differs(cmd, "AddMarker(", 3);
  }

  /** A string that differs from `w` at some index of `w` does not start with `w`. */
  lemma {:induction false} Differs(s: string, w: string, i: nat)
    requires i < |w| && i < |s| && s[i] != w[i]
    ensures !StartsWith(s, w)
  {
    if |w| <= |s| {
      assert s[..|w|][i] == s[i];
    }
  }

  /** The branch of an operation's function recovers the operation from its canonical
      string, whatever follows it. */
  lemma {:induction false} RecogniseFormat(op: Operation, rest: string)
    requires ValidArguments(op)
    ensures Recognise(PrefixOf(op), Format(op) + rest) == Some(op)
  {
    match op
    case ZoomIn(n) => SearchOneGroup(ZoomInRegex(), "ZoomIn(", Digit, ")", n, rest);
    case ZoomOut(n) => SearchOneGroup(ZoomOutRegex(), "ZoomOut(", Digit, ")", n, rest);
    case AddWms(url) => SearchOneGroup(AddWmsRegex(), "AddWMS('", NotQuote, "')", url, rest);
    case Move(lon, lat) => RecogniseMove(lon, lat, rest);
    case MoveToExtent(lat1, lon1, lat2, lon2) => RecogniseMoveToExtent(lat1, lon1, lat2, lon2, rest);
    case AddMarker(name, lon, lat) => RecogniseAddMarker(name, lon, lat, rest);
  }

  /** An expression with one group between two literals finds that group in the
      text it describes. */
  lemma {:induction false} SearchOneGroup(p: Regex, opening: string, k: CharClass, closing: string, g: string, rest: string)
    requires p == [Lit(opening), Group(k), Lit(closing)] && WellFormed(p) && Token(g, k)
    ensures Search(p, (opening + (g + closing)) + rest) == Some([g])
  {
    OneGroupRender(opening, k, closing, g);
    SearchRendered(p, [g], rest);
  }

  lemma {:induction false} RecogniseMove(lon: string, lat: string, rest: string)
    requires Token(lon, NumberChar) && Token(lat, NumberChar)
    ensures Recognise(MovePrefix, Format(Move(lon, lat)) + rest) == Some(Move(lon, lat))
  {
    SearchMove(lon, lat, rest);
  }

  lemma {:induction false} SearchMove(lon: string, lat: string, rest: string)
    requires Token(lon, NumberChar) && Token(lat, NumberChar)
    ensures Search(MoveRegex(), Format(Move(lon, lat)) + rest) == Some([lon, lat])
  {
    MoveRender(lon, lat);
    TokensFit([lon, lat], [NumberChar, NumberChar]);
    SearchRendered(MoveRegex(), [lon, lat], rest);
  }

  lemma {:induction false} RecogniseMoveToExtent(lat1: string, lon1: string, lat2: string, lon2: string, rest: string)
    requires Token(lat1, NumberChar) && Token(lon1, NumberChar) && Token(lat2, NumberChar) && Token(lon2, NumberChar)
    ensures Recognise(MoveToExtentPrefix, Format(MoveToExtent(lat1, lon1, lat2, lon2)) + rest)
      == Some(MoveToExtent(lat1, lon1, lat2, lon2))
  {
    SearchMoveToExtent(lat1, lon1, lat2, lon2, rest);
  }

  lemma {:induction false} SearchMoveToExtent(lat1: string, lon1: string, lat2: string, lon2: string, rest: string)
    requires Token(lat1, NumberChar) && Token(lon1, NumberChar) && Token(lat2, NumberChar) && Token(lon2, NumberChar)
    ensures Search(MoveToExtentRegex(), Format(MoveToExtent(lat1, lon1, lat2, lon2)) + rest)
      == Some([lat1, lon1, lat2, lon2])
  {
    MoveToExtentRender(lat1, lon1, lat2, lon2);
    TokensFit([lat1, lon1, lat2, lon2], [NumberChar, NumberChar, NumberChar, NumberChar]);
    SearchRendered(MoveToExtentRegex(), [lat1, lon1, lat2, lon2], rest);
  }

  lemma {:induction false} RecogniseAddMarker(name: string, lon: string, lat: string, rest: string)
    requires Token(name, NotQuote) && Token(lon, NumberChar) && Token(lat, NumberChar)
    ensures Recognise(AddMarkerPrefix, Format(AddMarker(name, lon, lat)) + rest) == Some(AddMarker(name, lon, lat))
  {
    SearchAddMarker(name, lon, lat, rest);
  }

  lemma {:induction false} SearchAddMarker(name: string, lon: string, lat: string, rest: string)
    requires Token(name, NotQuote) && Token(lon, NumberChar) && Token(lat, NumberChar)
    ensures Search(AddMarkerRegex(), Format(AddMarker(name, lon, lat)) + rest) == Some([name, lon, lat])
  {
    AddMarkerRender(name, lon, lat);
    TokensFit([name, lon, lat], [NotQuote, NumberChar, NumberChar]);
    SearchRendered(AddMarkerRegex(), [name, lon, lat], rest);
  }

  /** Grammar round trip: the dispatcher recognises the canonical string of every
      operation with capturable arguments, whatever follows it, as that operation. */
  lemma {:induction false} ParseFormat(op: Operation, rest: string)
    requires ValidArguments(op)
    ensures Parse(Format(op) + rest) == Some(op)
  {
    SelectedFormat(op, rest);
    RecogniseFormat(op, rest);
  }

  /** Searching for such an expression finds nothing. */
  lemma {:induction false} NoCaptureAnywhere(p: Regex, s: string, k: CharClass)
    requires HasGroup(p, k)
    requires forall i :: 0 <= i < |s| ==> !InClass(s[i], k)
    ensures Search(p, s).None?
  {
    forall j | 0 <= j <= |s| ensures MatchPrefix(p, s[j..]).None? {
      NoCapture(p, s[j..], k);
    }
    SearchNone(p, s);
  }

  /** A zoom command without a digit zooms by level `"0"`: the code falls back to zero
      rather than ignoring the command. */
  lemma {:induction false} ZoomWithoutDigits(f: Prefix, cmd: string)
    requires f == ZoomInPrefix || f == ZoomOutPrefix
    requires StartsWith(cmd, PrefixText(f))
    requires forall i :: 0 <= i < |cmd| ==> !InClass(cmd[i], Digit)
    ensures Parse(cmd) == Some(if f == ZoomInPrefix then ZoomIn("0") else ZoomOut("0"))
  {
    PrefixesExclusive(f, cmd);
    if f == ZoomInPrefix {
      ClassHasGroup(ZoomInRegex(), Digit, 0);
      NoCaptureAnywhere(ZoomInRegex(), cmd, Digit);
    } else {
      ClassHasGroup(ZoomOutRegex(), Digit, 0);
      NoCaptureAnywhere(ZoomOutRegex(), cmd, Digit);
    }
  }

  /** A `Move`, `MoveToExtent` or `AddMarker` command without any number character
      yields no operation. */
  lemma {:induction false} NumbersRequired(cmd: string)
    requires HasKnownPrefix(cmd) && !StartsWith(cmd, "ZoomIn(") && !StartsWith(cmd, "ZoomOut(")
    requires !StartsWith(cmd, "AddWMS(")
    requires forall i :: 0 <= i < |cmd| ==> !InClass(cmd[i], NumberChar)
    ensures Parse(cmd).None?
  {
    if StartsWith(cmd, "Move(") {
      assert Parse(cmd) == Recognise(MovePrefix, cmd);
      NumbersRequiredBy(MovePrefix, cmd);
    } else if StartsWith(cmd, "MoveToExtent(") {
      assert Parse(cmd) == Recognise(MoveToExtentPrefix, cmd);
      NumbersRequiredBy(MoveToExtentPrefix, cmd);
    } else {
      assert Parse(cmd) == Recognise(AddMarkerPrefix, cmd);
      NumbersRequiredBy(AddMarkerPrefix, cmd);
    }
  }

  /** The branches whose expressions capture numbers find nothing without them. */
  lemma {:induction false} NumbersRequiredBy(f: Prefix, cmd: string)
    requires f == MovePrefix || f == MoveToExtentPrefix || f == AddMarkerPrefix
    requires forall i :: 0 <= i < |cmd| ==> !InClass(cmd[i], NumberChar)
    ensures Recognise(f, cmd).None?
  {
    match f
    case MovePrefix =>
      ClassHasGroup(MoveRegex(), NumberChar, 0);
      NoCaptureAnywhere(MoveRegex(), cmd, NumberChar);
    case MoveToExtentPrefix =>
      ClassHasGroup(MoveToExtentRegex(), NumberChar, 0);
      NoCaptureAnywhere(MoveToExtentRegex(), cmd, NumberChar);
    case AddMarkerPrefix =>
      ClassHasGroup(AddMarkerRegex(), NumberChar, 1);
      NoCaptureAnywhere(AddMarkerRegex(), cmd, NumberChar);
  }
}
