/** `constructPrompt` (app/src/App.tsx): the few-shot prompt sent to the hosted
    language model — a fixed header line, ten worked examples in a fixed order, and
    the user's query left open after a final `Function Call:`. */
module Prompt {
  import opened Text

  /** The header, without its line feed. Long texts in this module are written as
      short literals joined together: the verifier reads the characters of a short
      literal readily and those of a long one poorly. */
  const HeaderLine: string :=
    "You are an expert system that" + " translates user queries into" + " geospatial function calls." + " Here are some examples:"

  const Header: string := HeaderLine + "\n"

  /** The label of a query line, and the label (without its trailing space) that
      closes the prompt. */
  const UserLabel: string := "User: "
  const CallLabel: string := "Function Call:"

  /** A worked example: a query and the function call it should become. */
  datatype Example = Example(input: string, call: string)

  const ZoomOutExample := Example("I'd like to zoom out by 2" + " levels", "ZoomOut(2)")
  const WmsExample := Example("Show the seismic activity map" + " from WMS URL" + " https://seismic.activity/wms",
                              "AddWMS('https://seismic" + ".activity/wms')")
  const VectorExample := Example("Load the point vector using" + " point_zones_NY_kpn.kml!",
                                 "AddVector('point'," + " 'point_zones_NY_kpn.kml')")
  const MarkerExample := Example("Add marker 'University' at" + " location -73.1888, 122.889!",
                                 "AddMarker('University'," + " [-73.1888, 122.889])")
  const ExtentExample := Example("Set map bounds from 62.2585," + " -120.3652 to 63.8833," + " -3.3906.",
                                 "MoveToExtent(62.2585," + " -120.3652, 63.8833, -3.3906)")
  const LayerExample := Example("Switch to the OpenMallMap" + " layer for retail therapy.", "AddLayer('OpenMallMap')")
  const MoveExample := Example("Can we go to 40.5267," + " -79.4892?", "Move(40.5267, -79.4892)")
  const DrawExample := Example("Draw a Line on the map!", "Draw('Line')")
  const CartographyExample := Example("Set the background color to" + " ivory.",
                                      "Cartography('background'," + " 'ivory', null)")
  const ZoomInExample := Example("Zoom in by 7 levels to focus" + " on the details.", "ZoomIn(7)")

  /** The ten examples, in the order the prompt lists them. */
  function Examples(): (es: seq<Example>)
    ensures |es| == 10
  {
    [ZoomOutExample, WmsExample, VectorExample, MarkerExample, ExtentExample,
     LayerExample, MoveExample, DrawExample, CartographyExample, ZoomInExample]
  }

  /** The query line of an example and its answer line. */
  function QueryLine(e: Example): string { UserLabel + e.input }
  function CallLine(e: Example): string { CallLabel + (" " + e.call) }

  /** `User: <in>\nFunction Call: <out>\n`: one example as the loop appends it. */
  function Shot(e: Example): string
  {
    QueryLine(e) + "\n" + (CallLine(e) + "\n")
  }

  /** The examples rendered one after the other, as the loop accumulates them. */
  function Shots(es: seq<Example>): string
  {
    if es == [] then "" else Shots(es[..|es| - 1]) + Shot(es[|es| - 1])
  }

  /** `User: <query>\nFunction Call:`: the open question that closes the prompt. */
  function Question(q: string): string
  {
    (UserLabel + q) + "\n" + CallLabel
  }

  /** A prompt: a header, the examples one after the other, and the question. It
      opens with the header and ends with the marker the extractor looks for. */
  function PromptOf(header: string, es: seq<Example>, q: string): (r: string)
    ensures StartsWith(r, header)
    ensures EndsWith(r, CallLabel)
  {
    var before := header + (Shots(es) + ((UserLabel + q) + "\n"));
    assert header + (Shots(es) + Question(q)) == before + CallLabel;
    assert (before + CallLabel)[|before|..] == CallLabel;
    assert (before + CallLabel)[..|header|] == header;
    header + (Shots(es) + Question(q))
  }

  /** The prompt `constructPrompt` builds for a query: the header first, and
      `Function Call:` last. */
  function PromptText(q: string): (r: string)
    ensures StartsWith(r, Header)
    ensures EndsWith(r, CallLabel)
  {
    PromptOf(Header, Examples(), q)
  }

  /** `constructPrompt`: the header, then each example appended in turn, then the
      question. */
  method ConstructPrompt(userQuery: string) returns (prompt: string)
    ensures prompt == PromptText(userQuery)
  {
    var examples := Examples();
    prompt := Header;
    prompt := AppendShots(prompt, examples);
    prompt := prompt + Question(userQuery);
  }

  /** The loop of `constructPrompt`: appends each example, in order, to `prompt`. */
  method AppendShots(start: string, examples: seq<Example>) returns (prompt: string)
    ensures prompt == start + Shots(examples)
  {
    prompt := start;
    for i := 0 to |examples|
      invariant prompt == start + Shots(examples[..i])
    {
      assert examples[..i + 1][..i] == examples[..i];
      prompt := prompt + Shot(examples[i]);
    }
    assert examples[..|examples|] == examples;
  }

  /** The lines of the examples: a query line and an answer line for each. */
  function ExampleLines(es: seq<Example>): (ls: seq<string>)
    ensures |ls| == 2 * |es|
  {
    if es == [] then [] else ExampleLines(es[..|es| - 1]) + [QueryLine(es[|es| - 1]), CallLine(es[|es| - 1])]
  }

  /** Neither an example's query nor its call holds a line feed. */
  predicate OneLine(e: Example)
  {
    SingleLined(e.input) && SingleLined(e.call)
  }

  predicate OneLineEach(es: seq<Example>)
  {
    forall i :: 0 <= i < |es| ==> OneLine(es[i])
  }

  /** Two strings without line feeds make one. */
  lemma {:induction false} JoinedSingleLined(a: string, b: string)
    requires SingleLined(a) && SingleLined(b)
    ensures SingleLined(a + b)
  {
    forall i | 0 <= i < |a + b| ensures (a + b)[i] != '\n' {
      if i >= |a| { assert (a + b)[i] == b[i - |a|]; }
    }
  }

  /** Three strings without line feeds make one. */
  lemma {:induction false} JoinedSingleLined3(a: string, b: string, c: string)
    requires SingleLined(a) && SingleLined(b) && SingleLined(c)
    ensures SingleLined(a + b + c)
  {
    JoinedSingleLined(a, b);
    JoinedSingleLined(a + b, c);
  }

  /** The header is one line, and not a query line. */
  lemma {:induction false} HeaderOneLine()
    ensures SingleLined(HeaderLine) && HeaderLine[0] == 'Y'
  {
    var a, b, c, d := "You are an expert system that", " translates user queries into", " geospatial function calls.", " Here are some examples:";
    assert SingleLined(a) && SingleLined(b) && SingleLined(c) && SingleLined(d);
    JoinedSingleLined3(a, b, c);
    JoinedSingleLined(a + b + c, d);
    assert HeaderLine == a + b + c + d;
  }

  lemma {:induction false} ZoomOutExampleOneLine() ensures OneLine(ZoomOutExample)
  {
    var a, b := "I'd like to zoom out by 2", " levels";
    assert SingleLined(a) && SingleLined(b) && SingleLined("ZoomOut(2)");
    JoinedSingleLined(a, b);
  }

  lemma {:induction false} WmsExampleOneLine() ensures OneLine(WmsExample)
  {
    var a, b, c := "Show the seismic activity map", " from WMS URL", " https://seismic.activity/wms";
    assert SingleLined(a) && SingleLined(b) && SingleLined(c);
    JoinedSingleLined3(a, b, c);
    var d, e := "AddWMS('https://seismic", ".activity/wms')";
    assert SingleLined(d) && SingleLined(e);
    JoinedSingleLined(d, e);
  }

  lemma {:induction false} VectorExampleOneLine() ensures OneLine(VectorExample)
  {
    var a, b := "Load the point vector using", " point_zones_NY_kpn.kml!";
    assert SingleLined(a) && SingleLined(b);
    JoinedSingleLined(a, b);
    var c, d := "AddVector('point',", " 'point_zones_NY_kpn.kml')";
    assert SingleLined(c) && SingleLined(d);
    JoinedSingleLined(c, d);
  }

  lemma {:induction false} MarkerExampleOneLine() ensures OneLine(MarkerExample)
  {
    var a, b := "Add marker 'University' at", " location -73.1888, 122.889!";
    assert SingleLined(a) && SingleLined(b);
    JoinedSingleLined(a, b);
    var c, d := "AddMarker('University',", " [-73.1888, 122.889])";
    assert SingleLined(c) && SingleLined(d);
    JoinedSingleLined(c, d);
  }

  lemma {:induction false} ExtentExampleOneLine() ensures OneLine(ExtentExample)
  {
    var a, b, c := "Set map bounds from 62.2585,", " -120.3652 to 63.8833,", " -3.3906.";
    assert SingleLined(a) && SingleLined(b) && SingleLined(c);
    JoinedSingleLined3(a, b, c);
    var d, e := "MoveToExtent(62.2585,", " -120.3652, 63.8833, -3.3906)";
    assert SingleLined(d) && SingleLined(e);
    JoinedSingleLined(d, e);
  }

  lemma {:induction false} LayerExampleOneLine() ensures OneLine(LayerExample)
  {
    var a, b := "Switch to the OpenMallMap", " layer for retail therapy.";
    assert SingleLined(a) && SingleLined(b) && SingleLined("AddLayer('OpenMallMap')");
    JoinedSingleLined(a, b);
  }

  lemma {:induction false} MoveExampleOneLine() ensures OneLine(MoveExample)
  {
    var a, b := "Can we go to 40.5267,", " -79.4892?";
    assert SingleLined(a) && SingleLined(b) && SingleLined("Move(40.5267, -79.4892)");
    JoinedSingleLined(a, b);
  }

  lemma {:induction false} DrawExampleOneLine() ensures OneLine(DrawExample)
  {
    assert SingleLined("Draw a Line on the map!") && SingleLined("Draw('Line')");
  }

  lemma {:induction false} CartographyExampleOneLine() ensures OneLine(CartographyExample)
  {
    var a, b := "Set the background color to", " ivory.";
    assert SingleLined(a) && SingleLined(b);
    JoinedSingleLined(a, b);
    var c, d := "Cartography('background',", " 'ivory', null)";
    assert SingleLined(c) && SingleLined(d);
    JoinedSingleLined(c, d);
  }

  lemma {:induction false} ZoomInExampleOneLine() ensures OneLine(ZoomInExample)
  {
    var a, b := "Zoom in by 7 levels to focus", " on the details.";
    assert SingleLined(a) && SingleLined(b) && SingleLined("ZoomIn(7)");
    JoinedSingleLined(a, b);
  }

  /** None of the ten examples spans more than one line. */
  lemma {:induction false} ExamplesOneLineEach()
    ensures OneLineEach(Examples())
  {
    ZoomOutExampleOneLine();
    WmsExampleOneLine();
    VectorExampleOneLine();
    MarkerExampleOneLine();
    ExtentExampleOneLine();
    LayerExampleOneLine();
    MoveExampleOneLine();
    DrawExampleOneLine();
    CartographyExampleOneLine();
    ZoomInExampleOneLine();
  }

  /** One example, followed by anything, splits into its two lines and the lines of
      what follows. */
  lemma {:induction false} ShotLines(e: Example, rest: string)
    requires OneLine(e)
    ensures Lines(Shot(e) + rest) == [QueryLine(e), CallLine(e)] + Lines(rest)
  {
    var a, b := QueryLine(e), CallLine(e);
    ExampleLinesOneLined(e);
    calc {
      Lines(Shot(e) + rest);
      { assert Shot(e) + rest == a + "\n" + (b + "\n" + rest); }
      Lines(a + "\n" + (b + "\n" + rest));
      { LinesAfterBreak(a, b + "\n" + rest); }
      [a] + Lines(b + "\n" + rest);
      { LinesAfterBreak(b, rest); }
      [a] + ([b] + Lines(rest));
    }
  }

  /** The two lines of a one-line example hold no line feed. */
  lemma {:induction false} ExampleLinesOneLined(e: Example)
    requires OneLine(e)
    ensures SingleLined(QueryLine(e)) && SingleLined(CallLine(e))
  {
    assert SingleLined(UserLabel) && SingleLined(CallLabel) && SingleLined(" ");
    JoinedSingleLined(UserLabel, e.input);
    JoinedSingleLined(" ", e.call);
    JoinedSingleLined(CallLabel, " " + e.call);
  }

  /** The rendered examples, followed by anything, split into the examples' lines and
      the lines of what follows. */
  lemma {:induction false} ShotsLines(es: seq<Example>, rest: string)
    requires OneLineEach(es)
    ensures Lines(Shots(es) + rest) == ExampleLines(es) + Lines(rest)
    decreases |es|
  {
    if es == [] {
      assert Shots(es) + rest == rest;
    } else {
      var init, e := es[..|es| - 1], es[|es| - 1];
      assert OneLineEach(init) by {
        forall i | 0 <= i < |init| ensures OneLine(init[i]) {
          assert init[i] == es[i];
        }
      }
      calc {
        Lines(Shots(es) + rest);
        { assert Shots(es) + rest == Shots(init) + (Shot(e) + rest); }
        Lines(Shots(init) + (Shot(e) + rest));
        { ShotsLines(init, Shot(e) + rest); }
        ExampleLines(init) + Lines(Shot(e) + rest);
        { ShotLines(e, rest); }
        ExampleLines(init) + ([QueryLine(e), CallLine(e)] + Lines(rest));
        (ExampleLines(init) + [QueryLine(e), CallLine(e)]) + Lines(rest);
        ExampleLines(es) + Lines(rest);
      }
    }
  }

  /** Lines of a string behind a one-line prefix: the prefix joins the first line. */
  lemma {:induction false} LinesBehind(w: string, q: string)
    requires SingleLined(w)
    ensures Lines(w + q) == [w + FirstLine(q)] + Lines(q)[1..]
  {
    var k := NewlineIndex(q);
    if k == |q| {
      assert q[..k] == q;
      JoinedSingleLined(w, q);
      SingleLine(w + q);
      SingleLine(q);
    } else {
      var a, b := q[..k], q[k + 1..];
      assert q == a + "\n" + b;
      assert w + q == (w + a) + "\n" + b;
      JoinedSingleLined(w, a);
      LinesAfterBreak(w + a, b);
      LinesAfterBreak(a, b);
    }
  }

  /** The lines of the question: the query's first line after `User: `, any further
      lines of the query, and a last line `Function Call:`. */
  lemma {:induction false} QuestionLines(q: string)
    ensures Lines(Question(q)) == [UserLabel + FirstLine(q)] + (Lines(q)[1..] + [CallLabel])
  {
    assert SingleLined(UserLabel) && SingleLined(CallLabel);
    calc {
      Lines(Question(q));
      { LinesConcat(UserLabel + q, CallLabel); }
      Lines(UserLabel + q) + Lines(CallLabel);
      { LinesBehind(UserLabel, q); SingleLine(CallLabel); }
      ([UserLabel + FirstLine(q)] + Lines(q)[1..]) + [CallLabel];
    }
  }

  /** The lines of a prompt with a one-line header and one-line examples: the header,
      the examples' query and answer lines in order, then the question's lines. */
  lemma {:induction false} PromptOfLines(headerLine: string, es: seq<Example>, q: string)
    requires SingleLined(headerLine) && OneLineEach(es)
    ensures Lines(PromptOf(headerLine + "\n", es, q))
      == [headerLine] + (ExampleLines(es) + ([UserLabel + FirstLine(q)] + (Lines(q)[1..] + [CallLabel])))
  {
    var tail := [UserLabel + FirstLine(q)] + (Lines(q)[1..] + [CallLabel]);
    calc {
      Lines(PromptOf(headerLine + "\n", es, q));
      { assert PromptOf(headerLine + "\n", es, q) == headerLine + "\n" + (Shots(es) + Question(q)); }
      Lines(headerLine + "\n" + (Shots(es) + Question(q)));
      { LinesAfterBreak(headerLine, Shots(es) + Question(q)); }
      [headerLine] + Lines(Shots(es) + Question(q));
      { ShotsLines(es, Question(q)); QuestionLines(q); }
      [headerLine] + (ExampleLines(es) + tail);
    }
  }

  /** The lines of `constructPrompt`'s prompt. */
  lemma {:induction false} PromptLines(q: string)
    ensures Lines(PromptText(q))
      == [HeaderLine] + (ExampleLines(Examples()) + ([UserLabel + FirstLine(q)] + (Lines(q)[1..] + [CallLabel])))
  {
    HeaderOneLine();
    ExamplesOneLineEach();
    PromptOfLines(HeaderLine, Examples(), q);
  }

  /** Number of lines that start with `User: `. */
  function UserLines(ls: seq<string>): nat
  {
    if ls == [] then 0 else UserLines(ls[..|ls| - 1]) + (if StartsWith(ls[|ls| - 1], UserLabel) then 1 else 0)
  }

  lemma {:induction false} UserLinesConcat(a: seq<string>, b: seq<string>)
    ensures UserLines(a + b) == UserLines(a) + UserLines(b)
    decreases |b|
  {
    if b != [] {
      assert (a + b)[..|a + b| - 1] == a + b[..|b| - 1];
      UserLinesConcat(a, b[..|b| - 1]);
    } else {
      assert a + b == a;
    }
  }

  /** One line, counted. */
  lemma {:induction false} UserLinesOne(l: string)
    ensures UserLines([l]) == if StartsWith(l, UserLabel) then 1 else 0
  {
    assert [l][..0] == [];
  }

  /** Each example contributes exactly one `User: ` line. */
  lemma {:induction false} ExampleUserLines(es: seq<Example>)
    ensures UserLines(ExampleLines(es)) == |es|
    decreases |es|
  {
    if es != [] {
      var e := es[|es| - 1];
      ExampleUserLines(es[..|es| - 1]);
      UserLinesConcat(ExampleLines(es[..|es| - 1]), [QueryLine(e), CallLine(e)]);
      UserLinesConcat([QueryLine(e)], [CallLine(e)]);
      UserLinesOne(QueryLine(e));
      UserLinesOne(CallLine(e));
      Leading(UserLabel, e.input, "");
      assert QueryLine(e) == (UserLabel + e.input) + "";
      assert CallLine(e)[0] == 'F';
    }
  }

  /** A prompt whose one-line header is not a query line has a `User: ` line per
      example and one for the query, plus any that the query's own further lines
      start. */
  lemma {:induction false} PromptOfUserLines(headerLine: string, es: seq<Example>, q: string)
    requires SingleLined(headerLine) && OneLineEach(es) && |headerLine| > 0 && headerLine[0] != 'U'
    ensures UserLines(Lines(PromptOf(headerLine + "\n", es, q))) == |es| + 1 + UserLines(Lines(q)[1..])
  {
    var a, b, c, d, e := [headerLine], ExampleLines(es), [UserLabel + FirstLine(q)], Lines(q)[1..], [CallLabel];
    calc {
      UserLines(Lines(PromptOf(headerLine + "\n", es, q)));
      { PromptOfLines(headerLine, es, q); }
      UserLines(a + (b + (c + (d + e))));
      { UserLinesConcat(a, b + (c + (d + e))); UserLinesConcat(b, c + (d + e)); }
      UserLines(a) + UserLines(b) + UserLines(c + (d + e));
      { UserLinesOne(headerLine); ExampleUserLines(es); QuestionUserLines(q); }
      |es| + 1 + UserLines(Lines(q)[1..]);
    }
  }

  /** The question has one `User: ` line of its own, plus any that the query's further
      lines start. */
  lemma {:induction false} QuestionUserLines(q: string)
    ensures UserLines([UserLabel + FirstLine(q)] + (Lines(q)[1..] + [CallLabel])) == 1 + UserLines(Lines(q)[1..])
  {
    var c, d, e := [UserLabel + FirstLine(q)], Lines(q)[1..], [CallLabel];
    UserLinesConcat(c, d + e);
    UserLinesConcat(d, e);
    UserLinesOne(CallLabel);
    UserLinesOne(UserLabel + FirstLine(q));
    assert CallLabel[0] == 'F';
    Leading(UserLabel, FirstLine(q), "");
    assert UserLabel + FirstLine(q) == (UserLabel + FirstLine(q)) + "";
  }

  /** `constructPrompt`'s prompt has eleven `User: ` lines, ten examples' and the
      query's, plus any that the query's own further lines start. */
  lemma {:induction false} UserLineCount(q: string)
    ensures UserLines(Lines(PromptText(q))) == 11 + UserLines(Lines(q)[1..])
  {
    HeaderOneLine();
    ExamplesOneLineEach();
    PromptOfUserLines(HeaderLine, Examples(), q);
  }

  /** For a one-line query, exactly eleven lines start with `User: `. */
  lemma {:induction false} ElevenUserLines(q: string)
    requires SingleLined(q)
    ensures UserLines(Lines(PromptText(q))) == 11
  {
    UserLineCount(q);
    SingleLine(q);
    assert Lines(q)[1..] == [];
  }
}
