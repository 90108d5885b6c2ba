# awebgis command pipeline, in Dafny

awebgis is a web GIS page. A user types a request in plain language ("zoom in by 3
levels"), one of three strategies turns it into a function-call string
(`ZoomIn(3)`), and the page runs that string on an OpenLayers map. This project
models that text pipeline, all of it in `app/src/App.tsx`, and proves properties of
it:

- `wrappers.dfy` (`Wrappers`): the `Option` type.
- `text.dfy` (`Text`): the JavaScript string operations the pipeline relies on. These
  are `trim` over ECMAScript white space, `startsWith`, `split("\n")` and the search
  for a literal marker.
- `pattern.dfy` (`Pattern`): the dispatcher's regular expressions. Each is a chain of
  literals, one-class capturing groups and `\s*` runs. A greedy matcher stands for
  `String.prototype.match`. On the well-formed chains the dispatcher uses it is
  proved to agree with the backtracking reading of the expression: same captures,
  same leftmost index. `Render` is the canonical text of an expression with given
  captures.
- `command.dfy` (`Command`): the function-call language.
  - The six operations, and the prefix test the dispatcher applies first
    (`Selected`).
  - The expression of each branch (`Recognise`, `Parse`).
  - The canonical form in which the prompt examples and the dialog templates write
    calls (`Format`).
  - The grammar round trip `Parse(Format(op) + rest) == Some(op)`.
- `olmap.dfy` (`OlMap`): the map.
  - `MapState` holds the view (centre, optional zoom, last animation duration) and
    the layer list. `Apply` is the state a recognised operation leads to.
  - The class `GeoMap` has `executeFunctionOnMap` (`Execute` and its six branch
    methods), `addMarkerToMap` and `addWMSLayerToMap`. Each updates its fields in
    place and is proved against `Apply`.
- `prompt.dfy` (`Prompt`): `constructPrompt`, as a method with the loop that appends
  the ten examples. It is proved equal to `PromptText`. Proved about the text:
  - its line structure (header, twenty example lines, the question);
  - it ends with `Function Call:`;
  - it has eleven `User: ` lines.
- `extraction.dfy` (`Extraction`): `extractFunctionCall`. Proved about it:
  - the result is one line and holds no marker;
  - it is idempotent;
  - how it behaves on a completion that echoes the prompt.
- `slotfilling.dfy` (`SlotFilling`): the `switch (prediction)` of the classifier
  mode.
  - It is a function of the prediction and the user's replies to the dialogs.
  - Replies that fit the dispatcher's expressions give a command the dispatcher
    recognises as the operation they describe.
- `submission.dfy` (`Submission`): `handleSubmit`.
  - `Respond` holds the guards and the three mode branches. The services (the
    hosted language model, the ONNX classifier, the T5 model and the dialogs) are
    function-valued parameters.
  - The class `App` holds the map and the output text. `HandleSubmit` is proved to
    show `Respond`'s output and to run its command on the map.

Numbers stay the token strings the expressions capture. The projection `fromLonLat`
and the view `view.fit` settles on are parameters, given as a `ViewLibrary`.

The long English literals of the prompt are written as several short literals joined
with `+`. The text is the same, character for character.

A zoom command whose argument is not a digit run is not ignored. The code takes
`m?.[1] || "0"` (app/src/App.tsx:80 and :90), so such a command zooms by 0 levels and
still starts a 250 ms animation. Such a command is easily taken for a no-op, but the
model follows the code (`Command.ZoomWithoutDigits`, `OlMap.ZoomWithoutDigitsStays`).

A `MoveToExtent` command whose second corner lies left of or below its first does not
move the view. OpenLayers' `view.fit` throws on such an empty box, and the `catch` of
`executeFunctionOnMap` (app/src/App.tsx:135-137) only logs the error
(`OlMap.ReversedExtentIgnored`, `OlMap.GeoMap.FitToExtent`).

## Model

| member | source | states |
|---|---|---|
| Text.Trim | app/src/App.tsx:183-186 | `trim` leaves no white space at either end and never lengthens the string |
| Text.TrimBounds | app/src/App.tsx:183-186 | `trim` removes a white-space prefix and a white-space suffix and nothing else: the result is the slice between them |
| Text.TrimOfTrimmed | app/src/App.tsx:183-186 | a string without white space at its ends is left unchanged by `trim` |
| Text.TrimIdempotent | app/src/App.tsx:185-186 | trimming twice is trimming once |
| Text.TrimEmpty | app/src/App.tsx:295-297 | `trim` gives the empty string exactly when the input is all white space: the `!input` test refuses exactly the blank queries |
| Text.LastAtOrBefore | app/src/App.tsx:182-184 | the last occurrence of the marker at or before an index, or none at all up to it |
| Text.LastOccurrence | app/src/App.tsx:182-184 | the last element of `matchAll`: an occurrence with none after it, or none when the marker does not occur |
| Text.MatchStarts | app/src/App.tsx:182 | `[...s.matchAll(re)]` for a literal expression: every match listed is an occurrence, at or after the scan's start |
| Text.NoMatchStart | app/src/App.tsx:182 | the scan lists no match exactly when the literal does not occur from the scan's start on |
| Text.LastMatchStart | app/src/App.tsx:182-184 | an occurrence after the last match the scan lists starts inside that match, so for a literal that cannot overlap itself the last match has no occurrence after it |
| Text.OccursInSlice | app/src/App.tsx:185-186 | an occurrence inside a slice is an occurrence in the whole string |
| Text.AbsentFromSlice | app/src/App.tsx:183 | a string without the marker has no slice with the marker |
| Text.NewlineIndex | app/src/App.tsx:186 | the index of the first line feed, or the length when there is none |
| Text.FirstLine | app/src/App.tsx:186 | `split("\n")[0]`: a prefix without line feed, followed by a line feed unless it is the whole string |
| Text.Lines | app/src/App.tsx:186 | `split("\n")`: never empty, first element the first line, no element holding a line feed |
| Text.LinesConcat | app/src/App.tsx:186 | the pieces of `a + "\n" + b` are those of `a` followed by those of `b` |
| Text.SingleLine | app/src/App.tsx:186 | a string without line feed splits into itself alone |
| Pattern.Span | app/src/App.tsx:80-130 | a greedy run of one class, followed by a character outside it |
| Pattern.SpanExact | app/src/App.tsx:80-130 | a maximal run of a class is what `Span` measures |
| Pattern.MatchPrefix | app/src/App.tsx:80-130 | an anchored match gives one non-empty capture per group, each inside its group's class |
| Pattern.SearchFrom | app/src/App.tsx:80-130 | the first match at or after an index, with captures that fit the groups |
| Pattern.SearchFromMatches | app/src/App.tsx:80-130 | what the search finds is an anchored match at the index it reports |
| Pattern.SearchFromLeftmost | app/src/App.tsx:80-130 | no match starts before the one the search reports: `match` takes the leftmost |
| Pattern.SearchFromNothing | app/src/App.tsx:80-130 | a failed search means no index matches |
| Pattern.Search | app/src/App.tsx:80-130 | `s.match(p)`: captures that fit the groups' classes |
| Pattern.SearchNone | app/src/App.tsx:80-130 | `match` returns `null` exactly when the expression matches at no index |
| Pattern.GreedyIsBacktracking | app/src/App.tsx:80-130 | every greedy match is a match under the backtracking reading of the expression, with the same captures |
| Pattern.BacktrackingIsGreedy | app/src/App.tsx:80-130 | on a well-formed chain every backtracking match has the greedy matcher's captures, so the captures are unique |
| Pattern.SearchIsBacktracking | app/src/App.tsx:80-130 | on a well-formed chain `Search` fails exactly when no index admits a backtracking match, and otherwise returns a match at the leftmost index that admits one, as `match` does |
| Pattern.MatchRendered | app/src/App.tsx:80-130 | on the canonical text of a well-formed expression, whatever follows it, the match recovers exactly the captures it was written with |
| Pattern.SearchRendered | app/src/App.tsx:80-130 | searching canonical text finds the captures it was written with |
| Pattern.NumberListWellFormed | app/src/App.tsx:100-121 | a number list closed by a literal that cannot continue a number is well formed |
| Pattern.NumberListClasses | app/src/App.tsx:100-121 | a list of n numbers has n number groups |
| Pattern.NumberListRender | app/src/App.tsx:100-121 | the canonical text of a number list separates the numbers with `", "` |
| Pattern.NoCapture | app/src/App.tsx:80-130 | an expression with a group of some class cannot match text without a character of that class |
| Command.ZoomInRegex | app/src/App.tsx:80 | `/ZoomIn\((\d+)\)/`: well formed, one digit group |
| Command.ZoomOutRegex | app/src/App.tsx:90 | `/ZoomOut\((\d+)\)/`: well formed, one digit group |
| Command.MoveRegex | app/src/App.tsx:100 | the `Move` expression: well formed, two number groups |
| Command.MoveToExtentRegex | app/src/App.tsx:111-113 | the `MoveToExtent` expression: well formed, four number groups |
| Command.AddMarkerRegex | app/src/App.tsx:120-122 | the `AddMarker` expression: well formed, a quote-free group then two number groups |
| Command.AddWmsRegex | app/src/App.tsx:130 | the `AddWMS` expression: well formed, one quote-free group |
| Command.Selected | app/src/App.tsx:79-134 | the `startsWith` chain: the branch taken is one whose prefix starts the string; no branch is taken exactly when none of the six prefixes starts it |
| Command.LevelsOrZero | app/src/App.tsx:80 | `m?.[1] \|\| "0"`: `"0"` without a match, and a digit run whenever the capture is one, so `parseInt` gives a number and `!isNaN(n)` always holds |
| Command.Recognise | app/src/App.tsx:80-130 | the zoom branches always yield an operation (`\|\| "0"`) |
| Command.Parse | app/src/App.tsx:77-138 | what is recognised belongs to the branch the prefix chain selects; a string with none of the prefixes is recognised as nothing |
| Command.Format | app/src/App.tsx:141-170 | the canonical string of an operation starts with its function's prefix |
| Command.RegexOf | app/src/App.tsx:79-134 | each operation's expression is well formed, with one group per argument of the argument's class |
| Command.Classes | app/src/App.tsx:79-134 | one class per argument |
| Command.ValidArgumentsFit | app/src/App.tsx:79-134 | capturable arguments fit the operation's groups |
| Command.ParseShape | app/src/App.tsx:77-138 | a recognised command starts with its function's prefix and has capturable arguments; a string with no known prefix is recognised as nothing; a zoom prefix is always recognised |
| Command.RecogniseShape | app/src/App.tsx:79-134 | a branch yields only its own function, with capturable arguments, and a zoom branch always yields one |
| Command.FormatIsRender | app/src/App.tsx:141-170 | the canonical string of an operation is its expression's text with the arguments as captures and one space for each `\s*` |
| Command.MoveRender | app/src/App.tsx:100 | the canonical `Move` string is its expression's text |
| Command.MoveToExtentRender | app/src/App.tsx:111-113 | the canonical `MoveToExtent` string is its expression's text |
| Command.AddMarkerRender | app/src/App.tsx:120-122 | the canonical `AddMarker` string is its expression's text |
| Command.SelectedFormat | app/src/App.tsx:79-134 | the canonical string of an operation, whatever follows it, takes that operation's branch |
| Command.PrefixesExclusive | app/src/App.tsx:79-134 | no two prefixes start the same string, so the test order never sends a command to another function's branch |
| Command.RecogniseFormat | app/src/App.tsx:79-134 | each branch recovers the operation from its canonical string |
| Command.RecogniseMove | app/src/App.tsx:99-101 | the `Move` branch recovers both coordinates |
| Command.SearchMove | app/src/App.tsx:100 | the `Move` expression captures both coordinates of its canonical text |
| Command.RecogniseMoveToExtent | app/src/App.tsx:110-114 | the `MoveToExtent` branch recovers all four numbers in order |
| Command.SearchMoveToExtent | app/src/App.tsx:111-113 | the `MoveToExtent` expression captures the four numbers of its canonical text |
| Command.RecogniseAddMarker | app/src/App.tsx:119-123 | the `AddMarker` branch recovers the name and both coordinates |
| Command.SearchAddMarker | app/src/App.tsx:120-122 | the `AddMarker` expression captures the name and both coordinates of its canonical text |
| Command.ParseFormat | app/src/App.tsx:77-138 | round trip: the dispatcher recognises the canonical string of any operation with capturable arguments, whatever follows it, as that operation |
| Command.NoCaptureAnywhere | app/src/App.tsx:80-130 | an expression needing a class finds no match in text without it |
| Command.ZoomWithoutDigits | app/src/App.tsx:79-98 | a zoom command without any digit is recognised as a zoom by `"0"`, not ignored |
| Command.NumbersRequired | app/src/App.tsx:99-128 | a `Move`, `MoveToExtent` or `AddMarker` command without number characters is recognised as nothing |
| Command.NumbersRequiredBy | app/src/App.tsx:99-128 | those branches find nothing without number characters |
| OlMap.Initial | app/src/App.tsx:209-224 | the map starts with OpenStreetMap tiles under an empty vector layer, at zoom 2 |
| OlMap.DigitsValue | app/src/App.tsx:80 | `parseInt` of a digit run of length k is below 10 to the k |
| OlMap.Decimal | app/src/App.tsx:80 | the decimal writing of a number is a digit run, one the zoom expression captures |
| OlMap.DigitsValueDecimal | app/src/App.tsx:80 | `parseInt` reads back exactly the number written in decimal |
| OlMap.WithMarker | app/src/App.tsx:55-62 | adding a marker keeps the number of layers and leaves every non-vector layer as it was |
| OlMap.Apply | app/src/App.tsx:77-138 | no operation changes nothing; every operation changes either the view or the layers, never both; no layer is removed and at most one is added |
| OlMap.Corners | app/src/App.tsx:115-117 | the box `[c1[0], c1[1], c2[0], c2[1]]` is empty, for OpenLayers, exactly when the second corner lies left of or below the first |
| OlMap.FirstVector | app/src/App.tsx:55-59 | `find`: the first vector layer, with none before it, or none at all |
| OlMap.MarkerAppended | app/src/App.tsx:55-62 | adding a marker changes only the first vector layer, by one feature at the end, and with no vector layer changes nothing |
| OlMap.MarkerKeepsTarget | app/src/App.tsx:55-62 | after a marker is added the same layer receives the next one |
| OlMap.MarkersAccumulate | app/src/App.tsx:32-63 | the same marker added twice appears twice: no deduplication |
| OlMap.WmsKeepsMarkerTarget | app/src/App.tsx:65-75 | a WMS layer added at the end does not change which layer receives markers |
| OlMap.UnknownCommandIgnored | app/src/App.tsx:79-134 | a command with none of the six prefixes changes nothing |
| OlMap.UnmatchedCommandIgnored | app/src/App.tsx:99-133 | a non-zoom command whose expression finds no match changes nothing |
| OlMap.MalformedCommandIgnored | app/src/App.tsx:99-128 | a `Move`, `MoveToExtent` or `AddMarker` command without number characters changes nothing |
| OlMap.ZoomInBy | app/src/App.tsx:79-88 | `ZoomIn(n)` sets the zoom to the current zoom (0 if undefined) plus n, over 250 ms, and changes nothing else |
| OlMap.ZoomOutBy | app/src/App.tsx:89-98 | `ZoomOut(n)` sets the zoom to the current zoom minus n, over 250 ms, and changes nothing else |
| OlMap.ZoomInByDecimal | app/src/App.tsx:79-88 | `ZoomIn` with the decimal writing of n raises the zoom by exactly n |
| OlMap.ZoomWithoutDigitsStays | app/src/App.tsx:79-98 | a zoom command without digits keeps the zoom where it is, yet animates |
| OlMap.MoveCentres | app/src/App.tsx:99-109 | `Move(a, b)` centres on the projection of longitude a, latitude b, over 500 ms, and changes nothing else |
| OlMap.MoveToExtentFits | app/src/App.tsx:110-118 | `MoveToExtent(a, b, c, d)` whose box is not empty fits the box with corners (longitude b, latitude a) and (longitude d, latitude c), over 1000 ms, and changes nothing else |
| OlMap.ReversedExtentIgnored | app/src/App.tsx:110-137 | a `MoveToExtent` whose second corner projects left of or below its first makes `fit` throw; the `catch` only logs, and nothing changes |
| OlMap.AddMarkerAppends | app/src/App.tsx:119-128 | `AddMarker('name', [x, y])` adds one feature named `name` at longitude x, latitude y to the first vector layer, and changes nothing else |
| OlMap.AddWmsAppends | app/src/App.tsx:129-133 | `AddWMS('url')` appends one tile layer for `url` with empty `LAYERS`, `TILED` set, server type `geoserver` and anonymous cross-origin, after the existing layers, and changes nothing else |
| OlMap.GeoMap.constructor | app/src/App.tsx:209-224 | the new map is in the initial state |
| OlMap.GeoMap.AddMarkerToMap | app/src/App.tsx:32-63 | the fields after `addMarkerToMap` are the state `Apply` gives for the marker |
| OlMap.GeoMap.CenterOn | app/src/App.tsx:102-108 | the fields after the `Move` animation are the state `Apply` gives |
| OlMap.GeoMap.FitToExtent | app/src/App.tsx:115-117 | `view.fit` throws exactly when the box is empty, leaving the fields as they were; otherwise the fields are the fitted state `Apply` gives |
| OlMap.GeoMap.AddWmsLayerToMap | app/src/App.tsx:65-75 | the fields after `addWMSLayerToMap` are the state `Apply` gives |
| OlMap.GeoMap.Execute | app/src/App.tsx:77-138 | the fields after `executeFunctionOnMap` are the state `Apply` gives for the operation `Parse` recognises, including the unchanged state the `catch` leaves after `fit` refuses an empty box |
| OlMap.GeoMap.RunZoomIn | app/src/App.tsx:79-88 | the `ZoomIn(` branch leads to the state of what it recognises |
| OlMap.GeoMap.RunZoomOut | app/src/App.tsx:89-98 | the `ZoomOut(` branch leads to the state of what it recognises |
| OlMap.GeoMap.RunMove | app/src/App.tsx:99-109 | the `Move(` branch leads to the state of what it recognises, or none |
| OlMap.GeoMap.RunMoveToExtent | app/src/App.tsx:110-118 | the `MoveToExtent(` branch leads to the state of what it recognises: the fitted view, or no change for an empty box or no match |
| OlMap.GeoMap.RunAddMarker | app/src/App.tsx:119-128 | the `AddMarker(` branch leads to the state of what it recognises, or none |
| OlMap.GeoMap.RunAddWms | app/src/App.tsx:129-133 | the `AddWMS(` branch leads to the state of what it recognises, or none |
| Prompt.Examples | app/src/App.tsx:141-170 | ten examples |
| Prompt.ConstructPrompt | app/src/App.tsx:140-179 | the prompt built is the header, the examples in order, then the question |
| Prompt.AppendShots | app/src/App.tsx:174-176 | the loop appends each example, in order, as `User: <in>\nFunction Call: <out>\n` |
| Prompt.PromptOf | app/src/App.tsx:172-178 | a prompt starts with its header and ends with `Function Call:` |
| Prompt.PromptText | app/src/App.tsx:140-179 | `constructPrompt`'s prompt starts with the header line and ends with `Function Call:`, the marker the extractor looks for |
| Prompt.ExampleLines | app/src/App.tsx:174-176 | two lines per example |
| Prompt.HeaderOneLine | app/src/App.tsx:172-173 | the header is one line and does not start with `U` |
| Prompt.ZoomOutExampleOneLine | app/src/App.tsx:142 | the first example is one line each way |
| Prompt.WmsExampleOneLine | app/src/App.tsx:143-146 | the second example is one line each way |
| Prompt.VectorExampleOneLine | app/src/App.tsx:147-150 | the third example is one line each way |
| Prompt.MarkerExampleOneLine | app/src/App.tsx:151-154 | the fourth example is one line each way |
| Prompt.ExtentExampleOneLine | app/src/App.tsx:155-158 | the fifth example is one line each way |
| Prompt.LayerExampleOneLine | app/src/App.tsx:159-162 | the sixth example is one line each way |
| Prompt.MoveExampleOneLine | app/src/App.tsx:163 | the seventh example is one line each way |
| Prompt.DrawExampleOneLine | app/src/App.tsx:164 | the eighth example is one line each way |
| Prompt.CartographyExampleOneLine | app/src/App.tsx:165-168 | the ninth example is one line each way |
| Prompt.ZoomInExampleOneLine | app/src/App.tsx:169 | the tenth example is one line each way |
| Prompt.ExamplesOneLineEach | app/src/App.tsx:141-170 | no example spans two lines |
| Prompt.ShotLines | app/src/App.tsx:175 | one rendered example is exactly its query line and its call line |
| Prompt.ShotsLines | app/src/App.tsx:174-176 | the rendered examples are exactly their lines, in order |
| Prompt.QuestionLines | app/src/App.tsx:177 | the question is `User: ` with the query's first line, the query's further lines, then `Function Call:` |
| Prompt.PromptOfLines | app/src/App.tsx:172-178 | a prompt's lines are the header, the example lines in order, then the question's |
| Prompt.PromptLines | app/src/App.tsx:140-179 | `constructPrompt`'s lines: the header line, the twenty example lines in declared order, `User: ` with the query, then `Function Call:` |
| Prompt.ExampleUserLines | app/src/App.tsx:174-176 | each example contributes exactly one `User: ` line |
| Prompt.PromptOfUserLines | app/src/App.tsx:172-178 | one `User: ` line per example, one for the query, plus any the query's own further lines start |
| Prompt.QuestionUserLines | app/src/App.tsx:177 | the question has one `User: ` line plus any the query's further lines start |
| Prompt.UserLineCount | app/src/App.tsx:140-179 | `constructPrompt`'s prompt has eleven `User: ` lines plus any that the query's own further lines start |
| Prompt.ElevenUserLines | app/src/App.tsx:140-179 | for a query without a line feed, exactly eleven lines start with `User: ` |
| Extraction.ExtractFunctionCall | app/src/App.tsx:181-188 | the result is trimmed and no longer than the completion |
| Extraction.MarkerDoesNotOverlap | app/src/App.tsx:182-184 | two occurrences of `Function Call:` start at least the marker's length apart |
| Extraction.LastMatchIsLastOccurrence | app/src/App.tsx:182-184 | the last of the matches `matchAll` lists for `/Function Call:/g` is the last occurrence of the marker, and the list is empty exactly when there is none |
| Extraction.WithoutMarker | app/src/App.tsx:183 | without the marker the whole completion, trimmed, is returned |
| Extraction.CutIsSlice | app/src/App.tsx:185-186 | the line cut after the marker is a slice of the completion after it |
| Extraction.CutOneLine | app/src/App.tsx:185-186 | the cut holds no line feed |
| Extraction.CutAfterLast | app/src/App.tsx:184-186 | the cut after the last marker holds no marker |
| Extraction.ExtractedLine | app/src/App.tsx:184-187 | with a marker present, the result is one line and holds no marker |
| Extraction.NoMarkerLeft | app/src/App.tsx:181-188 | the result never holds the marker |
| Extraction.ExtractIdempotent | app/src/App.tsx:181-188 | extracting twice is extracting once |
| Extraction.ExtractAfterEcho | app/src/App.tsx:181-188 | after text ending in the marker, a continuation without one yields its own first line, trimmed |
| Extraction.ExtractAfterPrompt | app/src/App.tsx:172-188 | a completion echoing `constructPrompt`'s prompt yields the first line of what the model added |
| SlotFilling.Dialogs | app/src/App.tsx:332-360 | the five operation names with a case, and only they, open dialogs |
| SlotFilling.Described | app/src/App.tsx:332-360 | an operation is described only for a name with a case |
| SlotFilling.Assemble | app/src/App.tsx:332-360 | a command is built only for a name with a case, and it starts with that name and `(`, so it selects the branch the name calls |
| SlotFilling.NullUnlessAllGiven | app/src/App.tsx:332-360 | the switch yields a command exactly when the name has a case and every dialog it opens got a non-empty reply, so `MoveToExtent` and unknown names yield `null` |
| SlotFilling.AssembleFormats | app/src/App.tsx:332-360 | every template writes the described operation in canonical form |
| SlotFilling.AssembledRoundTrip | app/src/App.tsx:332-364 | a command built from replies that fit the expressions (digits, number tokens, a quote-free name or URL) is recognised by the dispatcher as the operation the replies describe |
| SlotFilling.DefaultsRecognised | app/src/App.tsx:334-357 | accepting every default gives `ZoomIn(2)`, `ZoomOut(2)`, `Move(0, 0)`, `AddMarker('My Marker', [0, 0])` or `AddWMS('https://example.com/wms')`, each recognised |
| Submission.BlankQueryRefused | app/src/App.tsx:295-300 | a missing or all-white-space query shows "Please enter a query." and runs nothing, whatever the mode |
| Submission.QueryAccepted | app/src/App.tsx:295-304 | any other query is not refused: its trimmed text goes to the selected mode's branch |
| Submission.CohereCall | app/src/App.tsx:247-270 | `null` exactly when the request fails; otherwise a trimmed call without the marker |
| Submission.OnlineOutcome | app/src/App.tsx:304-310 | online, a command that runs is shown, is not empty and holds no marker; otherwise "No function call returned." is shown |
| Submission.SemiOutcome | app/src/App.tsx:311-369 | without a model type, or when the classifier fails, the ONNX error is shown and nothing runs; a command that runs is shown and not empty; otherwise the ONNX error or "Could not create function call." is shown |
| Submission.FullOutcome | app/src/App.tsx:370-410 | a failing model shows the T5 error and runs nothing; otherwise `decoded.trim()` is shown, and run exactly when it is not empty |
| Submission.ModeOutcome | app/src/App.tsx:304-411 | with no known mode "Processing..." stays and nothing runs; a command that runs is shown and not empty |
| Submission.Respond | app/src/App.tsx:294-411 | a command that is run is never empty and is the text shown |
| Submission.Effect | app/src/App.tsx:77-138 | a dispatched command acts on the map only through the branch its prefix selects; one with no known prefix does nothing |
| Submission.OneBranch | app/src/App.tsx:304-411 | exactly one branch runs: the outcome depends only on the selected mode's service |
| Submission.SameReplies | app/src/App.tsx:332-360 | the switch depends only on the replies to its dialogs |
| Submission.UnknownModeIdles | app/src/App.tsx:302-411 | with no known mode, "Processing..." stays shown and nothing runs |
| Submission.OnlineRuns | app/src/App.tsx:304-310 | online, a completion without the marker whose trimmed text starts with a well-formed command runs that operation |
| Submission.SlotsRun | app/src/App.tsx:311-365 | with the classifier, replies that fit the expressions run the operation they describe |
| Submission.SemiFails | app/src/App.tsx:311-369 | with the classifier, a missing model type or a failing classifier shows "Error processing with ONNX model." and runs nothing |
| Submission.FullRuns | app/src/App.tsx:370-405 | with the T5 model, a decoded text whose trimmed form starts with a well-formed command is shown trimmed and runs that operation |
| Submission.FullFails | app/src/App.tsx:406-410 | with the T5 model, a failing model shows "Error processing with T5 model." and runs nothing |
| Submission.App.constructor | app/src/App.tsx:195-197 | no map yet and an empty output |
| Submission.App.MountMap | app/src/App.tsx:202-226 | the effect creates the map in its initial state once, and keeps an existing one |
| Submission.App.HandleSubmit | app/src/App.tsx:291-411 | without a map nothing changes; otherwise the output is `Respond`'s and the map moves to the state of the command it dispatches, or stays |

## Proof helpers

Lemmas the proofs above rely on; they state facts about the model's own definitions.

| member | source | states |
|---|---|---|
| Text.LinesAfterBreak | app/src/App.tsx:186 | a one-line `a` followed by a line feed is one piece in front of the pieces of the rest |
| Text.LinesShift | app/src/App.tsx:186 | splitting at the first line feed of `a` leaves that line in front of the pieces of the rest |
| Text.NewlineAt | app/src/App.tsx:186 | a line feed with none before it is the first one |
| Text.Leading | app/src/App.tsx:79-134 | a concatenation starts with its first part |
| Text.LeadingSpace | app/src/App.tsx:185-186 | the white-space run at the start, followed by a character that is not white space |
| Text.TrailingStart | app/src/App.tsx:185-186 | the start of the white-space run at the end, preceded by a character that is not white space |
| Pattern.RenderStartsWithGroup | app/src/App.tsx:80-130 | canonical text that opens with a group opens with a character of its class |
| Pattern.FitsTail | app/src/App.tsx:80-130 | captures that fit an expression fit its tail after the first piece |
| Pattern.MatchLitStep | app/src/App.tsx:80-130 | a literal in front matches itself and passes the rest on |
| Pattern.MatchSpacesStep | app/src/App.tsx:80-130 | `\s*` in front takes the one written space and passes the rest on |
| Pattern.MatchGroupStep | app/src/App.tsx:80-130 | a group in front captures exactly its written token |
| Pattern.SpacesBeforeGroup | app/src/App.tsx:100-121 | `\s*` before a number group takes exactly the one space the canonical text writes |
| Pattern.SpaceThenNumber | app/src/App.tsx:100-121 | a space before a number character is a white-space run of one |
| Pattern.SkipSpaces | app/src/App.tsx:100-121 | `\s*` skips the white-space run at the start |
| Pattern.NumbersAreNotSpace | app/src/App.tsx:100-121 | digits and number characters are not white space |
| Pattern.NumberListUnfold | app/src/App.tsx:100-121 | `([-\d.]+),\s*...` opens with a number group, a comma and `\s*` |
| Pattern.Separator | app/src/App.tsx:100-121 | a comma and one space make the separator `", "` |
| Pattern.ClassHasGroup | app/src/App.tsx:80-130 | an expression with a group of some class has that group |
| Command.Opened | app/src/App.tsx:100-130 | a literal in front keeps an expression well formed and adds no group |
| Command.OpenedRender | app/src/App.tsx:100-130 | the canonical text of a literal in front is that literal in front |
| Command.QuotedFirst | app/src/App.tsx:121 | a quote-free group followed by a quote is well formed |
| Command.QuotedRender | app/src/App.tsx:121 | the canonical text of a quote-free group in front is the name in front |
| Command.TokensFit | app/src/App.tsx:79-134 | tokens of their classes are possible captures |
| Command.OneGroupRender | app/src/App.tsx:80-130 | the canonical text of a one-group expression |
| Command.Differs | app/src/App.tsx:79-134 | a string that differs from a prefix inside it does not start with it |
| Command.SearchOneGroup | app/src/App.tsx:80-130 | a one-group expression finds its group in its canonical text |
| OlMap.FirstVectorFrom | app/src/App.tsx:55-59 | the first vector layer from an index on |
| OlMap.FirstVectorAt | app/src/App.tsx:55-59 | a vector layer preceded only by other layers is the one `find` returns |
| OlMap.FirstVectorAppended | app/src/App.tsx:55-59 | appending a non-vector layer does not change the first vector layer |
| Prompt.JoinedSingleLined | app/src/App.tsx:172-177 | joining text without line feeds gives text without line feeds |
| Prompt.JoinedSingleLined3 | app/src/App.tsx:172-177 | the same for three pieces |
| Prompt.ExampleLinesOneLined | app/src/App.tsx:175 | those two lines hold no line feed |
| Prompt.LinesBehind | app/src/App.tsx:177 | a one-line label joins the first line of what follows it |
| Prompt.UserLinesConcat | app/src/App.tsx:172-178 | `User: ` lines add up over concatenated line lists |
| Prompt.UserLinesOne | app/src/App.tsx:172-178 | one line counts once if it starts with `User: ` |
| Extraction.TrimSlice | app/src/App.tsx:185-186 | trimming a slice leaves a slice within it |
| Extraction.FirstLineSlice | app/src/App.tsx:186 | the first line of a slice is a slice with the same start |
| Extraction.SliceOfSlice | app/src/App.tsx:185-186 | a slice of a slice is a slice |
| Extraction.SliceSingleLined | app/src/App.tsx:186 | a slice of one line is one line |
| Text.ScanStep | app/src/App.tsx:182 | one step of the `matchAll` scan: a match at the position is listed first and the scan resumes after it, otherwise it resumes one character on |
| Text.LastOfAppend | app/src/App.tsx:182 | the last element of a concatenation is the last of its non-empty right part |
| Text.LinesUnfold | app/src/App.tsx:186 | the pieces of a string with a line feed are its first line, then the pieces after it |
| OlMap.RecognisedMarker | app/src/App.tsx:120-127 | a match of the `AddMarker` expression gives name, longitude and latitude in group order |
| OlMap.RecognisedMove | app/src/App.tsx:100-103 | a match of the `Move` expression gives longitude then latitude |
| OlMap.RecognisedExtent | app/src/App.tsx:111-116 | a match of the `MoveToExtent` expression gives its four groups in order |
| OlMap.Parsed | app/src/App.tsx:77-138 | what a command does depends only on the operation recognised in it |
| Submission.ShowOrSay | app/src/App.tsx:307-309 | `funcCall \|\| message`: a truthy call is shown and run; otherwise the message is shown and nothing runs |

## Left out

- Floating point: `parseFloat` and `parseInt` are not modelled. Coordinates stay
  token strings handed to the projection parameter. A token such as `-` or `.`,
  which `parseFloat` reads as `NaN`, is not told apart from a number. Zoom levels
  are the value of their digit string, with no precision limit.
- OpenLayers internals are left out: zoom limits, animation in progress,
  `view.fit` padding, rendering and feature styles (app/src/App.tsx:38-53). The view
  state is where an animation ends; `duration` records the length asked for.
- The shared `VectorSource` object is a value inside the vector layer. That layer is
  the only one holding it, so aliasing is not modelled.
- The one exception modelled inside `executeFunctionOnMap` is `view.fit` refusing
  an empty box (`OlMap.EmptyExtent`): the `catch` only logs it, so the state stays
  (app/src/App.tsx:135-137). Other errors OpenLayers might raise there are not
  modelled.
- Emptiness of the `MoveToExtent` box is judged on the projected corners that the
  projection parameter gives. That `fromLonLat` keeps the order of longitudes and
  latitudes is not modelled, so a reversed box is stated through its projections
  (`OlMap.ReversedExtentIgnored`).
- The Cohere request, the ONNX classifier, the T5 tokenizer and model, and the
  browser dialogs are inputs (`Submission.Services`). The request body, API key,
  JSON decoding and model files are not modelled, and neither is the ONNX session
  cache `loadOnnxModel` keeps in component state (app/src/App.tsx:272-289).
- React rendering is not modelled. The intermediate "Processing..." is overwritten
  by the branch's outcome in the same submission, so only the final output is kept.
  `handleModeChange`, the JSX and the cleanup of the effect are left out too.
- Submission.App.MountMap: does not model the `mapRef.current` test. The map's DOM
  container is taken to exist once the component has mounted.
- Concurrency between overlapping asynchronous submissions is not modelled. Each
  `HandleSubmit` runs to completion.
- Character encoding: Dafny characters are Unicode scalar values, while JavaScript
  strings are UTF-16 code units. Lone surrogates are not modelled. Trim and `\s` use
  the ECMAScript white-space set listed in `Text.IsSpace`.
