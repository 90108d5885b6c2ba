/** `handleSubmit` (app/src/App.tsx): the query is trimmed; a blank query is refused
    with a message; otherwise the selected mode turns it into a command string — the
    hosted language model (`online`), a classifier plus dialogs (`offline-semi`) or a
    local sequence-to-sequence model (`offline-full`) — which is shown and, when it is
    not empty, run on the map. The three models are given as functions from their
    input to their output, or to `None` when they fail. */
module Submission {
  import opened Wrappers
  import opened Text
  import opened Command
  import opened OlMap
  import Prompt
  import Extraction
  import SlotFilling

  /** The outside services a submission may use. */
  datatype Services = Services(
    /** The completion text the Cohere `generate` endpoint returns for a prompt
        (`""` when the response holds none), or `None` when the request fails. */
    cohere: string -> Option<string>,
    /** The operation name the ONNX classifier of a model type predicts for a query,
        or `None` when loading or running the model fails. */
    classify: (string, string) -> Option<string>,
    /** The replies to the argument dialogs. */
    user: SlotFilling.User,
    /** The decoded output of the T5 model for a query, or `None` when the model
        fails. */
    generate: string -> Option<string>)

  datatype Mode = Online | OfflineSemi | OfflineFull | NoMode

  /** The value of the mode selector. */
  function ModeOf(value: Option<string>): Mode
  {
    if value == Some("online") then Online
    else if value == Some("offline-semi") then OfflineSemi
    else if value == Some("offline-full") then OfflineFull
    else NoMode
  }

  /** What a submission leaves: the text shown, and the command run on the map, if
      any. */
  datatype Outcome = Outcome(output: string, dispatched: Option<string>)

  const EnterQuery: string := "Please enter a query."
  const Processing: string := "Processing..."
  const NoCallReturned: string := "No function call returned."
  const CouldNotCreate: string := "Could not create function call."
  const OnnxError: string := "Error processing with ONNX model."
  const T5Error: string := "Error processing with T5 model."

  /** JavaScript truthiness of a string that may be `null`. */
  predicate Truthy(s: Option<string>)
  {
    s.Some? && s.value != ""
  }

  /** `funcCall || message`: a truthy call is shown and run; otherwise the message is
      shown and nothing runs. */
  function ShowOrSay(funcCall: Option<string>, message: string): (o: Outcome)
    ensures o.dispatched.Some? <==> Truthy(funcCall)
    ensures o.dispatched.Some? ==> o.dispatched == funcCall && o.output == funcCall.value
    ensures o.dispatched.None? ==> o.output == message
  {
    if Truthy(funcCall) then Outcome(funcCall.value, funcCall) else Outcome(message, None)
  }

  /** `cohereCall`: the call extracted from the completion of `constructPrompt`'s
      prompt, or `null` when the request fails. */
  function CohereCall(services: Services, query: string): (r: Option<string>)
    ensures r.None? <==> services.cohere(Prompt.PromptText(query)).None?
    ensures r.Some? ==> IsTrimmed(r.value) && !Occurs(Extraction.Marker, r.value)
  {
    match services.cohere(Prompt.PromptText(query))
    case None => None
    case Some(text) => Extraction.NoMarkerLeft(text); Some(Extraction.ExtractFunctionCall(text))
  }

  /** The `online` branch. */
  function OnlineOutcome(query: string, services: Services): (o: Outcome)
    ensures o.dispatched.Some? ==>
      o.output == o.dispatched.value && o.output != "" && !Occurs(Extraction.Marker, o.output)
    ensures o.dispatched.None? ==> o.output == NoCallReturned
  {
    ShowOrSay(CohereCall(services, query), NoCallReturned)
  }

  /** The `offline-semi` branch: a missing model type, or a model that fails to load
      or run, ends in the ONNX error. */
  function SemiOutcome(query: string, modelValue: Option<string>, services: Services): (o: Outcome)
    ensures !Truthy(modelValue) ==> o == Outcome(OnnxError, None)
    ensures Truthy(modelValue) && services.classify(modelValue.value, query).None? ==>
      o == Outcome(OnnxError, None)
    ensures o.dispatched.Some? ==> o.output == o.dispatched.value && o.output != ""
    ensures o.dispatched.None? ==> o.output == OnnxError || o.output == CouldNotCreate
  {
    if !Truthy(modelValue) then Outcome(OnnxError, None)
    else
      match services.classify(modelValue.value, query)
      case None => Outcome(OnnxError, None)
      case Some(prediction) => ShowOrSay(SlotFilling.Assemble(prediction, services.user), CouldNotCreate)
  }

  /** The `offline-full` branch: the decoded text, trimmed, is shown, and run when it
      is not empty. */
  function FullOutcome(query: string, services: Services): (o: Outcome)
    ensures services.generate(query).None? ==> o == Outcome(T5Error, None)
    ensures services.generate(query).Some? ==>
      o.output == Trim(services.generate(query).value) && (o.dispatched.Some? <==> o.output != "")
    ensures o.dispatched.Some? ==> o.output == o.dispatched.value && o.output != ""
    ensures o.output != T5Error ==> IsTrimmed(o.output)
    ensures o.dispatched.None? ==> o.output == T5Error || o.output == ""
  {
    match services.generate(query)
    case None => Outcome(T5Error, None)
    case Some(decoded) =>
      var call := Trim(decoded);
      Outcome(call, if call != "" then Some(call) else None)
  }

  /** The branch of the selected mode, for a query that is not blank. */
  function ModeOutcome(mode: Mode, query: string, modelValue: Option<string>, services: Services): (o: Outcome)
    ensures mode == NoMode ==> o == Outcome(Processing, None)
    ensures o.dispatched.Some? ==> o.output == o.dispatched.value && o.output != ""
  {
    match mode
    case Online => OnlineOutcome(query, services)
    case OfflineSemi => SemiOutcome(query, modelValue, services)
    case OfflineFull => FullOutcome(query, services)
    case NoMode => Outcome(Processing, None)
  }

  /** The outcome of a submission, for a map that exists. `field` is the text of the
      query input (`None` when there is no input element), `modeValue` and
      `modelValue` those of the two selectors. */
  function Respond(field: Option<string>, modeValue: Option<string>, modelValue: Option<string>,
                   services: Services): (o: Outcome)
    ensures o.dispatched.Some? ==> o.dispatched.value != "" && o.output == o.dispatched.value
  {
    if field.None? || Trim(field.value) == "" then Outcome(EnterQuery, None)
    else ModeOutcome(ModeOf(modeValue), Trim(field.value), modelValue, services)
  }

  /** The operation a dispatched command performs on the map, if any. */
  function Effect(dispatched: Option<string>): (r: Option<Operation>)
    ensures r.Some? ==> dispatched.Some? && Selected(dispatched.value) == Some(PrefixOf(r.value))
    ensures dispatched.Some? && !HasKnownPrefix(dispatched.value) ==> r.None?
  {
    match dispatched
    case None => None
    case Some(cmd) => Parse(cmd)
  }

  /** A blank query (no input, or only white space) is refused with a message and
      nothing runs, whatever the mode. */
  lemma {:induction false} BlankQueryRefused(field: Option<string>, modeValue: Option<string>,
                                             modelValue: Option<string>, services: Services)
    requires field.None? || AllSpace(field.value)
    ensures Respond(field, modeValue, modelValue, services) == Outcome(EnterQuery, None)
  {
    if field.Some? {
      TrimEmpty(field.value);
    }
  }

  /** A query with a character other than white space is not refused: its trimmed
      text goes to the branch of the selected mode. */
  lemma {:induction false} QueryAccepted(field: Option<string>, modeValue: Option<string>,
                                         modelValue: Option<string>, services: Services)
    requires field.Some? && !AllSpace(field.value)
    ensures Trim(field.value) != ""
    ensures Respond(field, modeValue, modelValue, services)
      == ModeOutcome(ModeOf(modeValue), Trim(field.value), modelValue, services)
  {
    TrimEmpty(field.value);
  }

  /** The services a mode uses, and for the classifier the model selected, agree. */
  ghost predicate SameBranchInputs(mode: Mode, m1: Option<string>, s1: Services, m2: Option<string>, s2: Services)
  {
    match mode
    case Online => forall p :: s1.cohere(p) == s2.cohere(p)
    case OfflineSemi =>
      m1 == m2 && (forall t, q :: s1.classify(t, q) == s2.classify(t, q))
      && forall d :: s1.user(d) == s2.user(d)
    case OfflineFull => forall q :: s1.generate(q) == s2.generate(q)
    case NoMode => true
  }

  /** Exactly one branch runs: the outcome depends on the selected mode's service
      alone, never on another mode's. */
  lemma {:induction false} OneBranch(field: Option<string>, modeValue: Option<string>,
                                     m1: Option<string>, s1: Services, m2: Option<string>, s2: Services)
    requires SameBranchInputs(ModeOf(modeValue), m1, s1, m2, s2)
    ensures Respond(field, modeValue, m1, s1) == Respond(field, modeValue, m2, s2)
  {
    if field.Some? && Trim(field.value) != "" {
      var query := Trim(field.value);
      match ModeOf(modeValue)
      case Online =>
        assert s1.cohere(Prompt.PromptText(query)) == s2.cohere(Prompt.PromptText(query));
      case OfflineSemi =>
        if Truthy(m1) {
          assert s1.classify(m1.value, query) == s2.classify(m1.value, query);
          if s1.classify(m1.value, query).Some? {
            SameReplies(s1.classify(m1.value, query).value, s1.user, s2.user);
          }
        }
      case OfflineFull =>
        assert s1.generate(query) == s2.generate(query);
      case NoMode =>
    }
  }

  /** Users who reply alike to every dialog get the same command. */
  lemma {:induction false} SameReplies(prediction: string, u1: SlotFilling.User, u2: SlotFilling.User)
    requires forall d :: u1(d) == u2(d)
    ensures SlotFilling.Assemble(prediction, u1) == SlotFilling.Assemble(prediction, u2)
  {
    assert u1(SlotFilling.LevelsDialog(prediction)) == u2(SlotFilling.LevelsDialog(prediction));
    assert u1(SlotFilling.LonDialog) == u2(SlotFilling.LonDialog);
    assert u1(SlotFilling.LatDialog) == u2(SlotFilling.LatDialog);
    assert u1(SlotFilling.NameDialog) == u2(SlotFilling.NameDialog);
    assert u1(SlotFilling.UrlDialog) == u2(SlotFilling.UrlDialog);
  }

  /** Without a known mode, a query leaves `Processing...` shown and runs nothing. */
  lemma {:induction false} UnknownModeIdles(field: Option<string>, modeValue: Option<string>,
                                            modelValue: Option<string>, services: Services)
    requires field.Some? && !AllSpace(field.value) && ModeOf(modeValue) == NoMode
    ensures Respond(field, modeValue, modelValue, services) == Outcome(Processing, None)
  {
    QueryAccepted(field, modeValue, modelValue, services);
  }

  /** Online: a completion whose text, trimmed, begins with a well-formed command (and
      holds no `Function Call:` marker) runs that command's operation. */
  lemma {:induction false} OnlineRuns(field: Option<string>, modelValue: Option<string>, services: Services,
                                      completion: string, op: Operation, rest: string)
    requires field.Some? && !AllSpace(field.value)
    requires services.cohere(Prompt.PromptText(Trim(field.value))) == Some(completion)
    requires !Occurs(Extraction.Marker, completion)
    requires Trim(completion) == Format(op) + rest && ValidArguments(op)
    ensures Effect(Respond(field, Some("online"), modelValue, services).dispatched) == Some(op)
  {
    QueryAccepted(field, Some("online"), modelValue, services);
    Extraction.WithoutMarker(completion);
    ParseFormat(op, rest);
    assert Trim(completion) != [] by { assert Parse(Trim(completion)).Some?; }
  }

  /** Offline with a classifier: replies that fit the dispatcher's expressions run the
      operation they describe. */
  lemma {:induction false} SlotsRun(field: Option<string>, model: string, services: Services,
                                    prediction: string, op: Operation)
    requires field.Some? && !AllSpace(field.value) && model != ""
    requires services.classify(model, Trim(field.value)) == Some(prediction)
    requires SlotFilling.Described(prediction, services.user) == Some(op) && ValidArguments(op)
    ensures Effect(Respond(field, Some("offline-semi"), Some(model), services).dispatched) == Some(op)
  {
    QueryAccepted(field, Some("offline-semi"), Some(model), services);
    assert ModeOf(Some("offline-semi")) == OfflineSemi;
    SlotFilling.AssembledRoundTrip(prediction, services.user, op);
    var cmd := SlotFilling.Assemble(prediction, services.user).value;
    assert cmd != [] by { assert Parse(cmd).Some?; }
    assert SemiOutcome(Trim(field.value), Some(model), services) == Outcome(cmd, Some(cmd));
  }

  /** Offline with the T5 model: a decoded text that, trimmed, begins with a
      well-formed command runs that command's operation. */
  lemma {:induction false} FullRuns(field: Option<string>, modelValue: Option<string>, services: Services,
                                    decoded: string, op: Operation, rest: string)
    requires field.Some? && !AllSpace(field.value)
    requires services.generate(Trim(field.value)) == Some(decoded)
    requires Trim(decoded) == Format(op) + rest && ValidArguments(op)
    ensures Respond(field, Some("offline-full"), modelValue, services).output == Trim(decoded)
    ensures Effect(Respond(field, Some("offline-full"), modelValue, services).dispatched) == Some(op)
  {
    QueryAccepted(field, Some("offline-full"), modelValue, services);
    assert ModeOf(Some("offline-full")) == OfflineFull;
    ParseFormat(op, rest);
    assert Trim(decoded) != [] by { assert Parse(Trim(decoded)).Some?; }
  }

  /** Offline with the T5 model: a model that fails shows the T5 error and runs
      nothing. */
  lemma {:induction false} FullFails(field: Option<string>, modelValue: Option<string>, services: Services)
    requires field.Some? && !AllSpace(field.value)
    requires services.generate(Trim(field.value)).None?
    ensures Respond(field, Some("offline-full"), modelValue, services) == Outcome(T5Error, None)
  {
    QueryAccepted(field, Some("offline-full"), modelValue, services);
    assert ModeOf(Some("offline-full")) == OfflineFull;
  }

  /** Offline with a classifier: no model type, or a classifier that fails, shows the
      ONNX error and runs nothing. */
  lemma {:induction false} SemiFails(field: Option<string>, modelValue: Option<string>, services: Services)
    requires field.Some? && !AllSpace(field.value)
    requires !Truthy(modelValue) || services.classify(modelValue.value, Trim(field.value)).None?
    ensures Respond(field, Some("offline-semi"), modelValue, services) == Outcome(OnnxError, None)
  {
    QueryAccepted(field, Some("offline-semi"), modelValue, services);
    assert ModeOf(Some("offline-semi")) == OfflineSemi;
  }

  /** The component's state: the map, once the effect hook has created it, and the
      output text. */
  class App {
    var olMap: GeoMap?
    var output: string

    /** Before the first render's effect: no map, nothing shown. */
    constructor ()
      ensures olMap == null && output == ""
    {
      olMap := null;
      output := "";
    }

    /** The `useEffect` hook: creates the map once. */
    method MountMap(lib: ViewLibrary)
      modifies this
      ensures old(olMap) == null ==> olMap != null && fresh(olMap) && olMap.State() == Initial(lib)
      ensures old(olMap) != null ==> olMap == old(olMap)
      ensures output == old(output)
    {
      if olMap == null {
        olMap := new GeoMap(lib);
      }
    }

    /** `handleSubmit`: without a map nothing happens; otherwise the output shows the
        outcome of the selected mode, and the command it yields, if any, runs on the
        map. */
    method HandleSubmit(lib: ViewLibrary, field: Option<string>, modeValue: Option<string>,
                        modelValue: Option<string>, services: Services)
      modifies this, olMap
      ensures olMap == old(olMap)
      ensures old(olMap) == null ==> output == old(output)
      ensures old(olMap) != null ==>
        var o := Respond(field, modeValue, modelValue, services);
        output == o.output && olMap.State() == Apply(lib, old(olMap.State()), Effect(o.dispatched))
    {
      if olMap == null {
        return;
      }
      if field.None? || Trim(field.value) == "" {
        output := EnterQuery;
        return;
      }
      var input := Trim(field.value);
      output := Processing;
      var funcCall: Option<string> := None;
      match ModeOf(modeValue) {
        case Online =>
          var prompt := Prompt.ConstructPrompt(input);
          var text := services.cohere(prompt);
          funcCall := if text.Some? then Some(Extraction.ExtractFunctionCall(text.value)) else None;
          output := if Truthy(funcCall) then funcCall.value else NoCallReturned;
        case OfflineSemi =>
          if !Truthy(modelValue) {
            output := OnnxError;
          } else {
            var prediction := services.classify(modelValue.value, input);
            if prediction.None? {
              output := OnnxError;
            } else {
              funcCall := SlotFilling.Assemble(prediction.value, services.user);
              output := if Truthy(funcCall) then funcCall.value else CouldNotCreate;
            }
          }
        case OfflineFull =>
          var decoded := services.generate(input);
          if decoded.None? {
            output := T5Error;
          } else {
            output := Trim(decoded.value);
            funcCall := Some(Trim(decoded.value));
          }
        case NoMode =>
      }
      if Truthy(funcCall) {
        olMap.Execute(lib, funcCall.value);
      }
    }
  }
}
