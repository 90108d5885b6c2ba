/** The slot-filling `switch` of `handleSubmit` (app/src/App.tsx): in the offline
    classifier mode a model predicts only an operation name, and the arguments are
    asked of the user in browser dialogs and written into a command string for the
    dispatcher. */
module SlotFilling {
  import opened Wrappers
  import opened Text
  import opened Pattern
  import opened Command

  /** A `prompt` dialog: its message and the answer it offers by default. */
  datatype Dialog = Dialog(message: string, default: string)

  /** The user's reply to a dialog: the text confirmed, or `None` (`null`) when the
      dialog was cancelled. */
  type Answer = Option<string>

  /** The user, as far as the switch sees them: a reply to each dialog. */
  type User = Dialog -> Answer

  /** The tests `n ? … : null` and `lon && lat ? … : null`: a reply counts when it was
      confirmed and is not empty. */
  predicate Given(a: Answer)
  {
    a.Some? && a.value != ""
  }

  function LevelsDialog(prediction: string): Dialog
  {
    Dialog("Enter number of levels to " + prediction + ":", "2")
  }

  const LonDialog: Dialog := Dialog("Enter longitude:", "0")
  const LatDialog: Dialog := Dialog("Enter latitude:", "0")
  const NameDialog: Dialog := Dialog("Enter marker name:", "My Marker")
  const UrlDialog: Dialog := Dialog("Enter WMS URL:", "https://example.com/wms")

  /** The five operation names the switch has a case for. */
  predicate Slotted(prediction: string)
  {
    prediction == "ZoomIn" || prediction == "ZoomOut" || prediction == "Move"
    || prediction == "AddMarker" || prediction == "AddWMS"
  }

  /** The dialogs the switch opens for a prediction, in the order it opens them. */
  function Dialogs(prediction: string): (ds: seq<Dialog>)
    ensures Slotted(prediction) <==> ds != []
  {
    if prediction == "ZoomIn" || prediction == "ZoomOut" then [LevelsDialog(prediction)]
    else if prediction == "Move" then [LonDialog, LatDialog]
    else if prediction == "AddMarker" then [NameDialog, LonDialog, LatDialog]
    else if prediction == "AddWMS" then [UrlDialog]
    else []
  }

  /** The `switch (prediction)`: the command string its template builds from the
      replies, or `null` when a reply is missing or the prediction has no case. */
  function Assemble(prediction: string, user: User): (r: Option<string>)
    ensures r.Some? ==> Slotted(prediction) && StartsWith(r.value, prediction + "(")
  {
    if prediction == "ZoomIn" || prediction == "ZoomOut" then
      var n := user(LevelsDialog(prediction));
      if Given(n) then Some(prediction + "(" + n.value + ")") else None
    else if prediction == "Move" then
      var lon, lat := user(LonDialog), user(LatDialog);
      if Given(lon) && Given(lat) then Some("Move(" + lon.value + ", " + lat.value + ")") else None
    else if prediction == "AddMarker" then
      var name, lon, lat := user(NameDialog), user(LonDialog), user(LatDialog);
      if Given(name) && Given(lon) && Given(lat) then
        Some("AddMarker('" + name.value + "', [" + lon.value + ", " + lat.value + "])")
      else None
    else if prediction == "AddWMS" then
      var url := user(UrlDialog);
      if Given(url) then Some("AddWMS('" + url.value + "')") else None
    else None
  }

  /** The operation the replies describe: the prediction with the replies as its
      arguments, when every dialog got one. */
  function Described(prediction: string, user: User): (op: Option<Operation>)
    ensures op.Some? ==> Slotted(prediction)
  {
    if !(Slotted(prediction) && forall d :: d in Dialogs(prediction) ==> Given(user(d))) then None
    else if prediction == "ZoomIn" then Some(ZoomIn(user(LevelsDialog(prediction)).value))
    else if prediction == "ZoomOut" then Some(ZoomOut(user(LevelsDialog(prediction)).value))
    else if prediction == "Move" then Some(Move(user(LonDialog).value, user(LatDialog).value))
    else if prediction == "AddMarker" then
      Some(AddMarker(user(NameDialog).value, user(LonDialog).value, user(LatDialog).value))
    else Some(AddWms(user(UrlDialog).value))
  }

  /** The switch yields a command exactly when the prediction has a case and every
      dialog it opens got a non-empty reply. */
  lemma {:induction false} NullUnlessAllGiven(prediction: string, user: User)
    ensures Assemble(prediction, user).Some?
      <==> Slotted(prediction) && forall d :: d in Dialogs(prediction) ==> Given(user(d))
  {
  }

  /** Every template writes the described operation in the dispatcher's canonical
      form. */
  lemma {:induction false} AssembleFormats(prediction: string, user: User)
    ensures Assemble(prediction, user) == match Described(prediction, user)
      case None => None
      case Some(op) => Some(Format(op))
  {
    NullUnlessAllGiven(prediction, user);
    if Assemble(prediction, user).Some? {
      if prediction == "ZoomIn" {
        var n := user(LevelsDialog(prediction)).value;
        assert prediction + "(" + n + ")" == "ZoomIn(" + (n + ")");
      } else if prediction == "ZoomOut" {
        var n := user(LevelsDialog(prediction)).value;
        assert prediction + "(" + n + ")" == "ZoomOut(" + (n + ")");
      } else if prediction == "Move" {
        var lon, lat := user(LonDialog).value, user(LatDialog).value;
        assert "Move(" + lon + ", " + lat + ")" == "Move(" + (lon + (", " + (lat + ")")));
      } else if prediction == "AddMarker" {
        var name, lon, lat := user(NameDialog).value, user(LonDialog).value, user(LatDialog).value;
        assert "AddMarker('" + name + "', [" + lon + ", " + lat + "])"
          == "AddMarker('" + (name + ("', [" + (lon + (", " + (lat + "])")))));
      } else {
        var url := user(UrlDialog).value;
        assert "AddWMS('" + url + "')" == "AddWMS('" + (url + "')");
      }
    }
  }

  /** A command assembled from replies that fit the dispatcher's expressions is
      recognised by it as the operation the replies describe. */
  lemma {:induction false} AssembledRoundTrip(prediction: string, user: User, op: Operation)
    requires Described(prediction, user) == Some(op) && ValidArguments(op)
    ensures Assemble(prediction, user).Some?
    ensures Parse(Assemble(prediction, user).value) == Some(op)
  {
    AssembleFormats(prediction, user);
    ParseFormat(op, "");
    assert Format(op) + "" == Format(op);
  }

  /** A user who accepts every default. */
  function Defaults(): User
  {
    (d: Dialog) => Some(d.default)
  }

  /** Accepting the defaults gives `ZoomIn(2)`, `ZoomOut(2)`, `Move(0, 0)`,
      `AddMarker('My Marker', [0, 0])` or `AddWMS('https://example.com/wms')`, and the
      dispatcher recognises each. */
  lemma {:induction false} DefaultsRecognised(prediction: string)
    requires Slotted(prediction)
    ensures Described(prediction, Defaults()) == Some(
      if prediction == "ZoomIn" then ZoomIn("2")
      else if prediction == "ZoomOut" then ZoomOut("2")
      else if prediction == "Move" then Move("0", "0")
      else if prediction == "AddMarker" then AddMarker("My Marker", "0", "0")
      else AddWms("https://example.com/wms"))
    ensures Parse(Assemble(prediction, Defaults()).value) == Described(prediction, Defaults())
  {
    var user := Defaults();
    assert forall d :: d in Dialogs(prediction) ==> Given(user(d));
    var op := Described(prediction, user).value;
    assert ValidArguments(op) by {
      assert Token("2", Digit) && Token("0", NumberChar);
      assert Token("My Marker", NotQuote) && Token("https://example.com/wms", NotQuote);
    }
    AssembledRoundTrip(prediction, user, op);
  }
}
