/** The update modal of the renderer: which part of the store it reads,
    what it shows, and what each of its three buttons asks of the
    confirmation dialogs and the store. */
module UpdateModal {
  import opened JsValues

  /** A localisation key; texts are identified by their key. */
  type Label = string

  const VersionPlaceholder := "x.y.z"

  // ---------------------------------------------------------------------
  // Reading the store and rendering

  datatype UpdateState = UpdateState(version: JsValue)

  /** The two parts of the store the modal reads. */
  datatype StoreState = StoreState(modal: JsValue, update: UpdateState)

  /** The properties the modal takes from the store. */
  datatype StateProps = StateProps(open: bool, newVersion: JsValue)

  /** `mapStateToProps`. */
  function MapStateToProps(state: StoreState): (r: StateProps)
    ensures r.open <==> state.modal == Str("update")
    ensures r.newVersion == state.update.version
  {
    StateProps(state.modal == Str("update"), state.update.version)
  }

  /** The version text an `AppVersion` box shows: the version when truthy,
      otherwise the placeholder. */
  function DisplayedVersion(version: JsValue): (r: JsValue)
    ensures Truthy(r)
    ensures Truthy(version) ==> r == version
    ensures !Truthy(version) ==> r == Str(VersionPlaceholder)
  {
    Or(version, Str(VersionPlaceholder))
  }

  /** The version handed to the current-version box: the `currentVersion`
      property when truthy, otherwise the application's own version. */
  function CurrentVersion(currentVersion: JsValue, appVersion: string): (r: JsValue)
    ensures Truthy(currentVersion) ==> r == currentVersion
    ensures !Truthy(currentVersion) ==> r == Str(appVersion)
  {
    Or(currentVersion, Str(appVersion))
  }

  /** What the user can choose in the modal. */
  datatype Intent = Skip | RemindLater | Install

  datatype VersionBox = VersionBox(caption: Label, version: JsValue, current: bool)

  datatype Button = Button(caption: Label, primary: bool, intent: Intent)

  /** The rendered output: nothing, or the modal with its title, message,
      the two version boxes and the three buttons. */
  datatype View =
    | Nothing
    | ModalView(title: Label, message: Label, currentBox: VersionBox, newBox: VersionBox, buttons: seq<Button>)

  /** An `AppVersion` box. */
  function AppVersion(caption: Label, version: JsValue, current: bool): (b: VersionBox)
    ensures b.caption == caption && b.current == current
    ensures Truthy(b.version)
    ensures Truthy(version) ==> b.version == version
  {
    VersionBox(caption, DisplayedVersion(version), current)
  }

  /** The component: nothing unless open; otherwise the current version
      (own property or application version), the new version from the
      store, and skip, remind-later and install buttons with only install
      the primary one. */
  function Render(props: StateProps, currentVersion: JsValue, appVersion: string): (v: View)
    ensures v.Nothing? <==> !props.open
    ensures v.ModalView? ==>
      && v.currentBox.current && !v.newBox.current
      && Truthy(v.currentBox.version) && Truthy(v.newBox.version)
      && |v.buttons| == 3
      && v.buttons[0].intent == Skip && v.buttons[1].intent == RemindLater && v.buttons[2].intent == Install
      && (forall i :: 0 <= i < |v.buttons| ==> (v.buttons[i].primary <==> v.buttons[i].intent == Install))
  {
    if !props.open then Nothing
    else
      ModalView(
        "dialog.update.announcement",
        "dialog.update.message",
        AppVersion("dialog.update.currentVersion", CurrentVersion(currentVersion, appVersion), true),
        AppVersion("dialog.update.newVersion", props.newVersion, false),
        [Button("dialog.update.skip", false, Skip),
         Button("dialog.update.remindLater", false, RemindLater),
         Button("dialog.update.install", true, Install)])
  }

  /** The connected modal is shown exactly when the store's modal is
      `'update'`. Its new version is the store's version, or the
      placeholder when that is empty or absent; its current version is the
      own property, else the application version, else the placeholder. */
  lemma ConnectedModalShowsStoreState(state: StoreState, currentVersion: JsValue, appVersion: string)
    ensures var v := Render(MapStateToProps(state), currentVersion, appVersion);
      && (v.ModalView? <==> state.modal == Str("update"))
      && (v.ModalView? ==>
            v.newBox.version == (if Truthy(state.update.version) then state.update.version else Str(VersionPlaceholder)))
      && (v.ModalView? ==>
            v.currentBox.version == (if Truthy(currentVersion) then currentVersion
                                     else if appVersion != "" then Str(appVersion)
                                     else Str(VersionPlaceholder)))
  {
  }

  // ---------------------------------------------------------------------
  // Confirmation dialogs and store actions

  datatype MessageBox = MessageBox(title: Label, message: Label, kind: string, buttons: seq<Label>, defaultId: nat)

  /** The warning shown before skipping a version. */
  function SkipWarning(): (b: MessageBox)
    ensures b.kind == "warning" && |b.buttons| == 1 && b.defaultId == 0
  {
    MessageBox("dialog.updateSkip.title", "dialog.updateSkip.message", "warning", ["dialog.updateSkip.ok"], 0)
  }

  /** The notice shown before downloading an update. */
  function DownloadNotice(): (b: MessageBox)
    ensures b.kind == "info" && |b.buttons| == 1 && b.defaultId == 0
  {
    MessageBox("dialog.updateDownloading.title", "dialog.updateDownloading.message", "info",
               ["dialog.updateDownloading.ok"], 0)
  }

  datatype StoreAction = SkipUpdate | HideModal | DownloadUpdate

  /** What a handler does that can be observed: show a message box, or
      dispatch an action to the store. */
  datatype Effect = ShowMessageBox(box: MessageBox) | Dispatch(action: StoreAction)

  /** Whether the user closes a message box. Its promise resolves only when
      it is closed; an unresolved promise never lets the handler go on. */
  datatype DialogOutcome = Closed | NeverClosed

  /** Show a box, and dispatch once it has been closed. */
  function ConfirmThenDispatch(box: MessageBox, action: StoreAction, outcome: DialogOutcome): seq<Effect> {
    [ShowMessageBox(box)] + (if outcome == Closed then [Dispatch(action)] else [])
  }

  /** The effects of each intent's handler. Remind-later shows nothing, so
      the dialog outcome does not apply to it. */
  function IntentEffects(intent: Intent, outcome: DialogOutcome): (t: seq<Effect>)
    ensures 1 <= |t| <= 2
    ensures t[0].ShowMessageBox? <==> Confirms(intent)
    ensures forall e :: e in t && e.Dispatch? ==> e.action == IntentAction(intent)
  {
    match intent
    case Skip => ConfirmThenDispatch(SkipWarning(), SkipUpdate, outcome)
    case RemindLater => [Dispatch(HideModal)]
    case Install => ConfirmThenDispatch(DownloadNotice(), DownloadUpdate, outcome)
  }

  /** The store action each intent stands for. */
  function IntentAction(intent: Intent): StoreAction {
    match intent
    case Skip => SkipUpdate
    case RemindLater => HideModal
    case Install => DownloadUpdate
  }

  /** Whether an intent asks for confirmation first. */
  predicate Confirms(intent: Intent) {
    intent != RemindLater
  }

  /** The actions dispatched in a sequence of effects, in order. */
  function Dispatched(t: seq<Effect>): seq<StoreAction> {
    if t == [] then []
    else Dispatched(t[..|t| - 1]) + (if t[|t| - 1].Dispatch? then [t[|t| - 1].action] else [])
  }

  /** The message boxes shown in a sequence of effects, in order. */
  function Shown(t: seq<Effect>): seq<MessageBox> {
    if t == [] then []
    else Shown(t[..|t| - 1]) + (if t[|t| - 1].ShowMessageBox? then [t[|t| - 1].box] else [])
  }

  lemma {:induction false} DispatchedAppend(a: seq<Effect>, b: seq<Effect>)
    ensures Dispatched(a + b) == Dispatched(a) + Dispatched(b)
    decreases |b|
  {
    if b == [] {
      assert a + b == a;
    } else {
      var b' := b[..|b| - 1];
      assert (a + b)[..|a + b| - 1] == a + b';
      DispatchedAppend(a, b');
    }
  }

  lemma {:induction false} ShownAppend(a: seq<Effect>, b: seq<Effect>)
    ensures Shown(a + b) == Shown(a) + Shown(b)
    decreases |b|
  {
    if b == [] {
      assert a + b == a;
    } else {
      var b' := b[..|b| - 1];
      assert (a + b)[..|a + b| - 1] == a + b';
      ShownAppend(a, b');
    }
  }

  /** A handler dispatches its intent's action exactly once when it goes on
      at all: always for remind-later, and for skip and install only once
      their box has been closed. Otherwise it dispatches nothing. */
  lemma DispatchesOnceIfResolved(intent: Intent, outcome: DialogOutcome)
    ensures Dispatched(IntentEffects(intent, outcome)) ==
      if !Confirms(intent) || outcome == Closed then [IntentAction(intent)] else []
  {
    var t := IntentEffects(intent, outcome);
    if Confirms(intent) {
      var box := if intent == Skip then SkipWarning() else DownloadNotice();
      var rest: seq<Effect> := if outcome == Closed then [Dispatch(IntentAction(intent))] else [];
      assert t == [ShowMessageBox(box)] + rest;
      DispatchedAppend([ShowMessageBox(box)], rest);
      assert Dispatched([ShowMessageBox(box)]) == [];
    } else {
      assert t == [Dispatch(HideModal)];
    }
  }

  /** Skip and install show their own box first, exactly once, and every
      dispatch comes after it; remind-later shows no box and dispatches at
      once. */
  lemma ConfirmationComesFirst(intent: Intent, outcome: DialogOutcome)
    ensures var t := IntentEffects(intent, outcome);
      && |t| >= 1
      && (Confirms(intent) ==>
            && t[0] == ShowMessageBox(if intent == Skip then SkipWarning() else DownloadNotice())
            && Shown(t) == [t[0].box]
            && forall j :: 0 < j < |t| ==> t[j].Dispatch?)
      && (!Confirms(intent) ==> Shown(t) == [] && t[0] == Dispatch(HideModal))
  {
    var t := IntentEffects(intent, outcome);
    if Confirms(intent) {
      var box := if intent == Skip then SkipWarning() else DownloadNotice();
      var rest: seq<Effect> := if outcome == Closed then [Dispatch(IntentAction(intent))] else [];
      assert t == [ShowMessageBox(box)] + rest;
      ShownAppend([ShowMessageBox(box)], rest);
      assert Shown([ShowMessageBox(box)]) == [box];
      if rest != [] {
        assert Shown(rest) == Shown(rest[..0]) && rest[..0] == [];
      }
    } else {
      assert Shown(t) == Shown(t[..0]) && t[..0] == [];
    }
  }

  /** Remind-later never dispatches a skip or a download, whatever happens
      to any dialog. */
  lemma RemindLaterOnlyHides(outcome: DialogOutcome)
    ensures Dispatched(IntentEffects(RemindLater, outcome)) == [HideModal]
    ensures SkipUpdate !in Dispatched(IntentEffects(RemindLater, outcome))
    ensures DownloadUpdate !in Dispatched(IntentEffects(RemindLater, outcome))
  {
    DispatchesOnceIfResolved(RemindLater, outcome);
  }

  /** The effects of a run of clicks, each with the outcome of its dialog. */
  function SessionEffects(clicks: seq<(Intent, DialogOutcome)>): seq<Effect> {
    if clicks == [] then []
    else SessionEffects(clicks[..|clicks| - 1]) + IntentEffects(clicks[|clicks| - 1].0, clicks[|clicks| - 1].1)
  }

  /** The actions a run of clicks should dispatch: one per click that goes
      on, in the order of the clicks. */
  function ResolvedActions(clicks: seq<(Intent, DialogOutcome)>): seq<StoreAction> {
    if clicks == [] then []
    else
      var last := clicks[|clicks| - 1];
      ResolvedActions(clicks[..|clicks| - 1])
      + (if !Confirms(last.0) || last.1 == Closed then [IntentAction(last.0)] else [])
  }

  /** Over any run of clicks, the store receives exactly the actions of the
      clicks whose handlers went on, in click order. */
  lemma {:induction false} SessionDispatchesResolved(clicks: seq<(Intent, DialogOutcome)>)
    ensures Dispatched(SessionEffects(clicks)) == ResolvedActions(clicks)
    decreases |clicks|
  {
    if clicks != [] {
      var init, last := clicks[..|clicks| - 1], clicks[|clicks| - 1];
      SessionDispatchesResolved(init);
      DispatchedAppend(SessionEffects(init), IntentEffects(last.0, last.1));
      DispatchesOnceIfResolved(last.0, last.1);
    }
  }

  // ---------------------------------------------------------------------
  // The handlers as an object that records their effects

  class UpdateModalHandlers {
    var effects: seq<Effect>

    constructor ()
      ensures effects == []
    {
      effects := [];
    }

    /** Shows a box; answers whether its promise resolved. */
    method ShowDialog(box: MessageBox, outcome: DialogOutcome) returns (resolved: bool)
      modifies this
      ensures resolved <==> outcome == Closed
      ensures effects == old(effects) + [ShowMessageBox(box)]
    {
      effects := effects + [ShowMessageBox(box)];
      resolved := outcome == Closed;
    }

    /** The store's `dispatch(action)`. */
    method DispatchAction(action: StoreAction)
      modifies this
      ensures effects == old(effects) + [Dispatch(action)]
    {
      effects := effects + [Dispatch(action)];
    }

    /** `onClickSkip`: warn, then dispatch `skipUpdate`. */
    method OnClickSkip(outcome: DialogOutcome)
      modifies this
      ensures effects == old(effects) + IntentEffects(Skip, outcome)
    {
      var resolved := ShowDialog(SkipWarning(), outcome);
      if resolved {
        DispatchAction(SkipUpdate);
      }
    }

    /** `onClickRemindLater`: dispatch `hideModal` at once. */
    method OnClickRemindLater()
      modifies this
      ensures effects == old(effects) + [Dispatch(HideModal)]
    {
      DispatchAction(HideModal);
    }

    /** `onClickInstall`: inform, then dispatch `downloadUpdate`. */
    method OnClickInstall(outcome: DialogOutcome)
      modifies this
      ensures effects == old(effects) + IntentEffects(Install, outcome)
    {
      var resolved := ShowDialog(DownloadNotice(), outcome);
      if resolved {
        DispatchAction(DownloadUpdate);
      }
    }

    /** Clicking the button for `intent`. */
    method Click(intent: Intent, outcome: DialogOutcome)
      modifies this
      ensures effects == old(effects) + IntentEffects(intent, outcome)
    {
      match intent
      case Skip => OnClickSkip(outcome);
      case RemindLater => OnClickRemindLater();
      case Install => OnClickInstall(outcome);
    }
  }
}
