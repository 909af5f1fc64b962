/** The main-process entry point of the desktop shell: error handlers, app
    parameters, the user-data directory, the reset-and-relaunch and
    single-instance early exits, the application event table, UI mounting
    and startup deep links. Every call into the platform is recorded as an
    `Action` in the order it happens. */
module MainProcess {
  import opened JsValues

  /** A filesystem path. `Joined(base, name)` is the path of `name` inside
      `base`. As a constructor it keeps distinct names apart; the real
      `jetpack.path` also resolves `..` and separators, which is not
      modelled. */
  datatype Path = Dir(s: string) | Joined(base: Path, name: string)

  /** An environment variable: unset, or set to a string. */
  datatype EnvVar = Unset | Set(value: string)

  /** The startup steps that are awaited, in the order they are awaited. */
  datatype AwaitedStep = ReadyStep | I18nStep | WindowStep | DockStep | MenusStep | TrayStep

  /** Whether one of the awaited steps rejects, and with what reason. */
  datatype Rejection = NoRejection | RejectsAt(step: AwaitedStep, reason: JsValue)

  /** What the process finds when it starts: its command line, NODE_ENV,
      the platform name, whether it runs as a Mac App Store build, what the
      single-instance lock request would answer, the application name, the
      platform's application-data directory, and which awaited step, if
      any, rejects. */
  datatype Platform = Platform(
    argv: seq<string>,
    nodeEnv: EnvVar,
    platform: string,
    mas: bool,
    lockGranted: bool,
    appName: string,
    appData: string,
    rejection: Rejection)

  datatype ProcessEvent = UncaughtException | UnhandledRejection

  datatype AppEvent = Activate | BeforeQuit | WindowAllClosed | OpenUrl | SecondInstance

  /** An application event as the platform delivers it, with its payload. */
  datatype AppEventInput =
    | ActivateFired
    | BeforeQuitFired
    | WindowAllClosedFired
    | OpenUrlFired(url: string)
    | SecondInstanceFired(argv: seq<string>)

  /** Everything the main process asks of the platform, in trace order. */
  datatype Action =
    | ListenProcess(event: ProcessEvent)
    | LogError(logged: JsValue)
    | Quit(code: int)
    | SetAsDefaultProtocolClient(scheme: string)
    | SetAppUserModelId(id: string)
    | AppendSwitch(name: string, value: string)
    | DisableHardwareAcceleration
    | SetPath(key: string, path: Path)
    | RemovePath(path: Path)
    | Relaunch(args: seq<JsValue>)
    | RequestSingleInstanceLock
    | ListenApp(appEvent: AppEvent)
    | WhenReady
    | InitializeI18n
    | CreateMainWindow
    | MountDock
    | MountMenus
    | MountTray
    | EmitStart
    | ProcessDeepLink(link: string)
    | ShowMainWindow
    | RemoveAllListeners
    | ForceFocus
    | PreventDefault

  /** How a startup run ends: the two early exits, a rejected awaited step,
      or a completed start. */
  datatype Outcome = ResetAndRelaunch | LockDenied | StartFailed | Started

  const ResetFlag := "--reset-app-data"
  const ProtocolScheme := "rocketchat"
  const AppUserModelId := "chat.rocket"

  // ---------------------------------------------------------------------
  // Pure parts

  /** The text a template literal produces for an environment variable. */
  function EnvText(e: EnvVar): string {
    match e
    case Unset => "undefined"
    case Set(s) => s
  }

  predicate IsProduction(e: EnvVar) {
    e == Set("production")
  }

  /** Name of the user-data directory: the application name in production,
      otherwise the name followed by the environment in parentheses. */
  function DirName(nodeEnv: EnvVar, appName: string): (r: string)
    ensures |r| >= |appName| && r[..|appName|] == appName
    ensures r == appName <==> IsProduction(nodeEnv)
    ensures !IsProduction(nodeEnv) ==> r[|appName|..] == " (" + EnvText(nodeEnv) + ")"
  {
    if IsProduction(nodeEnv) then appName else appName + " (" + EnvText(nodeEnv) + ")"
  }

  /** Two environments share a user-data directory exactly when both are
      production, or both are not and render to the same text. */
  lemma DirNameSeparatesEnvironments(e1: EnvVar, e2: EnvVar, appName: string)
    ensures DirName(e1, appName) == DirName(e2, appName) <==>
      ((IsProduction(e1) && IsProduction(e2)) ||
       (!IsProduction(e1) && !IsProduction(e2) && EnvText(e1) == EnvText(e2)))
  {
    var r1, r2 := DirName(e1, appName), DirName(e2, appName);
    if !IsProduction(e1) && !IsProduction(e2) && r1 == r2 {
      var n := |appName|;
      assert r1[n..] == r2[n..];
      var s1, s2 := " (" + EnvText(e1) + ")", " (" + EnvText(e2) + ")";
      assert |s1| == |s2|;
      assert EnvText(e1) == s1[2..|s1| - 1];
      assert EnvText(e2) == s2[2..|s2| - 1];
    }
  }

  /** An unset NODE_ENV and NODE_ENV="undefined" share a directory. */
  lemma UnsetEnvSharesUndefinedDir(appName: string)
    ensures DirName(Unset, appName) == DirName(Set("undefined"), appName)
  {
  }

  /** The user-data path the startup sets. */
  function UserDataPath(p: Platform): (r: Path)
    ensures r.Joined? && r.base == Dir(p.appData)
  {
    Joined(Dir(p.appData), DirName(p.nodeEnv, p.appName))
  }

  /** A non-production run never uses the production user-data path. */
  lemma UserDataPathSeparatesProduction(p: Platform)
    ensures !IsProduction(p.nodeEnv) ==>
      UserDataPath(p) != UserDataPath(p.(nodeEnv := Set("production")))
  {
  }

  /** The value an error handler logs: `error && (error.stack || error)`. */
  function LoggedValue(error: JsValue): (r: JsValue)
    ensures Truthy(r) <==> Truthy(error)
    ensures !Truthy(error) ==> r == error
    ensures Truthy(error) && Truthy(StackOf(error)) ==> r == StackOf(error)
    ensures Truthy(error) && !Truthy(StackOf(error)) ==> r == error
    ensures !error.Obj? ==> r == error
  {
    if Truthy(error) then Or(StackOf(error), error) else error
  }

  /** `process.argv.slice(2)`: the arguments after the first two entries. */
  function TrailingArgs(argv: seq<string>): seq<string> {
    if |argv| <= 2 then [] else argv[2..]
  }

  /** The trailing arguments are what follows the first two entries, and
      nothing when there are at most two. */
  lemma TrailingArgsFollowFirstTwo(argv: seq<string>)
    ensures |argv| <= 2 ==> TrailingArgs(argv) == []
    ensures |argv| > 2 ==> argv == argv[..2] + TrailingArgs(argv)
  {
  }

  /** `argv[i]`, which is `undefined` past the end. */
  function ArgvAt(argv: seq<string>, i: nat): (r: JsValue)
    ensures r.Str? <==> i < |argv|
    ensures r.Str? ==> r.s == argv[i]
    ensures !r.Str? ==> r == Undefined
  {
    if i < |argv| then Str(argv[i]) else Undefined
  }

  // ---------------------------------------------------------------------
  // The trace of each step, as a specification

  function ErrorHandlingTrace(): seq<Action> {
    [ListenProcess(UncaughtException), ListenProcess(UnhandledRejection)]
  }

  /** A fatal error is logged and the application quits with status 1; a
      falsy error value is logged as it is. */
  function FatalErrorTrace(error: JsValue): (t: seq<Action>)
    ensures |t| == 2 && t[0].LogError? && t[1] == Quit(1)
    ensures Truthy(t[0].logged) <==> Truthy(error)
  {
    [LogError(LoggedValue(error)), Quit(1)]
  }

  function AppParametersTrace(platform: string): (t: seq<Action>)
    ensures DisableHardwareAcceleration in t <==> platform == "linux"
  {
    [SetAsDefaultProtocolClient(ProtocolScheme),
     SetAppUserModelId(AppUserModelId),
     AppendSwitch("--autoplay-policy", "no-user-gesture-required")]
    + (if platform == "linux" then [DisableHardwareAcceleration] else [])
  }

  function UserDataPathTrace(p: Platform): seq<Action> {
    [SetPath("userData", UserDataPath(p))]
  }

  function RelaunchTrace(argv: seq<string>, args: seq<string>): seq<Action> {
    [Relaunch([ArgvAt(argv, 1)] + Strs(args)), Quit(0)]
  }

  function Strs(args: seq<string>): (r: seq<JsValue>)
    ensures |r| == |args| && forall i :: 0 <= i < |args| ==> r[i] == Str(args[i])
  {
    if args == [] then [] else Strs(args[..|args| - 1]) + [Str(args[|args| - 1])]
  }

  function LockTrace(mas: bool): seq<Action> {
    if mas then [] else [RequestSingleInstanceLock]
  }

  /** The event table is attached in this order. */
  function AttachTrace(): seq<Action> {
    [ListenApp(Activate), ListenApp(BeforeQuit), ListenApp(WindowAllClosed),
     ListenApp(OpenUrl), ListenApp(SecondInstance)]
  }

  const AppEventTable: set<AppEvent> := {Activate, BeforeQuit, WindowAllClosed, OpenUrl, SecondInstance}

  function SetupUITrace(): seq<Action> {
    [CreateMainWindow, MountDock, MountMenus, MountTray]
  }

  /** One `processDeepLink` call per link, in order. */
  function DeepLinks(links: seq<string>): (t: seq<Action>)
    ensures |t| == |links|
    ensures forall i :: 0 <= i < |links| ==> t[i] == ProcessDeepLink(links[i])
  {
    if links == [] then [] else DeepLinks(links[..|links| - 1]) + [ProcessDeepLink(links[|links| - 1])]
  }

  /** What each application-event handler does. Only closing all windows
      quits, and only the two forwarding events process links. */
  function HandlerTrace(ev: AppEventInput): (t: seq<Action>)
    ensures Quit(0) in t <==> ev.WindowAllClosedFired?
    ensures forall a :: a in t && a.ProcessDeepLink? ==> ev.OpenUrlFired? || ev.SecondInstanceFired?
    ensures ev.SecondInstanceFired? ==> |t| >= 1 && t[0] == ForceFocus
  {
    match ev
    case ActivateFired => [ShowMainWindow]
    case BeforeQuitFired => [RemoveAllListeners]
    case WindowAllClosedFired => [Quit(0)]
    case OpenUrlFired(url) => [PreventDefault, ProcessDeepLink(url)]
    case SecondInstanceFired(argv) => [ForceFocus] + DeepLinks(TrailingArgs(argv))
  }

  function KindOf(ev: AppEventInput): AppEvent {
    match ev
    case ActivateFired => Activate
    case BeforeQuitFired => BeforeQuit
    case WindowAllClosedFired => WindowAllClosed
    case OpenUrlFired(_) => OpenUrl
    case SecondInstanceFired(_) => SecondInstance
  }

  function StartupOutcome(p: Platform): (r: Outcome)
    ensures r == ResetAndRelaunch <==> ResetFlag in TrailingArgs(p.argv)
    ensures r == LockDenied ==> !p.mas && !p.lockGranted
    ensures r == StartFailed ==> p.rejection.RejectsAt?
    ensures r == Started <==>
      ResetFlag !in TrailingArgs(p.argv) && (p.mas || p.lockGranted) && p.rejection.NoRejection?
  {
    if ResetFlag in TrailingArgs(p.argv) then ResetAndRelaunch
    else if !p.mas && !p.lockGranted then LockDenied
    else if p.rejection.RejectsAt? then StartFailed
    else Started
  }

  /** Whether a run gets as far as attaching the application events. */
  predicate Attaches(o: Outcome) {
    o == Started || o == StartFailed
  }

  /** The action recording an awaited step. */
  function StepAction(s: AwaitedStep): Action {
    match s
    case ReadyStep => WhenReady
    case I18nStep => InitializeI18n
    case WindowStep => CreateMainWindow
    case DockStep => MountDock
    case MenusStep => MountMenus
    case TrayStep => MountTray
  }

  /** Where an awaited step sits in the readiness sequence. */
  function StepIndex(s: AwaitedStep): (k: nat)
    ensures k < |ReadyTrace()| - 1 && ReadyTrace()[k] == StepAction(s)
  {
    match s
    case ReadyStep => 0
    case I18nStep => 1
    case WindowStep => 2
    case DockStep => 3
    case MenusStep => 4
    case TrayStep => 5
  }

  predicate RejectsStep(r: Rejection, s: AwaitedStep) {
    r.RejectsAt? && r.step == s
  }

  /** How many readiness steps a run takes before `start`: all six awaited
      ones, or those up to and including the one that rejects. */
  function Reached(r: Rejection): (n: nat)
    ensures n <= 6 && (n == 6 <==> r.NoRejection? || r.step == TrayStep)
  {
    if r.NoRejection? then 6 else StepIndex(r.step) + 1
  }

  /** The run after the event table is attached: every readiness step and
      then the startup links, or the readiness steps up to the one that
      rejects, followed by the unhandled-rejection listener's log and quit. */
  function RunTrace(r: Rejection, args: seq<string>): seq<Action> {
    match r
    case NoRejection => ReadyTrace() + DeepLinks(args)
    case RejectsAt(s, reason) => ReadyTrace()[..StepIndex(s) + 1] + FatalErrorTrace(reason)
  }

  /** The steps a run takes before the early exits. */
  predicate IsPreambleStep(a: Action) {
    a.ListenProcess? || a.SetAsDefaultProtocolClient? || a.SetAppUserModelId? || a.AppendSwitch?
    || a.DisableHardwareAcceleration? || a.SetPath?
  }

  function PreambleTrace(p: Platform): seq<Action> {
    ErrorHandlingTrace() + AppParametersTrace(p.platform) + UserDataPathTrace(p)
  }

  /** The reset path: remove the user data, relaunch with `argv[1]` only, quit. */
  function ResetTrace(p: Platform): seq<Action> {
    [RemovePath(UserDataPath(p))] + RelaunchTrace(p.argv, [])
  }

  /** Readiness, localisation, the four UI surfaces and the start signal. */
  function ReadyTrace(): seq<Action> {
    [WhenReady, InitializeI18n] + SetupUITrace() + [EmitStart]
  }

  /** What follows the preamble: one of the two early exits, or the run. */
  function DecisionTrace(p: Platform): seq<Action> {
    match StartupOutcome(p)
    case ResetAndRelaunch => ResetTrace(p)
    case LockDenied => LockTrace(p.mas) + [Quit(0)]
    case _ => LockTrace(p.mas) + AttachTrace() + RunTrace(p.rejection, TrailingArgs(p.argv))
  }

  /** The whole startup run, from installing the error handlers to its last
      step; every run, whatever its outcome, begins with the preamble. */
  function StartupTrace(p: Platform): (t: seq<Action>)
    ensures |PreambleTrace(p)| <= |t| && t[..|PreambleTrace(p)|] == PreambleTrace(p)
  {
    PreambleTrace(p) + DecisionTrace(p)
  }

  // ---------------------------------------------------------------------
  // The main process as an object that records what it asks of the platform

  class App {
    const env: Platform
    var trace: seq<Action>
    var userDataPath: Path
    var processListeners: set<ProcessEvent>
    var appListeners: set<AppEvent>

    constructor (env: Platform)
      ensures this.env == env && trace == []
      ensures userDataPath == Joined(Dir(env.appData), env.appName)
      ensures processListeners == {} && appListeners == {}
    {
      this.env := env;
      trace := [];
      userDataPath := Joined(Dir(env.appData), env.appName);
      processListeners := {};
      appListeners := {};
    }

    method SetupErrorHandling()
      modifies this`trace, this`processListeners
      ensures trace == old(trace) + ErrorHandlingTrace()
      ensures processListeners == old(processListeners) + {UncaughtException, UnhandledRejection}
    {
      trace := trace + [ListenProcess(UncaughtException)];
      processListeners := processListeners + {UncaughtException};
      trace := trace + [ListenProcess(UnhandledRejection)];
      processListeners := processListeners + {UnhandledRejection};
    }

    /** The platform delivers an uncaught exception or an unhandled
        rejection; it is handled only once a listener is installed. */
    method DeliverProcessError(event: ProcessEvent, error: JsValue)
      modifies this`trace
      ensures trace == old(trace) + (if event in processListeners then FatalErrorTrace(error) else [])
    {
      if event in processListeners {
        trace := trace + [LogError(LoggedValue(error))];
        trace := trace + [Quit(1)];
      }
    }

    method SetupAppParameters()
      modifies this`trace
      ensures trace == old(trace) + AppParametersTrace(env.platform)
    {
      trace := trace + [SetAsDefaultProtocolClient(ProtocolScheme)];
      trace := trace + [SetAppUserModelId(AppUserModelId)];
      trace := trace + [AppendSwitch("--autoplay-policy", "no-user-gesture-required")];
      if env.platform == "linux" {
        trace := trace + [DisableHardwareAcceleration];
      }
    }

    method SetupUserDataPath()
      modifies this`trace, this`userDataPath
      ensures trace == old(trace) + UserDataPathTrace(env)
      ensures userDataPath == UserDataPath(env)
    {
      var dirName := DirName(env.nodeEnv, env.appName);
      userDataPath := Joined(Dir(env.appData), dirName);
      trace := trace + [SetPath("userData", userDataPath)];
    }

    /** Removes whatever directory is currently set as user data. */
    method ResetAppData()
      modifies this`trace
      ensures trace == old(trace) + [RemovePath(userDataPath)]
    {
      trace := trace + [RemovePath(userDataPath)];
    }

    /** Asks for a relaunch with `argv[1]` followed by `args`, then quits. */
    method Relaunch(args: seq<string>)
      modifies this`trace
      ensures trace == old(trace) + RelaunchTrace(env.argv, args)
    {
      var relaunchArgs := [ArgvAt(env.argv, 1)];
      for i := 0 to |args|
        invariant relaunchArgs == [ArgvAt(env.argv, 1)] + Strs(args[..i])
      {
        relaunchArgs := relaunchArgs + [Str(args[i])];
        assert args[..i + 1][..i] == args[..i];
      }
      assert args[..|args|] == args;
      trace := trace + [Action.Relaunch(relaunchArgs)];
      trace := trace + [Quit(0)];
    }

    method RequestLock() returns (granted: bool)
      modifies this`trace
      ensures granted == env.lockGranted
      ensures trace == old(trace) + [RequestSingleInstanceLock]
    {
      trace := trace + [RequestSingleInstanceLock];
      granted := env.lockGranted;
    }

    method QuitApp()
      modifies this`trace
      ensures trace == old(trace) + [Quit(0)]
    {
      trace := trace + [Quit(0)];
    }

    method AttachAppEvents()
      modifies this`trace, this`appListeners
      ensures trace == old(trace) + AttachTrace()
      ensures appListeners == old(appListeners) + AppEventTable
    {
      trace := trace + [ListenApp(Activate)];
      trace := trace + [ListenApp(BeforeQuit)];
      trace := trace + [ListenApp(WindowAllClosed)];
      trace := trace + [ListenApp(OpenUrl)];
      trace := trace + [ListenApp(SecondInstance)];
      appListeners := appListeners + AppEventTable;
    }

    /** Awaits one startup step; it resolves unless it is the step that
        rejects. */
    method AwaitStep(s: AwaitedStep) returns (resolved: bool)
      modifies this`trace
      ensures resolved <==> !RejectsStep(env.rejection, s)
      ensures trace == old(trace) + [StepAction(s)]
    {
      trace := trace + [StepAction(s)];
      resolved := !RejectsStep(env.rejection, s);
    }

    /** Each mount is awaited before the next begins; a rejected one ends
        the setup. */
    method SetupUI() returns (resolved: bool)
      modifies this`trace
      ensures resolved <==> !(env.rejection.RejectsAt? && StepIndex(env.rejection.step) >= 2)
      ensures trace == old(trace) + ReadyTrace()[2..if resolved then 6 else Reached(env.rejection)]
    {
      resolved := AwaitStep(WindowStep);
      if !resolved {
        return;
      }
      resolved := AwaitStep(DockStep);
      if !resolved {
        return;
      }
      resolved := AwaitStep(MenusStep);
      if !resolved {
        return;
      }
      resolved := AwaitStep(TrayStep);
    }

    /** `links.forEach(processDeepLink)`. */
    method ProcessDeepLinks(links: seq<string>)
      modifies this`trace
      ensures trace == old(trace) + DeepLinks(links)
    {
      for i := 0 to |links|
        invariant trace == old(trace) + DeepLinks(links[..i])
      {
        assert links[..i + 1][..i] == links[..i];
        trace := trace + [ProcessDeepLink(links[i])];
      }
      assert links[..|links|] == links;
    }

    method OnActivate()
      modifies this`trace
      ensures trace == old(trace) + HandlerTrace(ActivateFired)
    {
      trace := trace + [ShowMainWindow];
    }

    method OnBeforeQuit()
      modifies this`trace
      ensures trace == old(trace) + HandlerTrace(BeforeQuitFired)
    {
      trace := trace + [RemoveAllListeners];
    }

    method OnWindowAllClosed()
      modifies this`trace
      ensures trace == old(trace) + HandlerTrace(WindowAllClosedFired)
    {
      trace := trace + [Quit(0)];
    }

    method OnOpenUrl(url: string)
      modifies this`trace
      ensures trace == old(trace) + HandlerTrace(OpenUrlFired(url))
    {
      trace := trace + [PreventDefault];
      trace := trace + [ProcessDeepLink(url)];
    }

    method OnSecondInstance(argv: seq<string>)
      modifies this`trace
      ensures trace == old(trace) + HandlerTrace(SecondInstanceFired(argv))
    {
      trace := trace + [ForceFocus];
      ProcessDeepLinks(TrailingArgs(argv));
      AppendAssoc(old(trace), [ForceFocus], DeepLinks(TrailingArgs(argv)));
    }

    /** The listener table: an event runs its handler only when attached. */
    method DeliverAppEvent(ev: AppEventInput)
      modifies this`trace
      ensures trace == old(trace) + (if KindOf(ev) in appListeners then HandlerTrace(ev) else [])
    {
      if KindOf(ev) in appListeners {
        match ev
        case ActivateFired => OnActivate();
        case BeforeQuitFired => OnBeforeQuit();
        case WindowAllClosedFired => OnWindowAllClosed();
        case OpenUrlFired(url) => OnOpenUrl(url);
        case SecondInstanceFired(argv) => OnSecondInstance(argv);
      }
    }

    /** `await app.whenReady(); await i18n.initialize(); await setupUI()`:
        stops at the first step that rejects. */
    method AwaitReadiness() returns (resolved: bool)
      modifies this`trace
      ensures resolved <==> env.rejection.NoRejection?
      ensures trace == old(trace) + ReadyTrace()[..Reached(env.rejection)]
    {
      ReadyPrefixes();
      resolved := AwaitStep(ReadyStep);
      if !resolved {
        return;
      }
      resolved := AwaitStep(I18nStep);
      if !resolved {
        return;
      }
      resolved := SetupUI();
      assert trace == old(trace) + ReadyTrace()[..2] + ReadyTrace()[2..Reached(env.rejection)];
    }

    /** From attaching the event table to the last startup deep link. A
        rejected step ends the startup; its rejection is then delivered to
        the unhandled-rejection listener. */
    method Run(args: seq<string>)
      requires UnhandledRejection in processListeners
      modifies this`trace, this`appListeners
      ensures trace == old(trace) + AttachTrace() + RunTrace(env.rejection, args)
      ensures appListeners == old(appListeners) + AppEventTable
    {
      AttachAppEvents();
      ghost var attached := trace;
      var resolved := AwaitReadiness();
      if resolved {
        trace := trace + [EmitStart];
        assert trace == attached + ReadyTrace();
        ProcessDeepLinks(args);
      } else {
        DeliverProcessError(UnhandledRejection, env.rejection.reason);
      }
    }

    /** The startup sequence: the preamble, then an early exit or the run. */
    method Startup()
      modifies this`trace, this`userDataPath, this`processListeners, this`appListeners
      ensures trace == old(trace) + StartupTrace(env)
      ensures userDataPath == UserDataPath(env)
      ensures processListeners == old(processListeners) + {UncaughtException, UnhandledRejection}
      ensures appListeners == if Attaches(StartupOutcome(env))
                              then old(appListeners) + AppEventTable else old(appListeners)
    {
      ghost var t0 := trace;
      SetupErrorHandling();
      SetupAppParameters();
      SetupUserDataPath();
      AppendAssoc3(t0, ErrorHandlingTrace(), AppParametersTrace(env.platform), UserDataPathTrace(env));
      ResetOrLockOrRun();
      AppendAssoc(t0, PreambleTrace(env), DecisionTrace(env));
    }

    /** Removes the user data and relaunches without extra arguments. */
    method ResetApp()
      requires userDataPath == UserDataPath(env)
      modifies this`trace
      ensures trace == old(trace) + ResetTrace(env)
    {
      ResetAppData();
      Relaunch([]);
      AppendAssoc(old(trace), [RemovePath(userDataPath)], RelaunchTrace(env.argv, []));
    }

    /** The rest of the startup: the reset-and-relaunch exit, the
        single-instance exit, or the run. */
    method ResetOrLockOrRun()
      requires userDataPath == UserDataPath(env)
      requires UnhandledRejection in processListeners
      modifies this`trace, this`appListeners
      ensures trace == old(trace) + DecisionTrace(env)
      ensures appListeners == if Attaches(StartupOutcome(env))
                              then old(appListeners) + AppEventTable else old(appListeners)
    {
      var args := TrailingArgs(env.argv);

      if ResetFlag in args {
        ResetApp();
        return;
      }

      var canStart := env.mas;
      if !canStart {
        canStart := RequestLock();
      }
      ghost var locked := trace;
      assert trace == old(trace) + LockTrace(env.mas);
      if !canStart {
        QuitApp();
        assert StartupOutcome(env) == LockDenied;
        return;
      }

      Run(args);
      assert Attaches(StartupOutcome(env));
      AppendAssoc(old(trace), LockTrace(env.mas), AttachTrace());
      AppendAssoc(old(trace), LockTrace(env.mas) + AttachTrace(), RunTrace(env.rejection, args));
    }
  }

  // ---------------------------------------------------------------------
  // Properties of the startup trace

  /** The readiness sequence taken up to each point. */
  lemma ReadyPrefixes()
    ensures ReadyTrace()[..1] == [WhenReady]
    ensures ReadyTrace()[..2] == [WhenReady, InitializeI18n]
    ensures forall m :: 2 <= m <= |ReadyTrace()| ==>
      ReadyTrace()[..m] == [WhenReady, InitializeI18n] + ReadyTrace()[2..m]
  {
    var r := ReadyTrace();
    forall m | 2 <= m <= |r|
      ensures r[..m] == [WhenReady, InitializeI18n] + r[2..m]
    {
      assert r[..m] == r[..2] + r[2..m];
    }
  }

  /** The reset path, spelt out: the preamble, then removal, relaunch with
      `[argv[1]]` and quit. */
  lemma ResetShape(p: Platform)
    requires ResetFlag in TrailingArgs(p.argv)
    ensures StartupOutcome(p) == ResetAndRelaunch && |p.argv| >= 3
    ensures StartupTrace(p) == PreambleTrace(p) + [RemovePath(UserDataPath(p)), Relaunch([Str(p.argv[1])]), Quit(0)]
  {
    assert [ArgvAt(p.argv, 1)] + Strs([]) == [Str(p.argv[1])];
  }

  /** The denied path, spelt out: the preamble, the lock request and quit. */
  lemma DeniedShape(p: Platform)
    requires StartupOutcome(p) == LockDenied
    ensures StartupTrace(p) == PreambleTrace(p) + [RequestSingleInstanceLock, Quit(0)]
  {
  }

  /** A started run, spelt out step by step. */
  lemma StartedShape(p: Platform)
    requires StartupOutcome(p) == Started
    ensures StartupTrace(p) ==
      PreambleTrace(p) + LockTrace(p.mas) + AttachTrace() + ReadyTrace() + DeepLinks(TrailingArgs(p.argv))
  {
    var pre, lock, attach := PreambleTrace(p), LockTrace(p.mas), AttachTrace();
    var ready, links := ReadyTrace(), DeepLinks(TrailingArgs(p.argv));
    assert DecisionTrace(p) == lock + attach + (ready + links);
    AppendAssoc(lock + attach, ready, links);
    AppendAssoc(pre, lock, attach);
    AppendAssoc(pre, lock + attach, ready);
    AppendAssoc(pre, lock + attach + ready, links);
  }

  /** A run whose awaited step rejects, spelt out: the steps up to the
      rejected one, then the unhandled-rejection listener's log and quit. */
  lemma FailedShape(p: Platform)
    requires StartupOutcome(p) == StartFailed
    ensures StartupTrace(p) ==
      PreambleTrace(p) + LockTrace(p.mas) + AttachTrace()
      + ReadyTrace()[..StepIndex(p.rejection.step) + 1] + FatalErrorTrace(p.rejection.reason)
  {
    var pre, lock, attach := PreambleTrace(p), LockTrace(p.mas), AttachTrace();
    var ready, fatal := ReadyTrace()[..StepIndex(p.rejection.step) + 1], FatalErrorTrace(p.rejection.reason);
    assert DecisionTrace(p) == lock + attach + (ready + fatal);
    AppendAssoc(lock + attach, ready, fatal);
    AppendAssoc(pre, lock, attach);
    AppendAssoc(pre, lock + attach, ready);
    AppendAssoc(pre, lock + attach + ready, fatal);
  }

  /** The two process error handlers are the first things installed. */
  lemma ErrorHandlersFirst(p: Platform)
    ensures |StartupTrace(p)| >= 2
    ensures StartupTrace(p)[0] == ListenProcess(UncaughtException)
    ensures StartupTrace(p)[1] == ListenProcess(UnhandledRejection)
  {
    var pre := PreambleTrace(p);
    assert pre[0] == ListenProcess(UncaughtException) && pre[1] == ListenProcess(UnhandledRejection);
    assert StartupTrace(p)[..|pre|][0] == StartupTrace(p)[0];
    assert StartupTrace(p)[..|pre|][1] == StartupTrace(p)[1];
  }

  /** After the preamble a run only asks for the lock, attaches events,
      takes readiness steps, processes links, relaunches or handles a
      rejection. */
  lemma DecisionSteps(p: Platform)
    ensures forall a :: a in DecisionTrace(p) ==>
      a.RequestSingleInstanceLock? || a.ListenApp? || StartRank(a) >= 0 || a.ProcessDeepLink?
      || a.RemovePath? || a.Relaunch? || a.Quit? || a.LogError?
  {
    if Attaches(StartupOutcome(p)) {
      RunSteps(p.rejection, TrailingArgs(p.argv));
      assert DecisionTrace(p) == LockTrace(p.mas) + AttachTrace() + RunTrace(p.rejection, TrailingArgs(p.argv));
    }
  }

  /** After the event table is attached, a run only takes readiness
      steps, processes links and handles a rejection. */
  lemma RunSteps(r: Rejection, args: seq<string>)
    ensures forall a :: a in RunTrace(r, args) ==>
      StartRank(a) >= 0 || a.ProcessDeepLink? || a.LogError? || a.Quit?
  {
    var ready := ReadyTrace();
    assert forall a :: a in ready ==> StartRank(a) >= 0;
    if r.RejectsAt? {
      var taken := ready[..StepIndex(r.step) + 1];
      assert forall a :: a in taken ==> a in ready;
      var fatal := FatalErrorTrace(r.reason);
      assert RunTrace(r, args) == taken + fatal;
      assert forall a :: a in fatal ==> a.LogError? || a.Quit?;
    } else {
      DeepLinksOnlyLinks(args);
      assert RunTrace(r, args) == ready + DeepLinks(args);
    }
  }

  /** Hardware acceleration is disabled in a run exactly on Linux. */
  lemma HardwareAccelerationOffOnlyOnLinux(p: Platform)
    ensures DisableHardwareAcceleration in StartupTrace(p) <==> p.platform == "linux"
  {
    var pre, rest := PreambleTrace(p), DecisionTrace(p);
    assert DisableHardwareAcceleration in pre <==> p.platform == "linux" by {
      var early := ErrorHandlingTrace() + AppParametersTrace(p.platform);
      assert DisableHardwareAcceleration in early <==> DisableHardwareAcceleration in AppParametersTrace(p.platform);
      assert pre == early + UserDataPathTrace(p);
    }
    assert DisableHardwareAcceleration !in rest by {
      DecisionSteps(p);
    }
  }

  lemma PreambleSteps(p: Platform)
    ensures forall a :: a in PreambleTrace(p) ==> IsPreambleStep(a)
  {
  }

  /** Only the preamble, the lock request and event listeners precede a
      started run's readiness wait. */
  lemma StartedPrefixSteps(p: Platform)
    ensures forall a :: a in PreambleTrace(p) + LockTrace(p.mas) + AttachTrace() ==>
      IsPreambleStep(a) || a.RequestSingleInstanceLock? || a.ListenApp?
  {
    PreambleSteps(p);
  }

  lemma DeepLinksOnlyLinks(links: seq<string>)
    ensures forall a :: a in DeepLinks(links) ==> a.ProcessDeepLink?
  {
  }

  /** The surfaces mounted by the UI setup. */
  predicate IsUI(a: Action) {
    a.CreateMainWindow? || a.MountDock? || a.MountMenus? || a.MountTray?
  }

  /** `a` appears exactly once in `t`. */
  ghost predicate Once(t: seq<Action>, a: Action) {
    a in t && forall i, j :: 0 <= i < |t| && 0 <= j < |t| && t[i] == a && t[j] == a ==> i == j
  }

  /** `a` and `b` both appear in `t`, and every `a` comes before every `b`. */
  ghost predicate Before(t: seq<Action>, a: Action, b: Action) {
    a in t && b in t && forall i, j :: 0 <= i < |t| && 0 <= j < |t| && t[i] == a && t[j] == b ==> i < j
  }

  /** The links handed to `processDeepLink`, in the order of the trace. */
  function LinksOf(t: seq<Action>): seq<string> {
    if t == [] then []
    else LinksOf(t[..|t| - 1]) + (if t[|t| - 1].ProcessDeepLink? then [t[|t| - 1].link] else [])
  }

  lemma {:induction false} LinksOfAppend(a: seq<Action>, b: seq<Action>)
    ensures LinksOf(a + b) == LinksOf(a) + LinksOf(b)
    decreases |b|
  {
    if b == [] {
      assert a + b == a;
    } else {
      var b' := b[..|b| - 1];
      assert (a + b)[..|a + b| - 1] == a + b';
      LinksOfAppend(a, b');
    }
  }

  lemma {:induction false} LinksOfDeepLinks(links: seq<string>)
    ensures LinksOf(DeepLinks(links)) == links
    decreases |links|
  {
    if links != [] {
      var links' := links[..|links| - 1];
      var t := DeepLinks(links);
      assert t[..|t| - 1] == DeepLinks(links');
      LinksOfDeepLinks(links');
    }
  }

  lemma {:induction false} LinksOfNone(t: seq<Action>)
    requires forall a :: a in t ==> !a.ProcessDeepLink?
    ensures LinksOf(t) == []
    decreases |t|
  {
    if t != [] {
      assert t[|t| - 1] in t;
      LinksOfNone(t[..|t| - 1]);
    }
  }

  /** A prefix free of links leaves the links of what follows unchanged. */
  lemma LinksAfterPrefix(pre: seq<Action>, t: seq<Action>)
    requires forall a :: a in pre ==> !a.ProcessDeepLink?
    ensures LinksOf(pre + t) == LinksOf(t)
  {
    LinksOfNone(pre);
    LinksOfAppend(pre, t);
    assert LinksOf(pre) + LinksOf(t) == [] + LinksOf(t);
  }

  /** When an action's rank is its position in `mid` and nothing in `pre`
      or `post` is ranked, `mid`'s actions occur once each and in order. */
  lemma RankedOrder(t: seq<Action>, pre: seq<Action>, mid: seq<Action>, post: seq<Action>, rank: Action -> int)
    requires t == pre + mid + post
    requires forall a :: a in pre ==> rank(a) < 0
    requires forall a :: a in post ==> rank(a) < 0
    requires forall k :: 0 <= k < |mid| ==> rank(mid[k]) == k
    ensures forall k :: 0 <= k < |mid| ==> Once(t, mid[k])
    ensures forall k, l :: 0 <= k < l < |mid| ==> Before(t, mid[k], mid[l])
  {
    forall i | 0 <= i < |t|
      ensures rank(t[i]) >= 0 ==> |pre| <= i < |pre| + |mid| && rank(t[i]) == i - |pre|
    {
      if i < |pre| {
        assert t[i] == pre[i] && pre[i] in pre;
      } else if i >= |pre| + |mid| {
        assert t[i] == post[i - |pre| - |mid|] && post[i - |pre| - |mid|] in post;
      } else {
        assert t[i] == mid[i - |pre|];
      }
    }
    forall k | 0 <= k < |mid|
      ensures mid[k] in t
    {
      assert t[|pre| + k] == mid[k];
    }
  }

  /** An action found only in `x` comes before one found only in `y`. */
  lemma Separated(x: seq<Action>, y: seq<Action>, i: int, j: int)
    requires 0 <= i < |x + y| && 0 <= j < |x + y|
    requires (x + y)[i] !in y && (x + y)[j] !in x
    ensures i < j
  {
  }

  function StartRank(a: Action): int {
    match a
    case WhenReady => 0
    case InitializeI18n => 1
    case CreateMainWindow => 2
    case MountDock => 3
    case MountMenus => 4
    case MountTray => 5
    case EmitStart => 6
    case _ => -1
  }

  function ResetRank(a: Action): int {
    match a
    case SetPath(_, _) => 0
    case RemovePath(_) => 1
    case Relaunch(_) => 2
    case Quit(_) => 3
    case _ => -1
  }

  function DeniedRank(a: Action): int {
    match a
    case RequestSingleInstanceLock => 0
    case Quit(_) => 1
    case _ => -1
  }

  /** With `--reset-app-data` among the trailing arguments, the user data
      is removed after its path is set, one relaunch with exactly
      `[argv[1]]` follows, and the app quits as the last step. */
  lemma ResetRelaunchesAndStops(p: Platform)
    requires ResetFlag in TrailingArgs(p.argv)
    ensures StartupOutcome(p) == ResetAndRelaunch && |p.argv| >= 3
    ensures var t := StartupTrace(p);
      && Before(t, SetPath("userData", UserDataPath(p)), RemovePath(UserDataPath(p)))
      && Before(t, RemovePath(UserDataPath(p)), Relaunch([Str(p.argv[1])]))
      && Once(t, Relaunch([Str(p.argv[1])]))
      && t[|t| - 1] == Quit(0)
  {
    ResetShape(p);
    var early := ErrorHandlingTrace() + AppParametersTrace(p.platform);
    assert forall a :: a in early ==> ResetRank(a) < 0;
    var setPath := [SetPath("userData", UserDataPath(p))];
    var rest := [RemovePath(UserDataPath(p)), Relaunch([Str(p.argv[1])]), Quit(0)];
    AppendAssoc(early, setPath, rest);
    ResetOrder(early, UserDataPath(p), Str(p.argv[1]));
  }

  /** After steps that are not part of it, the reset sequence sets the
      path, removes it, relaunches once and quits last. */
  lemma ResetOrder(early: seq<Action>, u: Path, first: JsValue)
    requires forall a :: a in early ==> ResetRank(a) < 0
    ensures var t := early + ([SetPath("userData", u)] + [RemovePath(u), Relaunch([first]), Quit(0)]);
      && Before(t, SetPath("userData", u), RemovePath(u))
      && Before(t, RemovePath(u), Relaunch([first]))
      && Once(t, Relaunch([first]))
      && t[|t| - 1] == Quit(0)
  {
    var mid := [SetPath("userData", u), RemovePath(u), Relaunch([first]), Quit(0)];
    var t := early + ([SetPath("userData", u)] + [RemovePath(u), Relaunch([first]), Quit(0)]);
    assert t == early + mid + [];
    RankedOrder(t, early, mid, [], ResetRank);
    assert mid[0] == SetPath("userData", u) && mid[1] == RemovePath(u) && mid[2] == Relaunch([first]);
  }

  /** The reset path neither asks for the lock nor attaches events, waits
      for readiness, mounts UI, emits `start` or processes a link. */
  lemma ResetSkipsTheRest(p: Platform)
    requires ResetFlag in TrailingArgs(p.argv)
    ensures forall a :: a in StartupTrace(p) ==>
      !a.RequestSingleInstanceLock? && !a.ListenApp? && !a.WhenReady? && !a.InitializeI18n?
      && !IsUI(a) && !a.EmitStart? && !a.ProcessDeepLink?
  {
    ResetShape(p);
    PreambleSteps(p);
  }

  /** A Mac App Store build never asks for the single-instance lock and is
      never turned away by it. */
  lemma MasNeverRequestsLock(p: Platform)
    requires p.mas
    ensures StartupOutcome(p) != LockDenied
    ensures RequestSingleInstanceLock !in StartupTrace(p)
  {
    assert RequestSingleInstanceLock !in PreambleTrace(p) by {
      PreambleSteps(p);
    }
    assert RequestSingleInstanceLock !in DecisionTrace(p) by {
      if StartupOutcome(p) == ResetAndRelaunch {
        ResetShape(p);
      } else {
        var run := RunTrace(p.rejection, TrailingArgs(p.argv));
        assert DecisionTrace(p) == [] + AttachTrace() + run;
        assert RequestSingleInstanceLock !in run by {
          RunSteps(p.rejection, TrailingArgs(p.argv));
        }
      }
    }
  }

  /** A denied lock asks for the lock and then quits, as its last step. */
  lemma LockDeniedStops(p: Platform)
    requires ResetFlag !in TrailingArgs(p.argv) && !p.mas && !p.lockGranted
    ensures StartupOutcome(p) == LockDenied
    ensures var t := StartupTrace(p);
      Before(t, RequestSingleInstanceLock, Quit(0)) && t[|t| - 1] == Quit(0)
  {
    var pre := PreambleTrace(p);
    var mid := [RequestSingleInstanceLock, Quit(0)];
    DeniedShape(p);
    assert StartupTrace(p) == pre + mid + [];
    assert forall a :: a in pre ==> DeniedRank(a) < 0 by {
      PreambleSteps(p);
    }
    RankedOrder(StartupTrace(p), pre, mid, [], DeniedRank);
    assert mid[0] == RequestSingleInstanceLock && mid[1] == Quit(0);
  }

  /** After a denied lock no event is attached, no UI is mounted, no link is
      processed and the user data is neither removed nor relaunched. */
  lemma LockDeniedSkipsTheRest(p: Platform)
    requires ResetFlag !in TrailingArgs(p.argv) && !p.mas && !p.lockGranted
    ensures forall a :: a in StartupTrace(p) ==>
      !a.ListenApp? && !a.WhenReady? && !a.InitializeI18n? && !IsUI(a)
      && !a.EmitStart? && !a.ProcessDeepLink? && !a.RemovePath? && !a.Relaunch?
  {
    PreambleSteps(p);
    DeniedShape(p);
  }

  /** Between any actions that are not part of it, the readiness sequence
      keeps each of its steps unique and in order. */
  lemma ReadyOrder(pre: seq<Action>, post: seq<Action>) returns (mid: seq<Action>)
    requires forall a :: a in pre ==> StartRank(a) < 0
    requires forall a :: a in post ==> StartRank(a) < 0
    ensures mid == [WhenReady, InitializeI18n, CreateMainWindow, MountDock, MountMenus, MountTray, EmitStart]
    ensures forall k :: 0 <= k < |mid| ==> Once(pre + ReadyTrace() + post, mid[k])
    ensures forall k, l :: 0 <= k < l < |mid| ==> Before(pre + ReadyTrace() + post, mid[k], mid[l])
  {
    mid := ReadyTrace();
    assert mid == [WhenReady, InitializeI18n, CreateMainWindow, MountDock, MountMenus, MountTray, EmitStart];
    assert forall k :: 0 <= k < |mid| ==> StartRank(mid[k]) == k;
    RankedOrder(pre + mid + post, pre, mid, post, StartRank);
  }

  /** The readiness steps follow one another, between any unrelated steps. */
  lemma ReadyChain(pre: seq<Action>, post: seq<Action>)
    requires forall a :: a in pre ==> StartRank(a) < 0
    requires forall a :: a in post ==> StartRank(a) < 0
    ensures var t := pre + ReadyTrace() + post;
      && Before(t, WhenReady, InitializeI18n)
      && Before(t, InitializeI18n, CreateMainWindow)
      && Before(t, CreateMainWindow, MountDock)
      && Before(t, MountDock, MountMenus)
      && Before(t, MountMenus, MountTray)
      && Before(t, MountTray, EmitStart)
  {
    var mid := ReadyOrder(pre, post);
    assert mid[0] == WhenReady && mid[1] == InitializeI18n && mid[2] == CreateMainWindow;
    assert mid[3] == MountDock && mid[4] == MountMenus && mid[5] == MountTray && mid[6] == EmitStart;
  }

  /** The UI surfaces and `start` occur once each, between any unrelated
      steps. */
  lemma ReadyOnce(pre: seq<Action>, post: seq<Action>)
    requires forall a :: a in pre ==> StartRank(a) < 0
    requires forall a :: a in post ==> StartRank(a) < 0
    ensures var t := pre + ReadyTrace() + post;
      && Once(t, CreateMainWindow) && Once(t, MountDock) && Once(t, MountMenus) && Once(t, MountTray)
      && Once(t, EmitStart)
  {
    var mid := ReadyOrder(pre, post);
    assert mid[2] == CreateMainWindow && mid[3] == MountDock && mid[4] == MountMenus;
    assert mid[5] == MountTray && mid[6] == EmitStart;
  }

  /** A started run is its steps before readiness, the readiness steps and
      the startup links, and neither end holds a readiness step. */
  lemma StartedSplit(p: Platform) returns (pre: seq<Action>, post: seq<Action>)
    requires StartupOutcome(p) == Started
    ensures StartupTrace(p) == pre + ReadyTrace() + post
    ensures forall a :: a in pre ==> StartRank(a) < 0
    ensures forall a :: a in post ==> StartRank(a) < 0
  {
    pre := PreambleTrace(p) + LockTrace(p.mas) + AttachTrace();
    post := DeepLinks(TrailingArgs(p.argv));
    StartedShape(p);
    StartedPrefixSteps(p);
    DeepLinksOnlyLinks(TrailingArgs(p.argv));
  }

  /** A started run waits for readiness, initialises localisation, mounts
      the main window, dock, menus and tray in that order, and only then
      emits `start`. */
  lemma StartedMountsUIInOrder(p: Platform)
    requires StartupOutcome(p) == Started
    ensures var t := StartupTrace(p);
      && Before(t, WhenReady, InitializeI18n)
      && Before(t, InitializeI18n, CreateMainWindow)
      && Before(t, CreateMainWindow, MountDock)
      && Before(t, MountDock, MountMenus)
      && Before(t, MountMenus, MountTray)
      && Before(t, MountTray, EmitStart)
  {
    var pre, post := StartedSplit(p);
    ReadyChain(pre, post);
  }

  /** A started run mounts each UI surface once and emits `start` once. */
  lemma StartedMountsEachOnce(p: Platform)
    requires StartupOutcome(p) == Started
    ensures var t := StartupTrace(p);
      && Once(t, CreateMainWindow) && Once(t, MountDock) && Once(t, MountMenus) && Once(t, MountTray)
      && Once(t, EmitStart)
  {
    var pre, post := StartedSplit(p);
    ReadyOnce(pre, post);
  }

  /** A started run hands every trailing argument to `processDeepLink`
      exactly once and in order; the early exits hand over none. */
  lemma StartupProcessesArgs(p: Platform)
    ensures LinksOf(StartupTrace(p)) == if StartupOutcome(p) == Started then TrailingArgs(p.argv) else []
  {
    if StartupOutcome(p) == Started {
      var args := TrailingArgs(p.argv);
      var pre := PreambleTrace(p) + LockTrace(p.mas) + AttachTrace() + ReadyTrace();
      assert forall a :: a in pre ==> !a.ProcessDeepLink? by {
        StartedPrefixSteps(p);
      }
      StartedShape(p);
      LinksAfterPrefix(pre, DeepLinks(args));
      LinksOfDeepLinks(args);
    } else {
      NoLinksUnlessStarted(p);
      LinksOfNone(StartupTrace(p));
    }
  }

  /** Every startup link is processed after `start` is emitted. */
  lemma StartBeforeLinks(p: Platform)
    ensures var t := StartupTrace(p);
      forall i, j :: 0 <= i < |t| && 0 <= j < |t| && t[i] == EmitStart && t[j].ProcessDeepLink? ==> i < j
  {
    if StartupOutcome(p) == Started {
      var pre := PreambleTrace(p) + LockTrace(p.mas) + AttachTrace() + ReadyTrace();
      assert forall a :: a in pre ==> !a.ProcessDeepLink? by {
        StartedPrefixSteps(p);
      }
      StartedShape(p);
      DeepLinksOnlyLinks(TrailingArgs(p.argv));
      LinksLast(pre, DeepLinks(TrailingArgs(p.argv)));
    } else {
      NoLinksUnlessStarted(p);
    }
  }

  /** Between unrelated steps, the readiness steps taken so far occur in
      their order, however many of them were taken. */
  lemma ReadyPrefixOrder(pre: seq<Action>, n: nat, post: seq<Action>)
    requires n <= |ReadyTrace()|
    requires forall a :: a in pre ==> StartRank(a) < 0
    requires forall a :: a in post ==> StartRank(a) < 0
    ensures forall k, l :: 0 <= k < l < n ==>
      Before(pre + ReadyTrace()[..n] + post, ReadyTrace()[k], ReadyTrace()[l])
  {
    var r := ReadyTrace();
    var mid := r[..n];
    assert forall k :: 0 <= k < |r| ==> StartRank(r[k]) == k;
    assert forall k :: 0 <= k < n ==> mid[k] == r[k];
    RankedOrder(pre + mid + post, pre, mid, post, StartRank);
  }

  /** Every run that attaches the event table takes its readiness steps in
      order: readiness, localisation, window, dock, menus, tray and `start`,
      as far as it gets (all seven when started, up to the rejected step
      otherwise). */
  lemma ReadyStepsInOrder(p: Platform)
    requires Attaches(StartupOutcome(p))
    ensures var n := if StartupOutcome(p) == Started then |ReadyTrace()| else Reached(p.rejection);
      forall k, l :: 0 <= k < l < n ==> Before(StartupTrace(p), ReadyTrace()[k], ReadyTrace()[l])
  {
    if StartupOutcome(p) == Started {
      var pre, post := StartedSplit(p);
      assert ReadyTrace()[..|ReadyTrace()|] == ReadyTrace();
      ReadyPrefixOrder(pre, |ReadyTrace()|, post);
    } else {
      var pre, post := FailedSplit(p);
      ReadyPrefixOrder(pre, Reached(p.rejection), post);
    }
  }

  /** Links that follow a link-free prefix come after everything in it. */
  lemma LinksLast(pre: seq<Action>, links: seq<Action>)
    requires forall a :: a in pre ==> !a.ProcessDeepLink?
    requires forall a :: a in links ==> a.ProcessDeepLink?
    ensures var t := pre + links;
      forall i, j :: 0 <= i < |t| && 0 <= j < |t| && t[i] == EmitStart && t[j].ProcessDeepLink? ==> i < j
  {
    var t := pre + links;
    forall i, j | 0 <= i < |t| && 0 <= j < |t| && t[i] == EmitStart && t[j].ProcessDeepLink?
      ensures i < j
    {
      Separated(pre, links, i, j);
    }
  }

  /** A run whose awaited step rejects is its steps before readiness, the
      readiness steps taken and the rejection handling, and neither end
      holds a readiness step or a link. */
  lemma FailedSplit(p: Platform) returns (pre: seq<Action>, post: seq<Action>)
    requires StartupOutcome(p) == StartFailed
    ensures StartupTrace(p) == pre + ReadyTrace()[..Reached(p.rejection)] + post
    ensures post == FatalErrorTrace(p.rejection.reason)
    ensures forall a :: a in pre ==> StartRank(a) < 0 && !a.ProcessDeepLink?
    ensures forall a :: a in post ==> StartRank(a) < 0 && !a.ProcessDeepLink?
  {
    pre := PreambleTrace(p) + LockTrace(p.mas) + AttachTrace();
    post := FatalErrorTrace(p.rejection.reason);
    FailedShape(p);
    StartedPrefixSteps(p);
  }

  /** Between unrelated steps, the first `n` readiness steps all occur,
      every readiness step occurring is among them, and no link is added. */
  lemma TakenSteps(pre: seq<Action>, n: nat, post: seq<Action>)
    requires n <= |ReadyTrace()|
    requires forall a :: a in pre ==> StartRank(a) < 0 && !a.ProcessDeepLink?
    requires forall a :: a in post ==> StartRank(a) < 0 && !a.ProcessDeepLink?
    ensures forall j :: 0 <= j < n ==> ReadyTrace()[j] in pre + ReadyTrace()[..n] + post
    ensures forall j :: n <= j < |ReadyTrace()| ==> ReadyTrace()[j] !in pre + ReadyTrace()[..n] + post
    ensures forall a :: a in pre + ReadyTrace()[..n] + post ==> !a.ProcessDeepLink?
  {
    var r := ReadyTrace();
    var t := pre + r[..n] + post;
    assert forall k :: 0 <= k < |r| ==> StartRank(r[k]) == k;
    forall a | a in r[..n]
      ensures StartRank(a) < n && !a.ProcessDeepLink?
    {
      var k :| 0 <= k < n && r[..n][k] == a;
      assert r[k] == a;
    }
    forall j | 0 <= j < n
      ensures r[j] in t
    {
      assert t[|pre| + j] == r[j];
    }
  }

  /** Only a started run processes links. */
  lemma NoLinksUnlessStarted(p: Platform)
    requires StartupOutcome(p) != Started
    ensures forall a :: a in StartupTrace(p) ==> !a.ProcessDeepLink?
  {
    if StartupOutcome(p) == StartFailed {
      var pre, post := FailedSplit(p);
      TakenSteps(pre, Reached(p.rejection), post);
    } else {
      PreambleSteps(p);
      if StartupOutcome(p) == ResetAndRelaunch {
        ResetShape(p);
      } else {
        DeniedShape(p);
      }
    }
  }

  /** When an awaited step rejects, the run records the readiness steps up
      to and including it, and none after it: no later mount and no
      `start`. No link is processed; the reason is logged as the
      unhandled-rejection listener logs it, and the app quits with 1 as its
      last step. */
  lemma RejectionStopsTheRun(p: Platform)
    requires StartupOutcome(p) == StartFailed
    ensures var t := StartupTrace(p); var k := StepIndex(p.rejection.step);
      && |t| >= 2
      && t[|t| - 2] == LogError(LoggedValue(p.rejection.reason))
      && t[|t| - 1] == Quit(1)
      && (forall j :: 0 <= j <= k ==> ReadyTrace()[j] in t)
      && (forall j :: k < j < |ReadyTrace()| ==> ReadyTrace()[j] !in t)
      && (forall a :: a in t ==> !a.ProcessDeepLink?)
  {
    var pre, post := FailedSplit(p);
    TakenSteps(pre, Reached(p.rejection), post);
  }

  /** A second launch makes the running instance force-focus its window
      first, then hand exactly that launch's trailing arguments to
      `processDeepLink`, in order, and do nothing else. */
  lemma SecondInstanceForwardsArgs(argv: seq<string>)
    ensures var t := HandlerTrace(SecondInstanceFired(argv));
      t[0] == ForceFocus && LinksOf(t) == TrailingArgs(argv)
      && forall i :: 0 < i < |t| ==> t[i].ProcessDeepLink?
  {
    var links := DeepLinks(TrailingArgs(argv));
    ForwardedLinks(links, TrailingArgs(argv));
    assert HandlerTrace(SecondInstanceFired(argv)) == [ForceFocus] + links;
  }

  lemma ForwardedLinks(links: seq<Action>, args: seq<string>)
    requires links == DeepLinks(args)
    ensures var t := [ForceFocus] + links;
      t[0] == ForceFocus && LinksOf(t) == args
      && forall i :: 0 < i < |t| ==> t[i].ProcessDeepLink?
  {
    var t := [ForceFocus] + links;
    LinksAfterPrefix([ForceFocus], links);
    LinksOfDeepLinks(args);
    forall i | 0 < i < |t|
      ensures t[i].ProcessDeepLink?
    {
      assert t[i] == links[i - 1];
    }
  }

  /** An `open-url` event suppresses the default handling before handing
      its URL, and only that, to `processDeepLink`. */
  lemma OpenUrlForwardsUrl(url: string)
    ensures var t := HandlerTrace(OpenUrlFired(url));
      t[0] == PreventDefault && LinksOf(t) == [url]
  {
    LinksAfterPrefix([PreventDefault], [ProcessDeepLink(url)]);
    LinksOfDeepLinks([url]);
    assert DeepLinks([url]) == [ProcessDeepLink(url)];
  }

  lemma AppendAssoc<T>(a: seq<T>, b: seq<T>, c: seq<T>)
    ensures a + b + c == a + (b + c)
  {
  }

  lemma AppendAssoc3<T>(a: seq<T>, b: seq<T>, c: seq<T>, d: seq<T>)
    ensures a + b + c + d == a + (b + c + d)
  {
  }
}
