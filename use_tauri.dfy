/**
 * The front-end hook over the desktop shell: whether the page runs inside
 * the shell, and the Ollama status, loading flag and error it keeps. Inside
 * the shell it calls the commands of `TauriCommands`; in a plain browser
 * it probes the local service itself and refuses to start or pull.
 */
module UseTauri {
  import opened Common
  import TauriCommands
  import LocalOllama

  /** `isTauri()`: false without a `window` (server rendering), else true when
      either of the shell's globals is present. */
  function IsTauri(hasWindow: bool, hasTauriGlobal: bool, hasTauriInternals: bool): (b: bool)
    ensures b <==> hasWindow && (hasTauriGlobal || hasTauriInternals)
  {
    if !hasWindow then false else hasTauriGlobal || hasTauriInternals
  }

  /** What an `invoke` of a shell command produced: its value, or the message
      of what it threw (`err.message` for an Error, `String(err)` otherwise). */
  datatype Invoke<T> = Returned(value: T) | Threw(message: string)

  /** A command's `Err(e)` reaches the page as a thrown string `e`. */
  function FromCommand<T>(r: Result<T, string>): (i: Invoke<T>)
    ensures r.Ok? <==> i.Returned?
    ensures r.Ok? ==> i.value == r.value
    ensures r.Err? ==> i.message == r.error
  {
    match r
    case Ok(v) => Returned(v)
    case Err(e) => Threw(e)
  }

  const NotRunning: TauriCommands.OllamaStatus := TauriCommands.OllamaStatus(false, false, [])
  const BrowserStartText: string := "Cannot start Ollama from browser - please start it manually"
  const BrowserPullText: string := "Cannot pull models from browser - please use Ollama CLI"

  /** Browser-side detection from a probe of `/api/tags`: an ok answer means
      installed and running with the listed names (or none); a not-ok or
      throwing probe means neither. */
  function BrowserStatus(probe: LocalOllama.TagsProbe): (s: TauriCommands.OllamaStatus)
    ensures probe.ProbeOk? ==> s.installed && s.running
    ensures probe.ProbeOk? ==> s.models == (if probe.models.Some? then probe.models.value else [])
    ensures !probe.ProbeOk? ==> s == NotRunning
  {
    match probe
    case ProbeOk(listed) => TauriCommands.OllamaStatus(true, true, if listed.Some? then listed.value else [])
    case _ => NotRunning
  }

  /** Every field of the hook at one moment. */
  datatype HookState = HookState(
    isInTauri: bool,
    ollamaStatus: TauriCommands.OllamaStatus,
    isLoading: bool,
    error: Option<string>)

  /** `checkOllamaStatus`: `invokeAvailable` says whether the shell's `invoke`
      could be loaded; `probe` is the browser probe and `call` the
      `get_ollama_status` invocation, each consulted only on its path. */
  function AfterCheck(st: HookState, invokeAvailable: bool, probe: LocalOllama.TagsProbe,
                      call: Invoke<TauriCommands.OllamaStatus>): HookState
  {
    if !invokeAvailable then st.(ollamaStatus := BrowserStatus(probe), isLoading := false)
    else match call
      case Returned(s) => st.(ollamaStatus := s, error := None, isLoading := false)
      case Threw(m) => st.(error := Some(m), isLoading := false)
  }

  /** Outside the shell the check never touches the error; inside it, a
      failing command keeps the previous status and records the error, and a
      success takes the status and clears the error. Loading always ends. */
  lemma AfterCheckSpec(st: HookState, invokeAvailable: bool, probe: LocalOllama.TagsProbe,
                       call: Invoke<TauriCommands.OllamaStatus>)
    ensures !AfterCheck(st, invokeAvailable, probe, call).isLoading
    ensures !invokeAvailable ==> AfterCheck(st, invokeAvailable, probe, call).error == st.error
    ensures invokeAvailable && call.Threw? ==>
      AfterCheck(st, invokeAvailable, probe, call).ollamaStatus == st.ollamaStatus &&
      AfterCheck(st, invokeAvailable, probe, call).error == Some(call.message)
    ensures invokeAvailable && call.Returned? ==>
      AfterCheck(st, invokeAvailable, probe, call).ollamaStatus == call.value &&
      AfterCheck(st, invokeAvailable, probe, call).error.None?
  {
  }

  /** Inside the shell, whatever `get_ollama_status` reports leaves no models
      listed while the service is not running. */
  lemma ShellCheckNoModelsUnlessRunning(st: HookState, probe: LocalOllama.TagsProbe,
      version: TauriCommands.ProcessRun, tags: TauriCommands.HttpOutcome, listing: TauriCommands.HttpOutcome)
    ensures var s := AfterCheck(st, true, probe, FromCommand(TauriCommands.GetOllamaStatus(version, tags, listing))).ollamaStatus;
      !s.running ==> s.models == []
  {
  }

  /** `startOllama`/`pullModel`: outside the shell only the error is set and
      the answer is false; inside, a throwing command records its message
      and answers false, otherwise the status is checked again and the answer
      is true. Loading ends on every path inside the shell. */
  function AfterCommand(st: HookState, invokeAvailable: bool, browserText: string, command: Invoke<()>,
                        recheck: Invoke<TauriCommands.OllamaStatus>): (HookState, bool)
  {
    if !invokeAvailable then (st.(error := Some(browserText)), false)
    else match command
      case Threw(m) => (st.(error := Some(m), isLoading := false), false)
      case Returned(_) => (AfterCheck(st, true, LocalOllama.ProbeThrows, recheck), true)
  }

  /** The answer is true exactly when the shell is there and the command did
      not throw; a failing `pull_model` surfaces its stderr as the error. */
  lemma AfterCommandSpec(st: HookState, invokeAvailable: bool, browserText: string, command: Invoke<()>,
                         recheck: Invoke<TauriCommands.OllamaStatus>, run: TauriCommands.ProcessRun)
    ensures AfterCommand(st, invokeAvailable, browserText, command, recheck).1 <==>
      invokeAvailable && command.Returned?
    ensures !invokeAvailable ==>
      AfterCommand(st, invokeAvailable, browserText, command, recheck).0 == st.(error := Some(browserText))
    ensures invokeAvailable ==> !AfterCommand(st, invokeAvailable, browserText, command, recheck).0.isLoading
    ensures invokeAvailable && run.Exited? && !run.success ==>
      AfterCommand(st, true, browserText, FromCommand(TauriCommands.PullModel(run)), recheck).0.error ==
        Some(TauriCommands.PullFailedPrefix + run.stderr)
  {
  }

  class Hook {
    var isInTauri: bool
    var ollamaStatus: TauriCommands.OllamaStatus
    var isLoading: bool
    var error: Option<string>

    function Snapshot(): HookState
      reads this
    {
      HookState(isInTauri, ollamaStatus, isLoading, error)
    }

    constructor ()
      ensures Snapshot() == HookState(false, NotRunning, true, None)
    {
      isInTauri, ollamaStatus, isLoading, error := false, NotRunning, true, None;
    }

    /** The mount effect records whether the page runs in the shell. */
    method DetectShell(hasWindow: bool, hasTauriGlobal: bool, hasTauriInternals: bool)
      modifies this
      ensures Snapshot() == old(Snapshot()).(isInTauri := IsTauri(hasWindow, hasTauriGlobal, hasTauriInternals))
    {
      isInTauri := IsTauri(hasWindow, hasTauriGlobal, hasTauriInternals);
    }

    method CheckOllamaStatus(invokeAvailable: bool, probe: LocalOllama.TagsProbe,
                             call: Invoke<TauriCommands.OllamaStatus>)
      modifies this
      ensures Snapshot() == AfterCheck(old(Snapshot()), invokeAvailable, probe, call)
    {
      if !invokeAvailable {
        match probe {
          case ProbeOk(listed) =>
            ollamaStatus := TauriCommands.OllamaStatus(true, true, if listed.Some? then listed.value else []);
          case _ =>
            ollamaStatus := NotRunning;
        }
        isLoading := false;
        return;
      }
      isLoading := true;
      match call {
        case Returned(s) =>
          ollamaStatus := s;
          error := None;
        case Threw(m) =>
          error := Some(m);
      }
      isLoading := false;
    }

    /** The shared shape of `startOllama` and `pullModel`. */
    method RunCommand(invokeAvailable: bool, browserText: string, command: Invoke<()>,
                      recheck: Invoke<TauriCommands.OllamaStatus>) returns (ok: bool)
      modifies this
      ensures (Snapshot(), ok) == AfterCommand(old(Snapshot()), invokeAvailable, browserText, command, recheck)
    {
      if !invokeAvailable {
        error := Some(browserText);
        return false;
      }
      isLoading := true;
      if command.Threw? {
        error := Some(command.message);
        ok := false;
      } else {
        CheckOllamaStatus(true, LocalOllama.ProbeThrows, recheck);
        ok := true;
      }
      isLoading := false;
    }

    method StartOllama(invokeAvailable: bool, command: Invoke<()>,
                       recheck: Invoke<TauriCommands.OllamaStatus>) returns (ok: bool)
      modifies this
      ensures (Snapshot(), ok) == AfterCommand(old(Snapshot()), invokeAvailable, BrowserStartText, command, recheck)
    {
      ok := RunCommand(invokeAvailable, BrowserStartText, command, recheck);
    }

    method PullModel(model: string, invokeAvailable: bool, command: Invoke<()>,
                     recheck: Invoke<TauriCommands.OllamaStatus>) returns (ok: bool)
      modifies this
      ensures (Snapshot(), ok) == AfterCommand(old(Snapshot()), invokeAvailable, BrowserPullText, command, recheck)
    {
      ok := RunCommand(invokeAvailable, BrowserPullText, command, recheck);
    }

    /** `hasModel`: some model in the current status starts with `model`. */
    function HasModel(model: string): (b: bool)
      reads this
      ensures b <==> exists k :: 0 <= k < |ollamaStatus.models| && model <= ollamaStatus.models[k]
    {
      TauriCommands.AnyStartsWith(ollamaStatus.models, model)
    }
  }
}
