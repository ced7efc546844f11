/**
 * The persisted store behind the in-browser model: its load status,
 * download progress, last error, engine handle and the user's preferences.
 * Each setter assigns the fields it names and nothing else.
 */
module WebLLMStore {
  import opened Common

  datatype Status = Idle | Checking | Downloading | Loading | Ready | Error | Unsupported

  /** An opaque handle to a loaded engine; only its presence matters here. */
  datatype Engine = Engine(handle: nat)

  const DefaultModel: string := "Llama-3.2-3B-Instruct-q4f16_1-MLC"

  /** Every field of the store at one moment. */
  datatype State = State(
    status: Status,
    progress: int,
    progressText: string,
    error: Option<string>,
    modelId: string,
    engine: Option<Engine>,
    preferWebLLM: bool,
    hasDeclinedWebLLM: bool,
    hasDownloadedOnce: bool)

  /** The subset written to durable storage. */
  datatype Persisted = Persisted(
    preferWebLLM: bool,
    hasDeclinedWebLLM: bool,
    hasDownloadedOnce: bool,
    modelId: string)

  function InitialState(): State
  {
    State(Idle, 0, "", None, DefaultModel, None, true, false, false)
  }

  function Partialize(st: State): Persisted
  {
    Persisted(st.preferWebLLM, st.hasDeclinedWebLLM, st.hasDownloadedOnce, st.modelId)
  }

  /** `setError(e)`: status becomes "error" for a truthy message, "idle" otherwise. */
  function WithError(st: State, e: Option<string>): State
  {
    st.(error := e, status := if Truthy(e) then Error else Idle)
  }

  /** `setEngine(e)`: status becomes "ready" when an engine is given, "idle" otherwise. */
  function WithEngine(st: State, e: Option<Engine>): State
  {
    st.(engine := e, status := if e.Some? then Ready else Idle)
  }

  /** `setProgress(p, text)`: the text defaults to "" when absent or empty. */
  function WithProgress(st: State, p: int, text: Option<string>): State
  {
    st.(progress := p, progressText := OrDefault(text, ""))
  }

  function ResetState(st: State): State
  {
    st.(status := Idle, progress := 0, progressText := "", error := None, engine := None)
  }

  /** Reset restores every volatile field to its initial value and keeps the
      preferences and the model id, so what is persisted does not change. */
  lemma ResetSpec(st: State)
    ensures ResetState(st) == InitialState().(preferWebLLM := st.preferWebLLM,
      hasDeclinedWebLLM := st.hasDeclinedWebLLM, hasDownloadedOnce := st.hasDownloadedOnce,
      modelId := st.modelId)
    ensures Partialize(ResetState(st)) == Partialize(st)
  {
  }

  /** Only the preference flags and the model id reach storage: two states
      that agree on them persist identically, whatever their status or engine. */
  lemma PartializeIgnoresVolatile(a: State, b: State)
    requires a.preferWebLLM == b.preferWebLLM && a.hasDeclinedWebLLM == b.hasDeclinedWebLLM
    requires a.hasDownloadedOnce == b.hasDownloadedOnce && a.modelId == b.modelId
    ensures Partialize(a) == Partialize(b)
  {
  }

  /** The error and engine setters never disturb what is persisted, and
      the status they leave is determined by their argument alone. */
  lemma SettersKeepPersisted(st: State, e: Option<string>, g: Option<Engine>, p: int, t: Option<string>)
    ensures Partialize(WithError(st, e)) == Partialize(st)
    ensures Partialize(WithEngine(st, g)) == Partialize(st)
    ensures Partialize(WithProgress(st, p, t)) == Partialize(st)
    ensures WithError(st, e).status == Error <==> e.Some? && e.value != ""
    ensures WithEngine(st, g).status == Ready <==> g.Some?
  {
  }

  class Store {
    var status: Status
    var progress: int
    var progressText: string
    var error: Option<string>
    var modelId: string
    var engine: Option<Engine>
    var preferWebLLM: bool
    var hasDeclinedWebLLM: bool
    var hasDownloadedOnce: bool

    function Snapshot(): State
      reads this
    {
      State(status, progress, progressText, error, modelId, engine,
            preferWebLLM, hasDeclinedWebLLM, hasDownloadedOnce)
    }

    constructor ()
      ensures Snapshot() == InitialState()
    {
      status, progress, progressText, error := Idle, 0, "", None;
      modelId, engine := DefaultModel, None;
      preferWebLLM, hasDeclinedWebLLM, hasDownloadedOnce := true, false, false;
    }

    method SetStatus(s: Status)
      modifies this
      ensures Snapshot() == old(Snapshot()).(status := s)
    {
      status := s;
    }

    method SetProgress(p: int, text: Option<string>)
      modifies this
      ensures Snapshot() == WithProgress(old(Snapshot()), p, text)
    {
      progress := p;
      progressText := if text.Some? && text.value != "" then text.value else "";
    }

    method SetError(e: Option<string>)
      modifies this
      ensures Snapshot() == WithError(old(Snapshot()), e)
    {
      error := e;
      status := if e.Some? && e.value != "" then Error else Idle;
    }

    method SetEngine(e: Option<Engine>)
      modifies this
      ensures Snapshot() == WithEngine(old(Snapshot()), e)
    {
      engine := e;
      status := if e.Some? then Ready else Idle;
    }

    method SetPreferWebLLM(prefer: bool)
      modifies this
      ensures Snapshot() == old(Snapshot()).(preferWebLLM := prefer)
    {
      preferWebLLM := prefer;
    }

    method SetHasDeclined(declined: bool)
      modifies this
      ensures Snapshot() == old(Snapshot()).(hasDeclinedWebLLM := declined)
    {
      hasDeclinedWebLLM := declined;
    }

    method SetHasDownloadedOnce(downloaded: bool)
      modifies this
      ensures Snapshot() == old(Snapshot()).(hasDownloadedOnce := downloaded)
    {
      hasDownloadedOnce := downloaded;
    }

    method Reset()
      modifies this
      ensures Snapshot() == ResetState(old(Snapshot()))
    {
      status, progress, progressText, error, engine := Idle, 0, "", None, None;
    }
  }
}
