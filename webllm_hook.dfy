/**
 * The in-browser model hook: engine initialisation guarded by an
 * in-progress flag, the chat message list handed to the engine, the
 * filtering of streamed deltas and their concatenation.
 */
module WebLLMHook {
  import opened Common
  import opened WebLLMStore

  // ---------------------------------------------------------------------
  // Views derived from the status

  predicate IsReady(s: Status) { s == Ready }
  predicate IsLoading(s: Status) { s == Downloading || s == Loading }
  predicate IsSupported(s: Status) { s != Unsupported }

  /** A ready engine is neither loading nor unsupported; an unsupported
      one is neither ready nor loading. */
  lemma StatusViewsExclusive(s: Status)
    ensures IsReady(s) ==> !IsLoading(s) && IsSupported(s)
    ensures !IsSupported(s) ==> !IsReady(s) && !IsLoading(s)
  {
  }

  // ---------------------------------------------------------------------
  // Chat message list

  datatype ChatRole = SystemTurn | User | Assistant
  datatype ChatMessage = ChatMessage(role: ChatRole, content: string)

  /** A history entry as the caller passes it: a free-form role and a text. */
  datatype HistoryEntry = HistoryEntry(role: string, content: string)

  function SystemPromptLines(): seq<string>
  {
    [
      "You are the narrator for Tales of Tasern, an interactive fiction experience set in a unique fantasy world.",
      "",
      "## THE WORLD",
      "",
      "Tasern exists at the edge of reality, where time moves slowly and existence itself thins toward Oblivion. It orbits twin suns:",
      "- The Tear: A wound in reality where endless unmaking fire roars",
      "- The Castle of Light: A sun-castle forged from belief where local gods dwell",
      "",
      "Three moons watch over Tasern:",
      "- White Moon: Frozen wasteland ruled by ice dragons. Pure hunger.",
      "- Green Moon: Endless jungle where life grows without restraint.",
      "- Blue Moon: Endless ocean where pirates sail seas that rise into sky.",
      "",
      "## THE RULE OF BELIEF",
      "",
      "In Tasern, BELIEF IS MAGIC. What enough minds hold true becomes true. Gods rise from prayers. Fear feeds monsters. Hope feeds miracles.",
      "",
      "## NARRATIVE STYLE",
      "",
      "- Write in second person (\"You see...\", \"You feel...\")",
      "- Rich, evocative prose with sensory detail",
      "- Let the world feel alive and reactive",
      "- Actions have consequences; belief has weight",
      "- Never break character or reference game mechanics",
      "- Keep responses to 2-4 paragraphs"]
  }

  /** The world description sent as the first, system, turn of every chat. */
  function SystemPrompt(): string
  {
    Join(SystemPromptLines(), "\n")
  }

  /** narrator → assistant, player → user, any other role dropped. */
  function HistoryTurns(history: seq<HistoryEntry>): seq<ChatMessage>
  {
    if |history| == 0 then []
    else
      var rest := HistoryTurns(history[1..]);
      if history[0].role == "narrator" then [ChatMessage(Assistant, history[0].content)] + rest
      else if history[0].role == "player" then [ChatMessage(User, history[0].content)] + rest
      else rest
  }

  /** How many history entries are narrator or player turns. */
  function CountConversational(history: seq<HistoryEntry>): nat
  {
    if |history| == 0 then 0
    else
      var here := if history[0].role == "narrator" || history[0].role == "player" then 1 else 0;
      here + CountConversational(history[1..])
  }

  /** The message list handed to the engine. */
  function ChatMessages(system: string, prompt: string, history: Option<seq<HistoryEntry>>): seq<ChatMessage>
  {
    [ChatMessage(SystemTurn, system)]
    + (if history.Some? then HistoryTurns(history.value) else [])
    + [ChatMessage(User, prompt)]
  }

  /** Mapping the history proceeds entry by entry, so the turns keep the
      order of the entries. */
  lemma {:induction false} HistoryTurnsSnoc(history: seq<HistoryEntry>, m: HistoryEntry)
    ensures HistoryTurns(history + [m]) == HistoryTurns(history) + HistoryTurns([m])
  {
    if |history| > 0 {
      assert (history + [m])[1..] == history[1..] + [m];
      HistoryTurnsSnoc(history[1..], m);
    } else {
      assert history + [m] == [m];
    }
  }

  /** One turn per narrator or player entry; no history turn is a system turn. */
  lemma {:induction false} HistoryTurnsSpec(history: seq<HistoryEntry>)
    ensures |HistoryTurns(history)| == CountConversational(history)
    ensures forall k :: 0 <= k < |HistoryTurns(history)| ==> HistoryTurns(history)[k].role != SystemTurn
  {
    if |history| > 0 {
      HistoryTurnsSpec(history[1..]);
    }
  }

  /** The list starts with the system prompt, ends with the prompt as a user
      turn, and holds 2 + (number of narrator/player entries) messages. */
  lemma ChatMessagesShape(system: string, prompt: string, history: Option<seq<HistoryEntry>>)
    ensures var m := ChatMessages(system, prompt, history);
      && m[0] == ChatMessage(SystemTurn, system)
      && m[|m| - 1] == ChatMessage(User, prompt)
      && |m| == 2 + (if history.Some? then CountConversational(history.value) else 0)
  {
    if history.Some? {
      HistoryTurnsSpec(history.value);
    }
  }

  /** The list-building loop of `generate`: push the system prompt (the hook
      passes `SystemPrompt()`), then one turn per narrator/player entry, then
      the prompt. */
  method BuildChatMessages(system: string, prompt: string, history: Option<seq<HistoryEntry>>)
    returns (messages: seq<ChatMessage>)
    ensures messages == ChatMessages(system, prompt, history)
  {
    messages := [ChatMessage(SystemTurn, system)];
    if history.Some? {
      var h := history.value;
      for i := 0 to |h|
        invariant messages == [ChatMessage(SystemTurn, system)] + HistoryTurns(h[..i])
      {
        HistoryTurnsSnoc(h[..i], h[i]);
        assert h[..i + 1] == h[..i] + [h[i]];
        if h[i].role == "narrator" {
          messages := messages + [ChatMessage(Assistant, h[i].content)];
        } else if h[i].role == "player" {
          messages := messages + [ChatMessage(User, h[i].content)];
        }
      }
      assert h[..|h|] == h;
    }
    messages := messages + [ChatMessage(User, prompt)];
  }

  // ---------------------------------------------------------------------
  // Streaming

  /** What the engine's completion stream does: a sequence of deltas (an
      absent delta is `undefined`), possibly ending in an error. */
  datatype EngineRun = EngineRun(deltas: seq<Option<string>>, failure: Option<string>)

  /** `if (delta) yield delta`: only present, non-empty deltas, in order. */
  function NonEmptyDeltas(deltas: seq<Option<string>>): seq<string>
  {
    if |deltas| == 0 then []
    else if deltas[0].Some? && deltas[0].value != "" then [deltas[0].value] + NonEmptyDeltas(deltas[1..])
    else NonEmptyDeltas(deltas[1..])
  }

  /** The text of the deltas, absent ones contributing nothing. */
  function DeltaText(deltas: seq<Option<string>>): string
  {
    if |deltas| == 0 then ""
    else (if deltas[0].Some? then deltas[0].value else "") + DeltaText(deltas[1..])
  }

  /** Filtering loses no text: the yielded chunks are all non-empty and
      together spell exactly the text of the deltas. */
  lemma {:induction false} NonEmptyDeltasSpec(deltas: seq<Option<string>>)
    ensures forall k :: 0 <= k < |NonEmptyDeltas(deltas)| ==> NonEmptyDeltas(deltas)[k] != ""
    ensures Concat(NonEmptyDeltas(deltas)) == DeltaText(deltas)
    ensures |NonEmptyDeltas(deltas)| <= |deltas|
  {
    if |deltas| > 0 {
      NonEmptyDeltasSpec(deltas[1..]);
      var rest := NonEmptyDeltas(deltas[1..]);
      if deltas[0].Some? && deltas[0].value != "" {
        assert ([deltas[0].value] + rest)[1..] == rest;
      }
    }
  }

  /** `generate`: refuses unless an engine is set and the status is ready;
      otherwise yields the non-empty deltas and rethrows an engine failure. */
  function Generate(st: State, run: EngineRun): (s: Stream)
    ensures (st.engine.None? || st.status != Ready) ==> s == Stream([], Some("WebLLM not ready"))
    ensures st.engine.Some? && st.status == Ready ==> s.items == NonEmptyDeltas(run.deltas) && s.error == run.failure
    ensures forall k :: 0 <= k < |s.items| ==> s.items[k] != ""
  {
    if st.engine.None? || st.status != Ready then Stream([], Some("WebLLM not ready"))
    else
      NonEmptyDeltasSpec(run.deltas);
      Stream(NonEmptyDeltas(run.deltas), run.failure)
  }

  /** `generateComplete`: drains the stream into one string, or rethrows. */
  method GenerateComplete(s: Stream) returns (r: Result<string, string>)
    ensures s.error.None? ==> r == Ok(Concat(s.items))
    ensures s.error.Some? ==> r == Err(s.error.value)
  {
    var result := "";
    for i := 0 to |s.items|
      invariant result == Concat(s.items[..i])
    {
      ConcatSnoc(s.items[..i], s.items[i]);
      assert s.items[..i + 1] == s.items[..i] + [s.items[i]];
      result := result + s.items[i];
    }
    assert s.items[..|s.items|] == s.items;
    if s.error.Some? {
      return Err(s.error.value);
    }
    return Ok(result);
  }

  // ---------------------------------------------------------------------
  // Initialisation

  /** One progress report of the engine loader: the percentage already
      rounded, its text, and whether the reported fraction was exactly 1. */
  datatype ProgressReport = ProgressReport(percent: int, text: string, complete: bool)

  /** What loading the engine does: reports progress and then either yields
      an engine or throws (with the message of an Error, or None for any
      other thrown value). */
  datatype LoadRun =
    | Loaded(reports: seq<ProgressReport>, engine: Engine)
    | LoadFails(reports: seq<ProgressReport>, message: Option<string>)

  const InitFailedText: string := "Failed to initialize WebLLM"

  /** The progress callback on one report: it sets the rounded percentage
      and the report's text, and a report of exactly 1 moves the status to
      "loading". */
  function ApplyReport(st: State, r: ProgressReport): State
  {
    var s := WithProgress(st, r.percent, Some(r.text));
    if r.complete then s.(status := Loading) else s
  }

  /** The store after the callback has seen every report, in order. */
  function AfterReports(st: State, reports: seq<ProgressReport>): State
  {
    if |reports| == 0 then st
    else ApplyReport(AfterReports(st, reports[..|reports| - 1]), reports[|reports| - 1])
  }

  /** After the reports the progress and its text are the last report's
      (those set before when there was none); the status becomes "loading"
      exactly when some report says the download is complete and is
      otherwise unchanged; the error, engine and persisted fields are
      untouched. */
  lemma {:induction false} AfterReportsSpec(st: State, reports: seq<ProgressReport>)
    requires st.status != Loading
    ensures var r := AfterReports(st, reports);
      && (|reports| == 0 ==> r == st)
      && (|reports| > 0 ==> r.progress == reports[|reports| - 1].percent
                            && r.progressText == reports[|reports| - 1].text)
      && (r.status == Loading <==> exists k :: 0 <= k < |reports| && reports[k].complete)
      && (r.status != Loading ==> r.status == st.status)
      && r.error == st.error && r.engine == st.engine && Partialize(r) == Partialize(st)
  {
    if |reports| > 0 {
      var init := reports[..|reports| - 1];
      AfterReportsSpec(st, init);
      assert forall k :: 0 <= k < |init| ==> init[k] == reports[k];
      if reports[|reports| - 1].complete {
        assert 0 <= |reports| - 1 < |reports| && reports[|reports| - 1].complete;
      }
    }
  }

  /** The store after `initialize` got past its guard and found WebGPU: the
      download starts at 0 with its first text, the reports are replayed,
      then the engine is stored and marked ready, or the error is recorded. */
  function AfterLoad(st: State, load: LoadRun): State
  {
    var started := AfterReports(st.(status := Downloading, progress := 0, progressText := StartText), load.reports);
    match load
    case Loaded(_, e) => WithEngine(started, Some(e)).(status := Ready)
    case LoadFails(_, msg) => WithError(started, Some(if msg.Some? then msg.value else InitFailedText))
  }

  const StartText: string := "Loading WebLLM..."

  /** A successful load leaves the engine ready and keeps whatever error an
      earlier failure recorded (nothing clears it); a failed one records the
      thrown message, or the fixed text, and keeps the previous engine. On
      both paths the progress is the last report's, or 0 with the first text
      when there was none, and nothing persisted changes. */
  lemma AfterLoadSpec(st: State, load: LoadRun)
    ensures var r := AfterLoad(st, load);
      && (load.Loaded? ==> r.status == Ready && r.engine == Some(load.engine) && r.error == st.error)
      && (load.LoadFails? ==>
            && r.engine == st.engine
            && r.error == Some(if load.message.Some? then load.message.value else InitFailedText)
            && (r.status == Error <==> r.error.value != ""))
      && (|load.reports| == 0 ==> r.progress == 0 && r.progressText == StartText)
      && (|load.reports| > 0 ==> r.progress == load.reports[|load.reports| - 1].percent
                                 && r.progressText == load.reports[|load.reports| - 1].text)
      && Partialize(r) == Partialize(st)
  {
    AfterReportsSpec(st.(status := Downloading, progress := 0, progressText := StartText), load.reports);
  }

  class Hook {
    const store: Store
    var initializing: bool

    constructor (s: Store)
      ensures store == s && !initializing
    {
      store := s;
      initializing := false;
    }

    /** The progress callback, once per report in order: each report sets
        the progress and its text, and a report that says the download is
        complete moves the status to "loading". */
    method ReplayReports(reports: seq<ProgressReport>)
      modifies store
      ensures store.Snapshot() == AfterReports(old(store.Snapshot()), reports)
    {
      for i := 0 to |reports|
        invariant store.Snapshot() == AfterReports(old(store.Snapshot()), reports[..i])
      {
        assert reports[..i + 1][..i] == reports[..i];
        store.SetProgress(reports[i].percent, Some(reports[i].text));
        if reports[i].complete {
          store.SetStatus(Loading);
        }
      }
      assert reports[..|reports|] == reports;
    }

    /** `initialize`: a no-op while initialising, with an engine, or when
        ready; otherwise checks WebGPU support (an input), loads the
        engine, and always clears the in-progress flag on the way out. */
    method Initialize(supported: bool, load: LoadRun)
      modifies this, store
      ensures !initializing || old(initializing)
      ensures old(initializing || store.engine.Some? || store.status == Ready) ==>
        store.Snapshot() == old(store.Snapshot()) && initializing == old(initializing)
      ensures !old(initializing || store.engine.Some? || store.status == Ready) ==>
        var st := old(store.Snapshot());
        && !initializing
        && (!supported ==> store.Snapshot() == st.(status := Unsupported))
        && (supported ==> store.Snapshot() == AfterLoad(st, load))
    {
      if initializing || store.engine.Some? || store.status == Ready {
        return;
      }
      initializing := true;
      store.SetStatus(Checking);
      if !supported {
        store.SetStatus(Unsupported);
        initializing := false;
        return;
      }
      store.SetStatus(Downloading);
      store.SetProgress(0, Some(StartText));
      ReplayReports(load.reports);
      match load {
        case Loaded(_, e) =>
          store.SetEngine(Some(e));
          store.SetStatus(Ready);
        case LoadFails(_, msg) =>
          store.SetError(Some(if msg.Some? then msg.value else InitFailedText));
      }
      initializing := false;
    }
  }
}
