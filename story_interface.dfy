/**
 * The story screen's generation logic: the fallback chain from the
 * in-browser model to the server route, streaming of the reply into the
 * target message, the fixed in-fiction error text when both fail, and the
 * "start" and "submit action" handlers that drive it.
 *
 * Backends are inputs: the in-browser stream is a `Stream`, and
 * the server's reply is a `ServerReply` whose body is read as a stream of
 * already decoded chunks.
 */
module StoryInterface {
  import opened Common
  import WebLLMHook
  import StoryApi
  import WebLLMStore
  import Llm

  datatype Role = Narrator | Player | SystemRole

  datatype Message = Message(id: string, role: Role, content: string, timestamp: int)

  /** Which backend produced the last reply (`llmSource`). */
  datatype Source = WebLLMSource | ServerSource

  datatype Action = Start | Continue

  function RoleName(r: Role): string
  {
    match r
    case Narrator => "narrator"
    case Player => "player"
    case SystemRole => "system"
  }

  function ActionName(a: Action): string
  {
    match a
    case Start => "start"
    case Continue => "continue"
  }

  const ErrorText: string :=
    "The threads of fate tangle... something interferes with your arrival. (Connection error - please try again)"

  // ---------------------------------------------------------------------
  // Prompts

  /** The screen's two fixed texts: the opening prompt, and what follows
      the quoted player action in a "continue" prompt. */
  datatype PromptTexts = PromptTexts(startPrompt: string, continueClosing: string)

  function StartPromptLines(): seq<string>
  {
    [
      "Begin an interactive story for a new arrival to Tasern.",
      "",
      "The character has just fallen through the cosmic drain—that space between dying worlds where Tasern's slow gravity catches the lost. They're waking up somewhere on Tasern (you choose where—make it interesting and evocative).",
      "",
      "Describe their arrival with rich sensory detail. Establish the strangeness of this world at the edge of existence. End with a situation that invites action—perhaps they see something, someone approaches, or they face an immediate choice.",
      "",
      "Do NOT ask them questions directly. Simply narrate their arrival and leave space for them to act.",
      "",
      "Keep the opening to 2-3 paragraphs. Make it memorable."]
  }

  function ContinueClosingLines(): seq<string>
  {
    [
      "\"",
      "",
      "React to what they do naturally within the world's logic. Remember:",
      "- Belief shapes reality in Tasern",
      "- NPCs have their own goals and personalities",
      "- The world is alive and reactive",
      "- Consequences flow from actions",
      "",
      "Write 2-4 paragraphs continuing the narrative. End in a way that invites further action."]
  }

  /** The texts the screen is written with, each one its lines joined by newlines. */
  function ClientTexts(): PromptTexts
  {
    PromptTexts(Join(StartPromptLines(), "\n"), Join(ContinueClosingLines(), "\n"))
  }

  const ContinueOpening: string := "Continue the story based on the player's action: \""

  /** The prompt for a submitted action: the action quoted inside fixed text. */
  function ContinuePrompt(texts: PromptTexts, playerAction: string): string
  {
    ContinueOpening + playerAction + texts.continueClosing
  }

  /** Different actions always give different prompts. */
  lemma ContinuePromptInjective(texts: PromptTexts, a: string, b: string)
    requires ContinuePrompt(texts, a) == ContinuePrompt(texts, b)
    ensures a == b
  {
    InfixCancel(ContinueOpening, a, b, texts.continueClosing);
  }

  // ---------------------------------------------------------------------
  // Updating one message

  /** `prev.map(msg => msg.id === id ? {...msg, content} : msg)`. */
  function WithContent(ms: seq<Message>, id: string, content: string): (r: seq<Message>)
    ensures |r| == |ms|
    ensures forall k :: 0 <= k < |ms| ==>
      r[k] == (if ms[k].id == id then ms[k].(content := content) else ms[k])
  {
    if |ms| == 0 then []
    else [if ms[0].id == id then ms[0].(content := content) else ms[0]] + WithContent(ms[1..], id, content)
  }

  /** Only the last write to a message's content is visible. */
  lemma WithContentOverwrite(ms: seq<Message>, id: string, a: string, b: string)
    ensures WithContent(WithContent(ms, id, a), id, b) == WithContent(ms, id, b)
  {
    var r := WithContent(WithContent(ms, id, a), id, b);
    assert forall k :: 0 <= k < |ms| ==> r[k] == WithContent(ms, id, b)[k];
  }

  /** The messages after a stream of chunks into message `id`: untouched if
      nothing arrived, otherwise that message holds all chunks so far. */
  function Streamed(ms: seq<Message>, id: string, chunks: seq<string>): seq<Message>
  {
    if |chunks| == 0 then ms else WithContent(ms, id, Concat(chunks))
  }

  /** One more chunk rewrites the target with the longer concatenation. */
  lemma StreamedSnoc(ms: seq<Message>, id: string, chunks: seq<string>, chunk: string)
    ensures Streamed(ms, id, chunks + [chunk]) == WithContent(Streamed(ms, id, chunks), id, Concat(chunks + [chunk]))
  {
    if |chunks| > 0 {
      WithContentOverwrite(ms, id, Concat(chunks), Concat(chunks + [chunk]));
    }
  }

  /** `b` differs from `a` at most in the content of messages with id `id`. */
  predicate SameExcept(a: seq<Message>, b: seq<Message>, id: string)
  {
    && |a| == |b|
    && forall k :: 0 <= k < |a| ==>
         b[k].id == a[k].id && b[k].role == a[k].role && b[k].timestamp == a[k].timestamp &&
         (a[k].id != id ==> b[k] == a[k])
  }

  lemma SameExceptTrans(a: seq<Message>, b: seq<Message>, c: seq<Message>, id: string)
    requires SameExcept(a, b, id) && SameExcept(b, c, id)
    ensures SameExcept(a, c, id)
  {
  }

  // ---------------------------------------------------------------------
  // Backends

  /** What the server does with the POST: the request fails outright, or a
      response arrives with its `ok` flag and, when it has a body, the
      decoded chunks read from it (ending in an error if a read throws). */
  datatype ServerReply = FetchFails | Responded(ok: bool, body: Option<Stream>)

  /** `generateWithServer` returns true: an ok response whose body, if any,
      is read to the end without error. */
  predicate ServerOk(reply: ServerReply)
  {
    reply.Responded? && reply.ok && (reply.body.None? || reply.body.value.error.None?)
  }

  /** The chunks written into the target message: none unless the response is ok. */
  function ServerChunks(reply: ServerReply): seq<string>
  {
    if reply.Responded? && reply.ok && reply.body.Some? then reply.body.value.items else []
  }

  /** The source label is set to the server as soon as an ok response arrives. */
  function ServerSourceAfter(src: Option<Source>, reply: ServerReply): Option<Source>
  {
    if reply.Responded? && reply.ok then Some(ServerSource) else src
  }

  /** The in-browser model is tried only when it is ready, preferred and not declined. */
  datatype WebLLMView = WebLLMView(ready: bool, preferWebLLM: bool, hasDeclinedWebLLM: bool)

  predicate WebEligible(view: WebLLMView)
  {
    view.ready && view.preferWebLLM && !view.hasDeclinedWebLLM
  }

  /** The messages after `smartGenerate` into message `id`. */
  function SmartMessages(ms: seq<Message>, id: string, eligible: bool, web: Stream,
                         reply: ServerReply): seq<Message>
  {
    var afterWeb := if eligible then Streamed(ms, id, web.items) else ms;
    if eligible && web.error.None? then afterWeb
    else
      var afterServer := Streamed(afterWeb, id, ServerChunks(reply));
      if ServerOk(reply) then afterServer else WithContent(afterServer, id, ErrorText)
  }

  /** The source label after `smartGenerate`. */
  function SmartSource(src: Option<Source>, eligible: bool, web: Stream, reply: ServerReply): Option<Source>
  {
    if eligible && web.error.None? then Some(WebLLMSource) else ServerSourceAfter(src, reply)
  }

  /** Generation touches nothing but the content of the target message. */
  lemma SmartMessagesFrame(ms: seq<Message>, id: string, eligible: bool, web: Stream, reply: ServerReply)
    ensures SameExcept(ms, SmartMessages(ms, id, eligible, web, reply), id)
  {
    var afterWeb := if eligible then Streamed(ms, id, web.items) else ms;
    assert SameExcept(ms, afterWeb, id);
    var afterServer := Streamed(afterWeb, id, ServerChunks(reply));
    assert SameExcept(afterWeb, afterServer, id);
    SameExceptTrans(ms, afterWeb, afterServer, id);
    if !ServerOk(reply) {
      SameExceptTrans(ms, afterServer, WithContent(afterServer, id, ErrorText), id);
    }
  }

  /** When the browser model is skipped or fails and the server fails too,
      the target ends holding exactly the error text, whatever partial text
      either backend had streamed, and nothing else differs. */
  lemma SmartMessagesBothFail(ms: seq<Message>, id: string, eligible: bool, web: Stream, reply: ServerReply)
    requires !(eligible && web.error.None?) && !ServerOk(reply)
    ensures SmartMessages(ms, id, eligible, web, reply) == WithContent(ms, id, ErrorText)
  {
    var afterWeb := if eligible then Streamed(ms, id, web.items) else ms;
    var afterServer := Streamed(afterWeb, id, ServerChunks(reply));
    if |ServerChunks(reply)| > 0 {
      WithContentOverwrite(afterWeb, id, Concat(ServerChunks(reply)), ErrorText);
    }
    if eligible && |web.items| > 0 {
      WithContentOverwrite(ms, id, Concat(web.items), ErrorText);
    }
  }

  /** A successful server stream leaves the target holding exactly the
      server's text, even after a failed in-browser attempt wrote some. */
  lemma SmartMessagesServerText(ms: seq<Message>, id: string, eligible: bool, web: Stream, reply: ServerReply)
    requires !(eligible && web.error.None?) && ServerOk(reply) && |ServerChunks(reply)| > 0
    ensures SmartMessages(ms, id, eligible, web, reply) == WithContent(ms, id, Concat(ServerChunks(reply)))
  {
    if eligible && |web.items| > 0 {
      WithContentOverwrite(ms, id, Concat(web.items), Concat(ServerChunks(reply)));
    }
  }

  /** The request body the server receives (`JSON.stringify` drops an
      undefined player action or address, read back as None). */
  function ApiHistory(history: seq<Message>): (h: seq<StoryApi.HistoryEntry>)
    ensures |h| == |history|
    ensures forall k :: 0 <= k < |h| ==> h[k] == StoryApi.HistoryEntry(RoleName(history[k].role), history[k].content)
  {
    if |history| == 0 then []
    else [StoryApi.HistoryEntry(RoleName(history[0].role), history[0].content)] + ApiHistory(history[1..])
  }

  function ServerRequest(action: Action, playerAction: Option<string>, history: seq<Message>,
                         address: Option<string>): StoryApi.StoryRequest
  {
    StoryApi.StoryRequest(ActionName(action), playerAction, Some(ApiHistory(history)), address)
  }

  /** The arguments handed to the in-browser model's `generate`. */
  datatype WebCall = WebCall(prompt: string, history: seq<WebLLMHook.HistoryEntry>)

  function HookHistory(history: seq<Message>): (h: seq<WebLLMHook.HistoryEntry>)
    ensures |h| == |history|
    ensures forall k :: 0 <= k < |h| ==> h[k] == WebLLMHook.HistoryEntry(RoleName(history[k].role), history[k].content)
  {
    if |history| == 0 then []
    else [WebLLMHook.HistoryEntry(RoleName(history[0].role), history[0].content)] + HookHistory(history[1..])
  }

  /** A "start" request carries no player action, so the server builds its
      own opening prompt; a "continue" request carries the composed prompt,
      which the server embeds as the player's action. */
  lemma ServerRequestPrompt(texts: StoryApi.RouteTexts, action: Action, prompt: string,
                            history: seq<Message>, address: Option<string>)
    ensures var req := ServerRequest(action, if action == Continue then Some(prompt) else None, history, address);
      && (action == Start ==> req.playerAction.None? && StoryApi.BuildPrompt(texts, req) == texts.startPrompt)
      && (action == Continue ==>
            StoryApi.BuildPrompt(texts, req) ==
            StoryApi.ContinuePrompt(texts, StoryApi.HistoryContext(Some(ApiHistory(history))), Some(prompt)))
  {
  }

  // ---------------------------------------------------------------------
  // Availability flags

  /** Whether to offer the in-browser model: not declined, not ready, and
      neither unsupported nor already loading. */
  predicate ShouldOfferWebLLM(hasDeclined: bool, ready: bool, status: WebLLMStore.Status)
  {
    !hasDeclined && !ready && status != WebLLMStore.Unsupported &&
    status != WebLLMStore.Downloading && status != WebLLMStore.Loading
  }

  /** With the hook's view of readiness, the offer is made exactly in the
      idle, checking and error states of an undeclined model. */
  lemma ShouldOfferStates(hasDeclined: bool, status: WebLLMStore.Status)
    ensures ShouldOfferWebLLM(hasDeclined, WebLLMHook.IsReady(status), status) <==>
      !hasDeclined && status in {WebLLMStore.Idle, WebLLMStore.Checking, WebLLMStore.Error}
    ensures ShouldOfferWebLLM(hasDeclined, WebLLMHook.IsReady(status), status) ==>
      WebLLMHook.IsSupported(status) && !WebLLMHook.IsLoading(status)
  {
  }

  /** `webLLMReady || serverStatus?.serverAvailable`; None is a status not
      yet fetched. */
  predicate HasAnyAI(webLLMReady: bool, serverAvailable: Option<bool>)
  {
    webLLMReady || serverAvailable == Some(true)
  }

  /** The server-availability flag after the status check: the status
      route's flag, or false when fetching it failed. */
  predicate ServerAvailableAfterCheck(status: Option<Llm.LLMStatus>)
  {
    if status.Some? then Llm.ServerAvailable(status.value) else false
  }

  /** A failed status fetch leaves the server unavailable; a successful one
      says the server is available exactly when a story request would find a
      backend for the same environment and probe. */
  lemma ServerAvailableAfterCheckSpec(env: Llm.Env, localAvailable: bool)
    ensures !ServerAvailableAfterCheck(None)
    ensures ServerAvailableAfterCheck(Some(Llm.GetLLMStatus(env, localAvailable))) <==>
      Llm.GetLLM(env, localAvailable).Ok?
  {
    Llm.ServerAvailableSpec(env, localAvailable);
  }

  /** The "No AI Available" warning is shown only once the check is over
      and neither backend can serve. */
  predicate NoAIWarning(checkingServer: bool, webLLMReady: bool, serverAvailable: Option<bool>,
                        status: WebLLMStore.Status)
  {
    !checkingServer && !HasAnyAI(webLLMReady, serverAvailable) && !WebLLMHook.IsLoading(status)
  }

  lemma NoAIWarningMeansNoBackend(env: Llm.Env, localAvailable: bool, status: WebLLMStore.Status)
    requires NoAIWarning(false, WebLLMHook.IsReady(status),
      Some(ServerAvailableAfterCheck(Some(Llm.GetLLMStatus(env, localAvailable)))), status)
    ensures Llm.GetLLM(env, localAvailable).Err?
    ensures status != WebLLMStore.Ready
  {
    Llm.GetLLMAgreesWithStatus(env, localAvailable);
  }

  // ---------------------------------------------------------------------
  // The screen

  datatype UiState = UiState(
    messages: seq<Message>,
    input: string,
    isLoading: bool,
    hasStarted: bool,
    llmSource: Option<Source>)

  predicate FreshId(ms: seq<Message>, id: string)
  {
    forall k :: 0 <= k < |ms| ==> ms[k].id != id
  }

  class Screen {
    const texts: PromptTexts
    var messages: seq<Message>
    var input: string
    var isLoading: bool
    var hasStarted: bool
    var llmSource: Option<Source>

    function Snapshot(): UiState
      reads this
    {
      UiState(messages, input, isLoading, hasStarted, llmSource)
    }

    /** A fresh screen; the application builds it with `ClientTexts()`. */
    constructor (t: PromptTexts)
      ensures texts == t
      ensures Snapshot() == UiState([], "", false, false, None)
    {
      texts := t;
      messages, input, isLoading, hasStarted, llmSource := [], "", false, false, None;
    }

    /** The input field's change handler. */
    method SetInput(text: string)
      modifies this
      ensures Snapshot() == old(Snapshot()).(input := text)
    {
      input := text;
    }

    /** `generateWithWebLLM`: streams the chunks of the in-browser model into
        message `id`, then labels the source; a thrown error is caught and
        reported as false, keeping whatever was already streamed. */
    method GenerateWithWebLLM(prompt: string, history: seq<Message>, id: string, web: Stream)
      returns (ok: bool, call: WebCall)
      modifies this
      ensures call == WebCall(prompt, HookHistory(history))
      ensures ok <==> web.error.None?
      ensures Snapshot() == old(Snapshot()).(
        messages := Streamed(old(messages), id, web.items),
        llmSource := if ok then Some(WebLLMSource) else old(llmSource))
    {
      call := WebCall(prompt, HookHistory(history));
      var fullContent := "";
      for i := 0 to |web.items|
        invariant fullContent == Concat(web.items[..i])
        invariant messages == Streamed(old(messages), id, web.items[..i])
        invariant Snapshot() == old(Snapshot()).(messages := messages)
      {
        ConcatSnoc(web.items[..i], web.items[i]);
        StreamedSnoc(old(messages), id, web.items[..i], web.items[i]);
        assert web.items[..i + 1] == web.items[..i] + [web.items[i]];
        fullContent := fullContent + web.items[i];
        messages := WithContent(messages, id, fullContent);
      }
      assert web.items[..|web.items|] == web.items;
      if web.error.Some? {
        return false, call;
      }
      llmSource := Some(WebLLMSource);
      return true, call;
    }

    /** `generateWithServer`: posts the request; a failed fetch or a non-ok
        response is false before anything is written; otherwise labels the
        source and streams the body into message `id`, false if a read throws. */
    method GenerateWithServer(action: Action, playerAction: Option<string>, history: seq<Message>,
                              id: string, address: Option<string>, reply: ServerReply)
      returns (ok: bool, request: StoryApi.StoryRequest)
      modifies this
      ensures request == ServerRequest(action, playerAction, history, address)
      ensures ok <==> ServerOk(reply)
      ensures Snapshot() == old(Snapshot()).(
        messages := Streamed(old(messages), id, ServerChunks(reply)),
        llmSource := ServerSourceAfter(old(llmSource), reply))
    {
      request := ServerRequest(action, playerAction, history, address);
      if reply.FetchFails? || !reply.ok {
        return false, request;
      }
      llmSource := Some(ServerSource);
      if reply.body.None? {
        return true, request;
      }
      var chunks := reply.body.value.items;
      var fullContent := "";
      var i := 0;
      while i < |chunks|
        invariant 0 <= i <= |chunks|
        invariant fullContent == Concat(chunks[..i])
        invariant messages == Streamed(old(messages), id, chunks[..i])
        invariant Snapshot() == old(Snapshot()).(messages := messages, llmSource := Some(ServerSource))
      {
        ConcatSnoc(chunks[..i], chunks[i]);
        StreamedSnoc(old(messages), id, chunks[..i], chunks[i]);
        assert chunks[..i + 1] == chunks[..i] + [chunks[i]];
        fullContent := fullContent + chunks[i];
        messages := WithContent(messages, id, fullContent);
        i := i + 1;
      }
      assert chunks[..|chunks|] == chunks;
      ok := reply.body.value.error.None?;
    }

    /** `smartGenerate`: the in-browser model first when eligible; the server
        when that was skipped or failed, with the composed prompt as the
        player action only for "continue"; the error text when both fail. */
    method SmartGenerate(action: Action, prompt: string, history: seq<Message>, id: string,
                         view: WebLLMView, address: Option<string>,
                         web: Stream, reply: ServerReply)
      returns (webCall: Option<WebCall>, serverCall: Option<StoryApi.StoryRequest>)
      modifies this
      ensures webCall.Some? <==> WebEligible(view)
      ensures webCall.Some? ==> webCall.value == WebCall(prompt, HookHistory(history))
      ensures serverCall.None? <==> WebEligible(view) && web.error.None?
      ensures serverCall.Some? ==>
        serverCall.value == ServerRequest(action, if action == Continue then Some(prompt) else None, history, address)
      ensures Snapshot() == old(Snapshot()).(
        messages := SmartMessages(old(messages), id, WebEligible(view), web, reply),
        llmSource := SmartSource(old(llmSource), WebEligible(view), web, reply))
    {
      webCall, serverCall := None, None;
      if view.ready && view.preferWebLLM && !view.hasDeclinedWebLLM {
        var ok, call := GenerateWithWebLLM(prompt, history, id, web);
        webCall := Some(call);
        if ok {
          return;
        }
      }
      var ok, request := GenerateWithServer(action, if action == Continue then Some(prompt) else None,
                                            history, id, address, reply);
      serverCall := Some(request);
      if !ok {
        messages := WithContent(messages, id, ErrorText);
      }
    }

    /** `startStory`: the transcript becomes one empty narrator message,
        which the opening is generated into. */
    method StartStory(openingId: string, now: int, view: WebLLMView, address: Option<string>,
                      web: Stream, reply: ServerReply)
      returns (webCall: Option<WebCall>, serverCall: Option<StoryApi.StoryRequest>)
      modifies this
      ensures webCall.Some? <==> WebEligible(view)
      ensures webCall.Some? ==> webCall.value == WebCall(texts.startPrompt, [])
      ensures serverCall.None? <==> WebEligible(view) && web.error.None?
      ensures serverCall.Some? ==> serverCall.value == ServerRequest(Start, None, [], address)
      ensures Snapshot() == old(Snapshot()).(
        messages := SmartMessages([Message(openingId, Narrator, "", now)], openingId, WebEligible(view), web, reply),
        isLoading := false,
        hasStarted := true,
        llmSource := SmartSource(old(llmSource), WebEligible(view), web, reply))
    {
      isLoading := true;
      hasStarted := true;
      messages := [Message(openingId, Narrator, "", now)];
      webCall, serverCall := SmartGenerate(Start, texts.startPrompt, [], openingId, view, address, web, reply);
      isLoading := false;
    }

    /** `submitAction`: ignored when the trimmed input is empty or a reply
        is being generated; otherwise appends the player's trimmed action
        and an empty narrator message, clears the input, and generates into
        the new message with the transcript before it as history. */
    method SubmitAction(playerId: string, narratorId: string, now: int, view: WebLLMView,
                        address: Option<string>, web: Stream, reply: ServerReply)
      returns (accepted: bool, webCall: Option<WebCall>, serverCall: Option<StoryApi.StoryRequest>)
      requires playerId != narratorId
      requires FreshId(messages, playerId) && FreshId(messages, narratorId)
      modifies this
      ensures accepted <==> Trim(old(input)) != "" && !old(isLoading)
      ensures !accepted ==> Snapshot() == old(Snapshot()) && webCall.None? && serverCall.None?
      ensures accepted ==>
        var action := Trim(old(input));
        var history := old(messages) + [Message(playerId, Player, action, now)];
        var prompt := ContinuePrompt(texts, action);
        && (webCall.Some? <==> WebEligible(view))
        && (webCall.Some? ==> webCall.value == WebCall(prompt, HookHistory(history)))
        && (serverCall.None? <==> WebEligible(view) && web.error.None?)
        && (serverCall.Some? ==> serverCall.value == ServerRequest(Continue, Some(prompt), history, address))
        && Snapshot() == old(Snapshot()).(
             messages := SmartMessages(history + [Message(narratorId, Narrator, "", now)], narratorId,
                                       WebEligible(view), web, reply),
             input := "",
             isLoading := false,
             llmSource := SmartSource(old(llmSource), WebEligible(view), web, reply))
    {
      if Trim(input) == "" || isLoading {
        return false, None, None;
      }
      var playerAction := Trim(input);
      input := "";
      var history := messages + [Message(playerId, Player, playerAction, now)];
      var newMessages := history + [Message(narratorId, Narrator, "", now)];
      messages := newMessages;
      isLoading := true;
      var prompt := ContinuePrompt(texts, playerAction);
      assert newMessages[..|newMessages| - 1] == history;
      webCall, serverCall := SmartGenerate(Continue, prompt, newMessages[..|newMessages| - 1], narratorId,
                                           view, address, web, reply);
      isLoading := false;
      accepted := true;
    }
  }

  /** After a submitted action, whatever the backends do, the transcript
      keeps every earlier message and the player's message, and only the new
      narrator message can differ from the placeholder. */
  lemma SubmitKeepsTranscript(before: seq<Message>, player: Message, placeholder: Message,
                              eligible: bool, web: Stream, reply: ServerReply)
    requires FreshId(before, placeholder.id) && player.id != placeholder.id
    ensures var after := SmartMessages(before + [player, placeholder], placeholder.id, eligible, web, reply);
      && |after| == |before| + 2
      && after[..|before| + 1] == before + [player]
      && after[|before| + 1].id == placeholder.id
  {
    var ms := before + [player, placeholder];
    var after := SmartMessages(ms, placeholder.id, eligible, web, reply);
    SmartMessagesFrame(ms, placeholder.id, eligible, web, reply);
    assert forall k :: 0 <= k < |before| + 1 ==> ms[k].id != placeholder.id;
    assert after[..|before| + 1] == ms[..|before| + 1];
    assert ms[..|before| + 1] == before + [player];
  }
}
