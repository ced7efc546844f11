/**
 * The story route on the server: the system context (the world text plus an
 * optional wallet sentence), the prompt for a "start" or "continue" turn
 * built from role-prefixed history lines, and the response it returns.
 *
 * The route's three long fixed texts are gathered in a `RouteTexts` value;
 * `Texts()` holds their exact contents, and every function that uses them
 * takes the record as its first argument, so each property below holds for
 * the real texts as a special case of holding for any.
 */
module StoryApi {
  import opened Common
  import Llm

  /** The narrator's world description (the system text of every request),
      the prompt of a "start" turn, and the instructions that close every
      "continue" prompt. */
  datatype RouteTexts = RouteTexts(worldContext: string, startPrompt: string, continueInstructions: string)

  function WorldContextLines(): seq<string>
  {
    [
      "You are the narrator for Tales of Tasern, an interactive fiction experience set in a unique fantasy world.",
      "",
      "## THE WORLD",
      "",
      "Tasern exists at the edge of reality, where time moves slowly and existence itself thins toward Oblivion. It orbits twin suns:",
      "- The Tear: A wound in reality where endless unmaking fire roars",
      "- The Castle of Light: A sun-castle forged from belief where local gods dwell",
      "",
      "Three moons watch over Tasern:",
      "- White Moon: Frozen wasteland ruled by ice dragons. Pure hunger.",
      "- Green Moon: Endless jungle where life grows without restraint. The forest watches and remembers.",
      "- Blue Moon: Endless ocean where pirates sail seas that sometimes rise into sky.",
      "",
      "## THE RULE OF BELIEF",
      "",
      "In Tasern, BELIEF IS MAGIC. What enough minds hold true becomes true. Gods rise from prayers. Fear feeds monsters. Hope feeds miracles. This means:",
      "- Contradictory truths can coexist",
      "- Strong belief can shape local reality",
      "- History is negotiated, not fixed",
      "",
      "## THE FACTIONS",
      "",
      "1. Elves of Elpha ($EGP): Patient planners who live 1000 years. Finest enchanted craftwork. Ancient war with orks.",
      "2. Dwarves of Argenti: Solitary perfectionists in silver mountains. Seek permanence over glory.",
      "3. Durgan Dynasty ($DDD): Human traders with flying ships. 500-year empire built on connection.",
      "4. Pirates of Thousand Kingdoms ($PKT): Chaos, freedom, off-world vessels, smuggled beliefs.",
      "5. Igypt ($IGS): Desert city where fear is sacred. The Vigilant Dead protect across generations.",
      "6. Dragons ($DHG): Immortal if fed. Divided by color and clan. Demand tribute.",
      "7. Orks of Orklin ($OGC): Industrial revolution. War machines. They are ADVANCING.",
      "8. Druids ($BTN): Balance keepers. Some nurture growth, others bring rot and plague.",
      "",
      "## GEOGRAPHY",
      "",
      "Main continent Tern includes:",
      "- West Wood: Ancient forest where paths change when spoken of confidently",
      "- Skrim: Cold northern lands where endurance is prayer",
      "- Argenti: Silver mountains, dwarven study-cities",
      "- Manlan: Southern heat, Durgan Dynasty capital with floating villas",
      "- Elpha: Fertile heartland of the elves",
      "- Orklin: Volcanic badlands, orc industry rising",
      "",
      "Other lands: Thousand Kingdoms (pirate archipelago), Greyhills (ancient ruins), Lanice (ice-locked), Londa (information traders), Cubek (belief-based cities), Stralia (partner-beasts, Green Moon connection)",
      "",
      "## NARRATIVE STYLE",
      "",
      "- Write in second person (\"You see...\", \"You feel...\")",
      "- Rich, evocative prose with sensory detail",
      "- Let the world feel alive and reactive",
      "- NPCs should have distinct voices reflecting their faction",
      "- Embrace the strangeness—this is the edge of existence",
      "- Actions have consequences; belief has weight",
      "- Never break character or reference game mechanics",
      "",
      "## STORY ARRIVAL",
      "",
      "New characters arrive through the cosmic drain—falling from dying worlds, displaced by collapsing realities, or simply lost until Tasern's slow gravity caught them. They wake confused, their old certainties shaken."]
  }

  function StartPromptLines(): seq<string>
  {
    [
      "Begin an interactive story for a new arrival to Tasern.",
      "",
      "The character has just fallen through the cosmic drain—that space between dying worlds where Tasern's slow gravity catches the lost. They're waking up somewhere on Tasern (you choose where—make it interesting and evocative).",
      "",
      "Describe their arrival with rich sensory detail. Establish the strangeness of this world at the edge of existence. End with a situation that invites action—perhaps they see something, someone approaches, or they face an immediate choice.",
      "",
      "Do NOT ask them questions directly. Simply narrate their arrival and leave space for them to act.",
      "",
      "Keep the opening to 2-3 paragraphs. Make it memorable."]
  }

  function ContinueInstructionLines(): seq<string>
  {
    [
      "Continue the story based on the player's action. React to what they do naturally within the world's logic. Remember:",
      "- Belief shapes reality in Tasern",
      "- NPCs have their own goals and personalities",
      "- The world is alive and reactive",
      "- Consequences flow from actions",
      "",
      "Write 2-4 paragraphs continuing the narrative. End in a way that invites further action."]
  }

  /** The texts the route is written with, each one its lines joined by newlines. */
  function Texts(): RouteTexts
  {
    RouteTexts(
      Join(WorldContextLines(), "\n"),
      Join(StartPromptLines(), "\n"),
      Join(ContinueInstructionLines(), "\n"))
  }

  /** A history entry as the client posts it: a free-form role and a text. */
  datatype HistoryEntry = HistoryEntry(role: string, content: string)

  /** The JSON body fields the route reads; None stands for `undefined`. */
  datatype StoryRequest = StoryRequest(
    action: string,
    playerAction: Option<string>,
    history: Option<seq<HistoryEntry>>,
    address: Option<string>)

  /** The request body as the route reads it:
      - `Malformed`: reading it throws (invalid JSON, or a value that cannot
        be destructured), with the thrown message;
      - `BadHistory`: it parses, but its `history` is neither absent nor an
        array of objects (a non-array value, or an array holding null), so
        building a "continue" prompt throws a TypeError with this message;
        `request` carries the other fields, and its `history` is not read;
      - `Parsed`: well-typed fields. */
  datatype RequestBody =
    | Malformed(parseError: string)
    | BadHistory(request: StoryRequest, typeError: string)
    | Parsed(request: StoryRequest)

  /** Whether building the prompt throws: only a "continue" turn reads the
      history. */
  predicate PromptThrows(body: RequestBody)
  {
    body.BadHistory? && body.request.action != "start"
  }

  /** What `streamText` is asked to do, and what the client gets back. */
  datatype StoryResponse =
    | Streaming(providerHeader: string, modelHeader: string, system: string, prompt: string)
    | Failed(status: int, body: string)

  /** A JavaScript template renders `undefined` as the text "undefined". */
  function TemplateText(v: Option<string>): string
  {
    if v.Some? then v.value else "undefined"
  }

  function WalletSentence(address: string): string
  {
    "\n\nThe player's wallet address is " + address + ". This is their persistent identity across sessions."
  }

  /** The world text, with the wallet sentence appended only for a truthy address. */
  function SystemContext(texts: RouteTexts, address: Option<string>): string
  {
    if Truthy(address) then texts.worldContext + WalletSentence(address.value) else texts.worldContext
  }

  /** An absent or empty address leaves the world text alone; a non-empty one
      always changes it, and two different addresses never give the same
      system text. */
  lemma SystemContextSpec(texts: RouteTexts, a: Option<string>, b: Option<string>)
    ensures SystemContext(texts, a) == texts.worldContext <==> !Truthy(a)
    ensures Truthy(a) && Truthy(b) && SystemContext(texts, a) == SystemContext(texts, b) ==> a == b
  {
    if Truthy(a) {
      AppendNonEmpty(texts.worldContext, WalletSentence(a.value));
      if Truthy(b) && SystemContext(texts, a) == SystemContext(texts, b) {
        AppendCancelLeft(texts.worldContext, WalletSentence(a.value), WalletSentence(b.value));
        InfixCancel("\n\nThe player's wallet address is ", a.value, b.value,
          ". This is their persistent identity across sessions.");
      }
    }
  }

  /** The line one history entry maps to; "" for roles other than narrator and player. */
  function HistoryLine(m: HistoryEntry): string
  {
    if m.role == "narrator" then "[Narrator]: " + m.content
    else if m.role == "player" then "[Player Action]: " + m.content
    else ""
  }

  /** `history.map(HistoryLine)`. */
  function MapLines(history: seq<HistoryEntry>): seq<string>
  {
    if |history| == 0 then [] else [HistoryLine(history[0])] + MapLines(history[1..])
  }

  /** `history?.map(...).filter(Boolean).join("\n\n")`; an absent history
      renders as "undefined" in the prompt template. */
  function HistoryContext(history: Option<seq<HistoryEntry>>): string
  {
    if history.None? then "undefined" else Join(DropEmpty(MapLines(history.value)), "\n\n")
  }

  predicate IsConversational(m: HistoryEntry)
  {
    m.role == "narrator" || m.role == "player"
  }

  /** Reference definition: one line per narrator or player entry, in order. */
  function ConversationLines(history: seq<HistoryEntry>): seq<string>
  {
    if |history| == 0 then []
    else if IsConversational(history[0]) then
      (if history[0].role == "narrator" then ["[Narrator]: " + history[0].content]
       else ["[Player Action]: " + history[0].content]) + ConversationLines(history[1..])
    else ConversationLines(history[1..])
  }

  /** The empty-string filter removes exactly the lines of other roles: a
      narrator or player entry is kept even when its content is empty. */
  lemma {:induction false} DropEmptyKeepsConversation(history: seq<HistoryEntry>)
    ensures DropEmpty(MapLines(history)) == ConversationLines(history)
  {
    if |history| > 0 {
      DropEmptyKeepsConversation(history[1..]);
      var m := history[0];
      assert MapLines(history) == [HistoryLine(m)] + MapLines(history[1..]);
      assert ([HistoryLine(m)] + MapLines(history[1..]))[1..] == MapLines(history[1..]);
      if IsConversational(m) {
        assert HistoryLine(m) != "" by {
          if m.role == "narrator" { assert HistoryLine(m)[0] == '['; }
          else { assert HistoryLine(m)[0] == '['; }
        }
      }
    }
  }

  /** The entries a prompt is built from: narrator and player turns, in order. */
  function ConversationEntries(history: seq<HistoryEntry>): (kept: seq<HistoryEntry>)
    ensures |kept| <= |history|
    ensures forall k :: 0 <= k < |kept| ==> IsConversational(kept[k])
  {
    if |history| == 0 then []
    else if IsConversational(history[0]) then [history[0]] + ConversationEntries(history[1..])
    else ConversationEntries(history[1..])
  }

  lemma {:induction false} ConversationLinesOfEntries(history: seq<HistoryEntry>)
    ensures ConversationLines(ConversationEntries(history)) == ConversationLines(history)
  {
    if |history| > 0 {
      ConversationLinesOfEntries(history[1..]);
      if IsConversational(history[0]) {
        var kept := [history[0]] + ConversationEntries(history[1..]);
        assert kept[0] == history[0];
        assert kept[1..] == ConversationEntries(history[1..]);
      }
    }
  }

  /** The prompt of a "continue" turn: the history, the player's action, then
      the fixed instructions. */
  function ContinuePrompt(texts: RouteTexts, historyContext: string, playerAction: Option<string>): string
  {
    historyContext + "\n\n[Player Action]: " + TemplateText(playerAction) + "\n\n" + texts.continueInstructions
  }

  /** "start" yields the fixed opening prompt; any other action continues. */
  function BuildPrompt(texts: RouteTexts, req: StoryRequest): string
  {
    if req.action == "start" then texts.startPrompt
    else ContinuePrompt(texts, HistoryContext(req.history), req.playerAction)
  }

  /** A "start" prompt is the fixed opening whatever the history and player
      action; a "continue" prompt is unchanged when the history entries of
      other roles are removed. */
  lemma BuildPromptIgnores(texts: RouteTexts, req: StoryRequest,
                           history: Option<seq<HistoryEntry>>, playerAction: Option<string>)
    ensures req.action == "start" ==>
      BuildPrompt(texts, req) == texts.startPrompt ==
      BuildPrompt(texts, req.(history := history, playerAction := playerAction))
    ensures req.history.Some? ==>
      BuildPrompt(texts, req) == BuildPrompt(texts, req.(history := Some(ConversationEntries(req.history.value))))
  {
    if req.history.Some? {
      var h := req.history.value;
      DropEmptyKeepsConversation(h);
      DropEmptyKeepsConversation(ConversationEntries(h));
      ConversationLinesOfEntries(h);
    }
  }

  /** Two "continue" prompts over the same history context are equal only
      when the player actions render to the same text: the action is carried
      verbatim between the history and the fixed instructions. */
  lemma ContinuePromptCarriesAction(texts: RouteTexts, h: string, a: Option<string>, b: Option<string>)
    requires ContinuePrompt(texts, h, a) == ContinuePrompt(texts, h, b)
    ensures TemplateText(a) == TemplateText(b)
  {
    var pre := h + "\n\n[Player Action]: ";
    var post := "\n\n" + texts.continueInstructions;
    assert ContinuePrompt(texts, h, a) == pre + TemplateText(a) + post;
    assert ContinuePrompt(texts, h, b) == pre + TemplateText(b) + post;
    InfixCancel(pre, TemplateText(a), TemplateText(b), post);
  }

  function ProviderName(p: Llm.Provider): string
  {
    match p
    case Local => "local"
    case Anthropic => "anthropic"
  }

  const FailurePrefix: string := "Failed to generate story: "

  /** How the call that opens the model's text stream ends: it starts, or it
      throws (with the message of an Error, or None for any other value). */
  datatype StreamStart = Started | Threw(message: Option<string>)

  /** The text the catch block reports for a thrown value. */
  function ThrownText(message: Option<string>): string
  {
    if message.Some? then message.value else "Unknown error"
  }

  /** `POST /api/story`, given the body, the backend choice inputs and how
      opening the stream ends: a streaming response labelled with the chosen
      provider and model and carrying the system text and prompt, or a 500
      naming the first error thrown (an unreadable body, then no backend,
      then a history the prompt cannot be built from, then a failure to open
      the stream). */
  function Post(texts: RouteTexts, body: RequestBody, env: Llm.Env, localAvailable: bool, start: StreamStart): (r: StoryResponse)
    ensures r.Failed? <==>
      body.Malformed? || Llm.GetLLM(env, localAvailable).Err? || PromptThrows(body) || start.Threw?
    ensures r.Failed? ==> r.status == 500 && FailurePrefix <= r.body
    ensures body.Malformed? ==> r == Failed(500, FailurePrefix + body.parseError)
    ensures !body.Malformed? && Llm.GetLLM(env, localAvailable).Err? ==>
      r == Failed(500, FailurePrefix + Llm.NoLLMMessage)
    ensures PromptThrows(body) && Llm.GetLLM(env, localAvailable).Ok? ==>
      r == Failed(500, FailurePrefix + body.typeError)
    ensures !body.Malformed? && !PromptThrows(body) && Llm.GetLLM(env, localAvailable).Ok? && start.Threw? ==>
      r == Failed(500, FailurePrefix + ThrownText(start.message))
    ensures r.Streaming? ==>
      var cfg := Llm.GetLLM(env, localAvailable).value;
      && r.providerHeader == ProviderName(cfg.provider)
      && r.modelHeader == cfg.model
      && r.system == SystemContext(texts, body.request.address)
      && r.prompt == BuildPrompt(texts, body.request)
  {
    match body
    case Malformed(e) => Failed(500, FailurePrefix + e)
    case BadHistory(req, e) =>
      if req.action == "start" then Answer(texts, req, env, localAvailable, start)
      else if Llm.GetLLM(env, localAvailable).Err? then Failed(500, FailurePrefix + Llm.GetLLM(env, localAvailable).error)
      else Failed(500, FailurePrefix + e)
    case Parsed(req) => Answer(texts, req, env, localAvailable, start)
  }

  /** The route's answer once the body has been read and the prompt can be
      built: no backend, a failure to open the stream, or the stream. */
  function Answer(texts: RouteTexts, req: StoryRequest, env: Llm.Env, localAvailable: bool, start: StreamStart): StoryResponse
  {
    match Llm.GetLLM(env, localAvailable)
    case Err(e) => Failed(500, FailurePrefix + e)
    case Ok(cfg) =>
      match start
      case Threw(m) => Failed(500, FailurePrefix + ThrownText(m))
      case Started =>
        Streaming(ProviderName(cfg.provider), cfg.model, SystemContext(texts, req.address), BuildPrompt(texts, req))
  }
}
