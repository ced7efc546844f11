/**
 * The browser-side hook for a local Ollama service: the probe of its model
 * list and the choice of the model to use, and the streaming `generate`
 * that reads newline-delimited JSON and yields each non-empty `response`.
 *
 * The network is an input (`TagsProbe`, `GenerateReply`), and so is
 * `JSON.parse`: the `field` oracle gives, for one line, the `response`
 * string of the object it parses to, or None when the line does not parse
 * or carries no such field.
 */
module LocalOllama {
  import opened Common

  const OllamaUrl: string := "http://localhost:11434"
  const DefaultModel: string := "llama3.2"

  datatype OllamaStatus = OllamaStatus(available: bool, models: seq<string>, selectedModel: string)

  function InitialStatus(): OllamaStatus
  {
    OllamaStatus(false, [], DefaultModel)
  }

  /** How the three-second probe of `/api/tags` ended: it threw (network
      error, abort, or a body that is not JSON), answered not-ok, or answered
      ok with a `models` list of names (None when the field is absent). */
  datatype TagsProbe = ProbeThrows | ProbeNotOk | ProbeOk(models: Option<seq<string>>)

  /** The default model when it is listed, else the first listed name when
      that is non-empty, else the default. */
  function SelectModel(models: seq<string>): (m: string)
    ensures m != ""
    ensures m == DefaultModel || m in models
    ensures DefaultModel in models ==> m == DefaultModel
    ensures DefaultModel !in models && |models| > 0 && models[0] != "" ==> m == models[0]
  {
    if DefaultModel in models then DefaultModel
    else if |models| > 0 && models[0] != "" then models[0]
    else DefaultModel
  }

  /** The hook's status after the probe. */
  function AfterProbe(st: OllamaStatus, probe: TagsProbe): OllamaStatus
  {
    match probe
    case ProbeThrows => st.(available := false)
    case ProbeNotOk => st
    case ProbeOk(listed) =>
      var models := if listed.Some? then listed.value else [];
      OllamaStatus(true, models, SelectModel(models))
  }

  /** An ok probe makes the service available with a listed (or the default)
      model selected; a throwing probe only clears availability; a not-ok
      answer changes nothing. */
  lemma AfterProbeSpec(st: OllamaStatus, probe: TagsProbe)
    ensures probe.ProbeOk? ==>
      var r := AfterProbe(st, probe);
      r.available && (r.selectedModel == DefaultModel || r.selectedModel in r.models) &&
      r.models == (if probe.models.Some? then probe.models.value else [])
    ensures probe.ProbeThrows? ==>
      !AfterProbe(st, probe).available &&
      AfterProbe(st, probe).models == st.models && AfterProbe(st, probe).selectedModel == st.selectedModel
    ensures probe.ProbeNotOk? ==> AfterProbe(st, probe) == st
  {
  }

  // ---------------------------------------------------------------------
  // Streaming generation

  /** The lines of one decoded chunk: `chunk.split("\n").filter(Boolean)`. */
  function ChunkLines(chunk: string): (lines: seq<string>)
  {
    DropEmpty(Split(chunk, '\n'))
  }

  /** The truthy `response` fields of the lines, in order. */
  function LineResponses(lines: seq<string>, field: string -> Option<string>): seq<string>
  {
    if |lines| == 0 then []
    else
      var here := if field(lines[0]).Some? && field(lines[0]).value != "" then [field(lines[0]).value] else [];
      here + LineResponses(lines[1..], field)
  }

  /** What the reading loop yields for a sequence of decoded chunks. */
  function ChunkResponses(chunks: seq<string>, field: string -> Option<string>): seq<string>
  {
    if |chunks| == 0 then []
    else LineResponses(ChunkLines(chunks[0]), field) + ChunkResponses(chunks[1..], field)
  }

  lemma {:induction false} LineResponsesAppend(a: seq<string>, b: seq<string>, field: string -> Option<string>)
    ensures LineResponses(a + b, field) == LineResponses(a, field) + LineResponses(b, field)
  {
    if |a| == 0 {
      assert a + b == b;
    } else {
      assert (a + b)[1..] == a[1..] + b;
      LineResponsesAppend(a[1..], b, field);
    }
  }

  /** Chunks are processed in order: the responses of a longer stream
      extend those of its prefix (line-then-chunk order). */
  lemma {:induction false} ChunkResponsesAppend(a: seq<string>, b: seq<string>, field: string -> Option<string>)
    ensures ChunkResponses(a + b, field) == ChunkResponses(a, field) + ChunkResponses(b, field)
  {
    if |a| == 0 {
      assert a + b == b;
    } else {
      assert (a + b)[1..] == a[1..] + b;
      ChunkResponsesAppend(a[1..], b, field);
    }
  }

  /** A line that does not parse, or parses without a truthy `response`,
      is skipped without affecting the rest. */
  lemma LineResponsesSkip(a: seq<string>, line: string, b: seq<string>, field: string -> Option<string>)
    requires field(line).None? || field(line) == Some("")
    ensures LineResponses(a + [line] + b, field) == LineResponses(a + b, field)
  {
    LineResponsesAppend(a + [line], b, field);
    LineResponsesAppend(a, [line], field);
    LineResponsesAppend(a, b, field);
  }

  /** Nothing empty is ever yielded. */
  lemma {:induction false} ChunkResponsesNonEmpty(chunks: seq<string>, field: string -> Option<string>)
    ensures forall k :: 0 <= k < |ChunkResponses(chunks, field)| ==> ChunkResponses(chunks, field)[k] != ""
  {
    if |chunks| > 0 {
      LineResponsesNonEmpty(ChunkLines(chunks[0]), field);
      ChunkResponsesNonEmpty(chunks[1..], field);
    }
  }

  lemma {:induction false} LineResponsesNonEmpty(lines: seq<string>, field: string -> Option<string>)
    ensures forall k :: 0 <= k < |LineResponses(lines, field)| ==> LineResponses(lines, field)[k] != ""
  {
    if |lines| > 0 {
      LineResponsesNonEmpty(lines[1..], field);
    }
  }

  /** The inner loop of `generate` over one chunk's lines: each line's
      truthy `response` is yielded, in order. */
  method ReadLines(lines: seq<string>, field: string -> Option<string>) returns (items: seq<string>)
    ensures items == LineResponses(lines, field)
  {
    items := [];
    for j := 0 to |lines|
      invariant items == LineResponses(lines[..j], field)
    {
      LineResponsesAppend(lines[..j], [lines[j]], field);
      assert lines[..j + 1] == lines[..j] + [lines[j]];
      var r := field(lines[j]);
      if r.Some? && r.value != "" {
        items := items + [r.value];
      }
    }
    assert lines[..|lines|] == lines;
  }

  /** The reading loop of `generate`: every decoded chunk is split into
      non-empty lines, and each line's truthy `response` is yielded, in
      line-then-chunk order. */
  method ReadChunks(chunks: seq<string>, field: string -> Option<string>) returns (items: seq<string>)
    ensures items == ChunkResponses(chunks, field)
  {
    items := [];
    for i := 0 to |chunks|
      invariant items == ChunkResponses(chunks[..i], field)
    {
      var here := ReadLines(ChunkLines(chunks[i]), field);
      items := items + here;
      ChunkResponsesAppend(chunks[..i], [chunks[i]], field);
      assert chunks[..i + 1] == chunks[..i] + [chunks[i]];
    }
    assert chunks[..|chunks|] == chunks;
  }

  /** The decimal digits of a status code, as a template literal prints it. */
  function DecimalString(n: nat): (s: string)
    ensures |s| >= 1
    ensures forall k :: 0 <= k < |s| ==> '0' <= s[k] <= '9'
  {
    var digit := ['0' + (n % 10) as char];
    if n < 10 then digit else DecimalString(n / 10) + digit
  }

  /** Reading decimal digits back. */
  function FromDecimal(s: string): nat
    requires forall k :: 0 <= k < |s| ==> '0' <= s[k] <= '9'
  {
    if |s| == 0 then 0 else 10 * FromDecimal(s[..|s| - 1]) + (s[|s| - 1] - '0') as nat
  }

  /** The digits printed are those of the code: reading them gives it back. */
  lemma {:induction false} DecimalRoundTrip(n: nat)
    ensures FromDecimal(DecimalString(n)) == n
  {
    var s := DecimalString(n);
    assert s[..|s| - 1] == (if n < 10 then [] else DecimalString(n / 10));
    if n >= 10 {
      DecimalRoundTrip(n / 10);
    }
  }

  /** The body of the POST to `/api/generate`. */
  datatype GenerateRequest = GenerateRequest(model: string, prompt: string, system: string, stream: bool)

  /** How the POST ended: it threw, or a response arrived with its `ok`
      flag, status code and, when it has a body, the decoded chunks read
      from it (ending in an error if a read throws). */
  datatype GenerateReply =
    | GenerateThrows(message: string)
    | GenerateResponded(ok: bool, statusCode: nat, body: Option<Stream>)

  const NotAvailableText: string := "Local Ollama not available"
  const NoBodyText: string := "No response body"

  class Hook {
    var status: OllamaStatus
    var isChecking: bool

    constructor ()
      ensures status == InitialStatus() && isChecking
    {
      status := InitialStatus();
      isChecking := true;
    }

    /** `checkOllama`: interprets the probe and always ends the check. */
    method CheckOllama(probe: TagsProbe)
      modifies this
      ensures status == AfterProbe(old(status), probe)
      ensures !isChecking
    {
      match probe {
        case ProbeThrows =>
          status := status.(available := false);
        case ProbeNotOk =>
        case ProbeOk(listed) =>
          var models := if listed.Some? then listed.value else [];
          status := OllamaStatus(true, models, SelectModel(models));
      }
      isChecking := false;
    }

    /** `generate`: refuses when the service is not available; posts the
        request with the selected model; fails on a thrown request, a not-ok
        status and a missing body; otherwise reads every chunk, splits it
        into non-empty lines and yields each truthy `response`, ending with
        the read error if one was thrown. */
    method Generate(prompt: string, systemPrompt: string, reply: GenerateReply,
                    field: string -> Option<string>)
      returns (request: Option<GenerateRequest>, out: Stream)
      ensures !status.available ==> request.None? && out == Stream([], Some(NotAvailableText))
      ensures status.available ==> request == Some(GenerateRequest(status.selectedModel, prompt, systemPrompt, true))
      ensures status.available ==> match reply
        case GenerateThrows(message) => out == Stream([], Some(message))
        case GenerateResponded(ok, code, body) =>
          if !ok then out == Stream([], Some("Ollama error: " + DecimalString(code)))
          else if body.None? then out == Stream([], Some(NoBodyText))
          else out == Stream(ChunkResponses(body.value.items, field), body.value.error)
    {
      if !status.available {
        return None, Stream([], Some(NotAvailableText));
      }
      request := Some(GenerateRequest(status.selectedModel, prompt, systemPrompt, true));
      if reply.GenerateThrows? {
        return request, Stream([], Some(reply.message));
      }
      if !reply.ok {
        return request, Stream([], Some("Ollama error: " + DecimalString(reply.statusCode)));
      }
      if reply.body.None? {
        return request, Stream([], Some(NoBodyText));
      }
      var items := ReadChunks(reply.body.value.items, field);
      out := Stream(items, reply.body.value.error);
    }
  }
}
