/**
 * Server-side backend choice: a local Ollama-compatible service when it is
 * preferred and answers its probe, otherwise the hosted Anthropic model when
 * an API key is configured, otherwise no backend at all.
 */
module Llm {
  import opened Common

  /** The environment variables the choice reads; None means unset. */
  datatype Env = Env(
    localUrl: Option<string>,
    localModel: Option<string>,
    preferLocal: Option<string>,
    anthropicKey: Option<string>)

  datatype Provider = Local | Anthropic

  datatype Active = ActiveLocal | ActiveAnthropic | NoneActive

  datatype LLMConfig = LLMConfig(provider: Provider, model: string, baseURL: Option<string>, available: bool)

  datatype LLMStatus = LLMStatus(
    localAvailable: bool,
    localUrl: string,
    localModel: string,
    anthropicAvailable: bool,
    active: Active)

  const DefaultLocalUrl: string := "http://localhost:11434"
  const DefaultLocalModel: string := "llama3.2"
  const AnthropicModel: string := "claude-sonnet-4-20250514"
  const NoLLMMessage: string := "No LLM available: Local LLM offline and ANTHROPIC_API_KEY not set"

  /** How the two-second probe of `<baseURL>/api/tags` ended. */
  datatype ProbeOutcome = Aborted | FetchFailed | Responded(ok: bool)

  /** `checkLocalLLM` never throws: an abort or a fetch error reads as false. */
  function CheckLocalLLM(p: ProbeOutcome): (available: bool)
    ensures available <==> p == Responded(true)
  {
    match p
    case Responded(ok) => ok
    case _ => false
  }

  function LocalBaseUrl(env: Env): (url: string)
    ensures !Truthy(env.localUrl) ==> url == DefaultLocalUrl
    ensures Truthy(env.localUrl) ==> url == env.localUrl.value
  {
    OrDefault(env.localUrl, DefaultLocalUrl)
  }

  function LocalModel(env: Env): (model: string)
    ensures !Truthy(env.localModel) ==> model == DefaultLocalModel
    ensures Truthy(env.localModel) ==> model == env.localModel.value
  {
    OrDefault(env.localModel, DefaultLocalModel)
  }

  /** Local is preferred unless PREFER_LOCAL_LLM is exactly "false". */
  predicate PreferLocal(env: Env)
  {
    env.preferLocal != Some("false")
  }

  predicate AnthropicAvailable(env: Env)
  {
    Truthy(env.anthropicKey)
  }

  /** `getLLM`, given the result of the local probe (consulted only when local
      is preferred); the thrown error is the Err case. */
  function GetLLM(env: Env, localAvailable: bool): (r: Result<LLMConfig, string>)
    ensures r.Ok? && r.value.provider == Local <==> PreferLocal(env) && localAvailable
    ensures r.Ok? && r.value.provider == Local ==>
      r.value == LLMConfig(Local, LocalModel(env), Some(LocalBaseUrl(env)), true)
    ensures r.Ok? && r.value.provider == Anthropic ==>
      r.value == LLMConfig(Anthropic, AnthropicModel, None, true)
    ensures r.Err? <==> !(PreferLocal(env) && localAvailable) && !AnthropicAvailable(env)
    ensures r.Err? ==> r.error == NoLLMMessage
  {
    if PreferLocal(env) && localAvailable then
      Ok(LLMConfig(Local, LocalModel(env), Some(LocalBaseUrl(env)), true))
    else if !AnthropicAvailable(env) then
      Err(NoLLMMessage)
    else
      Ok(LLMConfig(Anthropic, AnthropicModel, None, true))
  }

  /** `getLLMStatus`: always probes, and reports the probe even when local is
      not preferred. */
  function GetLLMStatus(env: Env, localAvailable: bool): (s: LLMStatus)
    ensures s.localAvailable == localAvailable
    ensures s.localUrl == LocalBaseUrl(env) && s.localModel == LocalModel(env)
    ensures s.anthropicAvailable <==> AnthropicAvailable(env)
    ensures s.active == ActiveLocal <==> PreferLocal(env) && localAvailable
    ensures s.active == ActiveAnthropic <==> !(PreferLocal(env) && localAvailable) && AnthropicAvailable(env)
  {
    var active :=
      if PreferLocal(env) && localAvailable then ActiveLocal
      else if AnthropicAvailable(env) then ActiveAnthropic
      else NoneActive;
    LLMStatus(localAvailable, LocalBaseUrl(env), LocalModel(env), AnthropicAvailable(env), active)
  }

  /** The status route's `serverAvailable` flag. */
  predicate ServerAvailable(s: LLMStatus)
  {
    s.active != NoneActive
  }

  /** The route reports the server available exactly when some backend is
      configured to serve: local preferred and answering, or an Anthropic
      key set; that is, exactly when a story request would find a backend. */
  lemma ServerAvailableSpec(env: Env, localAvailable: bool)
    ensures ServerAvailable(GetLLMStatus(env, localAvailable)) <==>
      (PreferLocal(env) && localAvailable) || AnthropicAvailable(env)
    ensures ServerAvailable(GetLLMStatus(env, localAvailable)) <==> GetLLM(env, localAvailable).Ok?
  {
    var s := GetLLMStatus(env, localAvailable);
    assert s.active == ActiveLocal <==> PreferLocal(env) && localAvailable;
  }

  /** For the same environment and probe result, the backend `getLLM` picks is
      the one `getLLMStatus` reports as active, and `getLLM` fails exactly when
      the status says no backend is active. */
  lemma GetLLMAgreesWithStatus(env: Env, localAvailable: bool)
    ensures GetLLM(env, localAvailable).Err? <==> !ServerAvailable(GetLLMStatus(env, localAvailable))
    ensures GetLLM(env, localAvailable).Ok? ==>
      (GetLLM(env, localAvailable).value.provider == Local <==>
       GetLLMStatus(env, localAvailable).active == ActiveLocal)
  {
  }

  /** When local is not preferred, the probe result cannot change the choice. */
  lemma GetLLMIgnoresProbeUnlessPreferred(env: Env)
    requires !PreferLocal(env)
    ensures GetLLM(env, true) == GetLLM(env, false)
  {
  }
}
