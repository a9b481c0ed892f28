/** Applying the configuration fetched from the backend to the service
    settings: each field is overwritten only when the backend supplied a
    value for it, and the personality and contact entries are merged key
    by key. Fetching the configuration over HTTP is outside the model. */
module BackendConfig {
  import opened Text
  import opened ModelConstants

  /** A JSON value as the backend sends it, reduced to the scalars the
      settings hold. */
  datatype Value = Null | Bool(b: bool) | Num(x: real) | Str(s: string)

  /** Python truthiness of a value. */
  predicate Truthy(v: Value) {
    match v
    case Null => false
    case Bool(b) => b
    case Num(x) => x != 0.0
    case Str(s) => s != ""
  }

  /** `d.get(key)`: `None` for a missing key. */
  function Get(d: map<string, Value>, key: string): Value {
    if key in d then d[key] else Null
  }

  /** The fetched configuration. */
  datatype BackendConfigResponse = BackendConfigResponse(
    llmConfig: map<string, Value>, chatConfig: map<string, Value>,
    personality: map<string, Value>, contactInfo: map<string, Value>,
    environment: Value, debug: Value)

  /** The settings fields the backend can change. A `None` personality or
      contact entry stands for an attribute that is missing or not a
      dictionary. */
  datatype SettingsState = SettingsState(
    defaultModel: Value, maxTokens: Value, temperature: Value,
    maxContextLength: Value, contextWindowMinutes: Value, maxResponseTokens: Value, streamDelayMs: Value,
    environment: Value, debug: Value,
    personality: Option<map<string, Value>>, contactInfo: Option<map<string, Value>>)

  const PersonalityKeys: seq<string> := ["name", "persona", "personality", "creativityLevel"]
  const ContactKeys: seq<string> := ["hotline", "email", "website", "address"]

  /** The model name a backend model value selects: mapped when it is a
      known key, kept as it is otherwise. */
  function MappedModel(v: Value): (r: Value)
    ensures v.Str? && v.s in ModelMapping ==> r == Str(ModelMapping[v.s])
    ensures !(v.Str? && v.s in ModelMapping) ==> r == v
  {
    if v.Str? && v.s in ModelMapping then Str(ModelMapping[v.s]) else v
  }

  /** The keys of `keys` that `src` holds with a truthy value. */
  predicate Overrides(src: map<string, Value>, keys: seq<string>, k: string) {
    k in keys && k in src && Truthy(src[k])
  }

  /** `target` with the overriding keys of `src` copied in, in list order. */
  function Overlay(target: map<string, Value>, src: map<string, Value>, keys: seq<string>): (r: map<string, Value>)
    ensures forall k :: Overrides(src, keys, k) ==> k in r && r[k] == src[k]
    ensures forall k :: !Overrides(src, keys, k) ==> (k in r <==> k in target) && (k in target ==> r[k] == target[k])
  {
    if |keys| == 0 then target
    else
      var init := keys[..|keys| - 1];
      var key := keys[|keys| - 1];
      var t := Overlay(target, src, init);
      assert forall k :: k in keys <==> k in init || k == key;
      if key in src && Truthy(src[key]) then t[key := src[key]] else t
  }

  /** Merging the same entries again changes nothing. */
  lemma OverlayIdempotent(target: map<string, Value>, src: map<string, Value>, keys: seq<string>)
    ensures Overlay(Overlay(target, src, keys), src, keys) == Overlay(target, src, keys)
  {
    var once := Overlay(target, src, keys);
    var twice := Overlay(once, src, keys);
    assert forall k :: k in twice <==> k in once;
    assert forall k :: k in twice ==> twice[k] == once[k];
  }

  /** A dictionary entry as the merge finds it: reset to `{}` when missing. */
  function Dict(d: Option<map<string, Value>>): map<string, Value> {
    if d.Some? then d.value else map[]
  }

  /** A numeric field: replaced when the backend value is not `None`. */
  function IfNotNone(current: Value, given: Value): Value {
    if given != Null then given else current
  }

  /** The LLM section: the model is mapped and set when truthy, the token
      limit and temperature when not `None`. */
  function ApplyLlm(c: BackendConfigResponse, s: SettingsState): SettingsState {
    var llm := c.llmConfig;
    s.(defaultModel := if Truthy(Get(llm, "defaultModel")) then MappedModel(Get(llm, "defaultModel")) else s.defaultModel,
       maxTokens := IfNotNone(s.maxTokens, Get(llm, "maxTokens")),
       temperature := IfNotNone(s.temperature, Get(llm, "temperature")))
  }

  /** The chat section: each field set when not `None`. */
  function ApplyChat(c: BackendConfigResponse, s: SettingsState): SettingsState {
    var chat := c.chatConfig;
    s.(maxContextLength := IfNotNone(s.maxContextLength, Get(chat, "maxContextLength")),
       contextWindowMinutes := IfNotNone(s.contextWindowMinutes, Get(chat, "contextWindowMinutes")),
       maxResponseTokens := IfNotNone(s.maxResponseTokens, Get(chat, "maxResponseTokens")),
       streamDelayMs := IfNotNone(s.streamDelayMs, Get(chat, "streamDelayMs")))
  }

  /** The environment when truthy, the debug flag when not `None`. */
  function ApplyEnvironment(c: BackendConfigResponse, s: SettingsState): SettingsState {
    s.(environment := if Truthy(c.environment) then c.environment else s.environment,
       debug := if c.debug != Null then c.debug else s.debug)
  }

  /** A non-empty personality entry is merged into the (reset if missing) dictionary. */
  function ApplyPersonality(c: BackendConfigResponse, s: SettingsState): SettingsState {
    if |c.personality| > 0 then s.(personality := Some(Overlay(Dict(s.personality), c.personality, PersonalityKeys)))
    else s
  }

  /** A non-empty contact entry is merged the same way. */
  function ApplyContact(c: BackendConfigResponse, s: SettingsState): SettingsState {
    if |c.contactInfo| > 0 then s.(contactInfo := Some(Overlay(Dict(s.contactInfo), c.contactInfo, ContactKeys)))
    else s
  }

  /** `apply_backend_config_to_settings` as a function of the old settings. */
  function Applied(c: BackendConfigResponse, s: SettingsState): (r: SettingsState)
    ensures Truthy(Get(c.llmConfig, "defaultModel")) ==> r.defaultModel == MappedModel(Get(c.llmConfig, "defaultModel"))
    ensures !Truthy(Get(c.llmConfig, "defaultModel")) ==> r.defaultModel == s.defaultModel
    ensures Get(c.chatConfig, "maxContextLength") == Null ==> r.maxContextLength == s.maxContextLength
    ensures Get(c.chatConfig, "maxContextLength") != Null ==> r.maxContextLength == Get(c.chatConfig, "maxContextLength")
    ensures Truthy(c.environment) ==> r.environment == c.environment
    ensures !Truthy(c.environment) ==> r.environment == s.environment
    ensures c.debug != Null ==> r.debug == c.debug
    ensures c.debug == Null ==> r.debug == s.debug
    ensures r.maxTokens == IfNotNone(s.maxTokens, Get(c.llmConfig, "maxTokens"))
    ensures r.temperature == IfNotNone(s.temperature, Get(c.llmConfig, "temperature"))
    ensures r.contextWindowMinutes == IfNotNone(s.contextWindowMinutes, Get(c.chatConfig, "contextWindowMinutes"))
    ensures r.maxResponseTokens == IfNotNone(s.maxResponseTokens, Get(c.chatConfig, "maxResponseTokens"))
    ensures r.streamDelayMs == IfNotNone(s.streamDelayMs, Get(c.chatConfig, "streamDelayMs"))
    ensures |c.personality| == 0 ==> r.personality == s.personality
    ensures |c.personality| > 0 ==> r.personality == Some(Overlay(Dict(s.personality), c.personality, PersonalityKeys))
    ensures |c.contactInfo| == 0 ==> r.contactInfo == s.contactInfo
    ensures |c.contactInfo| > 0 ==> r.contactInfo == Some(Overlay(Dict(s.contactInfo), c.contactInfo, ContactKeys))
  {
    ApplyContact(c, ApplyPersonality(c, ApplyEnvironment(c, ApplyChat(c, ApplyLlm(c, s)))))
  }

  /** Applying the same configuration twice changes nothing more. */
  lemma AppliedIdempotent(c: BackendConfigResponse, s: SettingsState)
    ensures Applied(c, Applied(c, s)) == Applied(c, s)
  {
    OverlayIdempotent(Dict(s.personality), c.personality, PersonalityKeys);
    OverlayIdempotent(Dict(s.contactInfo), c.contactInfo, ContactKeys);
  }

  /** A falsy backend entry never replaces a personality or contact value,
      and keys outside the fixed lists are never touched. */
  lemma OverlayKeepsOthers(target: map<string, Value>, src: map<string, Value>, keys: seq<string>, k: string)
    requires k in target && (k !in keys || k !in src || !Truthy(src[k]))
    ensures k in Overlay(target, src, keys) && Overlay(target, src, keys)[k] == target[k]
  {
  }

  /** The settings object the configuration is applied to. */
  class Settings {
    var defaultModel: Value
    var maxTokens: Value
    var temperature: Value
    var maxContextLength: Value
    var contextWindowMinutes: Value
    var maxResponseTokens: Value
    var streamDelayMs: Value
    var environment: Value
    var debug: Value
    var personality: Option<map<string, Value>>
    var contactInfo: Option<map<string, Value>>

    function State(): SettingsState
      reads this
    {
      SettingsState(defaultModel, maxTokens, temperature, maxContextLength, contextWindowMinutes,
                    maxResponseTokens, streamDelayMs, environment, debug, personality, contactInfo)
    }

    constructor (s: SettingsState)
      ensures State() == s
    {
      defaultModel, maxTokens, temperature := s.defaultModel, s.maxTokens, s.temperature;
      maxContextLength, contextWindowMinutes := s.maxContextLength, s.contextWindowMinutes;
      maxResponseTokens, streamDelayMs := s.maxResponseTokens, s.streamDelayMs;
      environment, debug := s.environment, s.debug;
      personality, contactInfo := s.personality, s.contactInfo;
    }
  }

  /** One more key of the list overlays that key alone. */
  lemma OverlayStep(target: map<string, Value>, src: map<string, Value>, keys: seq<string>, i: nat)
    requires i < |keys|
    ensures var t := Overlay(target, src, keys[..i]);
      Overlay(target, src, keys[..i + 1]) == if keys[i] in src && Truthy(src[keys[i]]) then t[keys[i] := src[keys[i]]] else t
  {
    assert keys[..i + 1][..i] == keys[..i];
  }

  /** Copies the truthy entries of `src` named in `keys` into `target`, one
      key after another. */
  method MergeKeys(target: map<string, Value>, src: map<string, Value>, keys: seq<string>)
    returns (r: map<string, Value>)
    ensures r == Overlay(target, src, keys)
  {
    r := target;
    for i := 0 to |keys|
      invariant r == Overlay(target, src, keys[..i])
    {
      var key := keys[i];
      OverlayStep(target, src, keys, i);
      if key in src && Truthy(src[key]) {
        r := r[key := src[key]];
      }
    }
    assert keys[..|keys|] == keys;
  }

  method UpdateLlm(c: BackendConfigResponse, settings: Settings)
    modifies settings
    ensures settings.State() == ApplyLlm(c, old(settings.State()))
  {
    if Truthy(Get(c.llmConfig, "defaultModel")) {
      var backendModel := c.llmConfig["defaultModel"];
      settings.defaultModel := MappedModel(backendModel);
    }
    if Get(c.llmConfig, "maxTokens") != Null {
      settings.maxTokens := c.llmConfig["maxTokens"];
    }
    if Get(c.llmConfig, "temperature") != Null {
      settings.temperature := c.llmConfig["temperature"];
    }
  }

  method UpdateChat(c: BackendConfigResponse, settings: Settings)
    modifies settings
    ensures settings.State() == ApplyChat(c, old(settings.State()))
  {
    if Get(c.chatConfig, "maxContextLength") != Null {
      settings.maxContextLength := c.chatConfig["maxContextLength"];
    }
    if Get(c.chatConfig, "contextWindowMinutes") != Null {
      settings.contextWindowMinutes := c.chatConfig["contextWindowMinutes"];
    }
    if Get(c.chatConfig, "maxResponseTokens") != Null {
      settings.maxResponseTokens := c.chatConfig["maxResponseTokens"];
    }
    if Get(c.chatConfig, "streamDelayMs") != Null {
      settings.streamDelayMs := c.chatConfig["streamDelayMs"];
    }
  }

  method UpdateEnvironment(c: BackendConfigResponse, settings: Settings)
    modifies settings
    ensures settings.State() == ApplyEnvironment(c, old(settings.State()))
  {
    if Truthy(c.environment) {
      settings.environment := c.environment;
    }
    if c.debug != Null {
      settings.debug := c.debug;
    }
  }

  method UpdatePersonality(c: BackendConfigResponse, settings: Settings)
    modifies settings
    ensures settings.State() == ApplyPersonality(c, old(settings.State()))
  {
    if |c.personality| > 0 {
      if settings.personality.None? {
        settings.personality := Some(map[]);
      }
      var merged := MergeKeys(settings.personality.value, c.personality, PersonalityKeys);
      settings.personality := Some(merged);
    }
  }

  method UpdateContactInfo(c: BackendConfigResponse, settings: Settings)
    modifies settings
    ensures settings.State() == ApplyContact(c, old(settings.State()))
  {
    if |c.contactInfo| > 0 {
      if settings.contactInfo.None? {
        settings.contactInfo := Some(map[]);
      }
      var merged := MergeKeys(settings.contactInfo.value, c.contactInfo, ContactKeys);
      settings.contactInfo := Some(merged);
    }
  }

  /** `apply_backend_config_to_settings`: the LLM, chat, environment,
      personality and contact sections in the source's order. */
  method ApplyBackendConfigToSettings(c: BackendConfigResponse, settings: Settings)
    modifies settings
    ensures settings.State() == Applied(c, old(settings.State()))
  {
    UpdateLlm(c, settings);
    UpdateChat(c, settings);
    UpdateEnvironment(c, settings);
    UpdatePersonality(c, settings);
    UpdateContactInfo(c, settings);
  }
}
