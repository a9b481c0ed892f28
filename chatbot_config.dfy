/** The chatbot configuration rules of the admin server: a built-in default
    configuration, a shallow one-level merge of an override over a default,
    and the active configuration that the RAG service is given. Objects
    are JavaScript values; the repository reads are parameters. */
module ChatbotConfig {
  import opened Text

  /** A JavaScript value as the configuration objects hold them. Numbers
      are reals (no NaN or infinities). */
  datatype JsValue =
    | Undefined
    | Null
    | Bool(b: bool)
    | Num(n: real)
    | Str(s: string)
    | Arr(items: seq<JsValue>)
    | Obj(fields: map<string, JsValue>)

  /** A configuration object: its own enumerable properties. */
  type Config = map<string, JsValue>

  const DefaultType: string := "default"
  const OverrideType: string := "override"

  /** `obj[key]`: `undefined` for a missing property. */
  function Lookup(c: Config, key: string): JsValue {
    if key in c then c[key] else Undefined
  }

  /** The properties `{ ...v }` copies: those of an object, none for
      `undefined`, `null`, booleans and numbers. */
  function Spread(v: JsValue): map<string, JsValue> {
    if v.Obj? then v.fields else map[]
  }

  const DefaultLlmConfig: JsValue := Obj(map[
    "defaultModel" := Str("gemini-pro"),
    "maxTokens" := Num(2048.0),
    "temperature" := Num(0.7)])

  const DefaultChatConfig: JsValue := Obj(map[
    "maxContextLength" := Num(20.0),
    "contextWindowMinutes" := Num(30.0),
    "maxResponseTokens" := Num(1024.0),
    "streamDelayMs" := Num(50.0)])

  const DefaultPersonality: JsValue := Obj(map[
    "name" := Str("Ned"),
    "persona" := Str("I am a helpful assistant for admissions consulting."),
    "personality" := Str("professional"),
    "creativityLevel" := Num(0.2)])

  const DefaultAppearance: JsValue := Obj(map[
    "primaryColor" := Str("#3B82F6"),
    "secondaryColor" := Str("#6B7280"),
    "chatBubbleStyle" := Str("rounded"),
    "fontFamily" := Str("Inter"),
    "fontSize" := Num(14.0),
    "darkMode" := Bool(false),
    "showAvatar" := Bool(true),
    "windowPosition" := Str("bottom-right")])

  const DefaultWelcomeSettings: JsValue := Obj(map[
    "welcomeMessage" := Str("Hello! I am here to help you with your admissions questions. How can I assist you today?"),
    "showWelcomeMessage" := Bool(true),
    "autoGreet" := Bool(true),
    "greetingDelay" := Num(2.0),
    "showSuggestedQuestions" := Bool(true),
    "suggestedQuestions" := Arr([
      Str("What are the admission requirements?"),
      Str("How do I apply for a scholarship?"),
      Str("What documents do I need?"),
      Str("When is the application deadline?")])])

  const DefaultHumanHandoff: JsValue := Obj(map[
    "enabled" := Bool(false),
    "maxWaitTime" := Num(30.0),
    "showEscalationButton" := Bool(true),
    "escalationButtonText" := Str("Talk to human agent")])

  const DefaultContactInfo: JsValue := Obj(map[
    "hotline" := Str("0236.3.650.403"),
    "email" := Str("tuyensinh@donga.edu.vn"),
    "website" := Str("https://donga.edu.vn"),
    "address" := Str("33 Xô Viết Nghệ Tĩnh, Hải Châu, Đà Nẵng")])

  /** `getDefaultConfig`: the built-in default configuration. */
  function GetDefaultConfig(): (r: Config)
    ensures Lookup(r, "type") == Str(DefaultType)
    ensures Lookup(r, "isActive") == Bool(true)
    ensures "id" !in r
  {
    map[
      "type" := Str(DefaultType),
      "llmConfig" := DefaultLlmConfig,
      "chatConfig" := DefaultChatConfig,
      "personality" := DefaultPersonality,
      "appearance" := DefaultAppearance,
      "welcomeSettings" := DefaultWelcomeSettings,
      "humanHandoff" := DefaultHumanHandoff,
      "contactInfo" := DefaultContactInfo,
      "environment" := Str("development"),
      "debug" := Bool(false),
      "isActive" := Bool(true)]
  }

  /** What one override property does to the merged object: a (non-null,
      non-array) object is merged over the current value's properties, any
      other defined value replaces it, `undefined` is skipped. */
  function MergeKey(merged: Config, key: string, v: JsValue): Config {
    if v.Obj? then merged[key := Obj(Spread(Lookup(merged, key)) + v.fields)]
    else if v != Undefined then merged[key := v]
    else merged
  }

  /** The override keys in `done` that carry a defined value. */
  function DefinedKeys(o: Config, done: set<string>): set<string> {
    set k | k in o && k in done && o[k] != Undefined
  }

  /** The merge restricted to the override keys in `done`: an independent,
      order-free account of the property-by-property loop. */
  function MergedOn(d: Config, o: Config, done: set<string>): Config {
    map k | k in d.Keys + DefinedKeys(o, done) ::
      if k in done && k in o && o[k].Obj? then Obj(Spread(Lookup(d, k)) + o[k].fields)
      else if k in done && k in o && o[k] != Undefined then o[k]
      else d[k]
  }

  /** With no key merged yet the partial merge is the default. */
  lemma MergedOnNothing(d: Config, o: Config)
    ensures MergedOn(d, o, {}) == d
  {
    assert DefinedKeys(o, {}) == {};
  }

  /** Merging one more override key into the partial merge extends it by that key. */
  lemma MergeStep(d: Config, o: Config, done: set<string>, key: string)
    requires key in o && key !in done
    ensures MergeKey(MergedOn(d, o, done), key, o[key]) == MergedOn(d, o, done + {key})
  {
    var m := MergedOn(d, o, done);
    assert Lookup(m, key) == Lookup(d, key);
    var lhs, rhs := MergeKey(m, key, o[key]), MergedOn(d, o, done + {key});
    assert lhs.Keys == rhs.Keys;
    forall k | k in lhs
      ensures lhs[k] == rhs[k]
    {
    }
  }

  /** The result of `mergeConfigs`: the default itself for no override,
      otherwise every override key merged in. */
  function Merged(d: Config, o: Option<Config>): Config {
    if o.None? then d else MergedOn(d, o.value, o.value.Keys)
  }

  /** `mergeConfigs`: a copy of the default is updated once per override
      property. */
  method MergeConfigs(defaultConfig: Config, overrideConfig: Option<Config>) returns (merged: Config)
    ensures merged == Merged(defaultConfig, overrideConfig)
  {
    if overrideConfig.None? {
      return defaultConfig;
    }
    var o := overrideConfig.value;
    merged := defaultConfig;
    var keys := o.Keys;
    ghost var done: set<string> := {};
    MergedOnNothing(defaultConfig, o);
    while keys != {}
      invariant keys + done == o.Keys && keys !! done
      invariant merged == MergedOn(defaultConfig, o, done)
      decreases |keys|
    {
      var key :| key in keys;
      MergeStep(defaultConfig, o, done, key);
      merged := MergeKey(merged, key, o[key]);
      keys := keys - {key};
      done := done + {key};
    }
  }

  /** No override, or an empty one, leaves the default as it is. */
  lemma EmptyOverrideKeepsDefault(d: Config)
    ensures Merged(d, None) == d && Merged(d, Some(map[])) == d
  {
  }

  /** An object override property is merged one level deep: its own fields
      win and the default's other fields stay. */
  lemma NestedObjectMergedOneLevel(d: Config, o: Config, key: string, field: string)
    requires key in o && o[key].Obj?
    ensures key in Merged(d, Some(o)) && Merged(d, Some(o))[key].Obj?
    ensures field in o[key].fields ==> Merged(d, Some(o))[key].fields[field] == o[key].fields[field]
    ensures field !in o[key].fields && key in d && d[key].Obj? && field in d[key].fields ==>
      field in Merged(d, Some(o))[key].fields && Merged(d, Some(o))[key].fields[field] == d[key].fields[field]
  {
  }

  /** Any other defined override value replaces the default's; a key the
      override leaves out or sets to `undefined` keeps the default's value,
      and no other key appears. */
  lemma OverrideReplacesOrKeeps(d: Config, o: Config, key: string)
    ensures key in o && !o[key].Obj? && o[key] != Undefined ==> Lookup(Merged(d, Some(o)), key) == o[key]
    ensures (key !in o || o[key] == Undefined) ==> Lookup(Merged(d, Some(o)), key) == Lookup(d, key)
    ensures key in Merged(d, Some(o)) <==> key in d || (key in o && o[key] != Undefined)
  {
  }

  /** Merging the same override twice changes nothing more. */
  lemma {:induction false} MergeIdempotent(d: Config, o: Config)
    ensures Merged(Merged(d, Some(o)), Some(o)) == Merged(d, Some(o))
  {
    var m := Merged(d, Some(o));
    var mm := Merged(m, Some(o));
    assert mm.Keys == m.Keys;
    forall k | k in m
      ensures mm[k] == m[k]
    {
      if k in o && o[k].Obj? {
        assert Spread(Lookup(m, k)) + o[k].fields == Spread(Lookup(d, k)) + o[k].fields + o[k].fields;
      }
    }
  }

  /** `getActiveConfig`: the stored default (or the built-in one), merged
      with the newest active override when there is one, which then lends
      the result its id and the override type. */
  function ActiveConfig(storedDefault: Option<Config>, newestOverride: Option<(string, Config)>): (r: Config)
    ensures newestOverride.Some? ==>
      Lookup(r, "id") == Str(newestOverride.value.0) && Lookup(r, "type") == Str(OverrideType)
      && forall k :: k != "id" && k != "type" ==>
           Lookup(r, k) == Lookup(Merged(if storedDefault.Some? then storedDefault.value else GetDefaultConfig(),
                                         Some(newestOverride.value.1)), k)
    ensures newestOverride.None? && storedDefault.None? ==> r == GetDefaultConfig()
    ensures newestOverride.None? && storedDefault.Some? ==> r == storedDefault.value
  {
    var base := if storedDefault.Some? then storedDefault.value else GetDefaultConfig();
    if newestOverride.Some? then
      Merged(base, Some(newestOverride.value.1))["id" := Str(newestOverride.value.0)]["type" := Str(OverrideType)]
    else base
  }
}
