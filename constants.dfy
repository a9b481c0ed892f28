/** The model and personality lookup tables of the RAG service and the
    helpers that read them. */
module ModelConstants {
  import opened Text

  /** The language-model providers. `OtherProvider` stands for any further
      member of the enumeration, for which the helpers fall back to Gemini. */
  datatype ModelType = OpenAI | Gemini | Ollama | OtherProvider

  const OpenAIModel: string := "gpt-4o-mini"
  const GeminiModel: string := "gemini-1.5-flash"
  const OllamaModel: string := "deepseek-r1"

  /** Backend model keys to the model names the LLM client is given. */
  const ModelMapping: map<string, string> := map[
    "gemini-pro" := "gemini-1.5-pro-latest",
    "gemini-flash" := "gemini-1.5-flash",
    "gpt-4" := "gpt-4o-mini",
    "gpt-3.5-turbo" := "gpt-3.5-turbo",
    "ollama" := "deepseek-r1"]

  /** Backend model keys, and the legacy provider names, to providers. */
  const ModelTypeMapping: map<string, ModelType> := map[
    "gemini-pro" := Gemini,
    "gemini-flash" := Gemini,
    "gpt-4" := OpenAI,
    "gpt-3.5-turbo" := OpenAI,
    "ollama" := Ollama,
    "OPENAI" := OpenAI,
    "GEMINI" := Gemini,
    "OLLAMA" := Ollama]

  const PersonalityStyles: map<string, string> := map[
    "professional" := "chuyên nghiệp, trang trọng và có chuyên môn cao",
    "sassy" := "năng động, thú vị và có phần táo bạo",
    "empathetic" := "thấu hiểu, ấm áp và quan tâm đến cảm xúc",
    "formal" := "trang trọng, lịch sự và tuân thủ nghi thức",
    "humorous" := "hài hước, vui vẻ và tạo không khí thoải mái",
    "friendly" := "thân thiện, gần gũi và dễ tiếp cận"]

  const DefaultPersonalityStyle: string := "chuyên nghiệp và thân thiện"

  /** Which provider serves a concrete model name; an independent account
      of the names the tables above produce. */
  function ProviderOf(name: string): Option<ModelType> {
    if name == "gpt-4o-mini" || name == "gpt-3.5-turbo" then Some(OpenAI)
    else if name == "gemini-1.5-flash" || name == "gemini-1.5-pro-latest" then Some(Gemini)
    else if name == "deepseek-r1" then Some(Ollama)
    else None
  }

  /** `get_actual_model_name`: the mapped name of a known key, else the
      default model of the provider, Gemini's for any other provider. */
  function GetActualModelName(backendModelKey: string, modelType: ModelType): (r: string)
    ensures backendModelKey in ModelMapping ==> r == ModelMapping[backendModelKey]
    ensures backendModelKey !in ModelMapping ==>
      ProviderOf(r) == Some(if modelType == OtherProvider then Gemini else modelType)
    ensures ProviderOf(r).Some?
  {
    if backendModelKey in ModelMapping then ModelMapping[backendModelKey]
    else match modelType
      case OpenAI => OpenAIModel
      case Gemini => GeminiModel
      case Ollama => OllamaModel
      case OtherProvider => GeminiModel
  }

  /** `get_model_type`: the table entry, Gemini for an unknown key. */
  function GetModelType(backendModelKey: string): (r: ModelType)
    ensures backendModelKey in ModelTypeMapping ==> r == ModelTypeMapping[backendModelKey]
    ensures backendModelKey !in ModelTypeMapping ==> r == Gemini
    ensures r != OtherProvider
  {
    if backendModelKey in ModelTypeMapping then ModelTypeMapping[backendModelKey] else Gemini
  }

  /** Resolving a key's provider and then its model name always names a
      model of that provider. */
  lemma ModelNameMatchesType(backendModelKey: string)
    ensures ProviderOf(GetActualModelName(backendModelKey, GetModelType(backendModelKey)))
            == Some(GetModelType(backendModelKey))
  {
    if backendModelKey in ModelMapping {
      assert backendModelKey in {"gemini-pro", "gemini-flash", "gpt-4", "gpt-3.5-turbo", "ollama"};
    }
  }

  /** `get_personality_style`: the table entry, or the fixed fallback. */
  function GetPersonalityStyle(personalityType: string): (r: string)
    ensures personalityType in PersonalityStyles ==> r == PersonalityStyles[personalityType]
    ensures personalityType !in PersonalityStyles ==> r == DefaultPersonalityStyle
    ensures r != ""
  {
    if personalityType in PersonalityStyles then PersonalityStyles[personalityType] else DefaultPersonalityStyle
  }
}
