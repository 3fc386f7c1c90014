/** The interface-language context of the web client: three translation tables with
    one common key set, a provider holding the current language code, and the hook
    that reads the context and fails outside a provider. */
module LanguageContext {
  import opened Wrappers

  /** The three codes the `Language` type admits. */
  predicate IsLanguage(language: string) {
    language == "en" || language == "te" || language == "hi"
  }

  /** The keys every table defines. */
  const Keys: set<string> := {"appName", "appNameAI", "search", "signIn", "checkEligibility",
                              "totalSchemes", "apSchemes", "centralSchemes", "findSchemes"}

  const English: map<string, string> := map[
    "appName" := "Sahayata",
    "appNameAI" := "AI",
    "search" := "Search for schemes...",
    "signIn" := "Sign In",
    "checkEligibility" := "Check Eligibility",
    "totalSchemes" := "Total Schemes",
    "apSchemes" := "AP Govt Schemes",
    "centralSchemes" := "Central Govt Schemes",
    "findSchemes" := "Find schemes based on categories"]

  const Telugu: map<string, string> := map[
    "appName" := "సహాయత",
    "appNameAI" := "AI",
    "search" := "పథకాల కోసం వెతకండి...",
    "signIn" := "సైన్ ఇన్",
    "checkEligibility" := "అర్హత తనిఖీ చేయండి",
    "totalSchemes" := "మొత్తం పథకాలు",
    "apSchemes" := "AP ప్రభుత్వ పథకాలు",
    "centralSchemes" := "కేంద్ర ప్రభుత్వ పథకాలు",
    "findSchemes" := "వర్గాల ఆధారంగా పథకాలను కనుగొనండి"]

  const Hindi: map<string, string> := map[
    "appName" := "सहायता",
    "appNameAI" := "AI",
    "search" := "योजनाओं के लिए खोजें...",
    "signIn" := "साइन इन",
    "checkEligibility" := "पात्रता जांचें",
    "totalSchemes" := "कुल योजनाएं",
    "apSchemes" := "AP सरकार की योजनाएं",
    "centralSchemes" := "केंद्र सरकार की योजनाएं",
    "findSchemes" := "श्रेणियों के आधार पर योजनाएं खोजें"]

  /** `translations[language]`: every table covers exactly the common keys and maps
      each to a non-empty text. */
  function Table(language: string): (r: map<string, string>)
    requires IsLanguage(language)
    ensures r.Keys == Keys
    ensures forall k :: k in r ==> r[k] != ""
  {
    if language == "en" then English else if language == "te" then Telugu else Hindi
  }

  /** What the provider hands to its consumers. */
  datatype ContextValue = ContextValue(language: string, translations: map<string, string>)

  class LanguageProvider {
    var language: string

    ghost predicate Valid()
      reads this
    {
      IsLanguage(language)
    }

    /** The provider starts in English. */
    constructor ()
      ensures Valid() && language == "en"
    {
      language := "en";
    }

    method SetLanguage(lang: string)
      requires IsLanguage(lang)
      modifies this
      ensures Valid() && language == lang
    {
      language := lang;
    }

    /** The context value: the current code and that code's table, never another. */
    function Value(): (v: ContextValue)
      requires Valid()
      reads this
      ensures v.language == language && IsLanguage(v.language)
      ensures v.translations.Keys == Keys
      ensures language == "en" ==> v.translations == English
      ensures language == "te" ==> v.translations == Telugu
      ensures language == "hi" ==> v.translations == Hindi
    {
      ContextValue(language, Table(language))
    }
  }

  const OutsideProvider := "useLanguage must be used within LanguageProvider"

  /** `useLanguage`: the enclosing provider's value, or the error it throws when there
      is none. */
  function UseLanguage(context: Option<ContextValue>): (r: Result<ContextValue, string>)
    ensures r.Err? <==> context.None?
    ensures r.Err? ==> r.error == OutsideProvider
    ensures r.Ok? ==> r.value == context.value
  {
    match context
    case None => Err(OutsideProvider)
    case Some(v) => Ok(v)
  }
}
