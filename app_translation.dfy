/**
  The older string-table translator (app/js/services/translation-service.js):
  six language tables defining the same ten keys, the same language fallback
  and the same `translateString`.
 */
module AppTranslation {
  import opened Wrappers
  import opened Text
  import opened Templates

  /** The languages `_validateLanguage` accepts, in the order it lists them. */
  const SupportedLanguages: seq<string> := ["fr", "en", "es", "sk", "cs", "zh"]

  /** A language the service can be left in. */
  type Language = l: string | l in SupportedLanguages witness "fr"

  /** `_validateLanguage(language)`: membership in the supported list; a missing language is rejected. */
  predicate ValidateLanguage(language: Option<string>)
  {
    language.Some? && language.value in SupportedLanguages
  }

  /** The language the constructor keeps: the requested one when supported, French otherwise. */
  function LanguageOrDefault(language: Option<string>): (l: Language)
    ensures ValidateLanguage(language) ==> l == language.value
    ensures !ValidateLanguage(language) ==> l == "fr"
  {
    if ValidateLanguage(language) then language.value else "fr"
  }

  /** The names of the table properties. */
  const KeyNames: set<string> := {"RESET", "SAVE", "ZONE", "NO_DATA_FOR_GIVEN_PERIOD", "SAVING", "SUCCESS", "FAILURE", "ZONES_VALIDATION_FAILURE", "SEARCH_ADDRESS", "NO_ADDRESS_FOUND"}

  /** The keys of the string tables, one constructor per key. */
  datatype Key =
    | Reset
    | Save
    | Zone
    | NoDataForGivenPeriod
    | Saving
    | Success
    | Failure
    | ZonesValidationFailure
    | SearchAddress
    | NoAddressFound

  /** The spelling of a key in the tables. */
  function KeyName(key: Key): string
  {
    match key
    case Reset => "RESET"
    case Save => "SAVE"
    case Zone => "ZONE"
    case NoDataForGivenPeriod => "NO_DATA_FOR_GIVEN_PERIOD"
    case Saving => "SAVING"
    case Success => "SUCCESS"
    case Failure => "FAILURE"
    case ZonesValidationFailure => "ZONES_VALIDATION_FAILURE"
    case SearchAddress => "SEARCH_ADDRESS"
    case NoAddressFound => "NO_ADDRESS_FOUND"
  }

  /** The key a string names, if any: property lookup is exact and case-sensitive. */
  function KeyOf(s: string): (r: Option<Key>)
    ensures r.Some? ==> KeyName(r.value) == s
  {
    match s
    case "RESET" => Some(Reset)
    case "SAVE" => Some(Save)
    case "ZONE" => Some(Zone)
    case "NO_DATA_FOR_GIVEN_PERIOD" => Some(NoDataForGivenPeriod)
    case "SAVING" => Some(Saving)
    case "SUCCESS" => Some(Success)
    case "FAILURE" => Some(Failure)
    case "ZONES_VALIDATION_FAILURE" => Some(ZonesValidationFailure)
    case "SEARCH_ADDRESS" => Some(SearchAddress)
    case "NO_ADDRESS_FOUND" => Some(NoAddressFound)
    case _ => None
  }

  /**
    `this._strings[language][key]`, one table row per key
    (app/js/services/translation-service.js:5-77); the `ZONE` row is each language's zone word followed by the
    `{{index}}` marker.
   */
  function Entry(language: Language, key: Key): string
  {
    match key
    case Reset => ResetText(language)
    case Save => SaveText(language)
    case Zone => ZonePrefix(language) + Placeholder("index")
    case NoDataForGivenPeriod => NoDataForGivenPeriodText(language)
    case Saving => SavingText(language)
    case Success => SuccessText(language)
    case Failure => FailureText(language)
    case ZonesValidationFailure => ZonesValidationFailureText(language)
    case SearchAddress => SearchAddressText(language)
    case NoAddressFound => NoAddressFoundText(language)
  }

  function ResetText(language: Language): string
  {
    match language
    case "fr" => "Annuler"
    case "en" => "Reset"
    case "es" => "Anular"
    case "sk" => "Zrušiť"
    case "cs" => "Zrušit"
    case "zh" => "取消"
  }

  function SaveText(language: Language): string
  {
    match language
    case "fr" => "Sauvegarder"
    case "en" => "Save"
    case "es" => "Guardar"
    case "sk" => "Save"
    case "cs" => "Save"
    case "zh" => "保存"
  }

  function NoDataForGivenPeriodText(language: Language): string
  {
    match language
    case "fr" => "Il n’y a pas de données sur la période sélectionnée"
    case "en" => "There are no data on the selected period"
    case "es" => "No existen datos sobre el período seleccionado"
    case "sk" => "Nie sú k dispozícii žiadne údaje o zvolenom období"
    case "cs" => "Nejsou k dispozici žádné údaje o zvoleném období"
    case "zh" => "有选定的周期没有数据"
  }

  function SavingText(language: Language): string
  {
    match language
    case "fr" => "Enregistrement"
    case "en" => "Saving"
    case "es" => "registro"
    case "sk" => "Registrácia"
    case "cs" => "Registrace"
    case "zh" => "注册"
  }

  function SuccessText(language: Language): string
  {
    match language
    case "fr" => "Succès"
    case "en" => "Success"
    case "es" => "Éxito"
    case "sk" => "Úspech"
    case "cs" => "Úspěch"
    case "zh" => "成功"
  }

  function FailureText(language: Language): string
  {
    match language
    case "fr" => "Échec"
    case "en" => "Failure"
    case "es" => "Fracaso"
    case "sk" => "Zlyhanie"
    case "cs" => "Selhání"
    case "zh" => "失败"
  }

  function ZonesValidationFailureText(language: Language): string
  {
    match language
    case "fr" => "Échec dans la validation des zones"
    case "en" => "Zones validation failure"
    case "es" => "Error de validación de las zonas"
    case "sk" => "Zlyhanie validácia zóny"
    case "cs" => "Selhání validace zóny"
    case "zh" => "区验证失败"
  }

  function SearchAddressText(language: Language): string
  {
    match language
    case "fr" => "Rechercher une localité"
    case "en" => "Location Search"
    case "es" => "Buscar una localidad"
    case "sk" => "miesto Search"
    case "cs" => "Místo Search"
    case "zh" => "定位搜索"
  }

  function NoAddressFoundText(language: Language): string
  {
    match language
    case "fr" => "Aucune adresse n’a été trouvée"
    case "en" => "No address found"
    case "es" => "Sin dirección encontrada"
    case "sk" => "No adresa nebola nájdená"
    case "cs" => "No adresa nebyla nalezena"
    case "zh" => "没有找到地址"
  }

  /** What each zone template says before its `{{index}}` marker: text with no brace, newline or quote. */
  function ZonePrefix(language: Language): (p: string)
    ensures '{' !in p && '\n' !in p && '"' !in p
  {
    match language
    case "fr" => "zone "
    case "en" => "zone "
    case "es" => "zona "
    case "sk" => "zóna "
    case "cs" => "zóna  "
    case "zh" => "区 "
  }

  /** Exactly the ten key names name a key. */
  lemma KeyOfNames(s: string)
    ensures KeyOf(s).Some? <==> s in KeyNames
  {
  }

  /** `this._strings[language][key]`: every table defines exactly the same keys. */
  function Lookup(language: Language, key: string): (r: Option<string>)
    ensures r.Some? <==> key in KeyNames
  {
    KeyOfNames(key);
    match KeyOf(key)
    case None => None
    case Some(k) => Some(Entry(language, k))
  }

  /** A translator bound to one language for its whole life. */
  class TranslationService {
    const language: Language

    /** `new TranslationService(language)`: an unsupported or missing language falls back to French. */
    constructor(language: Option<string>)
      ensures this.language == LanguageOrDefault(language)
    {
      this.language := LanguageOrDefault(language);
    }

    /** `translateString(key, params)` in the service's language. */
    method TranslateString(key: string, params: Option<Params>) returns (r: Outcome)
      ensures r == Translate(Lookup(language, key), params)
    {
      r := TranslateIn(Lookup(language, key), params);
    }
  }

  /** The supported languages are exactly these six; anything else, or no language, means French. */
  lemma LanguageFallback(language: Option<string>)
    ensures ValidateLanguage(language) <==>
              language.Some? && language.value in {"fr", "en", "es", "sk", "cs", "zh"}
    ensures LanguageOrDefault(None) == "fr" && LanguageOrDefault(Some("it")) == "fr"
  {
  }

  /** Without params (or with an empty params object) the exact key's entry comes back unchanged, or `undefined`. */
  lemma LookupWithoutParams(language: Language, key: string)
    ensures Translate(Lookup(language, key), None) == Translate(Lookup(language, key), Some([]))
    ensures key in KeyNames ==> Translate(Lookup(language, key), None) == Value(Lookup(language, key).value)
    ensures key !in KeyNames ==> Translate(Lookup(language, key), None) == Undefined
  {
  }

  /**
    Lookup is case-sensitive: the lower-case `zone` names no key, so with
    params the `split` call throws, and the lower-case notification keys come
    back `undefined`.
   */
  lemma LowerCaseKeysAreMissing(language: Language, params: Params)
    requires |params| > 0
    ensures Translate(Lookup(language, "zone"), Some(params)) == TypeError
    ensures Translate(Lookup(language, "zones_validation_failure"), None) == Undefined
    ensures Translate(Lookup(language, "no_data_for_given_period"), None) == Undefined
  {
  }

  /** `translateString('ZONE', {index})`: the language's zone word followed by the index text. */
  lemma ZoneLabel(language: Language, index: string)
    ensures Translate(Lookup(language, "ZONE"), Some([("index", index)])) == Value(ZonePrefix(language) + index)
  {
    var entry := Lookup(language, "ZONE");
    assert KeyOf("ZONE") == Some(Zone);
    assert entry == Some(ZonePrefix(language) + Placeholder("index"));
    var params := [("index", index)];
    assert params[..0] == [];
    assert ApplyAll(entry.value, params) == Substitute(entry.value, "index", index);
    SubstituteTrailingPlaceholder(ZonePrefix(language), "index", index);
  }
}
