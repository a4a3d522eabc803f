/**
  The string-table translator the map's host page hands to the map service
  (src/js/services/translation-service.js): eight language tables defining the
  same twenty keys, a language fixed once by the constructor, and
  `translateString` with `{{key}}` substitution.
 */
module Translation {
  import opened Wrappers
  import opened Text
  import opened Templates

  /** The languages `_validateLanguage` accepts, in the order it lists them. */
  const SupportedLanguages: seq<string> := ["fr", "en", "zh", "es", "sk", "cs", "fi", "de"]

  /** A language the service can be left in. */
  type Language = l: string | l in SupportedLanguages witness "fr"

  /** `_validateLanguage(language)`: membership in the supported list; a missing language is rejected. */
  predicate ValidateLanguage(language: Option<string>)
  {
    language.Some? && language.value in SupportedLanguages
  }

  /** The language the constructor keeps: the requested one when supported, French otherwise. */
  function LanguageOrDefault(language: Option<string>): (l: Language)
    ensures ValidateLanguage(language) ==> l == language.value
    ensures !ValidateLanguage(language) ==> l == "fr"
  {
    if ValidateLanguage(language) then language.value else "fr"
  }

  /** The names of the table properties. */
  const KeyNames: set<string> := {"ADD_ZONE", "ADD_ZONE_DESCRIPTION", "CLICK_ZONE_TO_DELETE", "DELETE_ZONES", "FAILURE", "LAST_GPS_LOCATION", "NO_ADDRESS_FOUND", "NO_DATA_FOR_GIVEN_PERIOD", "RESET", "SAVE", "SAVING", "SEARCH_ADDRESS", "SUCCESS", "UPDATE_ZONES", "VISUALIZE_THE_CLICK_LOCATION_HOURLY", "ZONE", "ZONE_MINIMUM_PERIMETER", "ZONES_VALIDATION_FAILURE", "ZOOM_IN", "ZOOM_OUT"}

  /** The keys of the string tables, one constructor per key. */
  datatype Key =
    | AddZone
    | AddZoneDescription
    | ClickZoneToDelete
    | DeleteZones
    | Failure
    | LastGpsLocation
    | NoAddressFound
    | NoDataForGivenPeriod
    | Reset
    | Save
    | Saving
    | SearchAddress
    | Success
    | UpdateZones
    | VisualizeTheClickLocationHourly
    | Zone
    | ZoneMinimumPerimeter
    | ZonesValidationFailure
    | ZoomIn
    | ZoomOut

  /** The spelling of a key in the tables. */
  function KeyName(key: Key): string
  {
    match key
    case AddZone => "ADD_ZONE"
    case AddZoneDescription => "ADD_ZONE_DESCRIPTION"
    case ClickZoneToDelete => "CLICK_ZONE_TO_DELETE"
    case DeleteZones => "DELETE_ZONES"
    case Failure => "FAILURE"
    case LastGpsLocation => "LAST_GPS_LOCATION"
    case NoAddressFound => "NO_ADDRESS_FOUND"
    case NoDataForGivenPeriod => "NO_DATA_FOR_GIVEN_PERIOD"
    case Reset => "RESET"
    case Save => "SAVE"
    case Saving => "SAVING"
    case SearchAddress => "SEARCH_ADDRESS"
    case Success => "SUCCESS"
    case UpdateZones => "UPDATE_ZONES"
    case VisualizeTheClickLocationHourly => "VISUALIZE_THE_CLICK_LOCATION_HOURLY"
    case Zone => "ZONE"
    case ZoneMinimumPerimeter => "ZONE_MINIMUM_PERIMETER"
    case ZonesValidationFailure => "ZONES_VALIDATION_FAILURE"
    case ZoomIn => "ZOOM_IN"
    case ZoomOut => "ZOOM_OUT"
  }

  /** The key a string names, if any: property lookup is exact and case-sensitive. */
  function KeyOf(s: string): (r: Option<Key>)
    ensures r.Some? ==> KeyName(r.value) == s
  {
    match s
    case "ADD_ZONE" => Some(AddZone)
    case "ADD_ZONE_DESCRIPTION" => Some(AddZoneDescription)
    case "CLICK_ZONE_TO_DELETE" => Some(ClickZoneToDelete)
    case "DELETE_ZONES" => Some(DeleteZones)
    case "FAILURE" => Some(Failure)
    case "LAST_GPS_LOCATION" => Some(LastGpsLocation)
    case "NO_ADDRESS_FOUND" => Some(NoAddressFound)
    case "NO_DATA_FOR_GIVEN_PERIOD" => Some(NoDataForGivenPeriod)
    case "RESET" => Some(Reset)
    case "SAVE" => Some(Save)
    case "SAVING" => Some(Saving)
    case "SEARCH_ADDRESS" => Some(SearchAddress)
    case "SUCCESS" => Some(Success)
    case "UPDATE_ZONES" => Some(UpdateZones)
    case "VISUALIZE_THE_CLICK_LOCATION_HOURLY" => Some(VisualizeTheClickLocationHourly)
    case "ZONE" => Some(Zone)
    case "ZONE_MINIMUM_PERIMETER" => Some(ZoneMinimumPerimeter)
    case "ZONES_VALIDATION_FAILURE" => Some(ZonesValidationFailure)
    case "ZOOM_IN" => Some(ZoomIn)
    case "ZOOM_OUT" => Some(ZoomOut)
    case _ => None
  }

  /**
    `this._strings[language][key]`, one table row per key
    (src/js/services/translation-service.js:10-206); the `ZONE` row is each language's zone word followed by the
    `{{index}}` marker.
   */
  function Entry(language: Language, key: Key): string
  {
    match key
    case AddZone => AddZoneText(language)
    case AddZoneDescription => AddZoneDescriptionText(language)
    case ClickZoneToDelete => ClickZoneToDeleteText(language)
    case DeleteZones => DeleteZonesText(language)
    case Failure => FailureText(language)
    case LastGpsLocation => LastGpsLocationText(language)
    case NoAddressFound => NoAddressFoundText(language)
    case NoDataForGivenPeriod => NoDataForGivenPeriodText(language)
    case Reset => ResetText(language)
    case Save => SaveText(language)
    case Saving => SavingText(language)
    case SearchAddress => SearchAddressText(language)
    case Success => SuccessText(language)
    case UpdateZones => UpdateZonesText(language)
    case VisualizeTheClickLocationHourly => VisualizeTheClickLocationHourlyText(language)
    case Zone => ZonePrefix(language) + Placeholder("index")
    case ZoneMinimumPerimeter => ZoneMinimumPerimeterText(language)
    case ZonesValidationFailure => ZonesValidationFailureText(language)
    case ZoomIn => ZoomInText(language)
    case ZoomOut => ZoomOutText(language)
  }

  function AddZoneText(language: Language): string
  {
    match language
    case "fr" => "Ajouter une zone."
    case "en" => "Add zone."
    case "zh" => "添加区域。"
    case "es" => "Añadir zona."
    case "sk" => "Pridať zone."
    case "cs" => "Přidat zone."
    case "fi" => "Lisää vyöhyke."
    case "de" => "In Zone."
  }

  function AddZoneDescriptionText(language: Language): string
  {
    match language
    case "fr" => "Cliquez et faites glisser pour dessiner une zone de 100 mètres minimum."
    case "en" => "Click and drag to draw a minimum of 100 meters area."
    case "zh" => "单击并拖动以绘制至少100平方米的面积。"
    case "es" => "Haga clic y arrastre para dibujar un mínimo de área de 100 metros."
    case "sk" => "Kliknutím a ťahaním nakreslite minimálne 100 metrov plochy."
    case "cs" => "Kliknutím a tažením nakreslete minimálně 100 metrů plochy."
    case "fi" => "Klikkaa ja vedä vetää vähintään 100 metrin alueen."
    case "de" => "Klicken und ziehen Sie ein Minimum von 100 Metern Fläche zu ziehen."
  }

  function ClickZoneToDeleteText(language: Language): string
  {
    match language
    case "fr" => "Cliquez sur une zone pour la supprimer."
    case "en" => "Click a zone to delete it."
    case "zh" => "单击某一区域将其删除。"
    case "es" => "Haga clic en un área para eliminarlo."
    case "sk" => "Tlačidlom myši na plochu, aby ho odstrániť."
    case "cs" => "Tlačítkem myši na plochu, aby jej odstranit."
    case "fi" => "Klikkaa vyöhyke poistaa sen."
    case "de" => "Klicken Sie auf eine Zone um es zu löschen."
  }

  function DeleteZonesText(language: Language): string
  {
    match language
    case "fr" => "Supprimer des zones."
    case "en" => "Remove areas."
    case "zh" => "删除的区域。"
    case "es" => "áreas quitar."
    case "sk" => "Odstráňte oblastiach."
    case "cs" => "Odstraňte oblastech."
    case "fi" => "Poista alueilla."
    case "de" => "Entfernen Bereiche."
  }

  function FailureText(language: Language): string
  {
    match language
    case "fr" => "Échec"
    case "en" => "Failure"
    case "zh" => "失败"
    case "es" => "Fracaso"
    case "sk" => "Zlyhanie"
    case "cs" => "Selhání"
    case "fi" => "Vika"
    case "de" => "Fehler"
  }

  function LastGpsLocationText(language: Language): string
  {
    match language
    case "fr" => "Dernière position"
    case "en" => "Last location"
    case "zh" => "最后一个位置"
    case "es" => "Última posición"
    case "sk" => "Poslednej pozície"
    case "cs" => "Poslední pozice"
    case "fi" => "Viimeinen sijaintipaikka"
    case "de" => "Letzter Standort"
  }

  function NoAddressFoundText(language: Language): string
  {
    match language
    case "fr" => "Aucune adresse n’a été trouvée"
    case "en" => "No address found"
    case "zh" => "没有找到地址"
    case "es" => "Sin dirección encontrada"
    case "sk" => "No adresa nebola nájdená"
    case "cs" => "No adresa nebyla nalezena"
    case "fi" => "Ei löytynyt osoitetietoja"
    case "de" => "Keine Adresse"
  }

  function NoDataForGivenPeriodText(language: Language): string
  {
    match language
    case "fr" => "Il n’y a pas de données sur la période sélectionnée"
    case "en" => "There are no data on the selected period"
    case "zh" => "有选定的周期没有数据"
    case "es" => "No existen datos sobre el período seleccionado"
    case "sk" => "Nie sú k dispozícii žiadne údaje o zvolenom období"
    case "cs" => "Nejsou k dispozici žádné údaje o zvoleném období"
    case "fi" => "Ei ole tietoa valitsemansa"
    case "de" => "Es liegen keine Daten über den gewählten Zeitraum"
  }

  function ResetText(language: Language): string
  {
    match language
    case "fr" => "Annuler"
    case "en" => "Reset"
    case "zh" => "取消"
    case "es" => "Anular"
    case "sk" => "Zrušiť"
    case "cs" => "Zrušit"
    case "fi" => "Nollaa"
    case "de" => "Reset"
  }

  function SaveText(language: Language): string
  {
    match language
    case "fr" => "Sauvegarder"
    case "en" => "Save"
    case "zh" => "保存"
    case "es" => "Guardar"
    case "sk" => "Save"
    case "cs" => "Save"
    case "fi" => "Tallentaa"
    case "de" => "speichern"
  }

  function SavingText(language: Language): string
  {
    match language
    case "fr" => "Enregistrement"
    case "en" => "Saving"
    case "zh" => "注册"
    case "es" => "registro"
    case "sk" => "Registrácia"
    case "cs" => "Registrace"
    case "fi" => "Tallentaa"
    case "de" => "Saving"
  }

  function SearchAddressText(language: Language): string
  {
    match language
    case "fr" => "Rechercher une localité"
    case "en" => "Location Search"
    case "zh" => "定位搜索"
    case "es" => "Buscar una localidad"
    case "sk" => "miesto Search"
    case "cs" => "Místo Search"
    case "fi" => "Sijainti haku"
    case "de" => "Standort Suche"
  }

  function SuccessText(language: Language): string
  {
    match language
    case "fr" => "Succès"
    case "en" => "Success"
    case "zh" => "成功"
    case "es" => "Éxito"
    case "sk" => "Úspech"
    case "cs" => "Úspěch"
    case "fi" => "Menestys"
    case "de" => "Erfolg"
  }

  function UpdateZonesText(language: Language): string
  {
    match language
    case "fr" => "Modifier les zones."
    case "en" => "Edit areas."
    case "zh" => "编辑区域。"
    case "es" => "Áreas de edición."
    case "sk" => "Úprava oblastí."
    case "cs" => "Úprava oblastí."
    case "fi" => "Edit alueilla."
    case "de" => "Bearbeiten Bereiche."
  }

  function VisualizeTheClickLocationHourlyText(language: Language): string
  {
    match language
    case "fr" => "Visualisez la position du Click heure par heure."
    case "en" => "Visualize Click location hourly."
    case "zh" => "可视化点击的位置每小时。"
    case "es" => "Visualizar la posición de clic por hora."
    case "sk" => "Vizualizovať pozíciu Click každú hodinu."
    case "cs" => "Vizualizovat pozici Click každou hodinu."
    case "fi" => "Visualisoi Valitse sijainti tunneittain."
    case "de" => "Klicken Sie auf Standort Visualize stündlich."
  }

  function ZoneMinimumPerimeterText(language: Language): string
  {
    match language
    case "fr" => "Le périmètre de la zone doit être au minimum de 100 mètres."
    case "en" => "The perimeter of the area must be at least 100 meters."
    case "zh" => "该区域的周界必须至少为100米"
    case "es" => "El perímetro de la zona debe ser de al menos 100 metros."
    case "sk" => "Daná oblasť musí byť najmenej 100 metrov."
    case "cs" => "Daná oblast musí být nejméně 100 metrů."
    case "fi" => "Kehä alueen on oltava vähintään 100 metriä."
    case "de" => "Der Umfang der Fläche muss mindestens 100 meter betragen."
  }

  function ZonesValidationFailureText(language: Language): string
  {
    match language
    case "fr" => "Échec dans la validation des zones"
    case "en" => "Zones validation failure"
    case "zh" => "区验证失败"
    case "es" => "Error de validación de las zonas"
    case "sk" => "Zlyhanie validácia zóny"
    case "cs" => "Selhání validace zóny"
    case "fi" => "Zones todennusvirhe"
    case "de" => "Zones Prüfungsfehler"
  }

  function ZoomInText(language: Language): string
  {
    match language
    case "fr" => "Zoomer"
    case "en" => "Zoom in"
    case "zh" => "放大"
    case "es" => "Acercarse"
    case "sk" => "Priblížiť"
    case "cs" => "Přiblížit"
    case "fi" => "Lähennä"
    case "de" => "Hineinzoomen"
  }

  function ZoomOutText(language: Language): string
  {
    match language
    case "fr" => "Dézoomer"
    case "en" => "Zoom out"
    case "zh" => "缩小"
    case "es" => "Disminuir el zoom"
    case "sk" => "Oddialiť"
    case "cs" => "Oddálit"
    case "fi" => "Loitontaa"
    case "de" => "Rauszoomen"
  }

  /** What each zone template says before its `{{index}}` marker: text with no brace, newline or quote. */
  function ZonePrefix(language: Language): (p: string)
    ensures '{' !in p && '\n' !in p && '"' !in p
  {
    match language
    case "fr" => "zone "
    case "en" => "zone "
    case "zh" => "区 "
    case "es" => "zona "
    case "sk" => "zóna "
    case "cs" => "zóna  "
    case "fi" => "vyöhyke "
    case "de" => "zone "
  }

  /** Exactly the twenty key names name a key. */
  lemma KeyOfNames(s: string)
    ensures KeyOf(s).Some? <==> s in KeyNames
  {
  }

  /** `this._strings[language][key]`: every table defines exactly the same keys. */
  function Lookup(language: Language, key: string): (r: Option<string>)
    ensures r.Some? <==> key in KeyNames
  {
    KeyOfNames(key);
    match KeyOf(key)
    case None => None
    case Some(k) => Some(Entry(language, k))
  }

  /** A translator bound to one language for its whole life. */
  class TranslationService {
    const language: Language

    /** `new TranslationService(language)`: an unsupported or missing language falls back to French. */
    constructor(language: Option<string>)
      ensures this.language == LanguageOrDefault(language)
    {
      this.language := LanguageOrDefault(language);
    }

    /** `translateString(key, params)` in the service's language. */
    method TranslateString(key: string, params: Option<Params>) returns (r: Outcome)
      ensures r == Translate(Lookup(language, key), params)
    {
      r := TranslateIn(Lookup(language, key), params);
    }
  }

  /** The supported languages are exactly these eight; anything else, or no language, means French. */
  lemma LanguageFallback(language: Option<string>)
    ensures ValidateLanguage(language) <==>
              language.Some? && language.value in {"fr", "en", "zh", "es", "sk", "cs", "fi", "de"}
    ensures LanguageOrDefault(None) == "fr" && LanguageOrDefault(Some("it")) == "fr"
  {
  }

  /** Without params (or with an empty params object) the exact key's entry comes back unchanged, or `undefined`. */
  lemma LookupWithoutParams(language: Language, key: string)
    ensures Translate(Lookup(language, key), None) == Translate(Lookup(language, key), Some([]))
    ensures key in KeyNames ==> Translate(Lookup(language, key), None) == Value(Lookup(language, key).value)
    ensures key !in KeyNames ==> Translate(Lookup(language, key), None) == Undefined
  {
  }

  /**
    Lookup is case-sensitive: the lower-case `zone` names no key, so with
    params the `split` call throws, and the lower-case notification keys come
    back `undefined`.
   */
  lemma LowerCaseKeysAreMissing(language: Language, params: Params)
    requires |params| > 0
    ensures Translate(Lookup(language, "zone"), Some(params)) == TypeError
    ensures Translate(Lookup(language, "zones_validation_failure"), None) == Undefined
    ensures Translate(Lookup(language, "no_data_for_given_period"), None) == Undefined
  {
  }

  /** `translateString('ZONE', {index})`: the language's zone word followed by the index text. */
  lemma ZoneLabel(language: Language, index: string)
    ensures Translate(Lookup(language, "ZONE"), Some([("index", index)])) == Value(ZonePrefix(language) + index)
  {
    var entry := Lookup(language, "ZONE");
    assert KeyOf("ZONE") == Some(Zone);
    assert entry == Some(ZonePrefix(language) + Placeholder("index"));
    var params := [("index", index)];
    assert params[..0] == [];
    assert ApplyAll(entry.value, params) == Substitute(entry.value, "index", index);
    SubstituteTrailingPlaceholder(ZonePrefix(language), "index", index);
  }
}
