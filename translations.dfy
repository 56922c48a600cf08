/** The constant translation table of the language store and its lookup `t`
    (src/utils/useLanguage.js:4-147 and 171-174).

    The table is a JavaScript object with one nested object literal per language.
    Each literal is modelled as the property lookup it evaluates to; both literals
    repeat the keys `guides` and `healthcare`, and the value written last is the one
    JavaScript keeps. Only the keys written in the literals are modelled: inherited
    properties of plain objects (`toString` and the like) are not. */
module Translations {

  datatype Option<T> = None | Some(value: T)

  /** The `pt` object literal, src/utils/useLanguage.js:5-75, as the property lookup
      it evaluates to: its groups of properties are assigned in the order written,
      starting from an object with no properties. */
  function PtProperty(key: string): Option<string>
  {
    var v := None;
    var v := PtAppName(key, v);
    var v := PtNavigation(key, v);
    var v := PtHomepage(key, v);
    var v := PtCategories(key, v);
    var v := PtCategoryDescriptions(key, v);
    var v := PtRecentContent(key, v);
    var v := PtCommonActions(key, v);
    var v := PtTopics(key, v);
    var v := PtLoadingAndErrors(key, v);
    var v := PtEmptyStates(key, v);
    var v := PtResults(key, v);
    var v := PtLanguageNames(key, v);
    v
  }

  /** The `pt` phrases for the app name (line 7), assigned over `v`. */
  function PtAppName(key: string, v: Option<string>): Option<string>
  {
    var v := if key == "appName" then Some("Transcender") else v;
    v
  }

  /** The `pt` phrases for the navigation tabs (lines 10-15), assigned over `v`. */
  function PtNavigation(key: string, v: Option<string>): Option<string>
  {
    var v := if key == "home" then Some("Início") else v;
    var v := if key == "guides" then Some("Guias") else v;
    var v := if key == "healthcare" then Some("Profissionais") else v;
    var v := if key == "hospitals" then Some("Hospitais") else v;
    var v := if key == "news" then Some("Notícias") else v;
    var v := if key == "opportunities" then Some("Oportunidades") else v;
    v
  }

  /** The `pt` phrases for the home screen (lines 18-22), assigned over `v`. */
  function PtHomepage(key: string, v: Option<string>): Option<string>
  {
    var v := if key == "heroTitle" then Some("Recursos Verificados para a") else v;
    var v := if key == "heroTitleHighlight" then Some("Comunidade Trans") else v;
    var v := if key == "heroSubtitle" then Some("Encontre informações confiáveis sobre mudança de nome, terapia hormonal, profissionais de saúde e oportunidades.") else v;
    var v := if key == "searchPlaceholder" then Some("Buscar guias, profissionais...") else v;
    var v := if key == "exploreCategories" then Some("Explore por Categoria") else v;
    v
  }

  /** The `pt` phrases for the category cards (lines 25-29), assigned over `v`. */
  function PtCategories(key: string, v: Option<string>): Option<string>
  {
    var v := if key == "guidesCategory" then Some("Guias") else v;
    var v := if key == "providersCategory" then Some("Profissionais") else v;
    var v := if key == "hospitalsCategory" then Some("Hospitais SUS") else v;
    var v := if key == "newsCategory" then Some("Notícias") else v;
    var v := if key == "opportunitiesCategory" then Some("Oportunidades") else v;
    v
  }

  /** The `pt` phrases for the category descriptions (lines 32-36), assigned over `v`. */
  function PtCategoryDescriptions(key: string, v: Option<string>): Option<string>
  {
    var v := if key == "guidesDescription" then Some("Informações verificadas") else v;
    var v := if key == "providersDescription" then Some("Médicos especializados") else v;
    var v := if key == "hospitalsDescription" then Some("Hospitais públicos") else v;
    var v := if key == "newsDescription" then Some("Últimas notícias") else v;
    var v := if key == "opportunitiesDescription" then Some("Vagas e cursos") else v;
    v
  }

  /** The `pt` phrases for the recent-content headings (lines 39-40), assigned over `v`. */
  function PtRecentContent(key: string, v: Option<string>): Option<string>
  {
    var v := if key == "recentGuides" then Some("Guias Recentes") else v;
    var v := if key == "recentNews" then Some("Notícias Recentes") else v;
    v
  }

  /** The `pt` phrases for common actions (lines 43-46), assigned over `v`. */
  function PtCommonActions(key: string, v: Option<string>): Option<string>
  {
    var v := if key == "search" then Some("Buscar") else v;
    var v := if key == "verified" then Some("Verificado") else v;
    var v := if key == "onlyVerified" then Some("Apenas Verificados") else v;
    var v := if key == "readMore" then Some("Ler Guia Completo") else v;
    v
  }

  /** The `pt` phrases for the guide topics (lines 49-54), assigned over `v`. */
  function PtTopics(key: string, v: Option<string>): Option<string>
  {
    var v := if key == "allCategories" then Some("Todas") else v;
    var v := if key == "nameChange" then Some("Mudança de Nome") else v;
    var v := if key == "hormoneTherapy" then Some("Terapia Hormonal") else v;
    var v := if key == "healthcare" then Some("Saúde") else v;
    var v := if key == "legalRights" then Some("Direitos Legais") else v;
    var v := if key == "socialIssues" then Some("Questões Sociais") else v;
    v
  }

  /** The `pt` phrases for loading and error messages (lines 57-59), assigned over `v`. */
  function PtLoadingAndErrors(key: string, v: Option<string>): Option<string>
  {
    var v := if key == "loading" then Some("Carregando...") else v;
    var v := if key == "loadingGuides" then Some("Carregando guias...") else v;
    var v := if key == "errorLoading" then Some("Erro ao carregar. Tente novamente.") else v;
    v
  }

  /** The `pt` phrases for empty results (lines 62-63), assigned over `v`. */
  function PtEmptyStates(key: string, v: Option<string>): Option<string>
  {
    var v := if key == "noGuidesFound" then Some("Nenhum guia encontrado") else v;
    var v := if key == "adjustFilters" then Some("Tente ajustar os filtros ou termos de busca.") else v;
    v
  }

  /** The `pt` phrases for result counts (lines 66-69), assigned over `v`. */
  function PtResults(key: string, v: Option<string>): Option<string>
  {
    var v := if key == "showing" then Some("Mostrando") else v;
    var v := if key == "guide" then Some("guia") else v;
    var v := if key == "guides" then Some("guias") else v;
    var v := if key == "for" then Some("para") else v;
    v
  }

  /** The `pt` phrases for the language picker (lines 72-74), assigned over `v`. */
  function PtLanguageNames(key: string, v: Option<string>): Option<string>
  {
    var v := if key == "language" then Some("Idioma") else v;
    var v := if key == "portuguese" then Some("Português") else v;
    var v := if key == "english" then Some("English") else v;
    v
  }

  /** The `en` object literal, src/utils/useLanguage.js:76-146, as the property lookup
      it evaluates to: its groups of properties are assigned in the order written,
      starting from an object with no properties. */
  function EnProperty(key: string): Option<string>
  {
    var v := None;
    var v := EnAppName(key, v);
    var v := EnNavigation(key, v);
    var v := EnHomepage(key, v);
    var v := EnCategories(key, v);
    var v := EnCategoryDescriptions(key, v);
    var v := EnRecentContent(key, v);
    var v := EnCommonActions(key, v);
    var v := EnTopics(key, v);
    var v := EnLoadingAndErrors(key, v);
    var v := EnEmptyStates(key, v);
    var v := EnResults(key, v);
    var v := EnLanguageNames(key, v);
    v
  }

  /** The `en` phrases for the app name (line 78), assigned over `v`. */
  function EnAppName(key: string, v: Option<string>): Option<string>
  {
    var v := if key == "appName" then Some("Transcend") else v;
    v
  }

  /** The `en` phrases for the navigation tabs (lines 81-86), assigned over `v`. */
  function EnNavigation(key: string, v: Option<string>): Option<string>
  {
    var v := if key == "home" then Some("Home") else v;
    var v := if key == "guides" then Some("Guides") else v;
    var v := if key == "healthcare" then Some("Healthcare") else v;
    var v := if key == "hospitals" then Some("Hospitals") else v;
    var v := if key == "news" then Some("News") else v;
    var v := if key == "opportunities" then Some("Opportunities") else v;
    v
  }

  /** The `en` phrases for the home screen (lines 89-93), assigned over `v`. */
  function EnHomepage(key: string, v: Option<string>): Option<string>
  {
    var v := if key == "heroTitle" then Some("Verified Resources for the") else v;
    var v := if key == "heroTitleHighlight" then Some("Trans Community") else v;
    var v := if key == "heroSubtitle" then Some("Find reliable information about name changes, hormone therapy, healthcare professionals, and opportunities.") else v;
    var v := if key == "searchPlaceholder" then Some("Search guides, professionals...") else v;
    var v := if key == "exploreCategories" then Some("Explore by Category") else v;
    v
  }

  /** The `en` phrases for the category cards (lines 96-100), assigned over `v`. */
  function EnCategories(key: string, v: Option<string>): Option<string>
  {
    var v := if key == "guidesCategory" then Some("Guides") else v;
    var v := if key == "providersCategory" then Some("Healthcare") else v;
    var v := if key == "hospitalsCategory" then Some("SUS Hospitals") else v;
    var v := if key == "newsCategory" then Some("News") else v;
    var v := if key == "opportunitiesCategory" then Some("Opportunities") else v;
    v
  }

  /** The `en` phrases for the category descriptions (lines 103-107), assigned over `v`. */
  function EnCategoryDescriptions(key: string, v: Option<string>): Option<string>
  {
    var v := if key == "guidesDescription" then Some("Verified information") else v;
    var v := if key == "providersDescription" then Some("Specialized doctors") else v;
    var v := if key == "hospitalsDescription" then Some("Public hospitals") else v;
    var v := if key == "newsDescription" then Some("Latest news") else v;
    var v := if key == "opportunitiesDescription" then Some("Jobs and courses") else v;
    v
  }

  /** The `en` phrases for the recent-content headings (lines 110-111), assigned over `v`. */
  function EnRecentContent(key: string, v: Option<string>): Option<string>
  {
    var v := if key == "recentGuides" then Some("Recent Guides") else v;
    var v := if key == "recentNews" then Some("Recent News") else v;
    v
  }

  /** The `en` phrases for common actions (lines 114-117), assigned over `v`. */
  function EnCommonActions(key: string, v: Option<string>): Option<string>
  {
    var v := if key == "search" then Some("Search") else v;
    var v := if key == "verified" then Some("Verified") else v;
    var v := if key == "onlyVerified" then Some("Verified Only") else v;
    var v := if key == "readMore" then Some("Read Full Guide") else v;
    v
  }

  /** The `en` phrases for the guide topics (lines 120-125), assigned over `v`. */
  function EnTopics(key: string, v: Option<string>): Option<string>
  {
    var v := if key == "allCategories" then Some("All") else v;
    var v := if key == "nameChange" then Some("Name Change") else v;
    var v := if key == "hormoneTherapy" then Some("Hormone Therapy") else v;
    var v := if key == "healthcare" then Some("Healthcare") else v;
    var v := if key == "legalRights" then Some("Legal Rights") else v;
    var v := if key == "socialIssues" then Some("Social Issues") else v;
    v
  }

  /** The `en` phrases for loading and error messages (lines 128-130), assigned over `v`. */
  function EnLoadingAndErrors(key: string, v: Option<string>): Option<string>
  {
    var v := if key == "loading" then Some("Loading...") else v;
    var v := if key == "loadingGuides" then Some("Loading guides...") else v;
    var v := if key == "errorLoading" then Some("Error loading. Please try again.") else v;
    v
  }

  /** The `en` phrases for empty results (lines 133-134), assigned over `v`. */
  function EnEmptyStates(key: string, v: Option<string>): Option<string>
  {
    var v := if key == "noGuidesFound" then Some("No guides found") else v;
    var v := if key == "adjustFilters" then Some("Try adjusting the filters or search terms.") else v;
    v
  }

  /** The `en` phrases for result counts (lines 137-140), assigned over `v`. */
  function EnResults(key: string, v: Option<string>): Option<string>
  {
    var v := if key == "showing" then Some("Showing") else v;
    var v := if key == "guide" then Some("guide") else v;
    var v := if key == "guides" then Some("guides") else v;
    var v := if key == "for" then Some("for") else v;
    v
  }

  /** The `en` phrases for the language picker (lines 143-145), assigned over `v`. */
  function EnLanguageNames(key: string, v: Option<string>): Option<string>
  {
    var v := if key == "language" then Some("Language") else v;
    var v := if key == "portuguese" then Some("Português") else v;
    var v := if key == "english" then Some("English") else v;
    v
  }

  /** `translations`: each language code the table knows, with the property lookup
      of its literal. */
  function Table(): map<string, string -> Option<string>>
  {
    map["pt" := PtProperty, "en" := EnProperty]
  }

  /** `translations[language]?.[key]`: the property `key` of the literal written for
      `language`, or None when the table has no such language or the literal has no
      such property. */
  function Lookup(language: string, key: string): (p: Option<string>)
    ensures language == "pt" ==> p == PtProperty(key)
    ensures language == "en" ==> p == EnProperty(key)
    ensures language != "pt" && language != "en" ==> p == None
  {
    if language in Table() then Table()[language](key) else None
  }

  /** `t(key)` while `language` is active: `translations[language]?.[key] || key`.
      Every property is a string, so the lookup is falsy exactly when it finds
      nothing or finds the empty string; then the key itself is returned. */
  function Translate(language: string, key: string): string
  {
    var found := Lookup(language, key);
    if found.Some? && found.value != "" then found.value else key
  }

  /** The fallback rule of `t`: a non-empty phrase found for the key is the
      result, and anything other than the key itself is such a phrase. */
  lemma TranslateFallback(language: string, key: string)
    ensures Lookup(language, key).Some? && Lookup(language, key).value != "" ==>
              Translate(language, key) == Lookup(language, key).value
    ensures Translate(language, key) != key ==>
              Lookup(language, key) == Some(Translate(language, key)) && Translate(language, key) != ""
  {
  }

  /** Nothing validates the language code: under any code other than `pt` and
      `en` every key is shown verbatim. */
  lemma UnsupportedLanguageShowsKeys(language: string, key: string)
    requires language != "pt" && language != "en"
    ensures Translate(language, key) == key
  {
  }

  /** `t` never yields the empty string for a non-empty key, and never yields
      anything but the key or a phrase of the active language. */
  lemma TranslateNeverEmpty(language: string, key: string)
    requires key != ""
    ensures Translate(language, key) != ""
  {
  }

  /** The app name in Portuguese, line 7. */
  lemma AppNameInPortuguese()
    ensures Translate("pt", "appName") == "Transcender"
  {
    assert PtProperty("appName") == Some("Transcender");
  }

  /** The app name in English, line 78. */
  lemma AppNameInEnglish()
    ensures Translate("en", "appName") == "Transcend"
  {
    assert EnProperty("appName") == Some("Transcend");
  }

  /** A repeated key keeps the value written last: in Portuguese, `guides` (lines
      11 and 68) and `healthcare` (lines 12 and 52) take the second value. */
  lemma LaterDuplicatesWinInPortuguese()
    ensures Translate("pt", "guides") == "guias"
    ensures Translate("pt", "healthcare") == "Saúde"
  {
    assert PtProperty("guides") == Some("guias");
    assert PtProperty("healthcare") == Some("Saúde");
  }

  /** The same keys repeat in English (lines 82 and 139, 83 and 123). */
  lemma LaterDuplicatesWinInEnglish()
    ensures Translate("en", "guides") == "guides"
    ensures Translate("en", "healthcare") == "Healthcare"
  {
    assert EnProperty("guides") == Some("guides");
    assert EnProperty("healthcare") == Some("Healthcare");
  }

  /** A key neither literal has is shown as itself, in Portuguese. */
  lemma UnknownKeyInPortuguese()
    ensures Translate("pt", "nonexistent_key") == "nonexistent_key"
  {
    assert PtProperty("nonexistent_key") == None;
  }

  /** A key neither literal has is shown as itself, in English. */
  lemma UnknownKeyInEnglish()
    ensures Translate("en", "nonexistent_key") == "nonexistent_key"
  {
    assert EnProperty("nonexistent_key") == None;
  }
}
