/** The language-preference store of src/utils/useLanguage.js:149-177: two fields,
    `language` and `isLoaded`, changed by `setLanguage` and `loadLanguage`, with `t`
    reading the current language.

    The device's durable storage (AsyncStorage) is modelled as a key-value map whose
    reads and writes may fail; whether a given call fails is a parameter. Each async
    operation is one sequential step, with the in-memory update made before the
    storage write. `World` and `Step` give the meaning of each call on values; the
    `Store` class below carries out the same calls on mutable fields and is proved to
    agree with `Step`. */
module LanguageStore {
  import Translations

  /** The key the language code is stored under (lines 155 and 160). */
  const StorageKey := "transcend-language"

  /** The language a fresh store starts with (line 150). */
  const DefaultLanguage := "pt"

  /** What a storage read settles to: the stored string, `null` when nothing is
      stored under the key, or a rejection. */
  datatype ReadResult = Stored(value: string) | Null | Thrown

  /** How the promise an async operation returns settles. */
  datatype Settlement = Fulfilled | Rejected

  /** The store's two fields. */
  datatype Prefs = Prefs(language: string, isLoaded: bool)

  /** The store's fields together with what durable storage holds. */
  datatype World = World(prefs: Prefs, items: map<string, string>)

  /** What the app can do to the store: `setLanguage(lang)`, whose storage write
      may fail; `loadLanguage()`, whose storage read may fail; or a restart of the
      app, which rebuilds the store and keeps durable storage. */
  datatype Call = SetLanguage(lang: string, writeFails: bool) | LoadLanguage(readFails: bool) | Restart

  /** The fields of a freshly created store (lines 150-151). */
  const Initial := Prefs(DefaultLanguage, false)

  /** `AsyncStorage.getItem(key)` against `items`. */
  function Read(items: map<string, string>, key: string, fails: bool): ReadResult
  {
    if fails then Thrown
    else if key in items then Stored(items[key])
    else Null
  }

  /** `if (savedLanguage)`: a read value is adopted only when it is truthy, that is
      a string that is not empty. */
  predicate Truthy(r: ReadResult)
  {
    r.Stored? && r.value != ""
  }

  /** The effect of one call (lines 153-156 and 158-169). */
  function Step(w: World, c: Call): World
  {
    match c
    case SetLanguage(lang, writeFails) =>
      World(Prefs(lang, w.prefs.isLoaded),
            if writeFails then w.items else w.items[StorageKey := lang])
    case LoadLanguage(readFails) =>
      var saved := Read(w.items, StorageKey, readFails);
      World(Prefs(if Truthy(saved) then saved.value else w.prefs.language, true), w.items)
    case Restart =>
      World(Initial, w.items)
  }

  /** The effect of a sequence of calls, made one after another. */
  function Run(w: World, calls: seq<Call>): World
    decreases |calls|
  {
    if calls == [] then w else Run(Step(w, calls[0]), calls[1..])
  }

  /** `setLanguage(lang)` changes the language to `lang` whatever it is, leaves
      `isLoaded` alone, and stores `lang` unless the write fails; a failed write
      does not undo the change in memory. */
  lemma SetLanguageEffect(w: World, lang: string, writeFails: bool)
    ensures Step(w, SetLanguage(lang, writeFails)).prefs.language == lang
    ensures Step(w, SetLanguage(lang, writeFails)).prefs.isLoaded == w.prefs.isLoaded
    ensures !writeFails ==> Step(w, SetLanguage(lang, writeFails)).items == w.items[StorageKey := lang]
    ensures writeFails ==> Step(w, SetLanguage(lang, writeFails)).items == w.items
  {
  }

  /** `loadLanguage()` ends with `isLoaded` set, whether the stored value is
      present, absent or unreadable, and never writes to storage. */
  lemma LoadAlwaysMarksLoaded(w: World, readFails: bool)
    ensures Step(w, LoadLanguage(readFails)).prefs.isLoaded
    ensures Step(w, LoadLanguage(readFails)).items == w.items
  {
  }

  /** `loadLanguage()` adopts the stored code exactly when the read succeeds and
      finds a non-empty string; otherwise the language is left as it was. Nothing
      checks that the code is one the table knows. */
  lemma LoadAdoptsOnlyTruthy(w: World, readFails: bool)
    ensures var after := Step(w, LoadLanguage(readFails)).prefs.language;
      if !readFails && StorageKey in w.items && w.items[StorageKey] != ""
      then after == w.items[StorageKey]
      else after == w.prefs.language
  {
  }

  /** A failed read is swallowed: the language stays, `isLoaded` is set, storage
      is untouched. */
  lemma ReadFailureIsSwallowed(w: World)
    ensures Step(w, LoadLanguage(true)) == World(Prefs(w.prefs.language, true), w.items)
  {
  }

  /** Nothing the app does clears `isLoaded` again until the app restarts. */
  lemma {:induction false} LoadedStaysLoaded(w: World, calls: seq<Call>)
    requires w.prefs.isLoaded
    requires forall i :: 0 <= i < |calls| ==> !calls[i].Restart?
    ensures Run(w, calls).prefs.isLoaded
    decreases |calls|
  {
    if calls != [] {
      LoadedStaysLoaded(Step(w, calls[0]), calls[1..]);
    }
  }

  /** A language chosen with a successful write is the language after the app
      restarts and loads, provided it is not empty (an empty code is stored but
      not adopted, so the default stays). */
  lemma {:induction false} ChoiceSurvivesRestart(w: World, lang: string)
    ensures Run(w, [SetLanguage(lang, false), Restart, LoadLanguage(false)]).prefs
            == Prefs(if lang != "" then lang else DefaultLanguage, true)
  {
    assert [Restart, LoadLanguage(false)][1..] == [LoadLanguage(false)];
    assert [SetLanguage(lang, false), Restart, LoadLanguage(false)][1..] == [Restart, LoadLanguage(false)];
  }

  /** The codes passed to `setLanguage` in `calls`. */
  function ChosenCodes(calls: seq<Call>): set<string>
  {
    set i | 0 <= i < |calls| && calls[i].SetLanguage? :: calls[i].lang
  }

  /** Every code in play, the language in memory and the one in storage, is
      drawn from `codes`. */
  ghost predicate DrawnFrom(w: World, codes: set<string>)
  {
    w.prefs.language in codes && (StorageKey in w.items ==> w.items[StorageKey] in codes)
  }

  /** Where the active and the stored code come from: each is always the
      default, a code some `setLanguage` call was given, or a code that was in
      memory or storage to begin with. */
  lemma {:induction false} LanguageProvenance(w: World, calls: seq<Call>, codes: set<string>)
    requires DrawnFrom(w, codes)
    requires DefaultLanguage in codes
    requires ChosenCodes(calls) <= codes
    ensures DrawnFrom(Run(w, calls), codes)
    decreases |calls|
  {
    if calls != [] {
      assert ChosenCodes(calls[1..]) <= ChosenCodes(calls);
      LanguageProvenance(Step(w, calls[0]), calls[1..], codes);
    }
  }

  /** Choosing a code the table does not know is accepted, and from then on `t`
      shows every key verbatim. */
  lemma UnsupportedChoiceShowsKeys(w: World, lang: string, writeFails: bool, key: string)
    requires lang != "pt" && lang != "en"
    ensures Translations.Translate(Step(w, SetLanguage(lang, writeFails)).prefs.language, key) == key
  {
    Translations.UnsupportedLanguageShowsKeys(lang, key);
  }

  /** Switching to English and then back to Portuguese changes what `t("appName")`
      shows at once, whether or not the writes succeed. */
  lemma SwitchingChangesAppName(w: World, fails1: bool, fails2: bool)
    ensures var w1 := Step(w, SetLanguage("en", fails1));
      Translations.Translate(w1.prefs.language, "appName") == "Transcend"
      && Translations.Translate(Step(w1, SetLanguage("pt", fails2)).prefs.language, "appName")
         == "Transcender"
  {
    Translations.AppNameInEnglish();
    Translations.AppNameInPortuguese();
  }

  /** The device's durable storage: string values by string key. */
  class DurableStorage {
    var items: map<string, string>

    constructor (items: map<string, string>)
      ensures this.items == items
    {
      this.items := items;
    }

    /** `AsyncStorage.getItem(key)`; `fails` says whether this read is rejected. */
    method GetItem(key: string, fails: bool) returns (r: ReadResult)
      ensures r == Read(items, key, fails)
      ensures r.Stored? ==> key in items && items[key] == r.value
    {
      if fails {
        r := Thrown;
      } else if key in items {
        r := Stored(items[key]);
      } else {
        r := Null;
      }
    }

    /** `AsyncStorage.setItem(key, value)`; `fails` says whether this write is
        rejected, in which case nothing is stored. */
    method SetItem(key: string, value: string, fails: bool) returns (settled: Settlement)
      modifies this
      ensures settled == if fails then Rejected else Fulfilled
      ensures items == if fails then old(items) else old(items)[key := value]
    {
      if fails {
        settled := Rejected;
      } else {
        items := items[key := value];
        settled := Fulfilled;
      }
    }
  }

  /** The store `create(...)` builds (lines 149-177), over the storage it uses. */
  class Store {
    var language: string
    var isLoaded: bool
    const storage: DurableStorage

    /** The store's fields and the storage's contents. */
    function State(): World
      reads this, storage
    {
      World(Prefs(language, isLoaded), storage.items)
    }

    /** A fresh store: `language` is `pt` and `isLoaded` is false. */
    constructor (storage: DurableStorage)
      ensures this.storage == storage
      ensures language == DefaultLanguage && !isLoaded
      ensures State() == World(Initial, storage.items)
    {
      this.storage := storage;
      language := DefaultLanguage;
      isLoaded := false;
    }

    /** `setLanguage(lang)`: the language changes in memory first, then `lang` is
        written to storage. A rejected write rejects the returned promise but
        leaves the language changed. */
    method SetLanguage(lang: string, writeFails: bool) returns (settled: Settlement)
      modifies this, storage
      ensures State() == Step(old(State()), Call.SetLanguage(lang, writeFails))
      ensures language == lang && isLoaded == old(isLoaded)
      ensures settled == if writeFails then Rejected else Fulfilled
    {
      language := lang;
      settled := storage.SetItem(StorageKey, lang, writeFails);
    }

    /** `loadLanguage()`: reads the stored code once, adopts it when it is truthy,
        swallows a failed read, and finally sets `isLoaded`. The returned promise
        always fulfils. */
    method LoadLanguage(readFails: bool) returns (settled: Settlement)
      modifies this
      ensures State() == Step(old(State()), Call.LoadLanguage(readFails))
      ensures isLoaded
      ensures settled == Fulfilled
    {
      var saved := storage.GetItem(StorageKey, readFails);
      if saved.Thrown? {
        // the catch block only logs the error
      } else if Truthy(saved) {
        language := saved.value;
      }
      isLoaded := true;
      settled := Fulfilled;
    }

    /** `t(key)` under the store's current language. */
    function T(key: string): string
      reads this
    {
      Translations.Translate(language, key)
    }
  }
}
