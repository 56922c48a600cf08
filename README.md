# Language-preference store of the Transcend app, in Dafny

This project models `src/utils/useLanguage.js`: the app-wide store that holds the
active UI language, translates string keys through a constant two-language table,
and persists the user's choice to the device's durable storage.

- `translations.dfy`, module `Translations`: the `translations` table (Portuguese
  `pt` and English `en`) and the lookup `t`. Each language's object literal is
  modelled as the property lookup it evaluates to. Its groups of properties are
  assigned in the order they are written, so a key written twice (`guides`,
  `healthcare`) keeps its later value, as in JavaScript. `Translate` is
  `translations[language]?.[key] || key`: a non-empty phrase when there is one,
  otherwise the key itself.
- `store.dfy`, module `LanguageStore`: the store with its fields `language`
  (initially `pt`) and `isLoaded` (initially false), and its operations
  `setLanguage`, `loadLanguage` and `t`. `World`, `Call` and `Step` give the meaning
  of each call on values, with storage as a string-to-string map. The classes
  `DurableStorage` and `Store` perform the same calls on mutable fields, and each
  `Store` method is proved to produce exactly the state `Step` gives. Whether a
  storage read or write fails is a parameter of the call. A `Restart` call stands
  for the app starting again: the store is rebuilt and storage is kept.

Where the code and the design description of the app disagree, the model follows
the code:

- `setLanguage` does not check that the code is a supported one (line 154).
- `loadLanguage` adopts any non-empty stored string, not only a supported code
  (lines 161-163).
- An unsupported code makes `t` return every key verbatim.
- A failed storage write in `setLanguage` is not swallowed. The promise it returns
  rejects (line 155, no `try`), but the in-memory change stays. The model returns
  `Rejected` in that case.

## Model

| member | source | states |
|---|---|---|
| `Translations.Lookup` | src/utils/useLanguage.js:173 | `translations[language]?.[key]` is the `pt` literal's property under `pt`, the `en` literal's under `en`, and nothing under any other language code |
| `Translations.TranslateFallback` | src/utils/useLanguage.js:171-174 | a non-empty phrase found for the key is what `t` returns; any result other than the key itself is a non-empty phrase stored for that key under the active language |
| `Translations.UnsupportedLanguageShowsKeys` | src/utils/useLanguage.js:173 | under any code other than `pt` and `en`, `t(k) == k` for every key |
| `Translations.TranslateNeverEmpty` | src/utils/useLanguage.js:173 | `t` never returns the empty string for a non-empty key |
| `Translations.AppNameInPortuguese` | src/utils/useLanguage.js:7 | `t("appName")` is `Transcender` under `pt` |
| `Translations.AppNameInEnglish` | src/utils/useLanguage.js:78 | `t("appName")` is `Transcend` under `en` |
| `Translations.LaterDuplicatesWinInPortuguese` | src/utils/useLanguage.js:11-68 | under `pt`, the repeated keys take their later values: `guides` is `guias` (line 68, not line 11) and `healthcare` is `Saúde` (line 52, not line 12) |
| `Translations.LaterDuplicatesWinInEnglish` | src/utils/useLanguage.js:82-139 | under `en`, `guides` is `guides` (line 139) and `healthcare` is `Healthcare` (line 123) |
| `Translations.UnknownKeyInPortuguese` | src/utils/useLanguage.js:171-174 | a key the table lacks, `nonexistent_key`, is returned verbatim under `pt` |
| `Translations.UnknownKeyInEnglish` | src/utils/useLanguage.js:171-174 | the same key is returned verbatim under `en` |
| `LanguageStore.SetLanguageEffect` | src/utils/useLanguage.js:153-156 | `setLanguage(lang)` makes any `lang` the active language and leaves `isLoaded` unchanged; storage then holds `lang` under `transcend-language`, or is unchanged if the write fails, and a failed write does not undo the in-memory change |
| `LanguageStore.LoadAlwaysMarksLoaded` | src/utils/useLanguage.js:158-169 | after `loadLanguage()`, `isLoaded` is true whether the stored value is present, absent or unreadable; storage is not written |
| `LanguageStore.LoadAdoptsOnlyTruthy` | src/utils/useLanguage.js:160-163 | `loadLanguage()` adopts the stored value if and only if the read succeeds and the value is a non-empty string; otherwise the language keeps its prior value |
| `LanguageStore.ReadFailureIsSwallowed` | src/utils/useLanguage.js:164-167 | a failed read leaves the language and storage unchanged and still sets `isLoaded` |
| `LanguageStore.LoadedStaysLoaded` | src/utils/useLanguage.js:151-169 | once `isLoaded` is true, no sequence of `setLanguage`/`loadLanguage` calls makes it false |
| `LanguageStore.ChoiceSurvivesRestart` | src/utils/useLanguage.js:153-163 | a code written by a successful `setLanguage` is the active language after a restart and `loadLanguage()`; for the empty code, the default `pt` stays |
| `LanguageStore.LanguageProvenance` | src/utils/useLanguage.js:150-163 | after any sequence of calls, the active and the stored code are each the default, a code some `setLanguage` call was given, or a code that was in memory or storage at the start |
| `LanguageStore.UnsupportedChoiceShowsKeys` | src/utils/useLanguage.js:153-174 | `setLanguage` accepts a code the table lacks, after which `t` returns every key verbatim |
| `LanguageStore.SwitchingChangesAppName` | src/utils/useLanguage.js:153-174 | after `setLanguage("en")`, `t("appName")` is `Transcend`; after `setLanguage("pt")` it is `Transcender`; both hold whether or not the writes succeed |
| `LanguageStore.DurableStorage.GetItem` | src/utils/useLanguage.js:160 | the read yields the stored string, `null` when the key is absent, or a rejection when the read fails; a returned string is the one stored under the key |
| `LanguageStore.DurableStorage.SetItem` | src/utils/useLanguage.js:155 | a successful write stores the value under the key and changes nothing else; a failed write changes nothing and rejects |
| `LanguageStore.Store.constructor` | src/utils/useLanguage.js:150-151 | a fresh store has `language == "pt"` and `isLoaded == false` |
| `LanguageStore.Store.SetLanguage` | src/utils/useLanguage.js:153-156 | the fields and storage change exactly as `Step` says for `setLanguage`; the result is `Rejected` exactly when the write fails |
| `LanguageStore.Store.LoadLanguage` | src/utils/useLanguage.js:158-169 | the fields change exactly as `Step` says for `loadLanguage`; `isLoaded` ends true and the result is always `Fulfilled`, because errors are not propagated |

## Left out

- The request/fetch cache that the screens use: its source is not part of this model.
- The `useLanguage` hook and the zustand `create`/`set`/`get` wiring (lines 1, 149, 179-182). The hook only passes the store's fields on. `Store.T` reads the store's language the way `get()` does. The `translations` field the store exposes (line 176) is `Translations.Table`.
- `console.error` in the `catch` of `loadLanguage` (line 165): logging with no effect on state.
- AsyncStorage itself (lines 2, 155, 160) is replaced by `DurableStorage`, a map whose reads and writes fail when a parameter says so. The causes of failure (permissions, corruption) are not modelled.
- Async scheduling: each call is one sequential step, with the in-memory update made before the storage write. Interleaved `setLanguage`/`loadLanguage` calls and storage writes that complete out of order are not modelled.
- Non-string arguments to `setLanguage` (`undefined`, numbers) are not modelled: `lang` is a string.
- Inherited properties of plain JavaScript objects (`t("toString")`, `translations["constructor"]`) are not modelled. Only the keys written in the two literals, and the codes `pt` and `en`, are found.
