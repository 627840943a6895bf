# Begrepsbroen — a verified model of its client-side logic

Begrepsbroen explains Norwegian academic terms to speakers of other
languages. A reader picks a native language and types a term. The page asks
a generation endpoint for a plain-Norwegian explanation, a translation, an
analogy and a three-option quiz, and records each result in a
most-recent-first history kept in browser storage.

This project models the parts of that client that are logic rather than
presentation, and proves what they promise:

- `History` (`history.dfy`) models the history hook.
  - The pure updaters of add, remove and get are functions.
  - The hook itself is the class `HistoryStore`: a `seq<HistoryItem>`, an `isLoaded` flag and the storage key's content.
  - Load, save, add, remove, clear and get are methods on that class.
- `RecentSearches` (`recent_searches.dfy`) models the relative-time bucketing, its text, and the strip of chips, which is absent for an empty history.
- `ResultCards` (`result_cards.dfy`) models the quiz card.
  - A class holds the answer state, which can be set once, and the translation toggle.
  - Pure functions give the option marks and the feedback text.
- `Page` (`page.dfy`) models the page controller.
  - Pure functions cover the language table and the label derivation (`find` followed by `split(" ")[0] || value`).
  - The class `Home` has the submit handler, the history-select handler and the input setters.
- `Text`, `Seqs`, `Wrappers` and `Results` hold what the others share:
  - the JavaScript string operations (`trim`, ASCII `toLowerCase`, `split(" ")[0]`, and decimal rendering in template strings);
  - `filter` and `find` on sequences, and the subsequence order;
  - `Option`;
  - the result record.

Inputs that the source reads from the environment become parameters:

- the clock (`Date.now()`) becomes `now` and `timestamp`;
- the random entry id becomes `id`;
- the outcome of the HTTP call becomes `Response` (`Ok(data)` or `Failed`);
- whether a storage write succeeds becomes `writeOk`;
- the stored value under the key becomes `Stored`;
- `toLocaleDateString` becomes a function parameter `localeDate`.

## Model

| member | source | states |
|---|---|---|
| History.WithoutKey | src/hooks/useHistory.ts:73-79 | An entry is kept exactly when its lower-cased term or its language differs from the argument's. The kept entries are a subsequence of the prior list, so their order is preserved. |
| History.WithoutKeyCounts | src/hooks/useHistory.ts:73-79 | Every prior entry whose key differs survives as often as it occurred, and every entry of the key is dropped, so the kept list is exactly the prior entries of other keys. |
| History.AddEntry | src/hooks/useHistory.ts:62-69 | After `addToHistory` the list holds between 1 and 10 entries. Its head is the new item: trimmed term, the given language, label, result, id and timestamp. |
| History.AddTail | src/hooks/useHistory.ts:82 | The length is min(10, 1 + number of kept prior entries), where `WithoutKeyCounts` shows these are exactly the prior entries whose key differs. Behind the head come exactly those kept entries, in their order, cut at position 10. |
| History.AddTailFromPrev | src/hooks/useHistory.ts:73-82 | Every entry behind the head is a prior entry and none has the duplicate test's key. |
| History.AddKeepsOrder | src/hooks/useHistory.ts:82 | The entries behind the head keep their relative order from the prior list. |
| History.AddDropsOnlyOverflow | src/hooks/useHistory.ts:82 | Of the kept entries only those pushed past position 10 are lost. The k-th kept entry sits at position k+1 whenever k+1 < 10. |
| History.AddTrimmedKeyUnique | src/hooks/useHistory.ts:73-79 | When the term passed in is already trimmed, no entry other than the head has the head's lower-cased term and language. |
| History.AddFromPageKeyUnique | src/app/page.tsx:89 | With the term trimmed by the caller, as the page does, the head is the only entry of its key, whatever was typed. |
| History.AddTwiceSameKey | src/hooks/useHistory.ts:73-82 | Adding a term and then a trimmed term equal to it after trimming and case folding, in the same language, leaves the second item at the head and no other entry with the first item's stored key. |
| History.AddToFullEvictsOldest | src/hooks/useHistory.ts:82 | A full list receiving a new key becomes the new item followed by its first nine entries, so the oldest entry is evicted. |
| History.UntrimmedTermCanDuplicate | src/hooks/useHistory.ts:64-77 | The stored term is trimmed but the duplicate test uses the untrimmed argument. So "ord " added after "ord" in one language leaves two entries of the same key. |
| History.CaseInsensitiveExample | src/hooks/useHistory.ts:76 | "demokrati" and then "Demokrati" in one language leave one entry, carrying the second result. |
| History.WithoutId | src/hooks/useHistory.ts:88-90 | `removeFromHistory` keeps exactly the entries with a different id, in order. An absent id leaves the list unchanged. |
| History.WithoutIdCounts | src/hooks/useHistory.ts:88-90 | Every entry with another id survives as often as it occurred, and every entry with the id is dropped. |
| History.Lookup | src/hooks/useHistory.ts:96-101 | `getFromHistory` returns the first entry with the id, or nothing exactly when no entry has it. |
| History.HistoryStore.constructor | src/hooks/useHistory.ts:27-28 | The first render has an empty list and is not loaded. |
| History.HistoryStore.Load | src/hooks/useHistory.ts:31-42 | A written list is adopted. A missing or unreadable value leaves the list as it was. In every case loading ends with `isLoaded` set, and the key is not written. |
| History.HistoryStore.SaveEffect | src/hooks/useHistory.ts:44-53 | The key is written with the current list only once loading has finished. Before that, or when the write fails, the key keeps its content. |
| History.HistoryStore.Add | src/hooks/useHistory.ts:55-86 | The new list is the add updater applied to the old one. |
| History.HistoryStore.Remove | src/hooks/useHistory.ts:88-90 | The new list is the remove updater applied to the old one. |
| History.HistoryStore.Clear | src/hooks/useHistory.ts:92-94 | The list becomes empty, after which a lookup of any id finds nothing. |
| History.HistoryStore.AddAndSave | src/hooks/useHistory.ts:44-86 | An add followed by the save effect it triggers: the list is the add updater's result, and once loaded the key holds it unless the write fails. |
| History.HistoryStore.RemoveAndSave | src/hooks/useHistory.ts:44-90 | A remove followed by the save effect: the list loses the id's entries, and once loaded the key holds the new list unless the write fails. |
| History.HistoryStore.ClearAndSave | src/hooks/useHistory.ts:44-94 | A clear followed by the save effect: the list is empty, and once loaded the key holds the empty list unless the write fails. |
| History.HistoryStore.Get | src/hooks/useHistory.ts:96-101 | Returns the lookup on the current list and changes nothing. |
| History.Mount | src/hooks/useHistory.ts:27-42 | After mounting, the store is loaded and holds the written list, or the empty list when the key was missing or unreadable. |
| History.MountAndSave | src/hooks/useHistory.ts:31-53 | Setting `isLoaded` at mount runs the save effect at once: the loaded list is written back, so a missing or unreadable key ends up holding the empty list, unless the write fails. |
| History.SaveAndReload | src/hooks/useHistory.ts:31-53 | Saving a loaded list and mounting a new store on the key gives back the same list. |
| RecentSearches.ElapsedSeconds | src/components/recent-searches.tsx:26 | The whole seconds are rounded down, also for a timestamp in the future: s·1000 ≤ now − timestamp < (s+1)·1000. |
| RecentSearches.FormatTimeAgo | src/components/recent-searches.tsx:25-36 | Below 60 s, negative values included, the label is "just now". Minutes are ⌊s/60⌋ in 1..59, hours ⌊s/3600⌋ in 1..23, days ⌊s/86400⌋ in 1..6. From 604800 s on, the date of the timestamp itself is shown. Each bucket is chosen exactly on its interval. |
| RecentSearches.LaterNeverLooksYounger | src/components/recent-searches.tsx:26-31 | As the clock advances, an entry never moves to a younger bucket, and within a bucket its count never decreases. |
| RecentSearches.LabelText | src/components/recent-searches.tsx:28-35 | The texts are "Nettopp", "N min siden", "N t siden" and "N d siden", where N is the count's decimal text: digits only, no leading zero, reading back as the count. The date fallback is the locale formatting of the timestamp. |
| RecentSearches.View | src/components/recent-searches.tsx:21-76 | An empty history renders nothing. Otherwise there is one chip per entry, in history order, with its id, term, label and age. |
| ResultCards.QuizCard.constructor | src/components/result-cards.tsx:74-76 | No answer, no result shown, translation hidden. |
| ResultCards.QuizCard.AnswerClick | src/components/result-cards.tsx:78-82 | The first click records that option and reveals the result. Once revealed, a click changes nothing. An answer is recorded exactly when the result is shown. |
| ResultCards.QuizCard.ShowTranslation | src/components/result-cards.tsx:170 | Shows the translation, touches no quiz state and keeps the answer invariant. |
| ResultCards.QuizCard.HideTranslation | src/components/result-cards.tsx:191 | Hides the translation, touches no quiz state and keeps the answer invariant. |
| ResultCards.QuizCard.IsCorrect | src/components/result-cards.tsx:84 | After the reveal, the answer is correct exactly when the selected option is the one marked correct. Without an answer it is not correct. |
| ResultCards.QuizCard.Marks | src/components/result-cards.tsx:255-306 | Before the reveal every option is selectable. After it, an option is marked correct exactly when it equals `correctAnswer`, whatever was selected. After it no option is selectable any more, and an option is marked wrong exactly when it equals the selected answer and differs from `correctAnswer`. All wrong marks carry one value. When the selected option is listed, the answer is correct exactly when nothing is marked wrong. |
| ResultCards.QuizCard.Feedback | src/components/result-cards.tsx:308-331 | The panel is absent exactly before the reveal. It shows the success message when the answer is correct. Otherwise it shows a different message: the fixed prefix, then `correctAnswer`, then a closing quote. |
| Text.Lower | src/hooks/useHistory.ts:76 | The model's ASCII `Lower` keeps the length and leaves no upper-case ASCII letter. |
| Text.Trim | src/app/page.tsx:61 | `trim()` gives a result with no whitespace at either end. It is the slice of the input between its leading and trailing whitespace, and it is empty exactly when the input is all whitespace. |
| Text.TrimIdempotent | src/app/page.tsx:89 | Trimming twice is trimming once, which is why the page's `term.trim()` meets the history's trimmed-term condition. |
| Text.FirstWord | src/app/page.tsx:68 | `split(" ")[0]` gives the longest prefix without a space: what follows it is a space or the end. |
| Text.DecimalRoundTrip | src/components/recent-searches.tsx:29-31 | The digits a template string gives a count read back as that count. |
| Page.FindLanguage | src/app/page.tsx:67 | `find` returns the first table entry with the value. Nothing is found exactly when no entry has it. |
| Page.LanguageLabel | src/app/page.tsx:67-68 | The label is the non-empty first word of the matching entry's label. It falls back to the raw value when the value is not listed or that word is empty. |
| Page.EnglishLabel | src/app/page.tsx:24-68 | "english" is labelled "English". |
| Page.VietnameseLabel | src/app/page.tsx:27-68 | "vietnamese" is labelled "Tiếng", the first of the two words of "Tiếng Việt". |
| Page.UnknownValueLabel | src/app/page.tsx:68 | A value not in the table is labelled with itself. |
| Page.Home.constructor | src/app/page.tsx:44-49 | Empty form, no result, no error, not loading, no active label, and the page's language table. |
| Page.Home.EditTerm | src/app/page.tsx:184 | Sets the term. |
| Page.Home.ChooseLanguage | src/app/page.tsx:155 | Sets the language. |
| Page.Home.Submit | src/app/page.tsx:59-96 | With no language or a blank term, nothing changes and no request is made. Otherwise the request carries the trimmed term and the derived label, and loading ends false. On success the result and active label are set, the error is cleared, and the history receives (trimmed term, language value, label, data), which leaves that entry the only one of its key. On failure the result is null, the error is the fixed message, and the history is untouched. The form fields never change. |
| Page.Home.Succeed | src/app/page.tsx:85-89 | The success branch sets the result and active label and records the entry, which is the head of the history and the only entry of its key. |
| Page.Home.SelectHistoryItem | src/app/page.tsx:98-107 | Term, language, result and active label come from the item, and the error is cleared. No request is made and the history is not touched. |
| Page.Home.HistoryStrip | src/app/page.tsx:212-221 | The recent-searches strip is absent until the history is loaded, and whenever the history is empty. |
| Page.Home.DisplayLanguage | src/app/page.tsx:248 | The cards name the active label when there is one. Otherwise they name the label derived from the selected language, that is, the first word of its table label or else the raw value, which is non-empty once a language is chosen. |

## Left out

- History.HistoryStore.SaveEffect: React runs the save effect after every change of `history` or `isLoaded` (src/hooks/useHistory.ts:53). The model does not schedule effects: `Add`, `Remove`, `Clear` and `Mount` leave the key alone, and `AddAndSave`, `RemoveAndSave`, `ClearAndSave` and `MountAndSave` state the combined step. In the source, an absent or unreadable key is replaced by `"[]"` right after mounting (`MountAndSave`). Successive renders that batch several changes into one effect run are not modelled.
- Text.Lower: `toLowerCase` is modelled as ASCII case folding only. Full Unicode case mapping is not written out. Only the two concrete example lemmas depend on how letters are folded.
- Text.Trim: the whitespace set follows ECMAScript's WhiteSpace and LineTerminator productions, written out as code points.
- `localStorage`, `JSON.parse` and `JSON.stringify` are not modelled. The key's value is the abstract `Stored` value, and a JSON round trip is taken for the identity. A parsed value is assumed to be a list of well-formed items. A stored `null` or non-array value is not modelled.
- `console.error` calls are not modelled.
- `fetch` and the generation endpoint (`src/app/api/generate/route.ts`) are not part of this model. The endpoint's outcome is the `Response` parameter, with a non-2xx status, a network error and a parse error all folded into `Failed`. The shape of the result data (three options, `correctAnswer` among them) is not checked by any visible client code, so it is not assumed.
- `Date.now()` and `Math.random()` become the `id`, `timestamp` and `now` parameters.
- A render of the recent-searches strip uses one `now` for all chips.
- `toLocaleDateString("no-NO", …)` becomes the `localeDate` parameter.
- Page.Home.Submit: the intermediate render between the start of the request and its outcome (`isLoading` true, result and error cleared) is not observable in the model. The method states only the final state.
- Overlapping requests, React's batching of state updates, and stale closures are not modelled. The `isLoading` term of the button's disabled condition (src/app/page.tsx:193) guards against a second submission in the page, but not in the handler.
- The `ResultCards` component has no `key` in the page (src/app/page.tsx:242-249). A new submit unmounts the cards, because it clears the result and sets `isLoading` (src/app/page.tsx:63-65, 240). Selecting a history item while cards are on screen (src/app/page.tsx:98-107) does not unmount them, so their answer and translation state carry over to the selected item's quiz. React component identity is not modelled: a `QuizCard` is created per quiz.
- `src/app/layout.tsx`, `src/components/loading-cards.tsx`, flag emojis, animation variants and styling classes are presentation and are not part of this model.
- The "Tøm" and remove buttons of the strip call the history's `Clear` and `Remove`. That wiring is not modelled separately.

## Observations

- The duplicate test of `addToHistory` compares lower-cased *untrimmed* arguments, while the stored term is trimmed (src/hooks/useHistory.ts:64, 76). `History.UntrimmedTermCanDuplicate` exhibits two entries of one key. The page always passes a trimmed term (src/app/page.tsx:89), so there the key stays unique (`History.AddFromPageKeyUnique`, `Page.Home.Submit`).
- The label sent to the endpoint is the first word of the table label. For Vietnamese this is "Tiếng", meaning "language" (`Page.VietnameseLabel`).
