# Quick Fact Checker: result and history state, in Dafny

This project models the client-side result/history state manager of Quick Fact Checker.
It lives in two near-identical browser scripts, `Public/script.js` and the
accessibility-enhanced `static/js/script.js`. A submitted text passes an input guard
(trimmed, not blank, at most 1000 characters). The verdict source then returns a
prediction and a confidence. `showResult` turns that into a headline, a card class
(success, error or warning), a summary line and an optional confidence line, and
archives every result whose prediction is not `-1`. `addToHistory` puts the newest
item first, keeps five and writes the list back to storage. Around that sit the
`STRINGS` templates, the live character counter, the copy/share texts, the history
panel toggle, the keyboard shortcuts and, in the static script only, `escapeHtml`
and screen-reader announcements.

Layout, one module per component:

- `basics.dfy` (`Basics`): `Option`, `Take` (JavaScript `slice(0, n)` / `substring(0, n)`), prefix and suffix predicates.
- `text.dfy` (`Text`): `trim` as ECMAScript defines its whitespace; decimal rendering of numbers.
- `messages.dfy` (`Messages`): `CONFIG` limits and the `STRINGS` table with its three template helpers.
- `html.dfy` (`Html`): `escapeHtml` as the source's chain of five `replaceAll` passes, a per-character reference, and an entity decoder.
- `history.dfy` (`History`): result and entry records; one `addToHistory` step as a value-level function; runs of many steps.
- `presenter.dfy` (`Presenter`): the verdict branching of `showResult` and the labels of copy, share and history rows.
- `input.dfy` (`Input`): the submit guard and the character counter.
- `keys.dfy` (`Keys`): the key dispatch of both scripts.
- `checker.dfy` (`Checker`): class `FactChecker`. It holds the scripts' module-level state (`history`, `currentResult`, `historyExpanded`) and a ghost `stored` snapshot of the storage key. Its methods update that state in place. Its `variant` constant selects the two scripts' differences (key rules, announcements).

The verdict source, the clock and `Date.now()` are parameters: `Submit` takes the
awaited outcome (`Resolved(prediction, confidence)` or `Failed`), the timestamp and the
id. Confidence is an optional real number.

Some of the scripts' branches do not agree with each other, and the model follows each branch as written:

- Any prediction other than `-1` is archived. That includes values outside {0, 1}, which get the warning headline. Such a result also shows its confidence and is labelled FAKE (`Presenter.OtherPredictionsAreArchived`).
- A history loaded from storage is not cut to five entries. Only the next `addToHistory` cuts it.
- Copy and share label every prediction other than 1 as FAKE, including a failed analysis (`Presenter.FailedResultIsCopiedAsFake`).

## Model

| member | source | states |
|---|---|---|
| `Text.Trim` | Public/script.js:182 | the trimmed text is a slice of the input with only whitespace around it, has no whitespace at either end, and is empty exactly when the input is all whitespace |
| `Text.IntToString` | Public/script.js:283 | the rendering of an integer in a template literal is an optional minus sign, present exactly for negatives, followed by digits, and reads back as that integer |
| `Text.NatToStringRoundTrip` | Public/script.js:28 | the decimal digits written for a count read back as that count |
| `Messages.CharacterCount` | Public/script.js:28 | the label is the count's digits (read back as the count) followed directly by " characters", or " character" when the count is 1 (same code at static/js/script.js:28) |
| `Messages.AnalysisCompleted` | Public/script.js:31 | the summary is the fixed prefix, then the text verbatim if at most 100 characters, else its first 100 followed by "...", then a closing quote; length bounded |
| `Messages.AnalysisCompletedInjectiveOnShortTexts` | Public/script.js:31 | two texts of at most 100 characters with the same summary are equal |
| `Messages.AnalysisCompletedSeesOnlyExcerpt` | Public/script.js:31 | two texts over 100 characters sharing their first 100 have the same summary |
| `Messages.ShareText` | Public/script.js:34 | the share line starts with the prefix and label, quotes the first 100 characters, and always ends with `..."` whether or not anything was cut |
| `Html.ReplaceAll` | static/js/script.js:617-621 | after replacing a character by a text without it, the character no longer occurs; a text without it is unchanged |
| `Html.EscapeChainIsEscapeEach` | static/js/script.js:617-621 | because `&` is replaced first, the five chained passes equal replacing each character by its one fixed entity |
| `Html.EscapeEachHasNoSpecials` | static/js/script.js:617-621 | the escaped text contains no raw `<`, `>`, `"` or `'` |
| `Html.UnescapeEscapeEach` | static/js/script.js:617-621 | decoding the five entities recovers the original text |
| `Html.EscapeHtml` | static/js/script.js:614-622 | null, undefined or empty input gives `''`; otherwise the output is the per-character escape of the input, has no raw `<`, `>`, `"`, `'`, and decodes back to the input |
| `History.Record` | Public/script.js:315-316 | one step gives length min(n+1, 5), the new item first, and after it the previous first min(n, 4) items in order (same code at static/js/script.js:373-374) |
| `History.RecordAllKeepsNewest` | Public/script.js:310-319 | after any non-empty run of recordings the history is the newest five of all recorded and earlier items, newest first |
| `History.RecordAllBoundedAndOrdered` | Public/script.js:315-316 | after a run of recordings the history has at most 5 entries and position i holds the i-th most recent recording |
| `Presenter.Describe` | Public/script.js:249-275 | the class is success exactly for prediction 1, error exactly for 0 and warning exactly for any other value; the headline is RESULT_TRUE, RESULT_FALSE or ANALYSIS_ERROR to match (same chain at static/js/script.js:304-332) |
| `Presenter.HeadlineDeterminesCategory` | Public/script.js:249-275 | the three headlines differ, so equal headlines mean equal categories |
| `Presenter.Percent` | Public/script.js:283 | `Math.round(c * 100)` is the integer nearest to 100c, halves rounded up |
| `Presenter.ConfidenceLine` | Public/script.js:283 | the confidence line is "Confidence: ", then an integer that reads back as the rounded percentage, then "%" (same code at static/js/script.js:342) |
| `Presenter.Present` | static/js/script.js:303-367 | headline and class as `Describe`; summary as `AnalysisCompleted`; a confidence line iff a confidence is present and the prediction is not -1; archived iff the prediction is not -1; the static script announces headline plus summary when archived and ANALYSIS_ERROR otherwise, the public one nothing (Public/script.js:249-305) |
| `Presenter.FailureIsNeverArchived` | Public/script.js:197-199 | the failure path `showResult(-1, null, text)` is a warning, not archived, without a confidence line, announced as ANALYSIS_ERROR in the static script |
| `Presenter.SourceOutcomesKeepVerdictInvariant` | Public/script.js:280-305 | for outcomes the verdict source produces (0 or 1 with a confidence, or the failure path), the confidence is shown and the result archived exactly when the card is not the warning |
| `Presenter.OtherPredictionsAreArchived` | Public/script.js:266-305 | a prediction outside {-1, 0, 1} gets the warning card yet is archived and shows its confidence |
| `Presenter.ResultLabel` | Public/script.js:383 | the label is TRUE exactly for prediction 1 and FAKE for everything else |
| `Presenter.ConfidenceSuffix` | Public/script.js:384 | the confidence suffix is empty exactly when the confidence is absent or zero (falsy); otherwise it is " (", an integer that reads back as the rounded percentage, "%", the unit and ")" |
| `Presenter.CopyText` | Public/script.js:383-386 | the copied text starts with "Fact Check Result: " and the label and ends with the analysed text in quotes, with exactly the confidence suffix between |
| `Presenter.ShareTextOf` | Public/script.js:395-398 | the shared text is the prefix with the result label, then the first 100 characters of the analysed text, then `..."` (same call at static/js/script.js:461) |
| `Presenter.FailedResultIsCopiedAsFake` | Public/script.js:381-398 | a failed analysis held as the current result is copied and shared as FAKE |
| `Presenter.HistoryBadge` | Public/script.js:334-346 | a history row gets class "true" and a tick with TRUE exactly for prediction 1, otherwise "false", a cross and FAKE, followed by exactly the confidence suffix and nothing else (no percentage when the confidence is absent or zero) |
| `Input.CheckSubmission` | Public/script.js:182-191 | blank after trimming is rejected as empty, over 1000 trimmed characters as too long, otherwise the trimmed text (1 to 1000 characters) goes on to analysis (same guard at static/js/script.js:228-239) |
| `Input.CountCharacters` | Public/script.js:156-166 | the counter label is `CHARACTER_COUNT(count)`; submit is disabled and the limit toast shown exactly when the count exceeds 1000 |
| `Input.TooLongForGateIsTooLongForCounter` | Public/script.js:156-191 | whatever the guard rejects as too long, the counter applied to the same untrimmed text marks as over the limit (a statement about lengths, not about timing) |
| `Input.CounterStricterThanGate` | static/js/script.js:198-239 | a padded text can disable the button (untrimmed count over 1000) while the guard accepts its trimmed form |
| `Keys.StaticKeyAction` | static/js/script.js:503-536 | Alt+S without Shift or Ctrl focuses the input, Alt+H toggles the history, Alt+Enter submits, Escape collapses only an expanded history; each action is taken exactly under its own rule, and `handleGlobalKeys` takes at most one action per event |
| `Keys.PublicKeyAction` | Public/script.js:429-434 | the public script reacts only to Escape, and only while the history is expanded |
| `Keys.StaticRulesAreDisjoint` | static/js/script.js:505-531 | no key press satisfies two of the rules, so their fixed order never decides between two actions |
| `Keys.EscapeWhileCollapsedIsIgnored` | static/js/script.js:531-535 | Escape on a collapsed panel does nothing in either script |
| `Checker.ShownVerdict` | Public/script.js:195-199 | a resolved call passes its prediction and confidence on; a thrown one passes -1 and null |
| `Checker.ToggleAnnouncement` | static/js/script.js:431-438 | the static script announces "History collapsed", or "History expanded. " then digits that read back as the item count, then exactly " items."; the public script announces nothing |
| `Checker.FactChecker.constructor` | Public/script.js:61-63 | start-up state: the stored history as loaded, no current result, panel collapsed |
| `Checker.FactChecker.AddToHistory` | Public/script.js:310-319 | the history becomes one `Record` step of the old one: at most 5 entries, the new item first, the old order kept; the stored snapshot equals the history; nothing else changes (static/js/script.js:371-377) |
| `Checker.FactChecker.ShowResult` | Public/script.js:233-306 | sets the current result; returns `Present`; archives exactly when the prediction is not -1 and otherwise leaves the history as it was |
| `Checker.FactChecker.Submit` | Public/script.js:180-203 | a rejected text returns the rejection and its toast with history and current result unchanged; an accepted one runs `ShowResult` on the trimmed text with the outcome's verdict, -1 and null on failure (static/js/script.js:226-253) |
| `Checker.FactChecker.ToggleHistory` | static/js/script.js:427-439 | negates `historyExpanded`, so two toggles restore it, and returns the variant's announcement (Public/script.js:367-377) |
| `Checker.FactChecker.HandleGlobalKeys` | static/js/script.js:503-536 | applies the variant's key action to the state it finds: only the two history actions change anything, each by one toggle (Public/script.js:429-434) |
| `Checker.FactChecker.CopyResult` | Public/script.js:381-392 | no text without a current result, else its `CopyText` |
| `Checker.FactChecker.ShareResult` | Public/script.js:393-400 | no text without a current result, else its share text |

## Left out

- DOM updates: classes, styles, `innerHTML`, icons, scrolling, focus, toasts. The model returns the decisions that drive them (headline, category, confidence line, messages, announcements).
- `analyzeText` and every timer: the random mock prediction, its 2–3 s delay, the 100 ms and 300 ms reveal delays, the 50 ms announcement delay and the 100 ms input debounce. The verdict source's outcome is a parameter of `Submit`.
- The retry button is made visible for warnings and hidden again by the 100 ms reveal timer in the same call. This happens in the DOM and under timers, so it is not modelled. `retryAnalysis` (Public/script.js:218-224) disables the retry button and calls `handleFormSubmit` 800 ms later, which reads the text box again at that moment: it is a later `Submit` on whatever the box then holds, not necessarily the input that failed.
- Confetti: the canvas animation is random and floating-point. The decision to launch it is also left out (prediction 1; in the static script, unless reduced motion is preferred).
- Theme toggle, clipboard, `navigator.share`, service worker and manifest: browser APIs. `ShareResult` returns the shared text. The clipboard fallback's extra URL line is not modelled.
- Storage writes are assumed to succeed. In the source, `localStorage.setItem` in `addToHistory` (Public/script.js:317, static/js/script.js:375) can throw, for instance on a full quota. The entry is then already in the in-memory history but not stored. The exception reaches the `catch` of `handleFormSubmit` (Public/script.js:197-199), which calls `showResult(-1, null, text)`: the card turns into the warning and the static script announces ANALYSIS_ERROR. The model's `Submit` and `AddToHistory` do not have this path, and `Valid()` (history equals the stored copy) relies on it being absent.
- The history header's own `keydown` handler (Public/script.js:114-119, static/js/script.js:146-151) is not modelled. It toggles the panel on Enter or Space with no modifier check, so in the static script Alt+Enter on the focused header both toggles the history there and submits through `handleGlobalKeys`. The public script has no Alt+Enter rule, so there the header only toggles.
- Storage: only a ghost snapshot of what was last written. Parsing the stored JSON at start-up becomes the constructor's `saved` parameter. A corrupt stored value makes the source throw, and the model does not claim safe loading.
- Ids and timestamps come from the caller. The model does not claim `Date.now()` ids are unique.
- `updateHistoryDisplay`, `renderHistoryItems` markup, the sample and clear buttons, textarea resizing, and the per-row copy buttons (`encodeURIComponent`): DOM plumbing. Only the row badge is modelled. The public script writes `item.text` into the page without escaping; the static script escapes it.
- Lengths and `substring(0, 100)` count Dafny characters (Unicode code points). JavaScript counts UTF-16 code units: a character outside the Basic Multilingual Plane counts twice there, and the cut can split it.
- `Presenter.Percent`: computed on exact real numbers, not IEEE doubles, so a product like `0.285 * 100` may round differently in the browser. The confidence-bar fill width is not modelled.
- The in-flight submit flag (`setLoading`) and the stale-response race between overlapping submissions. Each `Submit` is one completed call.
- `toLowerCase` on the key name is modelled as "the letter or its capital". These are the only key names that lower-case to `s` or `h`.
- `app.py`, the Python training and setup scripts, and the React landing page are server code, offline tooling and static markup, outside the result/history core.
