# Wikipedia TOC widget — a Dafny model

This project models the logic of `scripts.js`, a browser widget that asks the MediaWiki
API for an article's sections and language links, renders the sections as a nested
list of links, and remembers the last successful fetch so that changing the language
selector can jump straight to the same article in another language.

The model has four modules (plus `Wrappers`, which holds `Option`):

- `Title` (`title.dfy`): getWikiPage's `replace(/\s+/g, '_')` as the function
  `Normalize`, with ECMAScript's `\s` set written out as `IsWhitespace`. Lemmas show
  that the result has no whitespace, is never longer, keeps every word and turns every
  maximal whitespace run into exactly one `_`, and that normalising twice changes
  nothing.
- `TocBuilder` (`toc.dfy`): presentTOC's loop as the method `PresentToc`, a `for`
  loop over the sections with two inner `while` loops stepping a level cursor up and
  down and appending to a token sequence. The tokens are `ListOpen`
  (`<ul class="toc-list">`), `Open` (`<ul>`), `Close` (`</ul>`) and
  `Item(href, number, line)` (one `<li>`); `Markup` gives their exact text, with no
  escaping. The method is proved equal to the function `Toc`, and the lemmas about
  `Toc` give the entries in order, the tag count, the nesting depth of every entry, and
  when the markup is balanced.
- `Response` (`response.dfy`): the test at the top of fetchTOC's handler, as
  `Classify`, from a transport reply (`NotOk`, or `Ok` with the parsed body) to either
  the parsed data or the failure its `catch` receives.
- `Session` (`session.dfy`): the closure's state as the class `TocPage`. It holds the
  article input, the selected language option, `latestArticleDetails` (`latest`), the
  container's contents, the log of requests issued, and whether a reply is awaited.
  fetchTOC is split into `StartFetch` and `OnResponse`. The change handler is
  `OnLanguageChange`, and it returns how many fetches it started. `EditArticle`
  stands for the user typing into the article field. `ApiRequest` and `PageUrl` build
  the request (host and ordered query parameters) and the article's page address from
  the language code and the normalised title. `OnResponse` reads the input and the
  selected language when the reply arrives, as presentTOC does. A predicate `Valid`
  is kept by every method: a snapshot is only set while no fetch is in flight and the
  container shows a TOC. The method `SwitchScenario` is a client of the class: a
  successful fetch, a language switch that takes the shortcut and starts one fetch, an
  API error shown verbatim, and a second switch that finds no snapshot and starts none.

Three behaviours of the code that a reader might not expect, all modelled as written:

- The builder appends a single `</ul>` at the end (scripts.js:70), whatever level the
  last section left open. `TagCount` and `BalancedIff` state the consequence: the
  markup is balanced only when there are no sections or the last one is at level 1.
- A present `error` without a truthy `info` shows the generic fallback message
  (scripts.js:93). With no `error` and an empty section list, `data.error.info` reads
  `info` of undefined, so the engine's TypeError is shown and not the fallback.
  `Classify` returns `ReadOfUndefined("info")` for that case.
- With no `error` and no `parse`, the test `data.parse.sections` reads `sections` of
  undefined (scripts.js:92), and that TypeError is shown. This is also a case of
  `Classify`.

## Model

| member | source | states |
|---|---|---|
| `Title.Normalize` | scripts.js:12 | the normalised title contains no whitespace and is never longer than the input |
| `Title.NormalizeWord` | scripts.js:12 | a title without whitespace is unchanged |
| `Title.NormalizeRun` | scripts.js:12 | word + maximal non-empty whitespace run + rest becomes word + exactly one `_` + the normalised rest |
| `Title.NormalizeIdempotent` | scripts.js:12 | normalising an already normalised title changes nothing |
| `Title.NormalizeKeepsText` | scripts.js:12 | leaving underscores aside, the result is exactly the input's non-whitespace characters in order |
| `TocBuilder.PresentToc` | scripts.js:48-70 | the loop's tokens equal `Toc`: outer list, then for each section max(0, level − cursor) `<ul>`, max(0, cursor − level) `</ul>` and its `<li>`, the cursor starting at 1 and becoming each section's level; then a single `</ul>` |
| `TocBuilder.TokenMarkup` | scripts.js:48-67 | the exact text appended for each token: the two list tags and `</ul>` verbatim, and for an entry a `<li>`…`</li>` element of 256 template characters with the href, number and heading at fixed offsets after the template's indentation |
| `TocBuilder.Markup` | scripts.js:48-71 | the container's text is empty exactly when there are no tokens |
| `TocBuilder.MarkupAppend` | scripts.js:48-71 | the text of two token stretches appended is the texts appended, so the `+=` builder's string is the tokens' texts in order |
| `TocBuilder.EmptyToc` | scripts.js:48-70 | no sections gives exactly `<ul class="toc-list"></ul>` |
| `TocBuilder.StartsDeep` | scripts.js:49-67 | a first section at level 3 comes after two nested `<ul>` inside the outer list, with no error |
| `TocBuilder.JumpAndReturn` | scripts.js:49-67 | levels 1, 3, 1 give item, two `<ul>`, item, two `</ul>`, item, then the final `</ul>` |
| `TocBuilder.ItemsInOrder` | scripts.js:51-67 | exactly one `<li>` per section, in input order, with href `pageUrl#anchor`, the section's number and its heading |
| `TocBuilder.TagCount` | scripts.js:48-70 | for any levels, opening tags minus closing tags is the last section's level minus 1, and 0 with no sections |
| `TocBuilder.BalancedIff` | scripts.js:48-70 | with levels ≥ 1, the markup is balanced if and only if there are no sections or the last level is 1 |
| `TocBuilder.ItemDepth` | scripts.js:49-67 | with levels ≥ 1, the markup up to each section's `<li>` is a prefix of the output, ends with that entry and leaves exactly `level` lists open |
| `Response.Classify` | scripts.js:84-94 | a non-OK status throws the network message; an API error shows its truthy `info`, else the fallback message; no error and no `parse` fails reading `sections`; no error and no sections fails reading `info`; otherwise success with the reply's data |
| `Response.SucceedsIff` | scripts.js:92-101 | a TOC is rendered if and only if the reply is OK, has no error and has at least one section |
| `Response.FallbackOnlyForInfolessError` | scripts.js:92-93 | the fallback message appears if and only if an API error has no truthy `info` (or that very text); never for an empty section list |
| `Session.GetLanguage` | scripts.js:15-27 | the direction is the option's `data-direction` when truthy and `ltr` otherwise |
| `Session.ApiRequest` | scripts.js:29-38 | the request goes to the selected language's `api.php` with `origin`, `format`, `action`, `prop` and `page` in that order; `page` is the normalised title and holds no whitespace |
| `Session.PageUrl` | scripts.js:42 | the links' base is the language's `/wiki/` address followed by the very title sent as the request's `page` |
| `Session.SameRequestIff` | scripts.js:29-38 | two inputs give the same request exactly when they normalise to the same title |
| `Session.FindLink` | scripts.js:120 | the index of the first link in the requested language, or none when no link is in it |
| `Session.Shortcut` | scripts.js:118-123 | a title is found if and only if the snapshot is set, its article equals the raw input and some link is in the language; it is the first such link's title |
| `Session.ShortcutIsLiteral` | scripts.js:118 | inputs that normalise to the same page but differ in raw spacing do not take the shortcut |
| `Session.TocPage.constructor` | scripts.js:9 | the snapshot starts unset, no request issued |
| `Session.TocPage.StartFetch` | scripts.js:74-83 | the snapshot is unset and the container emptied; exactly one request for the normalised current input in the selected language is added |
| `Session.TocPage.OnResponse` | scripts.js:84-106 | on success the snapshot is (raw input, langlinks) and the container shows `Toc` for the page URL, with the option's direction; every failure shows its alert and leaves the snapshot unset |
| `Session.TocPage.OnLanguageChange` | scripts.js:114-127 | when `Shortcut` finds a title, the input becomes it and exactly one fetch starts; otherwise nothing but the selection changes and no fetch starts |

## Left out

- The network: `fetch`, the `Api-User-Agent` header and `response.json()` are I/O. A reply is an input value. A body that fails to parse as JSON is not modelled.
- A `fetch` that rejects outright (offline, DNS failure, CORS): it reaches the same `catch` (scripts.js:103-105) and shows the engine's TypeError, not the network message. `Reply` has only a non-OK status and an OK body, so this path is not modelled.
- The DOM: element lookups, `innerHTML` writes, the `direction-ltr`/`direction-rtl` class swap and the event wiring. The values they carry are fields: the input text, the selected option and the container contents.
- The container's direction class outside a TOC: the class is only changed in presentTOC (scripts.js:45-46), so an alert or an emptied container keeps the previous TOC's `direction-*` class. `Blank` and `Alert` carry no direction, so this persisting class is not modelled.
- Overlapping fetches: the last-writer-wins race between two replies in flight is not modelled. `OnResponse` takes one reply for a started fetch.
- URLSearchParams percent-encoding: the request is a host and an ordered list of query parameters.
- `parseInt` of `toclevel`: a level is an integer input. A level that parses to `NaN`, which would leave the cursor where it is, is not modelled.
- The text of the engine's TypeError: it differs between engines. The model records only which property of undefined was read.
- A reply with `parse` but no `langlinks`: `langlinks` is always a list here. In the source, a missing list is stored in the snapshot, and a later language switch throws in `find` only if it gets that far, that is, if the input still equals the stored article (scripts.js:118-120).
- A `parse` without `sections`: `sections` is always a list here. In the source, the test reads `length` of undefined (scripts.js:92) and shows that TypeError.
- Section and link fields that are not strings: each field of a section or link is a string here. The source would insert the text `undefined` for a missing one.
- `catch`'s `error.message ? error.message : error`: every error the handler can throw has a message, so the container shows that message.
