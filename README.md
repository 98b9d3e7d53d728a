# FACEIT Statistics — a Dafny model of the userscript's decision logic

The `FaceitStatistics` userscript adds a FACEIT statistics block to a Steam
profile page. It reads the Steam id from the page. It asks FACEIT's search
endpoint which FACEIT player (guid) belongs to it. It fetches that player's
profile and the lifetime statistics of two game variants, cs2 and csgo. Then
it shows either a six-field statistics block or a localized error message.

This project models the decisions of that script as pure Dafny functions and
proves what they promise. There is no network and no DOM in the model. Every
request is answered by an abstract `Service`, and what the page supplies is a
`Host` value.

Modules, one per component of `faceit-statistics.js`:

- `Js` (js.dfy): the JavaScript notions the script relies on. It has `Option`
  and `Outcome` (an awaited call resolves with a value or rejects with an Error
  message). It has opaque JSON scalars (`Value`); a scalar is passed along and
  never computed with. It has property lookup (`Get`), where a missing key
  reads as `undefined`.
- `Locale` (locale.dfy): the message table, `getLocale`, and a model of
  `String.prototype.includes` that is proved equal to "occurs at some index".
- `Resolver` (resolver.dfy): `getGuid`, which picks the first `"AVAILABLE"`
  candidate, else candidate 0, else fails with "player not found". Any request
  or payload fault becomes the request-API error.
- `Stats` (stats.dfy): `gameStats` and `getPlayerInfo`. This is the
  three-way join, the cs2-before-csgo merge, and the collapse of every failure
  into "player not found".
- `Presentation` (presentation.dfy): the text choice of `handleErrors` and
  `getSkillLevelIconPath`.
- `Pipeline` (pipeline.dfy): `start`. It reads the id, resolves the guid, merges,
  then shows a block. The request URLs are built from the script's constants.
  The module also holds the end-to-end scenarios.

The model keeps these quirks of the code:

- If no variant has a lifetime section, the merge resolves with `null`. It does
  not fail with "player not found". `start` then fails on the field read of
  `null` (line 235). The block shows `"Ошибка: "` followed by the engine's
  TypeError message (`NullMergeShowsTypeError`).
- A variant with a lifetime section but no `games[variant]` profile entry does
  not fall back to the other variant. The property read throws, and the whole
  merge fails with "player not found", even when cs2 was usable
  (`GetPlayerInfoMissingEntryFails`).
- Both variants are always evaluated. A lifetime section counts when it is
  truthy, so an empty `{}` section gives a record whose four statistics are
  `undefined`.

## Model

| member | source | states |
|---|---|---|
| `Locale.ToLower` | faceit-statistics.js:43 | the lowered string has the same length; each ASCII capital becomes its small letter (code point plus 32), every other character is kept; no ASCII capital is left |
| `Locale.ToLowerIdempotent` | faceit-statistics.js:43 | lowering an already lowered string changes nothing |
| `Locale.ShiftOccurs` | faceit-statistics.js:44 | an occurrence in the tail of a string is an occurrence one index further on in the string, and back |
| `Locale.Includes` | faceit-statistics.js:44 | `includes` is true exactly when the pattern occurs at some index of the string |
| `Locale.LoweredIncludesRu` | faceit-statistics.js:43-44 | the lowered tag contains "ru" exactly when the tag has "ru" at some index, ignoring ASCII case |
| `Locale.GetLocale` | faceit-statistics.js:42-45 | the locale is Russian iff the language tag, ignoring ASCII case, holds "ru" at some index; it is English otherwise |
| `Locale.GetLocaleCaseInsensitive` | faceit-statistics.js:43-44 | lowering the tag first never changes the chosen locale |
| `Locale.GetLocaleExamples` | faceit-statistics.js:42-45 | "ru-RU" and "RU" give Russian; "en-US" and "" give English |
| `Locale.MessagesDistinct` | faceit-statistics.js:28-39 | in each locale, the request-API error, alone or followed by ": " and a cause, differs from "player not found" |
| `Resolver.FindAvailable` | faceit-statistics.js:84 | `find` yields the least index whose status is "AVAILABLE", or nothing when no candidate has that status |
| `Resolver.GetGuid` | faceit-statistics.js:74-97 | a resolved guid comes from a listed candidate of a well-formed payload; every failure is either exactly "player not found" or the request-API error, ": " and a cause; the `GetGuid*` lemmas below fix which guid and which failure |
| `Resolver.GetGuidFirstAvailable` | faceit-statistics.js:84-88 | when candidate i is the first AVAILABLE one, wherever it stands, its guid is returned |
| `Resolver.GetGuidFallback` | faceit-statistics.js:89-90 | with no AVAILABLE candidate, a non-empty list yields the guid at index 0 |
| `Resolver.GetGuidNotFound` | faceit-statistics.js:81-96 | resolution fails with exactly "player not found" iff the search returned an empty list |
| `Resolver.GetGuidRequestError` | faceit-statistics.js:92-95 | a rejected request or a malformed payload fails with the request-API error, ": " and the cause, which is never "player not found" |
| `Stats.GameStats` | faceit-statistics.js:115-126 | undefined iff there is no lifetime section; a throw iff there is one but no `games[game]` entry; otherwise skill level and elo come from the entry and the four statistics from the lifetime section verbatim |
| `Stats.GameStatsRecordIff` | faceit-statistics.js:116-118 | a record is built iff the lifetime section and the profile entry both exist |
| `Stats.GetPlayerInfo` | faceit-statistics.js:108-136 | every failure carries exactly "player not found"; it succeeds iff all three fetches resolve and neither variant throws; a record is built wholly from cs2, or from csgo only when cs2 has no lifetime section |
| `Stats.GetPlayerInfoFetchFailure` | faceit-statistics.js:110-114 | one rejected fetch fails the join with "player not found", whatever the other two return |
| `Stats.GetPlayerInfoPrefersCs2` | faceit-statistics.js:128-131 | a cs2 record wins whenever csgo does not throw, even if csgo also has a record |
| `Stats.GetPlayerInfoFallsBackToCsgo` | faceit-statistics.js:128-131 | without a cs2 lifetime section, the csgo record is returned |
| `Stats.GetPlayerInfoNull` | faceit-statistics.js:131 | when all fetches resolve, the result is null iff neither variant has a lifetime section |
| `Stats.GetPlayerInfoMissingEntryFails` | faceit-statistics.js:118-134 | a csgo lifetime section without a csgo entry fails the merge even though the cs2 record was buildable |
| `Presentation.ErrorText` | faceit-statistics.js:219-223 | the localized "player not found" is shown verbatim; any other message is shown behind "Ошибка: " |
| `Presentation.PrefixedIsNotNotFound` | faceit-statistics.js:222 | a prefixed message never equals the "player not found" text of either locale |
| `Presentation.ErrorTextNotFoundIff` | faceit-statistics.js:219-223 | the block shows the "player not found" text iff the message was exactly that text |
| `Presentation.ErrorTextInjective` | faceit-statistics.js:219-223 | distinct messages give distinct shown texts |
| `Presentation.SkillLevelIconPath` | faceit-statistics.js:138-142 | never null; the path starts with the icon base path and ends with "-level.svg" |
| `Presentation.IconPathRoundTrip` | faceit-statistics.js:141 | the level's text can be read back from between the base path and the suffix |
| `Presentation.IconPathExample` | faceit-statistics.js:139-141 | level 10 gives the ".../icons/10-level.svg" URL |
| `Pipeline.Merge` | faceit-statistics.js:108-136 | over the profile and stats requests for that guid: every failure carries "player not found"; it resolves iff all three requests resolve and neither variant's `gameStats` throws; it resolves with null iff neither variant has a lifetime section; a record comes wholly from the cs2 responses, or from the csgo responses only when cs2 has no lifetime section |
| `Pipeline.Run` | faceit-statistics.js:229-241 | success iff the id was read, a guid was resolved from the search for that id, and the merge for that guid produced a record, which is the one returned; a Steam-id failure or a resolution failure is passed on with its own message; a failed merge ends with "player not found"; a null merge ends with the TypeError of the field read |
| `Pipeline.Start` | faceit-statistics.js:228-246 | a statistics block is shown iff the try block succeeds; it carries that record and the icon URL `getSkillLevelIconPath` builds for its skill level (base path, level text, "-level.svg"); otherwise the error block shows the caught message as the error display chooses |
| `Pipeline.EmptySearchShowsNotFound` | faceit-statistics.js:96 | an empty search list shows "player not found", whatever the profile and stats endpoints would answer |
| `Pipeline.MergeFailureShowsNotFound` | faceit-statistics.js:233-244 | once a guid is resolved, a failed merge shows exactly the localized "player not found" |
| `Pipeline.NullMergeShowsTypeError` | faceit-statistics.js:233-244 | a null merge shows "Ошибка: " followed by the TypeError text, never "player not found" (when that text differs from it) |
| `Pipeline.SearchFailureShowsApiError` | faceit-statistics.js:92-96 | a rejected search shows "Ошибка: ", the request-API error, ": " and the transport's cause |
| `Pipeline.ErrorBlockKinds` | faceit-statistics.js:219-245 | every error block shows either the localized "player not found" or a text starting with "Ошибка: " |
| `Pipeline.ScenarioMerge` | faceit-statistics.js:110-131 | end to end: a profile with a cs2 entry, a cs2 lifetime section and no csgo section merge into the cs2 record |
| `Pipeline.ScenarioStatsShown` | faceit-statistics.js:228-241 | end to end: one AVAILABLE candidate with cs2 figures shows those six figures and the level-5 icon |
| `Pipeline.ScenarioNoEntries` | faceit-statistics.js:118-134 | end to end: a profile with no game entries shows "player not found" once the cs2 response has a lifetime section |

## Left out

- `makeRequest` and `GM.xmlHttpRequest` (lines 55-71): transport and `JSON.parse` are I/O. A request is an `Outcome` given by the `Service`, and the rejection text (built with the undefined `faceitApiError` key) is opaque.
- A `JSON.parse` exception inside `onload` leaves the promise pending for ever; pending calls are not modelled.
- `Promise.all` concurrency (lines 110-114): modelled as "all resolve, or the join rejects". Which rejection arrives first does not matter, because the catch replaces its message.
- The DOM work: `getSteamId`'s query (its result is `Host.steamId`), `addStyles`, `createElement`, `createStatsItem`, `createStatsBlock` and the element handling of `handleErrors`. A missing `.responsive_status_info` element, which would make the error display itself throw, is not modelled.
- `console.log` and `console.error` output, and reading `navigator.language`, which is `Host.language`. The language is read once per run, while the script reads it at every message lookup.
- `Locale.ToLower`: lowers only the ASCII letters A-Z; JavaScript's full Unicode case mapping is not modelled. `Locale.GetLocale`'s decision is unaffected, since no other character lowers to 'r' or 'u'.
- Statistic values are never computed with. A JSON value is modelled as its string form or `undefined`, which is all the script ever uses of it.
- Response shapes are simplified. A candidate always has a `guid` and a `status` string. A profile's `games` is either an object of entries or something whose indexing throws. A truthy lifetime section that is not an object is modelled as an empty section.
- The access token, the search limit and the CSS text are constant configuration. Only the two base URLs enter the model, through the request URLs.
- Identical inputs always give identical results, because every member is a function of its inputs; no lemma states it.
