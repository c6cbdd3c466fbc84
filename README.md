# CipherSync audit vault and reply normalisation, in Dafny

CipherSync is a browser dashboard. Its security tools hand their analysis to a remote language
model. Two pieces of the application have real logic, and this project models both:

- **The audit vault** (`App.tsx`). This is a newest-first list of `AuditResult` records. Each
  `addToHistory` call stamps the record with a generated id and a timestamp, puts it first and
  keeps at most 100 entries. `deleteHistoryItem` filters out an id and `purgeHistory` empties
  the list. At mount, the list is loaded from the `ciphersync_audit_vault` storage key and kept
  only if the saved text parses to an array. After every change the whole list is written back
  to that key. Module `AuditVault` holds the pure list operations and the lemmas about them.
  Its class `Vault` has a `history` field for the React state and a `stored` field for the
  storage key. Its predicate `Valid()` says the key holds the current history.
- **The reply helpers** (`geminiService.ts`). Module `GeminiService` models these:
  - `cleanText`, which deletes the characters ``#*_~` `` and then trims;
  - the request contents of the security chat;
  - the fixed fallback results when a code-audit or cloud reply does not parse;
  - the intel-scan prompt and its URL, USER and BREACH wrappers.

Module `AuditTypes` holds the record shapes of `types.ts`. Module `SeqUtil` holds the sequence
helpers: reverse, subsequence, and JavaScript's `slice(0, n)`.

Inputs that the program takes from outside become parameters:

- the value of `Math.random()` is `roll`, a real in [0, 1);
- `new Date().toLocaleString()` is `now`;
- the model's reply text is an `Option<string>`, where `None` stands for `undefined`;
- `JSON.parse` is a function `parse: string -> Parse<V>`;
- the text of the system prompt is `systemCore`;
- the outcome of reading the storage key at mount is a `SavedVault` value. It is `Missing`,
  `Blank` (the empty string, which is falsy and never parsed), `Unparseable`, `NonArray` or
  `Array(items)`.

Ids look like identifiers, but the code draws them from only 9000 values (`CS-1000` to
`CS-9999`). So two results can share an id (`IdsCanCollide`), and a delete removes every entry with that id
(`DeleteRemovesEveryDuplicate`), not just one entry. A loaded array is also not cut to 100
entries until the next add (`LoadedListNotCapped`).

## Model

| member | source | states |
|---|---|---|
| AuditTypes.Stamp | App.tsx:39-44 | the new entry keeps every field of the tool's result and carries the given id and timestamp |
| AuditVault.Decimal | App.tsx:42 | the id's number is written as decimal digits with no leading zero |
| AuditVault.DecimalRoundTrip | App.tsx:42 | reading the digits back gives the number, so the decimal text determines the number |
| AuditVault.FourDigits | App.tsx:42 | every number from 1000 to 9999 is written with exactly four digits |
| AuditVault.IdNumber | App.tsx:42 | `Math.floor(1000 + roll * 9000)` lies between 1000 and 9999 for every roll in [0, 1) |
| AuditVault.NewId | App.tsx:42 | the id is `CS-` and then four digits that spell the drawn number |
| AuditVault.SameIdIffSameNumber | App.tsx:42 | two rolls give the same id exactly when they draw the same number |
| AuditVault.IdsCanCollide | App.tsx:42 | two different rolls (0.0 and 0.0001) both give `CS-1000`, so ids are not unique |
| SeqUtil.Take | App.tsx:46 | `slice(0, n)` gives the first n elements, or the whole list when it is shorter |
| AuditVault.Added | App.tsx:46 | after an add, the new entry is first, the length is min(old length + 1, 100), and the rest are the old first min(old length, 99) entries in order |
| AuditVault.AddedAllWindow | App.tsx:46 | a series of adds acts as a sliding window: the newest entries first, cut at 100 |
| AuditVault.OnlyNewestRemain | App.tsx:46 | after at least 100 adds to an empty vault, exactly the 100 most recent entries remain, newest first |
| AuditVault.WithoutId | App.tsx:50 | after a delete, no entry carries the id and every entry with another id is still there |
| AuditVault.WithoutIdKeepsOrder | App.tsx:50 | the surviving entries keep their original order |
| AuditVault.WithoutIdCounts | App.tsx:50 | every other entry keeps all its copies, and no copy of an entry with the id is left |
| AuditVault.WithoutIdLength | App.tsx:50 | a delete shortens the list by exactly the number of entries that carry the id |
| AuditVault.WithoutIdAbsent | App.tsx:50 | a delete changes the list exactly when some entry carries the id; otherwise it is a no-op |
| AuditVault.WithoutIdIdempotent | App.tsx:50 | deleting the same id twice is the same as deleting it once |
| AuditVault.WithoutIdCommutes | App.tsx:50 | deleting two ids in either order gives the same list |
| AuditVault.DeleteUndoesAdd | App.tsx:46-50 | if no older entry shares the new id and nothing was evicted, deleting that id undoes the add |
| AuditVault.AddThreeDeleteMiddle | App.tsx:46-50 | adding A, B, C gives [C, B, A]; deleting B's id then gives [C, A] |
| AuditVault.DeleteRemovesEveryDuplicate | App.tsx:42-50 | two adds that draw the same id are both removed by one delete |
| AuditVault.Hydrated | App.tsx:20-32 | the loaded history is the saved array when there is one; otherwise it stays the initial empty list |
| AuditVault.Persisted | App.tsx:36 | what the write-through stores loads back as the same list, at any length (after a purge, the empty list) |
| AuditVault.LoadedListNotCapped | App.tsx:20-46 | a loaded list longer than 100 is kept whole, and the next add cuts it to 100 |
| AuditVault.AddThenReload | App.tsx:20-46 | after an add and a reload, the first entry has every field of the draft, the generated id (never empty) and the timestamp |
| AuditVault.TabType | App.tsx:60-62 | the code auditor, cloud guard and OSINT callbacks tag results CODE, CLOUD and OSINT, and no other tab gives these tags |
| AuditVault.Vault.Mount | App.tsx:16-37 | at mount the history is the loaded list and the storage key holds it (a rejected blob is overwritten by the empty list) |
| AuditVault.Vault.Persist | App.tsx:35-37 | the write-through: the storage key then holds the current history |
| AuditVault.Vault.Add | App.tsx:39-47 | an add stamps the draft, puts it first, keeps the old entries in order within the cap, and writes the result through |
| AuditVault.Vault.Delete | App.tsx:49-51 | a delete removes every entry with the id, keeps the others in order, and writes the result through |
| AuditVault.Vault.Purge | App.tsx:53-55 | a purge empties the history and writes the empty list through |
| AuditVault.Vault.RecordAudit | App.tsx:60-62 | a tool tab's callback records the result first, with the tab's type |
| GeminiService.IsMarker | geminiService.ts:26 | a character is deleted exactly when it is one of the five in the class ``#*_~` `` |
| GeminiService.StripMarkers | geminiService.ts:26 | the result contains none of ``# * _ ~ ` `` |
| GeminiService.StripMarkersAppend | geminiService.ts:26 | the markers are deleted where they stand and nothing else moves |
| GeminiService.StripMarkersKeepsOrder | geminiService.ts:26 | the remaining characters keep their order |
| GeminiService.StripMarkersCounts | geminiService.ts:26 | every other character keeps all its occurrences, and every marker is gone |
| GeminiService.StripMarkersIdentity | geminiService.ts:26 | deleting markers changes a string exactly when it contains one |
| GeminiService.TrimmableIsEcmaWhiteSpace | geminiService.ts:26 | the characters `trim` removes (`IsTrimmable`) are exactly the WhiteSpace and LineTerminator code points of ECMAScript, listed one by one |
| GeminiService.LeadingSpace | geminiService.ts:26 | the leading part that trimming drops is all whitespace and stops at the first non-whitespace character |
| GeminiService.TrailingSpace | geminiService.ts:26 | the trailing part that trimming drops is all whitespace and starts after the last non-whitespace character |
| GeminiService.Trim | geminiService.ts:26 | the trimmed text neither starts nor ends with whitespace |
| GeminiService.TrimIsSlice | geminiService.ts:26 | trimming keeps one contiguous slice of the text |
| GeminiService.TrimDropsOnlyWhitespace | geminiService.ts:26 | everything trimming drops around that slice is whitespace |
| GeminiService.TrimKeepsTrimmed | geminiService.ts:26 | text that neither starts nor ends with whitespace is left unchanged |
| GeminiService.CleanText | geminiService.ts:24-27 | `undefined` and `""` give `""`; the result has no marker, no leading or trailing whitespace, and is no longer than the input |
| GeminiService.CleanTextOfString | geminiService.ts:24-27 | the `!text` guard matters only for `undefined`: every string, `""` included, is cleaned by stripping then trimming |
| GeminiService.CleanTextIsSlice | geminiService.ts:24-27 | the cleaned text is a contiguous slice of the input with its markers deleted |
| GeminiService.CleanTextIdempotent | geminiService.ts:24-27 | cleaning a cleaned text changes nothing |
| GeminiService.ServiceRole | geminiService.ts:128 | a turn gets role `model` exactly when its role is `assistant`, and `user` otherwise |
| GeminiService.TurnsToContents | geminiService.ts:128 | each turn becomes one content, in order, with the mapped role and the turn's text as its only part |
| GeminiService.TurnsToContentsAppend | geminiService.ts:128 | mapping a longer conversation is mapping its parts one after the other |
| GeminiService.ChatContents | geminiService.ts:127-130 | there are one more contents than turns; content i has the mapped role and text of turn i; the last is the new message as `user` |
| GeminiService.FollowUpExtendsRequest | geminiService.ts:127-130 | once the message and its reply are added to the history, the next request extends the previous one by a `model` turn and a `user` turn |
| GeminiService.ParseSource | geminiService.ts:70 | the parser is never given empty text: a missing or empty reply becomes `{}` |
| GeminiService.CodeAuditReply | geminiService.ts:69-74 | the fallback is returned exactly when the reply does not parse, and it has no vulnerabilities, the summary "Parsing Error" and the submitted code |
| GeminiService.CloudGuardReply | geminiService.ts:116-120 | the fallback is returned exactly when the reply does not parse, and it has score 0, no findings and the summary "Analysis Failed" |
| GeminiService.EmptyReplyIsNotAFailure | geminiService.ts:69-74 | a missing or empty reply gives the parsed `{}`, not the fallback |
| GeminiService.KindLabel | geminiService.ts:140-142 | the `type` argument is written as one non-empty word of capital letters |
| GeminiService.IntelPrompt | geminiService.ts:142 | the prompt opens with the system text and the INTEL CENTER header and ends with the input, unchanged |
| GeminiService.IntelPromptRoundTrip | geminiService.ts:142 | the recon kind and the input can both be read back out of the prompt unchanged |
| GeminiService.IntelPromptInjective | geminiService.ts:142 | two scans with a different kind or input never send the same prompt |
| GeminiService.UrlAnalysisPrompt | geminiService.ts:150 | the URL analysis sends an intel prompt of kind URL that carries the URL |
| GeminiService.OsintSearchPrompt | geminiService.ts:151 | the OSINT search sends an intel prompt of kind USER that carries the query |
| GeminiService.DataBreachPrompt | geminiService.ts:152 | the breach check sends an intel prompt of kind BREACH that carries the identifier |
| GeminiService.WrapperLabels | geminiService.ts:142-152 | the prompt is the system text, then `MODULE: INTEL CENTER`, then `RECON TYPE: URL`, `USER` or `BREACH`, then `INPUT:` and the input |

## Left out

- The calls to the remote model, including the model name, the temperature and the response
  schemas. The reply text is an input instead. Network failures, which none of the four calls
  catches, are not modelled.
- `JSON.parse` and `JSON.stringify`. The parse is a parameter, and the storage key holds the
  list itself. A JSON round trip that loses information is not modelled. Examples are a `NaN`
  score, which becomes `null`, or an optional field set to `undefined`, which is dropped.
- Storage failures. `localStorage.getItem` (App.tsx:20) is outside the `try`, which wraps only
  the parse, and `localStorage.setItem` (App.tsx:36) has no `catch`. Disabled or full storage
  therefore throws an uncaught error, and the key keeps its old value. In the model every read
  and write succeeds, and `Vault.Valid()` (the key holds the history) holds after each change
  only on that assumption.
- Hydrated: a loaded array is taken as a list of well-formed `AuditResult` records. The code
  checks only `Array.isArray`, so malformed elements are not modelled.
- IdNumber: uses exact real arithmetic, so the floating-point rounding of `roll * 9000` is not
  modelled.
- `Date.toLocaleString`: the timestamp is the parameter `now`.
- The `console.error` logging on a corrupt saved value and on a parse failure.
- React effect scheduling. This includes the double effect runs of development mode. The
  write-through is modelled as `Persist` after each change and once at mount.
- Rendering, tab switching, the sidebar and styling. The tabs appear only as the three
  callbacks that record results.
- RecordAudit: a tool's result is an `AuditDraft`. Extra fields in the untyped `res` object
  that the spread would copy into the entry are not modelled.
- The prompt texts. This covers `SYSTEM_CORE` (a parameter), the SOC expert prompt and the
  chat's system instruction, and the code-audit and cloud prompts with their image
  attachments.
- `AppTab`, `ChatMessage` and `ChatSession` are declarations that the modelled logic does not
  use.
- CleanText: the worked case that cleans ``**Critical** finding_here` `` to
  `Critical findinghere` has no lemma of its own. The solver unfolds `StripMarkers` on a string
  literal of that length beyond its resource limit. The case follows from `StripMarkersAppend`,
  `StripMarkersIdentity` and `TrimKeepsTrimmed`.
