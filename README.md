# Vehicle-bot conversation engine, in Dafny

This project models the conversation engine of a Telegram bot that recolours vehicle photos.
A chat picks a language, sends a photo, and picks a colour and a texture. An external n8n
workflow then produces the recoloured image. Each chat is allowed a weekly number of
generations.

It has three parts:

- `sessions.dfy` (module `Sessions`) models the per-chat store that src/sessions.js keeps in Redis.
  - Sessions support get-or-create-default, merge-update, reset-keeping-language and delete.
  - The weekly usage counter supports increment, the limit test and the remaining count.
  - The processing lock is set-if-absent.
  - Class `Store` holds one map per key namespace (`session:`, `usage:`, `lock:`), so the
    namespaces are disjoint by construction. It also records the expiry that `incrementUsage`
    sets on a new weekly bucket.
  - The weekly limit is the store's constant `limit`. The constructor requires it to be positive.
- `handlers.dfy` (module `Handlers`) models the state machine of src/handlers.js:
  `IDLE → AWAITING_LANGUAGE → AWAITING_VEHICLE_IMAGE → AWAITING_COLOR → AWAITING_TEXTURE →
  PROCESSING → COMPLETED`, with "another" looping back to `AWAITING_VEHICLE_IMAGE`.
  - Each handler is a method on the store. It performs the source's store calls in order.
    The repeated `getSession` reads are left out: those in `msg()`, in `getColorName` and
    `getTextureName` (src/handlers.js:36, 43), and in `handleVehicleImage` (src/handlers.js:135).
    After a handler's first read the session exists, so these reads change nothing.
  - Its contract equates the new store with a pure transition function (`AfterStart`,
    `AfterLanguage`, …) of the session read at entry and of the quota test.
  - The processor and the watermark step are outcome parameters.
  - The lemmas state the properties of the flow.
- `n8n.dfy` (module `N8n`) models two parts of src/n8n.js:
  - normalisation of the webhook reply to `{success, outputImage}` / `{success: false, error}`;
  - classification of a failed HTTP call into the error that is thrown.
- `strings.dfy` (module `Strings`) models JavaScript's first-occurrence `replace` and the
  decimal rendering of a number. `wrappers.dfy` holds `Option`.
- `scenarios.dfy` (module `Scenarios`) contains two whole conversations that start from an
  empty store.

Where the source and its intent differ, the model follows the intent. Each case is noted
below and in comments:

- The handlers call the asynchronous store functions without `await`. The model treats each
  call as completed before the next one starts. The consequences of the missing `await` are
  listed in the finding below.
- The constants file lacks several names the handlers use:
  - three states: `AWAITING_LANGUAGE`, `AWAITING_TEXTURE` and `COMPLETED`;
  - `LANGUAGES`, `TEXTURES`, `WEEKLY_LIMIT` and `CONTACT_PHONE`.
- In the constants file, `COLORS` is a list of plain strings, but the handlers use records.
  The model's state enum is taken from the handlers. Colours and textures are parameters:
  sequences of `Choice(key, ru, am)`.

## Model

| member | source | states |
|---|---|---|
| `Sessions.DefaultSession` | src/sessions.js:56-68 | A new session is IDLE, has no language and no inputs, and is stamped with the current time |
| `Sessions.Merge` | src/sessions.js:86 | `Object.assign`: every key present in the update is overwritten with its value (`null` included), every other field and `createdAt` keep their value |
| `Sessions.MergeLaws` | src/sessions.js:83-89 | An empty update changes nothing; repeating an update is idempotent; two updates in a row equal one update where the later keys win |
| `Sessions.Reset` | src/sessions.js:91-103 | A reset session is IDLE with no inputs, is stamped with the current time, and keeps exactly the old language |
| `Sessions.CeilDiv7` | src/sessions.js:118 | The result is the ceiling of n/7: `n <= 7r < n + 7` |
| `Sessions.WeekOfYear` | src/sessions.js:114-121 | The week number is at least 1 |
| `Sessions.WeekKey` | src/sessions.js:114-121 | The usage key is determined by the chat and the date alone: it carries the chat, the year and exactly that date's week number |
| `Sessions.SameBucketIffSameWeek` | src/sessions.js:114-121 | Two dates of one chat share a usage bucket iff they are in the same year and the same week, so the quota is counted per week |
| `Sessions.FirstDayIsWeekOne` | src/sessions.js:116-118 | 1 January is in week 1 whatever its weekday; together with `NewWeekStartsOnSunday` this fixes every week number |
| `Sessions.WeekNeverDecreases` | src/sessions.js:114-121 | Within a year, a later day never has an earlier week number |
| `Sessions.NewWeekStartsOnSunday` | src/sessions.js:116-118 | From one day to the next, the week number rises by one exactly when the later day is a Sunday, and otherwise stays the same |
| `Sessions.WeekAdvancesEverySevenDays` | src/sessions.js:118 | Seven days later is exactly one week later |
| `Sessions.WeekWithinYear` | src/sessions.js:118 | Every day of a year has a week number between 1 and 54 |
| `Sessions.Remaining` | src/sessions.js:129-133 | `max(0, limit - count)`: never above the limit, 0 exactly when the limit is reached, and otherwise count plus remaining equals the limit |
| `Sessions.Localize` | src/sessions.js:156-165 | A plain string comes back unchanged. Any text returned is a non-empty entry of the message. The object itself comes back exactly when neither the session's language (Russian by default) nor Russian has a non-empty text |
| `Sessions.LocalizeFallback` | src/sessions.js:158-164 | The session's language is tried first, then Russian; when neither has a non-empty text the whole object is returned, even if another language has one; no language means Russian |
| `Sessions.Store.constructor` | src/sessions.js:20-23 | A new store has no sessions, counters, expiries or locks |
| `Sessions.Store.AcquireLock` | src/sessions.js:34-39 | Succeeds iff the chat had no lock; afterwards the chat is locked; nothing else changes |
| `Sessions.Store.ReleaseLock` | src/sessions.js:41-44 | Removes the chat's lock, whether or not it existed; nothing else changes |
| `Sessions.Store.IsLocked` | src/sessions.js:46-50 | True iff the chat's lock exists |
| `Sessions.LockRoundTrip` | src/sessions.js:34-50 | On an unlocked chat: the first acquire succeeds and the chat is locked; a second acquire fails; after a release, acquiring succeeds again |
| `Sessions.Store.GetSession` | src/sessions.js:70-81 | Returns the stored session, leaving the store unchanged. For an unknown chat it returns an IDLE default with no language or inputs and stores it; other chats are untouched |
| `Sessions.Store.UpdateSession` | src/sessions.js:83-89 | The stored and returned session is the current one (the default if absent) merged with the update; other chats, counters and locks are untouched |
| `Sessions.Store.ResetSession` | src/sessions.js:91-103 | The stored and returned session is the reset of the current one; other chats, counters and locks are untouched |
| `Sessions.Store.DeleteSession` | src/sessions.js:105-108 | Removes exactly the chat's session |
| `Sessions.Store.HasExceededLimit` | src/sessions.js:123-127 | True iff this week's count (absent = 0) is at least the limit |
| `Sessions.Store.GetRemainingGenerations` | src/sessions.js:129-133 | Never above the limit; 0 iff the limit is reached; otherwise the limit minus this week's count |
| `Sessions.Store.GetUsageCount` | src/sessions.js:146-150 | This week's counter, or 0 when the bucket does not exist |
| `Sessions.Store.IncrementUsage` | src/sessions.js:135-144 | Returns the previous count + 1 (absent = 0) and stores it. The 7-day expiry is set only when the new count is 1. Sessions and locks are untouched |
| `Sessions.Store.GetLocalizedMessage` | src/sessions.js:156-165 | Localises the message in the current session's language; the only side effect is `getSession`'s default creation |
| `Strings.IndexOf` | src/handlers.js:87 | Returns the first index where the pattern occurs, or none when it occurs nowhere |
| `Strings.ReplaceFirst` | src/handlers.js:173 | `replace` with a string pattern: unchanged when the pattern is absent; otherwise the result is the text before the first occurrence followed by the text after it |
| `Strings.ReplaceLeadingPattern` | src/bot.js:48-57 | When the data starts with its route's prefix, as routing guarantees, `replace` removes exactly that prefix |
| `Strings.ReplaceAfterPrefix` | src/handlers.js:145-146 | Removing the prefix from `prefix + key` gives back `key` |
| `Strings.Decimal` | src/n8n.js:81 | The decimal text of a status: non-empty, all digits, no leading zero |
| `Strings.DecimalRoundTrip` | src/n8n.js:81 | Reading the decimal text back gives the number, so distinct statuses give distinct texts |
| `N8n.Normalize` | src/n8n.js:53-67 | A truthy `success` returns the payload unchanged. Otherwise a present `outputImage` gives `{success: true, outputImage}`, else a present `output` gives `{success: true, outputImage: output}`; the result is successful iff one of the three holds. A failure carries no image and a non-empty error: the reply's `error`, else "Unknown error from n8n" |
| `N8n.DeliversExactly` | src/handlers.js:242 | A reply yields an image exactly when it is marked successful and has `outputImage`, or is unmarked and has `outputImage` or `output` |
| `N8n.OutputImageBeatsOutput` | src/n8n.js:56-61 | When `outputImage` is present it is the image delivered, whatever `output` holds |
| `N8n.NormalizeIdempotent` | src/n8n.js:53-67 | Normalising a normalised reply changes nothing |
| `N8n.ClassifyError` | src/n8n.js:68-85 | `ECONNABORTED` always gives the timeout error, even with a response. Otherwise a response gives "n8n error: " followed by the status's decimal text (no leading zeros). Anything else is rethrown unchanged |
| `N8n.StatusRecoverable` | src/n8n.js:77-82 | The HTTP status can be read back from the thrown message |
| `N8n.ProcessVehicleImage` | src/n8n.js:33-85 | A reply is always returned normalised; a failed call always throws its classified error |
| `Handlers.FindKey` | src/handlers.js:38 | `find` by key: the index found is the first entry with that key, and none means no entry has it |
| `Handlers.DisplayName` | src/handlers.js:35-47 | The name, in the session's language (Russian by default), of the first entry with the key; the key itself when it is unknown |
| `Handlers.Buttons` | src/handlers.js:145-147 | One button per catalogue entry |
| `Handlers.ButtonRoundTrip` | src/handlers.js:145-146 | Button i shows entry i's name, and the handler recovers entry i's key from its data |
| `Handlers.ChunkStep` | src/handlers.js:151-155 | One reducer step (open a row at an even index, push onto the last row) keeps the keyboard in shape: rows of two, the last holding the remainder, the buttons so far in order |
| `Handlers.ChunkPairs` | src/handlers.js:149-156 | Rows hold two buttons each, except that the last may hold one. There are ⌈n/2⌉ rows, and they concatenate to the full button list in order |
| `Handlers.ParseLanguage` | src/handlers.js:87-92 | Accepts exactly the data whose `lang_`-stripped text is `ru` or `am` and returns that language |
| `Handlers.LanguageButtonsParse` | src/handlers.js:57-62 | The `lang_ru` and `lang_am` buttons select Russian and Armenian |
| `Handlers.AfterStart` | src/handlers.js:53-55 | After `/start`, the state is AWAITING_LANGUAGE, the language is kept, and no inputs remain |
| `Handlers.AfterLanguage` | src/handlers.js:79-105 | Outside AWAITING_LANGUAGE, or for data that is not `ru`/`am`, nothing changes. Over the limit only the language is stored. Otherwise the language is stored and the state becomes AWAITING_VEHICLE_IMAGE |
| `Handlers.AfterPhoto` | src/handlers.js:116-143 | Outside AWAITING_VEHICLE_IMAGE or over the limit, nothing changes. Otherwise the new session is the old one with the link and file id stored and the state AWAITING_COLOR; every other field, `createdAt` included, is kept |
| `Handlers.AfterColor` | src/handlers.js:165-180 | Outside AWAITING_COLOR nothing changes. Otherwise the new session is the old one with the key and its display name stored and the state AWAITING_TEXTURE; every other field (language, link, file id, texture, `createdAt`) is kept |
| `Handlers.AfterProcessing` | src/handlers.js:223-292 | Over the limit nothing changes. A delivered result gives COMPLETED. Anything else resets to IDLE with the language kept and no inputs |
| `Handlers.AfterTexture` | src/handlers.js:198-217 | Outside AWAITING_TEXTURE nothing changes. Over the limit the texture is stored and the state stays AWAITING_TEXTURE. Otherwise the outcome is COMPLETED with the texture stored, or a reset. PROCESSING is never the result |
| `Handlers.AfterResult` | src/handlers.js:298-322 | `result_another` under the limit starts a new round: AWAITING_VEHICLE_IMAGE, language kept, no inputs. Anything else (`result_call`, other data, over the limit) changes nothing |
| `Handlers.HandleStart` | src/handlers.js:53-65 | The chat's session becomes `AfterStart` of its current session; other chats, counters and locks are untouched |
| `Handlers.HandleLanguageSelection` | src/handlers.js:79-110 | The chat's session becomes `AfterLanguage` of its current session and the quota test; counters and locks are untouched |
| `Handlers.HandlePhoto` | src/handlers.js:116-159 | The session becomes `AfterPhoto` of the largest photo. The colour keyboard is offered iff the photo is accepted; it holds all colour buttons, two per row, in the session's language |
| `Handlers.HandleColorSelection` | src/handlers.js:165-192 | The session becomes `AfterColor`. The texture keyboard, one row of all texture buttons, is offered iff the colour is accepted |
| `Handlers.StartProcessing` | src/handlers.js:223-292 | Taking the clock before the processor call and again after it, it covers the session change, the processor call, the usage change (+1 with first-bucket expiry, only on delivery), the photo sent (watermarked, else the original URL), the low-quota warning and the error shown (see below) |
| `Handlers.FinishProcessing` | src/handlers.js:242-291 | Given the outcome of the processor call: a delivered image is counted in the later week's bucket (the expiry set on a new bucket), completes the session, and is sent watermarked or else as the original URL, with the low-quota warning iff 1 to 3 generations remain. Any other outcome resets the session at the later time. A thrown error's message is what the user is shown |
| `Handlers.HandleTextureSelection` | src/handlers.js:198-217 | The session becomes `AfterTexture`. Usage rises by exactly 1, in the bucket of the week when the processor answered, iff the processor ran and delivered, and is otherwise unchanged. The request carries the stored photo, colour and texture key. Locks are untouched |
| `Handlers.HandleResultAction` | src/handlers.js:298-322 | The session becomes `AfterResult` of its current session and the quota test; counters and locks are untouched |
| `Handlers.HandleHelp` | src/handlers.js:72-74 | The reply is the help message localised in the chat's language. The session is unchanged, except that an unknown chat gets a stored default session. Counters and locks are untouched |
| `Handlers.HandleText` | src/handlers.js:328-336 | The session is unchanged. The reply is the `/start` prompt iff the state is IDLE or no language is set |
| `Handlers.HandlersKeepSessionsResting` | src/handlers.js:53-322 | A new session is resting, and every handler keeps it so: never left in PROCESSING, each input stored with its companion field, and exactly the inputs its state has collected |
| `Handlers.ColorFromKeyboard` | src/handlers.js:145-180 | Pressing colour button i (its key unique so far) stores that colour's key and the name its button showed |
| `Handlers.TextureFromKeyboard` | src/handlers.js:186-206 | Pressing texture button i sends that texture's key to the processor |
| `Handlers.LanguageIgnoredAsWritten` | src/handlers.js:80-85 | As written, with the store calls not awaited, a language button never changes the session |
| `Handlers.LanguageCounterexample` | src/handlers.js:80-105 | After `/start`, `lang_ru` under the limit leaves AWAITING_LANGUAGE as written, but reaches AWAITING_VEHICLE_IMAGE when the calls are awaited |
| `Scenarios.DeliveredRound` | src/handlers.js:53-244 | A new chat with a delivering processor: usage 1 with its bucket expiry set, state COMPLETED with its choices stored, no lock left |
| `Scenarios.TimedOutRound` | src/handlers.js:283-291 | A new chat whose processor times out: usage 0, IDLE with the language kept, the timeout message shown, no lock left |

`Handlers.StartProcessing`, in full:
- The session becomes `AfterProcessing`. A reset after the call is stamped with the later time.
- The processor is called iff the chat is under the limit.
- Usage rises by 1, with the first-bucket expiry, iff the result is delivered. The bucket is the one for the week when the processor answered, which differs from the bucket the quota test read when the call spans a week or year boundary.
- The photo sent is the watermarked buffer, or the original URL when watermarking failed.
- The warning reports the remaining count iff it is between 1 and 3, counted in that later bucket.
- The error shown is the classified error's message iff the call failed.

## Left out

- Redis connection, reconnection and `closeRedis` (src/sessions.js:9-18, 171-174) are I/O plumbing.
- Session TTL (24 h) and lock TTL (120 s) are not modelled. Nothing in the model lets time
  pass, so a lock disappears only by `ReleaseLock`. The 7-day usage expiry is recorded in
  `usageExpiry` but never fires.
- Time itself is a parameter: `Date.now()` is `now`, and `new Date()` is a `Date` giving the
  year, the whole days since 1 January and the weekday of 1 January. Each handler reads one
  clock, except that `startProcessing` also reads a second one after the processor answers.
  Within a handler's other steps, time is taken not to advance. How the source derives
  these from milliseconds (including daylight-saving effects) is not modelled.
- The usage key `usage:<chatId>:<year>-W<week>` is kept as a record of its three parts rather
  than as the printed string.
- Concurrency is not modelled. Every handler runs to completion before the next starts.
  - `updateSession`'s read-merge-write is not atomic in the source; races between handlers
    of one chat are not modelled.
  - Because of the missing `await`, `handleStart`'s reset and update run concurrently in the
    source, and their writes can interleave. The model runs them in order.
  - `startProcessing` never takes the processing lock, so the model makes no single-flight
    claim about the handlers. The lock API is modelled only by its own contracts.
- The Telegram transport is not modelled: replies, callback answers, message texts and `Markup`
  beyond the keyboard shape. `handleHelp` is modelled by what it returns and by the default
  session that `getSession` stores; sending the reply is not modelled.
  - `getFileLink` is a parameter: the link.
  - A photo message is assumed to carry at least one size, as Telegram guarantees.
  - Replies are assumed to succeed. In the source, if the reply at src/handlers.js:232 throws,
    the session is left in PROCESSING. If `replyWithPhoto` throws after a delivery, the catch
    block resets a session whose usage was already counted.
- The HTTP POST, axios and its 180 s timeout (src/n8n.js:34-49) are not modelled; their
  outcome is a parameter. Reply fields are modelled as strings and a success flag's
  truthiness. Non-string values of those fields are not modelled.
- src/watermark.js is not part of this model. Its outcome is a parameter: a buffer, or a failure.
- src/bot.js (handler registration) and index.js (start-up) are not part of this model. The
  route prefixes are used only to justify `Strings.ReplaceLeadingPattern`.
- src/constants.js message texts are not part of this model. The colour and texture catalogues
  are parameters whose entries always carry both names.
- JSON serialisation of sessions and `parseInt` of stored counters are identities in the model.
- Handlers.HandleTextureSelection: its contract does not repeat what `StartProcessing`
  promises about the photo contents and the low-quota warning; those are stated on
  `Handlers.StartProcessing`, which it calls last.

## Findings

| source | as written | input that shows it | evidently intended | confidence | as-written member | corrected member |
|---|---|---|---|---|---|---|
| src/handlers.js:80-95 | `getSession` and `hasExceededLimit` are called without `await`. The guard compares the `state` of a pending Promise (undefined) with AWAITING_LANGUAGE, so (with constants that define AWAITING_LANGUAGE) it always rejects. A Promise is also truthy, so the limit test always reads "exceeded". The same holds in the photo, colour and texture handlers. Handlers without that guard also misbehave as written. `handleText` (src/handlers.js:329-331) always prompts /start, because a Promise has no `language`. `result_another` (src/handlers.js:305) always reports the limit, because a Promise is truthy. `handleHelp` (src/handlers.js:72) passes a Promise rather than the text to `ctx.reply`. The model follows the awaited behaviour throughout | After `/start`, the user presses `lang_ru` while under the limit. The session stays AWAITING_LANGUAGE, and the flow can never reach the photo step | Await each store call, so the stored state and the real count are tested | high, assuming a constants file that defines the states and catalogues the handlers use (the shipped src/constants.js lacks `AWAITING_LANGUAGE`, `LANGUAGES`, `TEXTURES` and `CONTACT_PHONE`, so as shipped the module would not load at all); not executed | `Handlers.LanguageCounterexample` over `Handlers.AfterLanguageAsWritten` (and `Handlers.LanguageIgnoredAsWritten`) | `Handlers.AfterLanguage`, used by `Handlers.HandleLanguageSelection` |
