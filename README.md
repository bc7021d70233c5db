# Batch-link extractor bot, modelled in Dafny

A Telegram bot lets users whose access has not expired browse a remote course
catalog: `/start` offers live or recorded batches, choosing a type fetches
and stores the batch list, choosing a batch fetches its detail and sends back
a text file with one `title : link` line per class that has a link. An
administrator adds users for a number of days, removes them, and lists them.

This project models the logic of `bot.py` that does not depend on the
network or the chat transport:

- `wrappers.dfy` — `Option`, standing for a missing JSON key or a fetch that
  returned `None`.
- `strings.dfy` (module `Strings`) — the Python string built-ins the bot
  uses: `str()` of an integer, `int()` of a string, `str.split`, and `str.replace` on a
  single character.
- `tags.dfy` (module `Tags`) — `re.sub(r"<[^>]+>", "", name)` as a
  left-to-right scanner over characters.
- `links.dfy` (module `Links`) — the detail payload as datatypes. The
  nested extraction loop is a method proved equal to a flattening function.
- `access.dfy` (module `Access`) — the access gate over a store mapping a
  user id to its expiry, and the `UserStore` class whose methods are the
  admin commands.
- `flow.dfy` (module `Flow`) — `/start`, callback routing, the
  `is_live` flag, batch buttons and their callback data, index selection,
  the file name, and the `Conversation` class holding `user_data`.

Time is an integer count of seconds, passed in wherever the bot reads
`datetime.utcnow()`; a day is 86400 seconds. The network fetches are
function parameters: the batch-list fetch is keyed by the `is_live` flag and
the detail fetch by the batch id. `None` from a fetch means that
`fetch_data` returned `None`. The handlers' `.get` on that value raises,
and the model reports it as `Crashed(FetchFailed)`. Other places where the
handlers raise are modelled as `Crashed(...)` (user flow) or `Raised`
(admin commands), never excluded by a precondition, except those listed
under "## Left out".

Two places where the code is fragile are modelled as it behaves:
- The batch index from the callback is never checked against the stored
  list, so an index past its end makes the handler raise.
- A fetch that returned `None` makes the handler raise.

## Model

| member | source | states |
|---|---|---|
| `Strings.IntToString` | bot.py:193 | reference definition of `str()` on an integer: decimal digits, with '-' before a negative value; `IntRoundTrip` shows `ParseInt` reads it back |
| `Strings.ParseInt` | bot.py:160-161 | reference definition of `int()` on a string: an optional sign followed by at least one ASCII digit, `None` where `int()` raises; pinned down by `IntRoundTrip`, `AddArgsRoundTrip` and `CallbackRoundTrip` |
| `Strings.Split` | bot.py:122 | `str.split` gives at least one piece and no piece contains the separator |
| `Strings.SplitJoin` | bot.py:122 | joining the pieces of a split with the separator gives back the input |
| `Strings.IntRoundTrip` | bot.py:160-161 | `int(str(i)) == i` for every integer |
| `Strings.Replace` | bot.py:146 | same length; each character equal to the old one is replaced, the others kept, position by position |
| `Tags.TagAt` | bot.py:137 | reference definition of a match of `<[^>]+>` at a position: '<', a next character other than '>', and a '>' later on; `StripTags` proves its result has none, `KeptChar` and `TagSpanRemoved` use it |
| `Tags.StripTags` | bot.py:137 | the result is no longer than the input, brings in no new '>' and contains no `<[^>]+>` match |
| `Tags.TagFreeUnchanged` | bot.py:137 | a string with no tag span passes through unchanged |
| `Tags.StripTagsIdempotent` | bot.py:137 | stripping twice equals stripping once |
| `Tags.KeptChar` | bot.py:137 | a character that starts no tag is kept, and scanning resumes right after it |
| `Tags.PlainPrefixKept` | bot.py:137 | text without '<' is kept as it is, in order, before the stripped rest |
| `Tags.TagSpanRemoved` | bot.py:137 | a span '<', one or more non-'>' characters, '>' is removed whole and scanning resumes after it |
| `Tags.StripExample` | bot.py:137 | `"<b>Intro</b> to Physics"` becomes `"Intro to Physics"` |
| `Links.HasLink` | bot.py:136 | reference definition of `if c.get("link")`: the key is present and its value non-empty; used by `Linked` and `FlattenMembership` |
| `Links.Title` | bot.py:137 | reference definition of the title: the class name with tag spans removed, the empty string when the key is missing; pinned down by `StripTags` and `MissingNameEmptyTitle` |
| `Links.Line` | bot.py:138 | reference definition of `f"{title} : {c['link']}"`, only for an entry with a link; `EntryLinesAreLinkedLines` ties lines to linked entries |
| `Links.EntryLines` | bot.py:135-138 | reference definition of the lines one entry loop appends: one `title : link` line per linked entry, in order; pinned down by `EntryLinesAppend` and `EntryLinesAreLinkedLines` |
| `Links.TopicLines` | bot.py:140-144 | reference definition of the lines the nested paid loop appends, topic by topic; pinned down by `TopicLinesAreNestedLines` |
| `Links.Flatten` | bot.py:133-144 | reference definition of the extracted lines: the free-class lines, then each paid topic's class lines; pinned down by `ExtractLinks`, `FlattenInPayloadOrder`, `FlattenCount` and `FlattenMembership` |
| `Links.Linked` | bot.py:136 | the filter keeps exactly the entries with a non-empty link, never more than it was given |
| `Links.EntryLinesAppend` | bot.py:135-138 | the lines of two consecutive entry lists are the lines of the first followed by those of the second |
| `Links.TopicLinesAreNestedLines` | bot.py:140-144 | walking topics then each topic's classes is one pass over all nested classes in payload order |
| `Links.EntryLinesAreLinkedLines` | bot.py:135-138 | one line per linked entry, the k-th line being the k-th linked entry's `title : link` |
| `Links.FlattenInPayloadOrder` | bot.py:133-144 | all free-class lines come before all paid lines; the output is one filtering pass over all entries in payload order |
| `Links.FlattenCount` | bot.py:133-144 | the number of lines is the number of linked free entries plus the number of linked nested paid entries |
| `Links.FlattenMembership` | bot.py:133-144 | a line is emitted if and only if some entry with a non-empty link produces it |
| `Links.MissingNameEmptyTitle` | bot.py:137-138 | an entry with a link but no `class_name` yields `" : " + link` |
| `Links.ExtractLinks` | bot.py:133-144 | the extraction loop's accumulated `links` equal the flattening of the payload |
| `Access.Authorized` | bot.py:38-42 | reference definition of `is_authorized`: the user has a record and now is strictly before its expiry; pinned down by `NoRecordDenied` and `AuthorizedIffBeforeExpiry` |
| `Access.AddArgs` | bot.py:159-163 | `/add` arguments parse exactly when there are at least two and the first two are integers |
| `Access.StorableId` | bot.py:167 | reference definition of the ids the store can encode: signed 64-bit integers, the range outside which the driver raises on the filter; used by `AddCommand` and `RemoveCommand` |
| `Access.ParsedIdBeyondStore` | bot.py:159-167 | `int()` accepts the id 2^63 and `/add` parses it with any day count, yet the store cannot encode it |
| `Access.AddArgsRoundTrip` | bot.py:159-163 | an id and a day count written as decimal integers parse back to those numbers, whatever arguments follow them |
| `Access.ExpiryAfter` | bot.py:165 | reference definition of the stored expiry: `days` whole days of 86400 seconds after now; `AddUserEffect` and `AddDaysSign` state what it grants |
| `Access.UserLine` | bot.py:193 | reference definition of one listing line: the id, an arrow, the rendered expiry and a newline; `UserLines` places one per enumerated id |
| `Access.ListingText` | bot.py:191-193 | reference definition of the accumulated `msg`: the header followed by the listing lines; `ListCommand` is proved to build it and `ListingNeverFallsBack` shows it is never empty |
| `Access.OrNoUsers` | bot.py:195 | reference definition of `msg or "No users"`: the fallback only for an empty message; see `ListingNeverFallsBack` and `IntendedListReply` |
| `Access.UserLines` | bot.py:192-193 | one listing line per enumerated user id, in enumeration order, each with that user's expiry |
| `Access.ListingNeverFallsBack` | bot.py:191-195 | as written, the listing always starts with its header, so the "No users" fallback is never taken, and an empty store gets the bare header |
| `Access.IntendedListReply` | bot.py:195 | the intended reply is "No users" exactly when the store is empty, the listing otherwise |
| `Access.NoRecordDenied` | bot.py:38-41 | a user with no record is never authorized |
| `Access.AuthorizedIffBeforeExpiry` | bot.py:42 | with a record, access holds exactly while now is strictly before the expiry, and is refused at the expiry itself |
| `Access.AddUserEffect` | bot.py:165-171 | after the upsert the user is authorized exactly before now + days, whatever the store held; every other user's answer is unchanged |
| `Access.AddDaysSign` | bot.py:165 | adding grants access at once exactly when the day count is positive |
| `Access.RemoveUserEffect` | bot.py:183 | after the delete the user is refused at any time; every other user's answer is unchanged |
| `Access.UserStore.AddUser` | bot.py:165-171 | the store becomes the old store with `uid` mapped to now + days, whether or not a record existed |
| `Access.UserStore.RemoveUser` | bot.py:183 | the store becomes the old store without `uid`, present or not |
| `Access.UserStore.AddCommand` | bot.py:155-175 | non-admins get "Admin only" and bad arguments the usage text, both leaving the store unchanged; an id outside the signed 64-bit range raises at the upsert, store unchanged; otherwise the upsert and its expiry |
| `Access.UserStore.RemoveCommand` | bot.py:178-184 | non-admins get no reply; a missing or non-integer id, or one outside the signed 64-bit range, raises with the store unchanged; otherwise the delete |
| `Access.UserStore.ListCommand` | bot.py:187-195 | non-admins get no reply; the admin gets `msg or "No users"` of the header plus the accumulated lines, which is always that text, so an empty store gets the bare header |
| `Flow.RouteOf` | bot.py:207-208 | `live`/`recorded`, with or without one final newline (Python's `$`), reach the type handler; data starting with `batch_` reaches the extraction handler |
| `Flow.LiveWithNewlineReadsRecorded` | bot.py:88 | `"live\n"` passes the type pattern but gets the flag "0" |
| `Flow.Start` | bot.py:62-76 | the type menu is shown exactly to authorized users; everyone else gets the denial text |
| `Flow.IsLiveFlag` | bot.py:88 | the flag is "1" exactly for `live` and "0" for anything else |
| `Flow.CallbackData` | bot.py:102 | reference definition of `f"batch_{i}"`; `CallbackRoundTrip` shows it parses back to `i` and `ButtonSelectsBatch` that it reaches the extraction handler |
| `Flow.BatchButtons` | bot.py:101-104 | reference definition of the batch keyboard: one button per stored batch, captioned with its title and keyed by its position; pinned down by `ButtonSelectsBatch` |
| `Flow.ParseBatchIndex` | bot.py:122 | reference definition of `int(query.data.split("_")[1])`: `None` when there is no second piece or it is not an integer; `CallbackRoundTrip` gives its value on button data |
| `Flow.SelectBatch` | bot.py:123 | Python indexing: defined exactly for -len <= i < len, the i-th batch for i >= 0, counted from the end for i < 0 |
| `Flow.Filename` | bot.py:146 | the title's characters with spaces turned into '_', followed by ".txt" |
| `Flow.Extraction` | bot.py:122-146 | reference definition of `extract_batch` after the access check: parse the index, read the stored list, index it, fetch the detail, then the file name and lines, with a crash at the first step that raises; pinned down by `ButtonSelectsBatch`, `StaleIndexCrashes` and `ExtractBatch` |
| `Flow.CallbackRoundTrip` | bot.py:102 | the callback data `batch_<i>` reads back as `i` through `int(data.split("_")[1])` |
| `Flow.TypeButtonsFlags` | bot.py:69-72 | the two type buttons reach the type handler and map to flags "1" and "0" |
| `Flow.ButtonSelectsBatch` | bot.py:122-146 | pressing the k-th batch button selects the k-th stored batch: file named after its title, holding the lines extracted from its detail |
| `Flow.StaleIndexCrashes` | bot.py:122-123 | an index at or past the stored list's length makes the handler raise; nothing checks it |
| `Flow.Conversation.BatchType` | bot.py:80-109 | the flag is stored; on a fetched list the list is stored and one button per batch offered; a failed fetch raises with the old list kept |
| `Flow.Conversation.ExtractBatch` | bot.py:112-151 | for an authorized user the reply is the extraction for the stored list; others get no reply |

## Findings

| source | as written | input that shows it | evidently intended | confidence | as-written member | corrected member |
|---|---|---|---|---|---|---|
| bot.py:191-195 | `msg` starts as the non-empty header, so `msg or "No users"` always sends `msg` | an empty store: the reply is the bare header | "No users" when the store is empty | high (not executed) | `Access.ListingNeverFallsBack` | `Access.IntendedListReply` |

`Access.UserStore.ListCommand` models the handler as written; `Access.IntendedListReply` is the corrected reply.

## Left out

- `fetch_data` (bot.py:45-58) is not modelled: the HTTP GET, `json.loads`
  and the regex fallback over `{...}` substrings. Its result is a parameter
  of the handlers, keyed by the flag or batch id.
- The URLs the handlers build from `BASE_URL`, the flag, the batch id and
  `USER_ID` are not modelled; they only feed the fetch.
- Telegram transport is not modelled: `query.answer()`, the intermediate
  "Fetching batches..." and "Extracting content..." edits, keyboard
  markup, handler registration and `run_polling`. Only each handler's final
  reply is modelled.
- MongoDB is replaced by an in-memory `map<int, int>`; the order in which
  `users.find()` yields records is the `order` parameter of `ListCommand`.
- `datetime` is not modelled: time is integer seconds. `strftime` date
  rendering is the `render` parameter, and the add reply carries the expiry
  instant, not its rendered date. The `OverflowError` that the date arithmetic
  raises when the expiry leaves `datetime`'s range is not modelled.
- `Strings.ParseInt` accepts an optional sign followed by ASCII digits.
  Python's `int()` also accepts surrounding whitespace, `_` digit separators
  and non-ASCII digits; the model treats those arguments as malformed.
- JSON values are modelled as strings and lists, with absent keys as `None`:
  - A `null` or non-string `class_name` or `link` is not modelled.
  - Neither is a non-list `free_class`, `paid_class` or `class`.
  - A fetch whose JSON is not an object (a body such as `404` or `[]`)
    makes `.get` raise (bot.py:98, bot.py:132); the model's fetch result is
    always an object or `None`.
  - A `data` key that is `null` or of the wrong type makes the handler
    raise: enumerating the batch list (bot.py:98-104) or calling `.get` on
    the detail (bot.py:132-135). The model has only a well-typed value or an
    absent key.
  - A list element that is not an object makes `.get` raise: a free class
    (bot.py:136), a paid topic (bot.py:141) or a nested class (bot.py:142).
    The model's entries and topics are always objects.
  - A batch without `id` or `title` (a `KeyError` in the source) is not
    modelled; `Flow.Batch` always has both.
- Writing the file and uploading it (bot.py:147-151) are I/O; the model
  produces the file name and the line sequence. Two failures there depend on
  modelled values and are not modelled; in both cases the model replies with
  a `Document`:
  - `Flow.Filename` keeps a '/' from the title (e.g. "NEET 2025/26"), and
    opening that path for writing raises at bot.py:147.
  - An extraction with no lines writes an empty file, which the Bot API
    refuses at bot.py:151.
- Concurrency across conversations is not modelled; each handler runs to
  completion on its own state.
