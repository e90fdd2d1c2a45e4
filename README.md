# whatsapp-h2h-otomax in Dafny

A verified model of the bookkeeping and decision logic of `whatsapp-h2h-otomax`. The service forwards
transaction notifications from Otomax to WhatsApp chats and relays replies back to Otomax by webhook.

A module per Go file:

- **Repository** (`internal/repository/transaction.go`). The SQLite `transactions` table is a sequence
  of rows, and the schema's `UNIQUE(trx_id)` is the class invariant. `Save` and `CleanupExpired` are
  methods that replace the rows. `GetByTrxID`, `GetByDestination` and `Count` are functions over the rows.
- **Tracking** (`internal/service/transaction.go`).
  - `MessageTracker` is a class whose `cache` field is a map from message ID to entry, plus a TTL.
    Its lookups are loops over the keys, taken in an unspecified order. Its sweep deletes inside that loop.
  - `TransactionService.ProcessTransaction` validates, then sends, then tracks.
- **WhatsApp** (`internal/service/whatsapp.go`) covers:
  - phone-number normalisation;
  - the group/personal branches of `ValidateDestination`;
  - the connected check in `SendMessage`;
  - the whitelist;
  - the gates and payload of an inbound message.

  The chat network is replaced by two oracle values. `Directory` stands for JID parsing, group lookup
  and IsOnWhatsApp. `Transport` stands for the connection state and the client's send.
- **Otomax** (`internal/service/otomax.go`). The webhook retry loop is a method. Each attempt's outcome
  comes from an oracle indexed by attempt number. The method records each backoff in seconds instead of
  sleeping.
- **Handler** (`internal/handler/transaction.go`) covers:
  - `findSubstring`, as a loop;
  - `contains`;
  - `mapErrorCode`, with a first-match reference table;
  - the three guards of `ForwardTransaction` and the response written for each outcome.
- **Config** (`internal/config/config.go`) covers:
  - `getEnv` over an environment map;
  - `parseInt`, which uses `strconv.Atoi` with int64 bounds;
  - `parseDuration`, over Go's duration syntax for whole-number components;
  - `parseStringList`, with `strings.Split` and `strings.TrimSpace`;
  - `Load`'s defaults and its single required field.
- **Auth** (`internal/middleware/auth.go`). The decision of the `Authenticate` closure.
- **Model** holds the records of `internal/model`. **Strings** holds shared character classes and
  substring predicates. **Wrappers** holds `Option` and `Result`.

Time is an integer `now`, in nanoseconds. Each operation takes it as a parameter. Every `time.Now()`
inside one call reads the same `now`.

## Model

| member | source | states |
|---|---|---|
| Repository.GetByTrxID | internal/repository/transaction.go:74-98 | None iff no row has the trx_id with expires_at > now; otherwise a row of the table with that trx_id that is live |
| Repository.GetByDestination | internal/repository/transaction.go:101-126 | None iff no live row has the destination; otherwise a live row with that destination whose sent_at is maximal among all such rows |
| Repository.Count | internal/repository/transaction.go:140-146 | at most the number of rows, and equal to it iff every row is live |
| Repository.CountIsLiveRows | internal/repository/transaction.go:140-146 | COUNT(*) is exactly the number of positions in the table whose row has expires_at > now |
| Repository.CountFrom | internal/repository/transaction.go:140-146 | counting the rows from position lo on gives the number of live positions from lo on |
| Repository.Retain | internal/repository/transaction.go:129-137 | the rows surviving the DELETE are exactly the table's rows with expires_at > now |
| Repository.TransactionRepository.constructor | internal/repository/transaction.go:28-58 | a fresh table is empty and satisfies UNIQUE(trx_id) |
| Repository.TransactionRepository.Save | internal/repository/transaction.go:65-71 | a driver error or any existing row with the trx_id, expired or not, refuses the insert and leaves the table unchanged; otherwise the row is appended; uniqueness is preserved |
| Repository.TransactionRepository.CleanupExpired | internal/repository/transaction.go:129-137 | on success the table becomes the live rows in order and the result is the number deleted; on a driver error nothing changes and 0 is returned |
| Repository.RetainKeepsUnique | internal/repository/transaction.go:36-49 | deleting rows never breaks UNIQUE(trx_id) |
| Repository.CleanupPreservesGetByTrxID | internal/repository/transaction.go:74-137 | at a fixed now, a cleanup does not change the result of GetByTrxID |
| Repository.CleanupPreservesGetByDestination | internal/repository/transaction.go:101-137 | at a fixed now, a cleanup does not change the result of GetByDestination |
| Repository.CleanupPreservesCount | internal/repository/transaction.go:129-146 | at a fixed now, a cleanup does not change the active count |
| Repository.CountIsRetainedSize | internal/repository/transaction.go:129-146 | the active count equals the number of rows a cleanup at the same now keeps |
| Repository.CleanupDeletesExactlyExpired | internal/repository/transaction.go:129-137 | a row survives the cleanup iff expires_at > now; a row expiring exactly at now is deleted and is never returned |
| Repository.ReuseAfterCleanup | internal/repository/transaction.go:36-137 | when every row with a trx_id has expired, lookups miss it; after a cleanup no row holds it, so Save accepts it again |
| Repository.GetByTrxIDIsTheRow | internal/repository/transaction.go:74-98 | under UNIQUE(trx_id), the lookup of a live row's trx_id returns exactly that row |
| WhatsApp.StripNonDigits | internal/service/whatsapp.go:329-330 | the regexp replacement leaves only ASCII digits and never lengthens the text |
| WhatsApp.StripNonDigitsSpec | internal/service/whatsapp.go:329-330 | a digit string comes back unchanged, and a string with no digit at all becomes "" |
| WhatsApp.StripNonDigitsConcat | internal/service/whatsapp.go:329-330 | the replacement works character by character: it distributes over concatenation |
| WhatsApp.TrimLeadingZeros | internal/service/whatsapp.go:332-333 | the result is a suffix of the input, does not start with '0', starts after only '0' characters, and stays all-digit |
| WhatsApp.NormalizePhoneNumber | internal/service/whatsapp.go:327-346 | the result is "" or an all-digit string beginning with "62" of length 11 to 15 |
| WhatsApp.NormalizeIdempotent | internal/service/whatsapp.go:327-346 | normalising a non-empty normalised number gives it back |
| WhatsApp.NormalizedIsFixedPoint | internal/service/whatsapp.go:327-346 | any all-digit "62…" string of length 11 to 15 is its own normalisation |
| WhatsApp.TrunkZeroReplaced | internal/service/whatsapp.go:327-346 | a number written "0" + d (d digits, not starting with 0 or 62) becomes "62" + d when 9 <= \|d\| <= 13 and "" otherwise |
| WhatsApp.NormalizeIgnoresSeparators | internal/service/whatsapp.go:327-346 | a number normalises exactly like its digits alone, so separators never matter |
| WhatsApp.DashDropped | internal/service/whatsapp.go:329-330 | the replacement drops a dash between two pieces and keeps the digits of both, in order |
| WhatsApp.DashedGroups | internal/service/whatsapp.go:327-346 | digit groups joined by dashes ("0812-3456-789") normalise like the same groups written together ("08123456789") |
| WhatsApp.ValidateDestination | internal/service/whatsapp.go:289-324 | the group type is chosen iff the destination contains "@g.us"; an empty normalisation of a non-group destination is the error "invalid phone number format"; a personal JID is the normalised number + "@s.whatsapp.net" |
| WhatsApp.SendMessage | internal/service/whatsapp.go:349-364 | a disconnected client gives "WhatsApp client not connected"; a client error is wrapped "failed to send message: "; otherwise the client's message ID |
| WhatsApp.QuotedText | internal/service/whatsapp.go:456-460 | the quoted content is the quoted message's text (Conversation first, else the extended text) when it has one, else "" |
| WhatsApp.MessageText | internal/service/whatsapp.go:414-420 | the content is Conversation, else the extended text, else "" |
| WhatsApp.BuildPayload | internal/service/whatsapp.go:422-462 | event "message_received", type "text", sender and timestamp from the event, chat type from the record; IsReply iff extended text with ContextInfo; OriginalMessageID is the StanzaID when present, else the record's message ID; quoted content prefers the quoted Conversation |
| WhatsApp.Correlate | internal/service/whatsapp.go:379-482 | a forward happens only for a message not ours, with a repository, a whitelisted chat, a successful lookup and a dispatcher; it names a live row of the table for that chat, and its payload is built from the event and that row |
| WhatsApp.CorrelateForwardsIff | internal/service/whatsapp.go:379-482 | a webhook is sent iff the message is not ours, a repository is set, the whitelist admits the chat, the lookup succeeds and finds an active record, and an Otomax service is set; it carries that record's trx_id and the latest live record for the chat |
| WhatsApp.CorrelateDiscardReasons | internal/service/whatsapp.go:381-409 | the first failing gate decides: own message, no repository, not whitelisted, no active record for the chat |
| WhatsApp.WhatsAppService.constructor | internal/service/whatsapp.go:36-69 | a new service has no repository, no whitelist and no Otomax service |
| WhatsApp.WhatsAppService.SetOtomaxService | internal/service/whatsapp.go:72-74 | sets only the dispatcher field |
| WhatsApp.WhatsAppService.SetTransactionRepository | internal/service/whatsapp.go:77-79 | sets only the repository field |
| WhatsApp.WhatsAppService.SetWebhookWhitelist | internal/service/whatsapp.go:82-84 | sets only the whitelist field |
| WhatsApp.WhatsAppService.IsWhitelisted | internal/service/whatsapp.go:485-492 | true iff the JID is exactly an element of the whitelist |
| WhatsApp.WhatsAppService.HandleIncomingMessage | internal/service/whatsapp.go:379-482 | the guard returns in source order, then the payload; the outcome is Correlate on the service's current fields |
| Tracking.MessageTracker.constructor | internal/service/transaction.go:101-111 | an empty cache with the given TTL |
| Tracking.MessageTracker.Track | internal/service/transaction.go:114-120 | the entry with ExpiresAt = now + ttl is stored under its MessageID; entries stay keyed by their own message ID |
| Tracking.MessageTracker.Find | internal/service/transaction.go:128-133 | None iff no entry matches and is active (now < ExpiresAt); otherwise some such entry; which entry is left open |
| Tracking.MessageTracker.GetByChat | internal/service/transaction.go:123-134 | None iff no active entry has that destination; otherwise some active entry with it |
| Tracking.MessageTracker.GetByTrxID | internal/service/transaction.go:150-161 | None iff no active entry has that TrxID; otherwise some active entry with it |
| Tracking.MessageTracker.GetByMessageID | internal/service/transaction.go:137-147 | the entry under the key iff present and now < ExpiresAt, else None |
| Tracking.MessageTracker.CleanupExpired | internal/service/transaction.go:164-179 | the cache becomes exactly the entries with now <= ExpiresAt; the count is the size before minus the size after |
| Tracking.MessageTracker.Count | internal/service/transaction.go:195-199 | the raw size of the cache, unswept expired entries included |
| Tracking.SweepKeepsExactly | internal/service/transaction.go:171-176 | a key survives the sweep iff its entry's ExpiresAt >= now, with the entry unchanged |
| Tracking.SweepPreservesLookups | internal/service/transaction.go:127-176 | at a fixed now, the sweep changes neither the scanning lookups nor the lookup by message ID |
| Tracking.BoundaryEntry | internal/service/transaction.go:141-172 | an entry with ExpiresAt == now is kept by the sweep yet is not active, so no lookup returns it |
| Tracking.ActiveIsMonotone | internal/service/transaction.go:142-172 | an entry active at a later time was active earlier and is not swept at the later time |
| Tracking.Tracked | internal/service/transaction.go:114-120 | the new cache has the old keys plus MessageID; the entry under MessageID has ExpiresAt = now + ttl and the tracked TrxID and destination |
| Tracking.TrackedFrame | internal/service/transaction.go:114-120 | every key other than MessageID keeps its old entry, and entries stay keyed by their own message ID |
| Tracking.Sweep | internal/service/transaction.go:164-179 | the swept cache is a sub-map of the old one holding no expired entry |
| Tracking.TrackOverwrites | internal/service/transaction.go:114-120 | a second Track under the same MessageID overwrites the first |
| Tracking.NoTrxIdUniqueness | internal/service/transaction.go:114-120 | two entries under different MessageIDs can share one TrxID |
| Tracking.TrackedIsFound | internal/service/transaction.go:114-161 | with a positive TTL, a freshly tracked entry is found by TrxID and by chat at the time it was tracked |
| Tracking.Outcome | internal/service/transaction.go:31-72 | the call fails iff validation fails or the send to the validated JID fails; on success the data carries the request's TrxID, the validated JID and type, the send's message ID and timestamp now |
| Tracking.OutcomeShape | internal/service/transaction.go:33-71 | every error starts with one of the two prefixes; every success carries the request's TrxID, timestamp now and type group or personal; a disconnected client gives "failed to send message: WhatsApp client not connected" |
| Tracking.TransactionService.constructor | internal/service/transaction.go:22-28 | a fresh, empty tracker with the configured TTL |
| Tracking.TransactionService.ProcessTransaction | internal/service/transaction.go:31-72 | the result is Outcome; on failure the tracker is unchanged; on success exactly one entry is added under the returned message ID with the request's TrxID |
| Otomax.Send | internal/service/otomax.go:72-97 | no error iff there is no marshal, request or transport failure and 200 <= status < 300 |
| Otomax.FirstSuccess | internal/service/otomax.go:39-58 | the index of the first successful attempt among the first n, or None iff all fail |
| Otomax.Backoffs | internal/service/otomax.go:40-47 | no sleep before the first send; before attempt a the sleep is 2^(a-1) seconds |
| Otomax.TotalSleep | internal/service/otomax.go:39-68 | k sends sleep 2^(k-1) - 1 seconds in total |
| Otomax.SendWebhook | internal/service/otomax.go:36-69 | stops at the first success, after exactly index + 1 sends; if all attempts fail, exactly RetryCount + 1 sends (none if RetryCount < 0) and an error with RetryCount + 1 and the last failure; the backoffs are Backoffs(sends) |
| Otomax.FirstSuccessStable | internal/service/otomax.go:49-57 | allowing more attempts does not move the first success |
| Otomax.DeliveryCost | internal/service/otomax.go:39-68 | success at index k costs 2^k - 1 seconds of sleep; total failure costs 2^RetryCount - 1; a negative RetryCount makes no attempt |
| Handler.FindSubstring | internal/handler/transaction.go:144-151 | true iff the substring occurs at some index 0 … len(s) - len(substr) |
| Handler.Contains | internal/handler/transaction.go:138-142 | the guard expression is true iff the substring occurs in the string |
| Handler.ContainsIsSubstring | internal/handler/transaction.go:138-151 | contains is exactly "is a substring", and the empty string is contained in every string |
| Handler.MapErrorCode | internal/handler/transaction.go:118-135 | the code is ERR_INTERNAL_SERVER or the code of some case whose phrase occurs in the message |
| Handler.FirstRule | internal/handler/transaction.go:121-134 | the index of the first case whose phrase occurs, or None iff none does |
| Handler.MapErrorCodeIsFirstMatch | internal/handler/transaction.go:118-135 | mapErrorCode returns the code of the first matching case in table order, else ERR_INTERNAL_SERVER |
| Handler.ValidationErrorCode | internal/handler/transaction.go:122-123 | every "invalid destination: …" error maps to ERR_INVALID_DESTINATION |
| Handler.SendErrorIsNeverInternal | internal/handler/transaction.go:130-133 | every "failed to send message: …" error maps to a code other than ERR_INTERNAL_SERVER |
| Handler.NotConnectedCode | internal/handler/transaction.go:124-131 | "failed to send message: WhatsApp client not connected" maps to ERR_WHATSAPP_NOT_CONNECTED |
| Handler.ProcessingErrorCodes | internal/handler/transaction.go:118-135 | for ProcessTransaction's errors: a validation failure always gives ERR_INVALID_DESTINATION (so group-not-found and not-on-WhatsApp never come from validation); a disconnected client gives ERR_WHATSAPP_NOT_CONNECTED; no error gives ERR_INTERNAL_SERVER |
| Handler.ErrorResponse | internal/handler/transaction.go:101-115 | status "error", the given HTTP status, and the code and message in the error object |
| Handler.SuccessResponse | internal/handler/transaction.go:87-98 | 200, status "success", "Transaction forwarded successfully" and the data |
| Handler.Gate | internal/handler/transaction.go:34-56 | a missing parameter gives 400 ERR_MISSING_PARAMETER before any other check; then more than 4096 characters gives 400 ERR_INVALID_PARAMETER; then an active duplicate gives 409 ERR_DUPLICATE_TRANSACTION; otherwise the request passes |
| Handler.Respond | internal/handler/transaction.go:72-83 | an error e gives 500, status "error", no data and the error object (MapErrorCode(e), e); success gives 200, status "success", no error object and exactly the returned data |
| Handler.LengthBoundary | internal/handler/transaction.go:41-44 | exactly 4096 characters is accepted; 4097 is refused with 400 |
| Handler.DuplicateAfterSuccess | internal/handler/transaction.go:47-56 | after a successful forward with positive TTL, a second request with the same TrxID at the same time gets 409 |
| Handler.TransactionHandler.constructor | internal/handler/transaction.go:19-24 | the handler holds the given service |
| Handler.TransactionHandler.ForwardTransaction | internal/handler/transaction.go:27-84 | a request a guard refuses gets the guard's response and leaves the tracker unchanged, without reaching ProcessTransaction; otherwise the response is Respond of ProcessTransaction's result, with the tracker changed only by a successful send |
| Config.Split | internal/config/config.go:137 | one more piece than commas; no piece has a comma |
| Config.SplitAtComma | internal/config/config.go:137 | splitting "a,b" gives the pieces of a followed by the pieces of b |
| Config.JoinSplit | internal/config/config.go:137 | joining the pieces with commas gives the string back |
| Config.SplitJoin | internal/config/config.go:137 | splitting a comma-join of comma-free pieces gives the pieces back |
| Config.TrimSpace | internal/config/config.go:140 | the result is a slice of the input with no white space at either end, and trimmed text is unchanged |
| Config.TrimSpaceDropsOnlySpace | internal/config/config.go:140 | the result sits in the input between a run of white space before it and a run after it: only white space is dropped |
| Config.TrimBothPadded | internal/config/config.go:140 | trimming the left end and then the right end leaves the text with only white space around it |
| Config.Keep | internal/config/config.go:139-144 | the kept elements are non-empty and trimmed, and no more than the pieces |
| Config.KeepConcat | internal/config/config.go:139-144 | keeping distributes over concatenation, so order is preserved |
| Config.ParseStringList | internal/config/config.go:133-146 | the append loop computes StringList(value) |
| Config.StringList | internal/config/config.go:133-146 | "" gives []; every element is non-empty and trimmed; there are at most comma count + 1 elements |
| Config.StringListAtComma | internal/config/config.go:137-145 | the list of "a,b" is the list of a followed by the list of b |
| Config.StringListIsKeep | internal/config/config.go:134-137 | the "" special case agrees with the general split-and-keep path |
| Config.StringListJoin | internal/config/config.go:133-146 | non-empty, trimmed, comma-free elements survive joining with commas and parsing back |
| Config.KeepOfClean | internal/config/config.go:139-144 | pieces that are already non-empty and trimmed are all kept unchanged |
| Config.Getenv | internal/config/config.go:100-101 | os.Getenv gives "" iff the variable is unset or set to "", and the set value otherwise |
| Config.GetEnv | internal/config/config.go:100-106 | the default when the variable's value is "" (unset included), the value otherwise |
| Config.EmptyIsUnset | internal/config/config.go:100-106 | a variable set to "" reads like an unset one: both give the default |
| Config.Atoi | internal/config/config.go:113 | a parsed value lies in the int64 range; empty text or text not ending in a digit is refused |
| Config.AtoiFormatInt | internal/config/config.go:113 | every int64 written in decimal (with "-" when negative) parses back to itself |
| Config.ParseInt | internal/config/config.go:109-118 | the default for "" or for text Atoi refuses, the parsed value otherwise |
| Config.NextComponent | internal/config/config.go:125 | one `digits unit` component has a positive length and a value at most 2^63 |
| Config.Accumulate | internal/config/config.go:125 | time.ParseDuration's uint64 running sum: two operands of at most 2^63 add exactly, except 2^63 + 2^63, which wraps to 0 |
| Config.Components | internal/config/config.go:125 | the component loop's running sum, checked after each addition, is at most 2^63 whenever the loop accepts |
| Config.NextComponentBeforeDigit | internal/config/config.go:125 | a decimal number, a unit and then a digit or the end scan as one component of value number × unit |
| Config.WrappedSum | internal/config/config.go:125 | a component worth exactly 2^63 ns written twice (for instance "9223372036854775808ns9223372036854775808ns") wraps the uint64 sum to 0, and the text parses to a duration of 0, as Go's does |
| Config.ParseGoDuration | internal/config/config.go:125 | every parsed duration lies in the int64 range |
| Config.SingleComponent | internal/config/config.go:125 | a whole number followed by a unit (ns, us, µs, μs, ms, s, m, h) parses to number × unit when that fits |
| Config.ParseDuration | internal/config/config.go:121-130 | the default for "" or for text ParseDuration refuses, the parsed duration otherwise |
| Config.DefaultDurations | internal/config/config.go:75-85 | the default texts "10s" and "24h" parse to 10 s and 24 h |
| Config.DefaultInts | internal/config/config.go:76-82 | the default texts "3" and "5" parse to 3 and 5 |
| Config.DefaultValues | internal/config/config.go:75-87 | each default text goes through its parser to the default value, and "" gives an empty whitelist |
| Config.Load | internal/config/config.go:60-97 | fails iff OTOMAX_WEBHOOK_URL reads as "", with "OTOMAX_WEBHOOK_URL is required"; on success the webhook URL is that value |
| Config.LoadDefaults | internal/config/config.go:64-89 | with only the webhook URL set, every other field takes its default: 8080, 0.0.0.0, ./db/whatsmeow.db, INFO, 10 s timeout, 3 retries, no API key, 5 messages per second, 24 h TTL, ./db/tracking.db, empty whitelist |
| Auth.Authenticate | internal/middleware/auth.go:26-64 | next is called iff no key is configured or the header equals the key; an empty header gives 401 ERR_UNAUTHORIZED "Missing API key"; a wrong one gives 401 ERR_UNAUTHORIZED "Invalid API key" |
| Auth.OnlyTheKeyPasses | internal/middleware/auth.go:29-62 | with no key every request passes; with a key, only one header value passes |
| Auth.DenialsAreUnauthorized | internal/middleware/auth.go:41-58 | every denial is a 401 ERR_UNAUTHORIZED with one of the two messages |

## Left out

- `formatMessage` (internal/service/transaction.go:75-86) is not modelled.
  - It concatenates the TrxID onto the format string and passes two arguments for three `%s` verbs.
  - Its output depends on fmt's handling of a missing argument.
  - The model's `Transport.send` therefore depends on the JID only, not on the message text.
- QR pairing, connecting, event registration, group listing and printing are transport I/O over whatsmeow.
  They are not modelled.
- `types.ParseJID`, `GetGroupInfo`, `IsOnWhatsApp` and the client's `SendMessage` are oracle fields of
  `Directory` and `Transport`. The JID is its string form.
- The HTTP server, JSON encoding and the logger are not modelled. The handler's result is the status
  code and the response record it would encode.
- The tracker's `sync.RWMutex`, the hourly cleanup goroutine, and the race between the duplicate check
  and the later `Track` are concurrency and are not modelled. `CleanupExpired` is called explicitly.
- `Tracking.MessageTracker`: the Go cache stores pointers, and `Track` writes `ExpiresAt` into the
  caller's struct. The model stores values, so aliasing through those pointers is not captured.
- SQLite, the row `id` and `created_at` are not modelled.
  - A driver error on `Save` and `CleanupExpired` is an input flag.
  - `Repository.GetByTrxID`, `Repository.GetByDestination` and `Repository.Count` have no driver-error
    path.
  - The correlator's destination lookup does take a `lookupFails` flag.
  - `RowsAffected` is taken to succeed.
- `Repository.GetByDestination`: SQL does not order rows tied on `sent_at`. The model picks the earliest
  inserted, but its contract only promises a maximal `sent_at`.
- `Otomax.SendWebhook`: the backoff is exact integer seconds, 2^(a-1).
  - The model does not reproduce the float `math.Pow`.
  - It does not reproduce the int64 `time.Duration` overflow, which starts once a - 1 reaches 34.
  - The per-request HTTP timeout is not modelled; the client's behaviour is the attempt oracle.
  - The error message texts of `send` are represented by the `SendError` variants.
- `Config.ParseGoDuration`: a component with a fraction ("1.5h", ".5s") is refused in the model, so
  `parseDuration` falls back to its default there. Go accepts such components. The uint64 running sum
  and its wrap-around are modelled (`Config.Accumulate`).
- `Config.TrimSpace` trims ASCII white space only. Go's `strings.TrimSpace` also trims Unicode spaces
  such as U+0085 and U+00A0.
- `Config.Atoi` assumes a 64-bit `int`.
- `Handler.Gate`: Go's `len` counts UTF-8 bytes. The model counts characters, and so do the other
  string lengths in the model.
- `WhatsApp.MessageText`: `handleIncomingMessage` dereferences `ExtendedTextMessage.Text` without a nil check. The
  model requires that text to be present (`TextPresent`) rather than inventing behaviour for a nil
  pointer.
- Loading the `.env` file is not modelled. Its effect is part of the environment map given to
  `Config.Load`.
- The tracker and the repository are separate stores.
  - The handler's duplicate check reads the in-memory tracker.
  - The reply correlator reads the repository.
  - Nothing in the modelled code writes the repository after a send.
  - `cmd/server/main.go` calls a `SetMessageTracker` that `WhatsAppService` does not define. The model
    keeps `SetTransactionRepository`, which the service does define, and does not model the wiring.
- `Config.Components` does not promise a running sum that never decreases. The uint64 wrap of
  time.ParseDuration makes 2^63 + 2^63 equal to 0 (`Config.WrappedSum`).

Three behaviours of the code worth stating plainly:

- `Repository.TransactionRepository.Save` refuses a trx_id that an expired row still holds, because of
  `UNIQUE(trx_id)`. The trx_id becomes usable again only once `CleanupExpired` deletes that row
  (`Repository.ReuseAfterCleanup`).
- The 409 body for a duplicate carries only a fixed message (`Handler.Gate`).
- The tracker's `GetByChat` returns any active match, because map order is unspecified. Only the
  repository orders its rows by `sent_at`.
