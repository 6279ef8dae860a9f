# sendChannelRequestNotification, modelled in Dafny

The repository's one piece of logic is the Firebase Cloud Function
`sendChannelRequestNotification` in `functions/index.js`. It runs when a document
`channel_requests/{requestId}` is created. It reads every document of the `users`
collection and adds one notification document to `users/{uid}/notifications` for each
of them. It then waits on all the writes with `Promise.all`.

The project has three modules:

- `NotificationRecord` (`notification_record.dfy`) is the pure part: the object literal
  passed to `.add(...)`. It includes a model of JavaScript's `String.prototype.substring`,
  which clamps and swaps its indices. Partner definitions read a title and a body back
  apart, and round-trip lemmas tie them to the templates in both directions.
- `Inboxes` (`inboxes.dfy`) describes the store at the value level. It holds every
  user's notification list as a `map<UserId, seq<Notification>>`. `FanOut` gives the
  store after one dispatch. Each write may succeed or fail on its own, and
  `AllSucceeded` is the all-or-nothing outcome of `Promise.all`. The lemmas state one
  record per user, no change outside the snapshot, no rollback, the exact number of
  appended records, and duplicates on redelivery.
- `Handler` (`handler.dfy`) is the imperative part: a `Firestore` class with the `users`
  snapshot, the per-user `notifications` map and the `channel_requests` documents.
  `SendChannelRequestNotification` loops over the snapshot and calls `AddNotification`
  once per user, collecting the outcomes as the source collects its promises. It is
  proved to leave the store equal to `FanOut` of the old store. Client methods replay
  five scenarios: a concrete record, two users, a partial failure, an empty audience
  and a redelivery.

Inputs from outside the function become parameters:

- whether the `users` read resolves (`audienceRead`);
- whether each write resolves (`writeOutcomes`, one per user of the snapshot).

The source's `type` field is called `kind`, because `type` is a Dafny keyword.
`serverTimestamp()` is the constant `ServerTimestamp`. The request document's data,
`snapshot.data()`, is read from the `channelRequests` map under the trigger's
`requestId`.

## Model

| member | source | states |
|---|---|---|
| `NotificationRecord.SubstringClamps` | functions/index.js:32 | `substring` does not depend on the order of its two indices; a negative index acts as 0 and an index past the end acts as the length; indices within the string select the characters between them |
| `NotificationRecord.SubstringFromStart` | functions/index.js:32 | `substring(0, n)` is the first `min(n, length)` characters, so a short string is returned whole and nothing fails |
| `NotificationRecord.Excerpt` | functions/index.js:32 | `requestText.substring(0, 100)` is a prefix of the request text of length `min(100, length)`, and the whole text when it has at most 100 characters |
| `NotificationRecord.ChannelNameOf` | functions/index.js:31 | whatever channel name is read back out of a title rebuilds that title through the template |
| `NotificationRecord.ExcerptOf` | functions/index.js:32 | whatever quoted text is read back out of a body rebuilds that body as user name, `" is looking for: "`, text, `"..."` |
| `NotificationRecord.TitleRoundTrip` | functions/index.js:31 | a title reads back as channel name `c` if and only if it is `"New Request in " + c` |
| `NotificationRecord.BodyRoundTrip` | functions/index.js:32 | a body reads back as quoted text `x` for a user name if and only if it is that name, `" is looking for: "`, `x`, `"..."` |
| `NotificationRecord.BodyQuotesRequest` | functions/index.js:32 | the body quotes the request text whole when it has at most 100 characters and its first 100 characters otherwise; its length is the user name's plus 17, plus `min(100, length)`, plus 3, so at most the user name's plus 120 |
| `NotificationRecord.BuildNotification` | functions/index.js:30-37 | the record's title reads back as the channel name and its body as the truncated request text; the body is bounded; `timestamp` is the server sentinel; `read` is false; `type` is `"channel_request"`; `channelId` is copied from the request and `requestId` from the path parameter |
| `Inboxes.Append` | functions/index.js:29-30 | a successful `add` appends the record to the end of that user's list, creating it if needed, and leaves every other user's list as it was |
| `Inboxes.AllSucceeded` | functions/index.js:42 | `Promise.all` resolves if and only if every write resolved, that is, if and only if the number of successful writes equals the number of writes |
| `Inboxes.FanOutInbox` | functions/index.js:25-40 | after a dispatch each user's list is the old list followed by one copy of the record per successful write aimed at that user; nothing is removed or reordered, and a failed write does not undo any other write |
| `Inboxes.CountOutside` | functions/index.js:25-30 | no write is aimed at a user outside the snapshot |
| `Inboxes.CountDistinct` | functions/index.js:25-30 | with distinct document ids, each user of the snapshot receives exactly one successful write when their write succeeds and none when it fails |
| `Inboxes.OneRecordPerUser` | functions/index.js:22-40 | over distinct users, each user of the snapshot gains exactly the record when their write succeeds and nothing when it fails; users outside the snapshot are untouched |
| `Inboxes.DispatchAppendsPerSuccess` | functions/index.js:22-42 | the users of the snapshot together gain exactly as many records as writes succeeded: N for N users when `Promise.all` resolves; an empty snapshot leaves the store unchanged |
| `Inboxes.RedispatchAppendsBoth` | functions/index.js:17-43 | two dispatches of the same request append both batches to each user, with no deduplication |
| `Inboxes.RedispatchDuplicates` | functions/index.js:17-43 | two fully successful dispatches over distinct users leave each user of the snapshot with their old list followed by the record twice |
| `Handler.Firestore.AddNotification` | functions/index.js:29-30 | on success the store is `Append` of the old store for that user; on failure it is unchanged; the user list, the request documents and the distinct-id invariant are preserved |
| `Handler.Firestore.SendChannelRequestNotification` | functions/index.js:19-42 | when the user read fails, it reports that failure and writes nothing. Otherwise the store becomes `FanOut` of the old store, with one record per user in the snapshot built from the request document and `requestId`. The result is `Delivered(N)` if every write succeeded and `WriteFailed` otherwise. The users, the request documents and the store's distinct-id invariant are preserved |

## Left out

- Firebase initialisation and the trigger registration (`functions/index.js:13-19`) are framework plumbing. The handler is a method that receives the trigger's `requestId`.
- `FieldValue.serverTimestamp()` is a value the server assigns. It is the constant `ServerTimestamp`, not a clock.
- The writes are issued one by one in snapshot order inside `forEach`, as in the source. The order in which they complete, which `Promise.all` only awaits, is not modelled. Each write goes to a different user's list, so the final store does not depend on that order.
- `Handler.Firestore.SendChannelRequestNotification`: a time-out or cancellation of the invocation is not modelled, so writes that land after the function has failed cannot be expressed. A rejected write is taken to have written nothing, and the result is `Delivered` whenever every write resolves.
- `Inboxes.FanOutInbox`: a Firestore sub-collection has no insertion order; the order of a user's list is the order in which the model applies the writes. Only the multiset of a user's records is observable in the store, so "nothing reordered" is a statement about the model.
- The store's answers are inputs rather than modelled behaviour: one boolean for the `users` read and one per write.
- `Handler.Firestore.SendChannelRequestNotification`: the source's promise resolves with the array of document references and rejects with the first rejection reason. The model gives only `Delivered(N)` or a failure kind.
- `Inboxes.FanOutInbox`: describes each user's list through `Inbox`, where a missing sub-collection reads as empty. It says nothing about map keys. Firestore has no empty sub-collections, and the handler's own contract states the whole map.
- Request fields are assumed to be present strings. JavaScript would print a missing field as `"undefined"` in the title or body, and a missing or non-string `requestText` would make `substring` throw.
- `substring` counts UTF-16 code units. The model counts the elements of a `seq<char>`.
- The unused `userData` (`functions/index.js:26`) and the commented-out template code (`functions/index.js:1-11`, `45-51`) have no behaviour.
- `ios/Runner/AppDelegate.swift` is app lifecycle boilerplate with no logic.
