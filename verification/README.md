# qt-google-analytics message queue, modelled in Dafny

This project models the message queue of the `GAnalytics` tracker in
`ganalytics.cpp`. The tracker does three things:

- `sendAppview` builds an appview record and appends it to the tail of
  `messageQueue`. A record is an ordered list of query items.
- `postMessage` runs on every 30-second timer tick. It posts the head of the
  queue to the collector and does not remove it.
- `postMessageFinished` handles the reply. For a status outside 200..299 it
  keeps the queue as it is, so the head is posted again on the next tick. For
  a 2xx status it dequeues the head and calls `postMessage` at once.

Files:

- `wrappers.dfy`: the `Option` type.
- `url_query.dfy`: a query as a list of key/value items. Lookup returns the
  value of the first item with a given key.
- `appview.dfy`: the record builder as a pure function `AppviewQuery`, with its
  properties.
- `ganalytics.dfy`: the class `GAnalytics`. The configured fields are `const`,
  because nothing in the source reassigns them after construction.
  `messageQueue` is a `seq` field that the methods reassign. Each method's
  `ensures` gives the whole new state.
- `scenarios.dfy`: runs driven tick by tick and reply by reply.

The class also keeps ghost bookkeeping that the source does not have:

- `enqueued`: every record ever queued.
- `acknowledged`: every record removed after a 2xx reply.
- `sent`: every payload handed to the network, in order.
- `sentIndex`: for each post, the position in `enqueued` of the record posted.
- `inFlight`: the `sentIndex` entries of the posts that have no reply yet.

`Valid()` holds after every operation. It says three things:

- The queue is `enqueued` minus the `acknowledged` prefix, so records leave the
  queue in FIFO order.
- Every payload in `sent` is the enqueued record at its `sentIndex` position.
  So every payload sent is a record that was enqueued.
- Those positions never decrease and never pass the current head. So records
  are sent in enqueue order, and no record is sent before every earlier one
  has been acknowledged.

That a post is of the record at the head at the moment of posting is stated
by `PostMessage` itself, not by `Valid()`.

The source keeps no in-flight flag. A timer tick while a post is unanswered
posts the same head again. So the "one post at a time" discipline is the
separate ghost predicate `SingleFlight()`, and it is not claimed as something
the code enforces. `SingleFlight()` means at most one post is outstanding, it
is of the current head, and every removed record was posted at least once. It
survives `PostMessage` only when that call is made with no post outstanding.
`Scenarios.DuplicatePostThenReply` and `Scenarios.DuplicatePostDropsNext`
show what happens when two ticks overlap. After the first 2xx reply the
queue is empty while a post is still unanswered. If another record is
queued first, the 2xx reply to the duplicate post removes that record,
which was never posted. `SingleFlightReplyFindsHead` shows that under
`SingleFlight()` a reply always finds the record it answers at the head.

The reply to a post is identified by the ghost parameter `k` of
`PostMessageFinished`, the index of the post it answers in `inFlight`. The
network, the timer and the Qt signal delivery are not modelled. Ticks and
replies are explicit calls, made one at a time.

The model follows `ganalytics.cpp`. Later versions of the library declare
more in `include/ganalytics.h`: timestamped `QueryBuffer` records
(lines 84-88), a four-hour staleness constant `fourHours` (line 119) and
persistence of the queue (lines 128-129). Their bodies are not part of this
model, and `ganalytics.cpp` uses none of them.

## Model

| member | source | states |
|---|---|---|
| `UrlQuery.QueryItemValueIsFirst` | ganalytics.cpp:34-35 | Looking a key up in a query gives a value exactly when some item has that key. The value is that of the first such item. |
| `UrlQuery.QueryItemValueAppend` | ganalytics.cpp:35-51 | Adding items at the end never changes the value of a key already present. A key not present before is looked up in the added items. |
| `Appview.AppviewQuery` | ganalytics.cpp:34-51 | A record has 4 to 8 items. The first four are `v=1`, `tid=trackingID`, `cid=clientID`, `t=appview`, in that order. `uid` and `uip` are present exactly when `userID` / `userIPAddress` are non-empty, with that value. `an` is the configured `appName` if non-empty, else the argument if non-empty, else absent. `av` follows the same rule with `appVersion`. |
| `Appview.AppviewQueryWellFormed` | ganalytics.cpp:35-51 | Every key of a record is one of `v, tid, cid, t, uid, uip, an, av`. Keys appear in that order, so no key occurs twice. No optional item has an empty value. |
| `GoogleAnalytics.GAnalytics.constructor` | ganalytics.cpp:10-21 | A new tracker has the given tracking and client ids and the collect URL. Its other configured values are empty and its queue is empty. `Valid()` and `SingleFlight()` hold. |
| `GoogleAnalytics.GAnalytics.BuildAppview` | ganalytics.cpp:34-51 | Building the record item by item, with the source's conditional additions, yields exactly `AppviewQuery` of the configured values and the arguments. |
| `GoogleAnalytics.GAnalytics.SendAppview` | ganalytics.cpp:32-53 | Exactly one record, the built one, is appended at the tail. Every earlier queued record keeps its position. Posts and acknowledgements are unchanged. `Valid()` and `SingleFlight()` are preserved. |
| `GoogleAnalytics.GAnalytics.PostMessage` | ganalytics.cpp:64-72 | With an empty queue: no payload, and nothing changes. Otherwise: the payload is the head, the queue is unchanged, and the head is the record at enqueue position `|acknowledged|`. The payload is appended to `sent`, with that position in `sentIndex`, so sends stay in enqueue order. `SingleFlight()` is preserved when no post was outstanding. |
| `GoogleAnalytics.GAnalytics.DequeueHead` | ganalytics.cpp:89 | Removes exactly the head and returns it. The rest of the queue keeps its order. The removed record is appended to `acknowledged`. Posts are unchanged and `Valid()` still holds. |
| `GoogleAnalytics.GAnalytics.PostMessageFinished` | ganalytics.cpp:82-92 | The reply's post is no longer outstanding. A status outside 200..299 leaves the queue, the acknowledgements and the posts unchanged and posts nothing. A 2xx status removes exactly the head and keeps the rest in order. It then posts the new head if there is one, and the payload is that post. Under `SingleFlight()` the removed record is the one whose post got this reply, and `SingleFlight()` still holds afterwards. |
| `GoogleAnalytics.GAnalytics.SingleFlightReplyFindsHead` | ganalytics.cpp:82-92 | Under `Valid()` and `SingleFlight()`, the queue is non-empty whenever a reply arrives for an outstanding post. Its head is the record that post sent. So the dequeue at line 89 is defined and removes the record the reply is about. |
| `Scenarios.RetryThenPipeline` | ganalytics.cpp:64-92 | A, B and C are queued. A is posted and answered with 500: the queue stays `[A, B, C]` and the next tick posts A again. A 200 for that post leaves `[B, C]` and posts B at once. |
| `Scenarios.DuplicatePost` | ganalytics.cpp:64-72 | Two ticks with no reply in between post A twice. Both posts are outstanding, and A is still queued. |
| `Scenarios.DuplicatePostThenReply` | ganalytics.cpp:64-92 | After the duplicate posts of A, the first 200 removes A and posts nothing. The queue is then empty, and one post of A is still outstanding. |
| `Scenarios.DuplicatePostDropsNext` | ganalytics.cpp:64-92 | Continuing that run, B, a record different from A, is queued, so the queue is `[B]`. The 200 answering the duplicate post of A empties the queue. The acknowledged records are `[A, B]`, but the sent payloads are only `[A, A]`: B was removed without ever being posted. |

## Left out

- Timer and signal wiring in the constructor (`connect`, `timer.start(30000)`): ticks are explicit `PostMessage` calls, so the 30-second interval does not appear in the model.
- `networkManager.post` and the URL encoding of the query: `PostMessage` returns the item list it would post to `requestUrl`.
- Reading the status from the reply (`attribute(...).toInt()`): the status is an `int` parameter. A reply without an HTTP status reads as 0 and takes the failure path like any other non-2xx value.
- `replay->deleteLater()`: Qt memory management. The source also skips it on the failure path.
- Which outstanding post a reply answers: it is a ghost parameter, because the source never looks.
- The `QObject` parent argument of the constructor, and the `withGet` flag declared in `ganalytics.h`: neither affects the queue.
- `screenName`: accepted and not used, as in the source.
- The staleness rule (`fourHours`), timestamped `QueryBuffer` records, persistence of the queue, logging, screen resolution and user agent: `include/ganalytics.h` declares them but no bodies are part of this model. They are not modelled.
- PostMessageFinished: requires `IsSuccess(status) ==> messageQueue != []`. `QQueue::dequeue` on an empty queue is undefined, so the model does not give that case a meaning. The source does not rule it out: `Scenarios.DuplicatePostThenReply` reaches an empty queue with a post still outstanding, and a 2xx reply to that post would break this requirement. Under `SingleFlight()` the requirement always holds, by `SingleFlightReplyFindsHead`.
- Concurrent delivery of ticks and replies: calls are assumed to be serialised.
