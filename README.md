# Telegram log client: admission, dedup and throttling, in Dafny

This project models the core of `tg-logger`, a TypeScript library that sends
log lines to a Telegram chat through the Bot API. It covers:

- **The content cache** (`TelegramClientCache`). A `Map` from
  `cache-key:<hash>` to `{expireAt, count, messageId}`. It has a crowded check,
  an expiry test, and `clean`, which evicts the 30 % of entries closest to
  expiry. The model keeps the `Map`'s insertion order (`order`) beside its
  contents (`entries`). `clean` stable-sorts a snapshot taken in that order,
  so the model picks exactly the entries the source picks, ties included.
- **The throttle** (`TelegramClientThrottle`). A request counter and a FIFO
  queue of deferred tasks. The admission predicate is
  `Can() = requestCount < limit && |queue| < maxSize`. The drain tick
  (`ProcessQueue`) resets the counter and runs queued tasks while `Can()`
  holds. `IsStorageCrowded` and `Can` are predicates whose bodies are the
  source's conditions. The contracts of `Admit` and `ProcessQueue` use
  `Can`. The body of `Set` branches on `IsStorageCrowded`. `Set`'s contract
  states the same condition, `size >= maxSize`, through `AfterSet`.
- **The dispatch logic of `TelegramClient`**:
  - Key derivation: `cache-key:`, `pending-send:` and `pending-update:`
    followed by the hash.
  - `executeWithThrottle` has three outcomes: wait on a pending request,
    defer to the queue, or admit. It is split in the model into `Admit`
    (the decision) and `Execute` (the `execute` closure).
  - The bodies of `sendMessage` (cache hit vs. cache fill) and
    `updateMessage` (the edit text).
  - `handleRequestError`: a 429 re-queues the same task.
  - `url`.
- **The message builder** (`TelegramLoggerMessageBuilder`). An append-only
  text accumulator with HTML tag helpers. The client's `UpdateBody` uses it
  to build the edit text.

The class `TelegramClientMessageLock` serialises every client call. The model
therefore treats each call as one uninterrupted step over
`(pending, cache, throttle)`.

Four things are parameters of the model:

- **The hash.** The source uses SHA-256; the model takes a function
  `hash: string -> string` given to the client's constructor.
- **The clock.** `Date.now()` becomes the `now` argument.
- **The transport.** Its answer is an argument: `Ok(message id)` or
  `Err(error code)`.
- **Deferred updates.** A cache hit on send calls `updateMessage` without
  waiting for it. The model returns this as the effect
  `ForwardedToUpdate(id, message)` for the caller to issue as its next step.

`scenarios.dfy` checks the client scenarios from the contracts alone:

- a duplicate send becomes an update;
- an update of a cached message shows its count;
- with `limit = 1`, a second send waits for the next tick, and that tick runs it;
- a 429 re-queues the task;
- the raw-TTL behaviour below.

The model follows the code as written, including these behaviours:

- **`expireAt` is the configured TTL itself, not `now + ttl`**
  (`src/core/telegram/client/index.ts:124-128`). An entry is live only
  while the clock reads at most the TTL value. With millisecond timestamps
  the entry is already expired at the next admission, so it is deleted and
  the same content is sent again (`Scenarios.RawTtlDefeatsDedup`).
- **Errors other than 429 are swallowed** by the closure's `catch`. They do
  not reach the caller of `sendMessage` or `updateMessage`.
- **The queue can grow past `maxSize`.** `enqueue` ignores `maxSize`, and
  `executeWithThrottle` enqueues exactly when `Can()` fails, which includes
  a full queue (see `Admit`).
- **`increment` replaces the entry in place** and returns nothing.
- **The cache is bounded by `maxSize`, or by 4 when `maxSize` is smaller.**
  `clean` removes nothing from fewer than four entries
  (`Cache.Capacity`, `Cache.AfterSetWithinCapacity`).
- **A call that finds its pending key returns at once.** `_pendingMessages`
  stores the `execute` function itself
  (`src/core/telegram/client/index.ts:174`), not a promise. Awaiting a value
  that is not a promise at line 158 therefore does not wait for the earlier
  request. The model's `WaitOnPending` outcome changes nothing and returns.
- **Tasks run by the drain skip the pending and expiry checks.** They call
  the `execute` closure directly. So a drained send can hit an expired
  cache entry.
- **A duplicate send gives back its throttle slot, and the update it
  triggers takes a new one.** Across an admitted duplicate
  `executeWithThrottle` leaves `requestCount` unchanged
  (`ExecuteWithThrottle`'s contract).

## Model

| member | source | states |
|---|---|---|
| `Cache.TelegramClientCache.constructor` | src/core/telegram/client/cache/index.ts:13-19 | A new cache is empty and keeps the configured `maxSize`. |
| `Cache.TelegramClientCache.Set` | src/core/telegram/client/cache/index.ts:21-27 | A default `clean` runs first exactly when `size >= maxSize`. Then the key is stored: an existing key keeps its position, a new key goes last. Afterwards `Get(key) == Some(value)`. A cache within `Capacity(maxSize)` stays within it. |
| `Cache.TelegramClientCache.IsStorageCrowded` | src/core/telegram/client/cache/index.ts:61-63 | True exactly when `size >= maxSize`. This is the condition under which `Set` evicts first. |
| `Cache.TelegramClientCache.Increment` | src/core/telegram/client/cache/index.ts:29-37 | A present key's `count` goes up by exactly 1; `messageId`, `expireAt`, the order and every other key are unchanged. A missing key leaves the cache unchanged. |
| `Cache.TelegramClientCache.Delete` | src/core/telegram/client/cache/index.ts:39-41 | Exactly `key` leaves the map and the order; nothing else changes. |
| `Cache.TelegramClientCache.Has` | src/core/telegram/client/cache/index.ts:43-45 | True exactly when the key is stored. |
| `Cache.TelegramClientCache.Get` | src/core/telegram/client/cache/index.ts:47-49 | The stored value, or `None` for a missing key. |
| `Cache.TelegramClientCache.IsExpired` | src/core/telegram/client/cache/index.ts:51-59 | True for every missing key. For a stored key it holds exactly when `now > expireAt`. |
| `Cache.TelegramClientCache.Clean` | src/core/telegram/client/cache/index.ts:65-75 | The entries and the order lose exactly the keys `Evicted` selects. The loop deletes them one by one with `Delete`. |
| `Cache.SortByExpiry` | src/core/telegram/client/cache/index.ts:66-69 | The sorted snapshot has the same length and the same keys as the snapshot. |
| `Cache.InsertByExpiry` | src/core/telegram/client/cache/index.ts:67-69 | Stable insertion step of the sort: adds exactly one key and keeps the others. |
| `Cache.InsertSorted` | src/core/telegram/client/cache/index.ts:67-69 | Inserting into a list sorted by `expireAt` keeps it sorted. |
| `Cache.SortSortedDistinct` | src/core/telegram/client/cache/index.ts:66-69 | The snapshot sorted with the comparator `previous.expireAt - current.expireAt` is in ascending `expireAt` order. A snapshot of distinct keys stays distinct. |
| `Cache.SortIsStable` | src/core/telegram/client/cache/index.ts:66-69 | The sort is stable. Of two keys with the same `expireAt`, the one earlier in the `Map`'s order stays earlier. |
| `Cache.SortPermutes` | src/core/telegram/client/cache/index.ts:66-69 | The sorted snapshot is a permutation of the snapshot (`multiset` equality). |
| `Cache.EvictCount` | src/core/telegram/client/cache/index.ts:70 | The length of the `slice`: `floor(size * num / den)`, cut to `size`. It is exactly `floor(size * num / den)` when the fraction is at most one. |
| `Cache.Evicted` | src/core/telegram/client/cache/index.ts:66-70 | The keys `clean` deletes: the first `EvictCount` keys of the sorted snapshot. It holds at most `EvictCount` keys, and every one of them is stored. |
| `Cache.EvictedCount` | src/core/telegram/client/cache/index.ts:65-75 | `clean` removes exactly `floor(size * num / den)` distinct stored keys (all of them when the fraction exceeds one). The map shrinks by exactly that many. |
| `Cache.EvictedAreSoonest` | src/core/telegram/client/cache/index.ts:66-74 | Every removed entry's `expireAt` is at most every remaining entry's `expireAt`. |
| `Cache.AfterSet` | src/core/telegram/client/cache/index.ts:21-27 | The state after `set`. The key maps to the new value. Every other surviving key keeps its old value, and no key is invented. Below `maxSize` nothing is evicted: an existing key keeps its place and a new key goes last. |
| `Cache.AfterSetWithinCapacity` | src/core/telegram/client/cache/index.ts:21-27 | A `set` on a cache holding at most `max(maxSize, 4)` entries leaves it holding at most that many. |
| `Cache.DefaultEvictsNothingBelowFour` | src/core/telegram/client/cache/index.ts:65-70 | With `percent = 0.3`, nothing is removed exactly when fewer than four entries are stored; from four entries on, at least one is. |
| `Cache.ConsistentSize` | src/core/telegram/client/cache/index.ts:14 | The insertion-order list of the `Map` is as long as the map is large. |
| `Cache.MapWithout` | src/core/telegram/client/cache/index.ts:72-74 | Deleting a list of keys keeps exactly the other keys, with their values unchanged. |
| `Throttle.TelegramClientThrottle.constructor` | src/core/telegram/client/throttle/index.ts:16-24 | Keeps `limit`, `maxSize` and `interval`; starts with an empty queue and a zero counter. |
| `Throttle.TelegramClientThrottle.IncrementRequestCount` | src/core/telegram/client/throttle/index.ts:26-28 | The counter rises by exactly 1; the queue is unchanged. |
| `Throttle.TelegramClientThrottle.DecrementRequestCount` | src/core/telegram/client/throttle/index.ts:30-32 | The counter falls by exactly 1 with no floor; the queue is unchanged. |
| `Throttle.TelegramClientThrottle.ClearRequestCount` | src/core/telegram/client/throttle/index.ts:34-36 | The counter becomes 0; the queue is unchanged. |
| `Throttle.TelegramClientThrottle.QueueSize` | src/core/telegram/client/throttle/index.ts:49-51 | The queue's length. |
| `Throttle.TelegramClientThrottle.Can` | src/core/telegram/client/throttle/index.ts:38-43 | True exactly when `requestCount < limit` and the queue is shorter than `maxSize`. `Admit` defers exactly when it is false. `ProcessQueue` stops only when it is false or the queue is empty. |
| `Throttle.TelegramClientThrottle.Enqueue` | src/core/telegram/client/throttle/index.ts:45-47 | Appends the task at the tail even when `Can()` is false; the counter is unchanged. |
| `Throttle.TelegramClientThrottle.Dequeue` | src/core/telegram/client/throttle/index.ts:53-55 | Returns and removes the head, leaving the rest in order. On an empty queue it returns `None` and changes nothing. |
| `Throttle.TelegramClientThrottle.ProcessQueue` | src/core/telegram/client/throttle/index.ts:38-75 | The tasks run are a prefix of the old queue, in order, and the rest stays queued. The counter ends equal to the number run, which is at most `limit`. Nothing runs when the queue starts at `maxSize` or more. The drain stops only when `Can()` fails or the queue is empty. It terminates because each round shrinks the queue. |
| `MessageBuilder.NewLines` | src/core/telegram/logger/message/index.ts:32-34 | `'\n'.repeat(count)`: exactly `count` characters, all newlines. |
| `MessageBuilder.TelegramLoggerMessageBuilder.constructor` | src/core/telegram/logger/message/index.ts:4-10 | The text is the argument when one is given, otherwise `""`. |
| `MessageBuilder.TelegramLoggerMessageBuilder.Add` | src/core/telegram/logger/message/index.ts:44-47 | The new text is exactly the old text followed by the argument. |
| `MessageBuilder.TelegramLoggerMessageBuilder.Space` | src/core/telegram/logger/message/index.ts:12-14 | Appends exactly one space. |
| `MessageBuilder.TelegramLoggerMessageBuilder.Bold` | src/core/telegram/logger/message/index.ts:16-18 | Appends the content wrapped in `<b>…</b>`. |
| `MessageBuilder.TelegramLoggerMessageBuilder.Italic` | src/core/telegram/logger/message/index.ts:20-22 | Appends the content wrapped in `<i>…</i>`. |
| `MessageBuilder.TelegramLoggerMessageBuilder.Code` | src/core/telegram/logger/message/index.ts:24-26 | Appends the content wrapped in `<code>…</code>`. |
| `MessageBuilder.TelegramLoggerMessageBuilder.Underline` | src/core/telegram/logger/message/index.ts:28-30 | Appends the content wrapped in `<u>…</u>`. |
| `MessageBuilder.TelegramLoggerMessageBuilder.Enter` | src/core/telegram/logger/message/index.ts:32-34 | Appends exactly `count` newlines (the caller passes the default 1 explicitly). A negative count is the `RangeError` path: the text is unchanged and `ok` is false. |
| `MessageBuilder.TelegramLoggerMessageBuilder.Get` | src/core/telegram/logger/message/index.ts:49-51 | The accumulated text; the client reads the edit text through it. |
| `MessageBuilder.TelegramLoggerMessageBuilder.When` | src/core/telegram/logger/message/index.ts:36-42 | With `false` the text is unchanged. With `true` the handler's text is appended. |
| `Client.CacheKeyOf` | src/core/telegram/client/index.ts:48 | `cache-key:` followed by the digest. |
| `Client.SendPendingKeyOf` | src/core/telegram/client/index.ts:92 | `pending-send:` followed by the digest. |
| `Client.UpdatePendingKeyOf` | src/core/telegram/client/index.ts:49 | `pending-update:` followed by the digest. |
| `Client.KeyKindsDisjoint` | src/core/telegram/client/index.ts:7-9 | A cache key, a send pending key and an update pending key never coincide, whatever the hashes. |
| `Client.KeysDetermineDigest` | src/core/telegram/client/index.ts:47-92 | Each kind of key determines the hash it was built from. |
| `Client.TelegramClient.SendTask` | src/core/telegram/client/index.ts:89-92 | The same message always yields the same `cache-key:` and `pending-send:` keys, both built from `hash(message)`. |
| `Client.TelegramClient.UpdateTask` | src/core/telegram/client/index.ts:46-49 | The same message always yields the same `cache-key:` and `pending-update:` keys, both built from `hash(message)`. |
| `Client.PathEnd` | src/core/telegram/client/index.ts:211 | The first `?` or `#` of a string, or its length when it has none. |
| `Client.ApiUrl` | src/core/telegram/client/index.ts:209-212 | Protocol `https:` and host `api.telegram.org`. The pathname and the rest concatenate to `"/bot" + token + path`. Without `?` or `#` in token and path, the pathname is exactly `"/bot" + token + path`. |
| `Client.DecimalString` | src/core/telegram/client/index.ts:62 | A non-empty rendering that starts with `-` exactly for negative numbers. |
| `Client.NatDigits` | src/core/telegram/client/index.ts:62 | A non-empty string of decimal digits. |
| `Client.NatDigitsValue` | src/core/telegram/client/index.ts:62 | Reading the digits back gives the number. |
| `Client.DecimalRoundTrip` | src/core/telegram/client/index.ts:62 | The rendered count can be parsed back to the count, sign included. |
| `Client.UpdateText` | src/core/telegram/client/index.ts:58-64 | The edit text: the message, two newlines and, for a cached message, `❗️Count: N`. It always starts with `message + "\n\n"`, and it is exactly that when the key is not cached. |
| `Client.CountLine` | src/core/telegram/client/index.ts:62 | The annotation `❗️Count: ` followed by the count as JavaScript renders it. |
| `Client.UpdateTextDeterminesCount` | src/core/telegram/client/index.ts:58-64 | Two edit texts for the same cached message are equal only when they carry the same `❗️Count: N`. |
| `Client.TelegramClient.constructor` | src/core/telegram/client/index.ts:32-44 | Keeps token, chat id, TTL and hash. Creates a fresh empty cache and a fresh throttle with the given limits; no key is pending. |
| `Client.TelegramClient.Admit` | src/core/telegram/client/index.ts:156-174 | If the pending key is registered, nothing changes (wait). Otherwise, if `!Can()`, the task is appended to the queue and nothing else changes. Otherwise an expired entry is deleted, `requestCount` rises by exactly 1 and the pending key is registered. |
| `Client.TelegramClient.SendBody` | src/core/telegram/client/index.ts:96-129 | Cache hit: count +1, pending key removed, `requestCount` -1, an update of the cached `messageId` is asked for, and no send request is made. Miss: a `sendMessage` request with the message. On success the cache gets `{messageId: id, count: 1, expireAt: ttl}`, per `set`. On failure the cache is unchanged. |
| `Client.TelegramClient.UpdateBody` | src/core/telegram/client/index.ts:53-82 | One `editMessageText` request for `messageId`, whose text is `UpdateText(message, cached value)`, built with the message builder. |
| `Client.TelegramClient.Execute` | src/core/telegram/client/index.ts:147-154 | The pending key is always removed. The same task is re-queued exactly when the body failed with 429. Any other failure is swallowed. The body's effects carry over. |
| `Client.TelegramClient.HandleRequestError` | src/core/telegram/client/index.ts:200-207 | Re-queues the task exactly when the error code is 429; the counter is unchanged. |
| `Client.TelegramClient.ExecuteWithThrottle` | src/core/telegram/client/index.ts:142-177 | Wait and defer change nothing but the queue. An admitted task ends with its pending key cleared and the 429 rule applied. A live cached send nets zero on `requestCount` and raises the count. A send that was not live is sent. An update carries the count of the entry that survived the expiry check. |
| `Client.TelegramClient.SendMessage` | src/core/telegram/client/index.ts:89-134 | Waits exactly when `pending-send:<hash>` is registered. It is deferred exactly when `!Can()`. A live cache entry turns it into an update request with the count raised and no slot used. Otherwise it is sent and takes one slot. |
| `Client.TelegramClient.UpdateMessage` | src/core/telegram/client/index.ts:46-87 | Waits exactly when `pending-update:<hash>` is registered. It is deferred exactly when `!Can()`. Once admitted it sends one `editMessageText` for `messageId` with the annotated text and takes one slot. |

## Left out

- HTTP I/O is not modelled: `fetch`, `Headers`, the JSON request bodies and reading the response (`request`, src/core/telegram/client/index.ts:179-198). The transport is the `TransportResult` argument. A network failure is an `Err` whose code is not 429.
- The lock (`src/core/telegram/client/lock/index.ts`) is not part of this model. Every client call is one atomic step. The model does not capture a drained task interleaving with a locked call at an `await`, or the promise a waiter receives.
- The `setInterval` timer is not modelled: `ProcessQueue` is called explicitly.
- `Throttle.TelegramClientThrottle.ProcessQueue`: tasks are opaque values that do not touch the throttle. The effects a real queued `execute` has while the drain runs are modelled one task at a time by `Execute`, not inside the drain loop. Those effects are a slot given back on a cache hit and a re-queue on 429.
- SHA-256 (crypto-js) is not modelled: the hash is a function parameter.
- `Date.now()` is not modelled: the clock is the `now` parameter.
- `clean(percent)` takes an integer fraction `num / den`, and `set` uses 3/10. The model takes the floating-point `floor(size * 0.3)` to equal `size * 3 / 10` exactly. Negative or irrational percents are not modelled.
- `console.log` and the `debug` logging hook are not modelled.
- `src/core/telegram/logger/index.ts` is not part of this model. It is a fire-and-forget wrapper around `sendMessage`.
- `Client.ApiUrl`: splits the URL only at the first `?` or `#`. The WHATWG URL parser's percent-encoding, dot-segment removal and backslash handling are not modelled.
- `Client.NatDigits`: JavaScript's exponent notation for numbers of 1e21 and above is not modelled.
- `MessageBuilder.TelegramLoggerMessageBuilder.When`: the handler is modelled as the text it appends, computed from the current text. The source allows any callback. Every builder method only appends.
- `MessageBuilder.TelegramLoggerMessageBuilder.Enter`: non-integer counts (JavaScript truncates them) are not modelled. Method chaining (`return this`) is a sequence of calls.
- `Client.TelegramClient.SendMessage` and `Client.TelegramClient.UpdateMessage`: their contracts state only the key-dependent facts. The full transition is `ExecuteWithThrottle`'s, for the task they build.
