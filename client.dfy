/**
 * The dispatch logic of the Telegram client: how a `sendMessage` or
 * `updateMessage` call derives its keys from a content hash, whether it
 * waits on a pending request, is deferred to the throttle queue or is
 * admitted, and what the admitted request does to the cache, the throttle
 * and the pending map.
 *
 * The client's lock serialises every call, so each call is one
 * uninterrupted step here. The hash (SHA-256 in the source) is a function
 * supplied at construction; the HTTP transport is the outcome the caller
 * passes in, `Ok(message id)` or `Err(error code)`.
 */
module Client {
  import opened Wrappers
  import opened Cache
  import opened Throttle
  import opened MessageBuilder

  // ---------------------------------------------------------------- keys

  function CacheKeyOf(digest: string): string
  {
    "cache-key:" + digest
  }

  function SendPendingKeyOf(digest: string): string
  {
    "pending-send:" + digest
  }

  function UpdatePendingKeyOf(digest: string): string
  {
    "pending-update:" + digest
  }

  /** The three kinds of key never collide, whatever the digests. */
  lemma KeyKindsDisjoint(a: string, b: string)
    ensures CacheKeyOf(a) != SendPendingKeyOf(b)
    ensures CacheKeyOf(a) != UpdatePendingKeyOf(b)
    ensures SendPendingKeyOf(a) != UpdatePendingKeyOf(b)
  {
    assert CacheKeyOf(a)[0] == 'c' && SendPendingKeyOf(b)[0] == 'p';
    assert CacheKeyOf(a)[0] != UpdatePendingKeyOf(b)[0];
    assert SendPendingKeyOf(a)[8] == 's' && UpdatePendingKeyOf(b)[8] == 'u';
  }

  /** Each kind of key determines the digest it was made from. */
  lemma KeysDetermineDigest(a: string, b: string)
    ensures CacheKeyOf(a) == CacheKeyOf(b) ==> a == b
    ensures SendPendingKeyOf(a) == SendPendingKeyOf(b) ==> a == b
    ensures UpdatePendingKeyOf(a) == UpdatePendingKeyOf(b) ==> a == b
  {
    assert CacheKeyOf(a)[10..] == a && CacheKeyOf(b)[10..] == b;
    assert SendPendingKeyOf(a)[13..] == a && SendPendingKeyOf(b)[13..] == b;
    assert UpdatePendingKeyOf(a)[15..] == a && UpdatePendingKeyOf(b)[15..] == b;
  }

  // ----------------------------------------------------------------- url

  /** The parts of a parsed URL that the client depends on. */
  datatype Url = Url(protocol: string, host: string, pathname: string, rest: string)

  /** The position of the first `?` or `#` in `s`, or `|s|` when there is none. */
  function PathEnd(s: string): (i: nat)
    ensures i <= |s|
    ensures forall j :: 0 <= j < i ==> s[j] != '?' && s[j] != '#'
    ensures i < |s| ==> s[i] == '?' || s[i] == '#'
  {
    if s == [] || s[0] == '?' || s[0] == '#' then 0 else 1 + PathEnd(s[1..])
  }

  /**
   * `new URL("/bot" + token + path, "https://api.telegram.org")`: the path
   * runs up to the first `?` or `#`, which start the query and fragment
   * (`rest`).
   */
  function ApiUrl(token: string, path: string): (u: Url)
    ensures u.protocol == "https:" && u.host == "api.telegram.org"
    ensures u.pathname + u.rest == "/bot" + token + path
    ensures '?' !in u.pathname && '#' !in u.pathname
    ensures '?' !in token + path && '#' !in token + path ==> u.pathname == "/bot" + token + path
  {
    var p := "/bot" + token + path;
    var i := PathEnd(p);
    assert p[..i] + p[i..] == p;
    Url("https:", "api.telegram.org", p[..i], p[i..])
  }

  // --------------------------------------------------------- update text

  function DigitChar(d: nat): char
    requires d < 10
  {
    "0123456789"[d]
  }

  function DigitValue(c: char): int
  {
    if '0' <= c <= '9' then c as int - '0' as int else 0
  }

  /** Decimal digits of `n`, most significant first, without leading zeros. */
  function NatDigits(n: nat): (s: string)
    ensures |s| > 0
    ensures forall i :: 0 <= i < |s| ==> '0' <= s[i] <= '9'
  {
    if n < 10 then [DigitChar(n)] else NatDigits(n / 10) + [DigitChar(n % 10)]
  }

  /** How JavaScript renders an integer in a template literal: a minus sign exactly for negatives. */
  function DecimalString(n: int): (r: string)
    ensures |r| > 0
    ensures r[0] == '-' <==> n < 0
  {
    if n < 0 then "-" + NatDigits(-n) else NatDigits(n)
  }

  /** The value of a string of decimal digits, with an optional leading minus. */
  function DigitsValue(s: string): int
  {
    if s == [] then 0 else DigitsValue(s[..|s| - 1]) * 10 + DigitValue(s[|s| - 1])
  }

  function ParseDecimal(s: string): int
  {
    if s != [] && s[0] == '-' then -DigitsValue(s[1..]) else DigitsValue(s)
  }

  lemma {:induction false} NatDigitsValue(n: nat)
    ensures DigitsValue(NatDigits(n)) == n
  {
    if n >= 10 {
      var s := NatDigits(n);
      NatDigitsValue(n / 10);
      assert s[..|s| - 1] == NatDigits(n / 10);
    }
  }

  /** The rendered count can be read back: rendering loses nothing. */
  lemma DecimalRoundTrip(n: int)
    ensures ParseDecimal(DecimalString(n)) == n
  {
    if n < 0 {
      NegativeRoundTrip(n);
    } else {
      NatDigitsValue(n);
      assert '0' <= NatDigits(n)[0] <= '9';
    }
  }

  lemma NegativeRoundTrip(n: int)
    requires n < 0
    ensures ParseDecimal(DecimalString(n)) == n
  {
    var d := NatDigits(-n);
    NatDigitsValue(-n);
    assert ("-" + d)[1..] == d;
  }

  /** The annotation appended for a cached message: `❗️Count: N`. */
  function CountLine(count: int): string
  {
    "\U{2757}\U{FE0F}Count: " + DecimalString(count)
  }

  /**
   * The text of an edit request: the message, two newlines and, when the
   * message is cached, the count annotation. It always starts with the
   * message and the two newlines, and is exactly that when nothing is cached.
   */
  function UpdateText(message: string, cached: Option<CacheValue>): (r: string)
    ensures message + "\n\n" <= r
    ensures cached.None? <==> r == message + "\n\n"
  {
    assert NewLines(2) == "\n\n";
    assert cached.Some? ==> |CountLine(cached.value.count)| > 0;
    message + NewLines(2) + if cached.Some? then CountLine(cached.value.count) else ""
  }

  lemma PrefixCancel(h: string, x: string, y: string)
    requires h + x == h + y
    ensures x == y
  {
    assert x == (h + x)[|h|..];
    assert y == (h + y)[|h|..];
  }

  /** Two edit texts for the same message agree only when they carry the same count. */
  lemma UpdateTextDeterminesCount(message: string, a: CacheValue, b: CacheValue)
    ensures UpdateText(message, Some(a)) == UpdateText(message, Some(b)) ==> a.count == b.count
  {
    if UpdateText(message, Some(a)) == UpdateText(message, Some(b)) {
      var h := message + NewLines(2);
      PrefixCancel(h, CountLine(a.count), CountLine(b.count));
      PrefixCancel("\U{2757}\U{FE0F}Count: ", DecimalString(a.count), DecimalString(b.count));
      DecimalRoundTrip(a.count);
      DecimalRoundTrip(b.count);
    }
  }

  // ------------------------------------------------------------ dispatch

  /** What a client call asks for: a new message, or an edit of a sent one. */
  datatype Job = SendJob(message: string) | UpdateJob(messageId: int, message: string)

  /**
   * The `execute` closure of `executeWithThrottle`, identified by what it
   * captures: the job and the two keys derived from its message. This is
   * what the throttle queues.
   */
  datatype Task = Task(job: Job, cacheKey: string, pendingKey: string)

  /** How `executeWithThrottle` disposes of a call. */
  datatype Decision = WaitOnPending | Enqueued | Admitted

  /** What the transport answers to a request. */
  datatype TransportResult = Ok(messageId: int) | Err(errorCode: int)

  /** The requests the client sends to the Bot API. */
  datatype Request =
    | SendMessageRequest(url: Url, chatId: string, text: string)
    | EditMessageTextRequest(url: Url, chatId: string, messageId: int, text: string)

  /** What a task's body came to. */
  datatype Effect =
    | ForwardedToUpdate(messageId: int, message: string)  // cache hit: an update call is started instead
    | Delivered
    | Failed(errorCode: int)                              // the request was rejected and the body threw

  /** Telegram's "Too Many Requests" error code. */
  const RateLimited: int := 429

  class TelegramClient {
    const token: string
    const chatId: string
    const cacheTTL: int
    const hash: string -> string
    const cache: TelegramClientCache
    const throttle: TelegramClientThrottle<Task>
    /** The `_pendingMessages` map: pending key to the task registered under it. */
    var pending: map<string, Task>

    ghost predicate Valid()
      reads this, cache
    {
      cache.Valid()
    }

    constructor (token: string, chatId: string, cacheMaxSize: int, cacheTTL: int,
                 limit: int, maxSize: int, interval: int, hash: string -> string)
      ensures Valid() && fresh(cache) && fresh(throttle)
      ensures this.token == token && this.chatId == chatId && this.cacheTTL == cacheTTL && this.hash == hash
      ensures cache.maxSize == cacheMaxSize && cache.entries == map[] && cache.order == []
      ensures throttle.limit == limit && throttle.maxSize == maxSize && throttle.interval == interval
      ensures throttle.queue == [] && throttle.requestCount == 0
      ensures pending == map[]
    {
      this.token := token;
      this.chatId := chatId;
      this.cacheTTL := cacheTTL;
      this.hash := hash;
      cache := new TelegramClientCache(cacheMaxSize);
      throttle := new TelegramClientThrottle(limit, maxSize, interval);
      pending := map[];
    }

    /** The task `sendMessage(message)` hands to `executeWithThrottle`. */
    function SendTask(message: string): (t: Task)
      ensures t.job == SendJob(message)
      ensures t.cacheKey == CacheKeyOf(hash(message)) && t.pendingKey == SendPendingKeyOf(hash(message))
    {
      Task(SendJob(message), CacheKeyOf(hash(message)), SendPendingKeyOf(hash(message)))
    }

    /** The task `updateMessage(messageId, message)` hands to `executeWithThrottle`. */
    function UpdateTask(messageId: int, message: string): (t: Task)
      ensures t.job == UpdateJob(messageId, message)
      ensures t.cacheKey == CacheKeyOf(hash(message)) && t.pendingKey == UpdatePendingKeyOf(hash(message))
    {
      Task(UpdateJob(messageId, message), CacheKeyOf(hash(message)), UpdatePendingKeyOf(hash(message)))
    }

    /**
     * The decision part of `executeWithThrottle`: wait on a pending request
     * with the same key, defer the task when the throttle refuses, or admit
     * it (purge an expired cache entry, take a throttle slot and register
     * the pending key).
     */
    method Admit(task: Task, now: int) returns (d: Decision)
      requires Valid()
      modifies this, cache, throttle
      ensures Valid()
      ensures d == WaitOnPending <==> task.pendingKey in old(pending)
      ensures d == Enqueued <==> task.pendingKey !in old(pending) && !old(throttle.Can())
      ensures d != Admitted ==> pending == old(pending) && throttle.requestCount == old(throttle.requestCount)
      ensures d != Admitted ==> cache.entries == old(cache.entries) && cache.order == old(cache.order)
      ensures d == WaitOnPending ==> throttle.queue == old(throttle.queue)
      ensures d == Enqueued ==> throttle.queue == old(throttle.queue) + [task]
      ensures d == Admitted ==>
        && pending == old(pending)[task.pendingKey := task]
        && throttle.requestCount == old(throttle.requestCount) + 1
        && throttle.queue == old(throttle.queue)
        && cache.entries == (if old(cache.IsExpired(task.cacheKey, now)) then old(cache.entries) - {task.cacheKey}
                             else old(cache.entries))
        && cache.order == (if old(cache.IsExpired(task.cacheKey, now)) then Without(old(cache.order), [task.cacheKey])
                           else old(cache.order))
    {
      if task.pendingKey in pending {
        return WaitOnPending;
      }
      if !throttle.Can() {
        throttle.Enqueue(task);
        return Enqueued;
      }
      if cache.IsExpired(task.cacheKey, now) {
        cache.Delete(task.cacheKey);
      }
      throttle.IncrementRequestCount();
      pending := pending[task.pendingKey := task];
      d := Admitted;
    }

    /**
     * The body `sendMessage` hands to `executeWithThrottle`. A cached message
     * is not sent again: its count goes up, its pending key and throttle slot
     * are given back, and an update of the cached message is started. An
     * uncached one is sent; on success its id is cached with count 1 and
     * `expireAt` equal to the configured TTL itself; on an error the body
     * throws (`Failed`) and leaves the cache as it was.
     */
    method SendBody(message: string, cacheKey: string, pendingKey: string, transport: TransportResult)
      returns (request: Option<Request>, effect: Effect)
      requires Valid()
      modifies this, cache, throttle
      ensures Valid()
      ensures throttle.queue == old(throttle.queue)
      ensures cacheKey in old(cache.entries) ==>
        var v := old(cache.entries)[cacheKey];
        && request == None
        && effect == ForwardedToUpdate(v.messageId, message)
        && cache.entries == old(cache.entries)[cacheKey := v.(count := v.count + 1)]
        && cache.order == old(cache.order)
        && pending == old(pending) - {pendingKey}
        && throttle.requestCount == old(throttle.requestCount) - 1
      ensures cacheKey !in old(cache.entries) ==>
        && request == Some(SendMessageRequest(ApiUrl(token, "/sendMessage"), chatId, message))
        && pending == old(pending)
        && throttle.requestCount == old(throttle.requestCount)
      ensures cacheKey !in old(cache.entries) && transport.Ok? ==>
        && effect == Delivered
        && (cache.order, cache.entries) == AfterSet(old(cache.order), old(cache.entries), cache.maxSize,
                                                    cacheKey, CacheValue(cacheTTL, 1, transport.messageId))
        && cache.Get(cacheKey) == Some(CacheValue(cacheTTL, 1, transport.messageId))
      ensures cacheKey !in old(cache.entries) && transport.Err? ==>
        && effect == Failed(transport.errorCode)
        && cache.entries == old(cache.entries) && cache.order == old(cache.order)
    {
      var cached := cache.Get(cacheKey);
      if cached.Some? {
        cache.Increment(cacheKey);
        pending := pending - {pendingKey};
        throttle.DecrementRequestCount();
        return None, ForwardedToUpdate(cached.value.messageId, message);
      }
      request := Some(SendMessageRequest(ApiUrl(token, "/sendMessage"), chatId, message));
      match transport
      case Err(code) =>
        effect := Failed(code);
      case Ok(id) =>
        cache.Set(cacheKey, CacheValue(cacheTTL, 1, id));
        effect := Delivered;
    }

    /**
     * The body `updateMessage` hands to `executeWithThrottle`: builds the
     * edit text with the message builder (the message, two newlines, and
     * the count annotation when the message is cached) and sends the edit.
     */
    method UpdateBody(messageId: int, message: string, cacheKey: string, transport: TransportResult)
      returns (request: Option<Request>, effect: Effect)
      requires Valid()
      ensures request == Some(EditMessageTextRequest(ApiUrl(token, "/editMessageText"), chatId, messageId,
                                                     UpdateText(message, cache.Get(cacheKey))))
      ensures effect == if transport.Ok? then Delivered else Failed(transport.errorCode)
    {
      var builder := new TelegramLoggerMessageBuilder(Some(message));
      var _ := builder.Enter(2);
      var hit := cache.Has(cacheKey);
      var count := if hit then cache.entries[cacheKey].count else 0;
      builder.When(hit, _ => CountLine(count));
      assert !hit ==> builder.Get() == message + NewLines(2) + "";
      request := Some(EditMessageTextRequest(ApiUrl(token, "/editMessageText"), chatId, messageId, builder.Get()));
      effect := if transport.Ok? then Delivered else Failed(transport.errorCode);
    }

    /**
     * The `execute` closure of `executeWithThrottle`: runs the task's body,
     * always clears the pending key (`finally`), and on a thrown error lets
     * `handleRequestError` decide whether the same task is queued again.
     */
    method Execute(task: Task, transport: TransportResult)
      returns (request: Option<Request>, effect: Effect, requeued: bool)
      requires Valid()
      modifies this, cache, throttle
      ensures Valid()
      ensures pending == old(pending) - {task.pendingKey}
      ensures requeued <==> effect == Failed(RateLimited)
      ensures throttle.queue == old(throttle.queue) + (if requeued then [task] else [])
      ensures effect.Failed? <==> request.Some? && transport.Err?
      ensures effect.Failed? ==> effect.errorCode == transport.errorCode
      ensures task.job.SendJob? && task.cacheKey in old(cache.entries) ==>
        var v := old(cache.entries)[task.cacheKey];
        && request == None
        && effect == ForwardedToUpdate(v.messageId, task.job.message)
        && cache.entries == old(cache.entries)[task.cacheKey := v.(count := v.count + 1)]
        && cache.order == old(cache.order)
        && throttle.requestCount == old(throttle.requestCount) - 1
      ensures task.job.SendJob? && task.cacheKey !in old(cache.entries) ==>
        request == Some(SendMessageRequest(ApiUrl(token, "/sendMessage"), chatId, task.job.message))
      ensures task.job.SendJob? && task.cacheKey !in old(cache.entries) && transport.Ok? ==>
        (cache.order, cache.entries) == AfterSet(old(cache.order), old(cache.entries), cache.maxSize,
                                                 task.cacheKey, CacheValue(cacheTTL, 1, transport.messageId))
      ensures task.job.UpdateJob? ==>
        request == Some(EditMessageTextRequest(ApiUrl(token, "/editMessageText"), chatId, task.job.messageId,
                                               UpdateText(task.job.message, old(cache.Get(task.cacheKey)))))
      ensures request.Some? ==> throttle.requestCount == old(throttle.requestCount)
      ensures request.Some? && transport.Ok? ==> effect == Delivered
      ensures request.Some? && (task.job.UpdateJob? || transport.Err?) ==>
        cache.entries == old(cache.entries) && cache.order == old(cache.order)
    {
      match task.job {
        case SendJob(message) =>
          request, effect := SendBody(message, task.cacheKey, task.pendingKey, transport);
        case UpdateJob(messageId, message) =>
          request, effect := UpdateBody(messageId, message, task.cacheKey, transport);
      }
      pending := pending - {task.pendingKey};
      requeued := false;
      if effect.Failed? {
        requeued := HandleRequestError(task, effect.errorCode);
      }
    }

    /** `handleRequestError`: a 429 queues the failed task again, anything else is swallowed. */
    method HandleRequestError(task: Task, errorCode: int) returns (requeued: bool)
      modifies throttle
      ensures requeued <==> errorCode == RateLimited
      ensures throttle.queue == old(throttle.queue) + (if requeued then [task] else [])
      ensures throttle.requestCount == old(throttle.requestCount)
    {
      requeued := errorCode == RateLimited;
      if requeued {
        throttle.Enqueue(task);
      }
    }

    /**
     * `executeWithThrottle`: the admission decision and, for an admitted
     * task, its run. A waiting or deferred call changes nothing but the
     * queue; an admitted one ends with its pending key cleared.
     */
    method ExecuteWithThrottle(task: Task, now: int, transport: TransportResult)
      returns (d: Decision, request: Option<Request>, effect: Option<Effect>, requeued: bool)
      requires Valid()
      modifies this, cache, throttle
      ensures Valid()
      ensures d == WaitOnPending <==> task.pendingKey in old(pending)
      ensures d == Enqueued <==> task.pendingKey !in old(pending) && !old(throttle.Can())
      ensures d != Admitted ==> request == None && effect == None && !requeued
      ensures d != Admitted ==> pending == old(pending) && throttle.requestCount == old(throttle.requestCount)
      ensures d != Admitted ==> cache.entries == old(cache.entries) && cache.order == old(cache.order)
      ensures d == WaitOnPending ==> throttle.queue == old(throttle.queue)
      ensures d == Enqueued ==> throttle.queue == old(throttle.queue) + [task]
      ensures d == Admitted ==> effect.Some? && pending == old(pending) - {task.pendingKey}
      ensures d == Admitted ==> (requeued <==> effect == Some(Failed(RateLimited)))
      ensures d == Admitted ==> throttle.queue == old(throttle.queue) + (if requeued then [task] else [])
      ensures d == Admitted && request.Some? ==> throttle.requestCount == old(throttle.requestCount) + 1
      ensures d == Admitted ==>
        && (effect.value.Failed? <==> request.Some? && transport.Err?)
        && (effect.value.Failed? ==> effect.value.errorCode == transport.errorCode)
        && (request.Some? && transport.Ok? ==> effect == Some(Delivered))
      ensures d == Admitted ==>
        var expired := old(cache.IsExpired(task.cacheKey, now));
        var order1 := if expired then Without(old(cache.order), [task.cacheKey]) else old(cache.order);
        var entries1 := if expired then old(cache.entries) - {task.cacheKey} else old(cache.entries);
        && (task.job.UpdateJob? || (expired && transport.Err?) ==>
              cache.order == order1 && cache.entries == entries1)
        && (task.job.SendJob? && expired && transport.Ok? ==>
              (cache.order, cache.entries) == AfterSet(order1, entries1, cache.maxSize, task.cacheKey,
                                                       CacheValue(cacheTTL, 1, transport.messageId)))
      ensures d == Admitted && task.job.SendJob? && !old(cache.IsExpired(task.cacheKey, now)) ==>
        var v := old(cache.entries)[task.cacheKey];
        && request == None
        && effect == Some(ForwardedToUpdate(v.messageId, task.job.message))
        && cache.entries == old(cache.entries)[task.cacheKey := v.(count := v.count + 1)]
        && cache.order == old(cache.order)
        && throttle.requestCount == old(throttle.requestCount)
      ensures d == Admitted && task.job.SendJob? && old(cache.IsExpired(task.cacheKey, now)) ==>
        request == Some(SendMessageRequest(ApiUrl(token, "/sendMessage"), chatId, task.job.message))
      ensures d == Admitted && task.job.UpdateJob? ==>
        request == Some(EditMessageTextRequest(ApiUrl(token, "/editMessageText"), chatId, task.job.messageId,
                          UpdateText(task.job.message, if old(cache.IsExpired(task.cacheKey, now)) then None
                                                       else old(cache.Get(task.cacheKey)))))
    {
      d := Admit(task, now);
      request, effect, requeued := None, None, false;
      if d == Admitted {
        var e;
        request, e, requeued := Execute(task, transport);
        effect := Some(e);
      }
    }

    /** `sendMessage`: one serialised call for `message`. */
    method SendMessage(message: string, now: int, transport: TransportResult)
      returns (d: Decision, request: Option<Request>, effect: Option<Effect>, requeued: bool)
      requires Valid()
      modifies this, cache, throttle
      ensures Valid()
      ensures d == WaitOnPending <==> SendPendingKeyOf(hash(message)) in old(pending)
      ensures d == Enqueued <==> SendPendingKeyOf(hash(message)) !in old(pending) && !old(throttle.Can())
      ensures d == Enqueued ==> throttle.queue == old(throttle.queue) + [SendTask(message)]
      ensures d == Admitted && !old(cache.IsExpired(CacheKeyOf(hash(message)), now)) ==>
        && request == None && effect.Some? && effect.value.ForwardedToUpdate?
        && CacheKeyOf(hash(message)) in cache.entries
        && cache.entries[CacheKeyOf(hash(message))].count == old(cache.entries)[CacheKeyOf(hash(message))].count + 1
        && throttle.requestCount == old(throttle.requestCount)
      ensures d == Admitted && old(cache.IsExpired(CacheKeyOf(hash(message)), now)) ==>
        && request == Some(SendMessageRequest(ApiUrl(token, "/sendMessage"), chatId, message))
        && throttle.requestCount == old(throttle.requestCount) + 1
    {
      d, request, effect, requeued := ExecuteWithThrottle(SendTask(message), now, transport);
    }

    /** `updateMessage`: one serialised edit of `messageId` to `message`. */
    method UpdateMessage(messageId: int, message: string, now: int, transport: TransportResult)
      returns (d: Decision, request: Option<Request>, effect: Option<Effect>, requeued: bool)
      requires Valid()
      modifies this, cache, throttle
      ensures Valid()
      ensures d == WaitOnPending <==> UpdatePendingKeyOf(hash(message)) in old(pending)
      ensures d == Enqueued <==> UpdatePendingKeyOf(hash(message)) !in old(pending) && !old(throttle.Can())
      ensures d == Enqueued ==> throttle.queue == old(throttle.queue) + [UpdateTask(messageId, message)]
      ensures d == Admitted ==>
        && request == Some(EditMessageTextRequest(ApiUrl(token, "/editMessageText"), chatId, messageId,
                             UpdateText(message, if old(cache.IsExpired(CacheKeyOf(hash(message)), now)) then None
                                                 else old(cache.Get(CacheKeyOf(hash(message)))))))
        && throttle.requestCount == old(throttle.requestCount) + 1
    {
      d, request, effect, requeued := ExecuteWithThrottle(UpdateTask(messageId, message), now, transport);
    }
  }
}
