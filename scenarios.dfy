/**
 * Client-level scenarios, checked from the contracts of the client, the
 * cache and the throttle alone.
 */
module Scenarios {
  import opened Wrappers
  import opened Cache
  import opened Throttle
  import opened Client

  /**
   * A fresh client (cache size 10, limit 30, queue size 20) after one
   * successful send of "boom" that Telegram answered with message id 7.
   */
  method ClientAfterFirstSend(hash: string -> string, ttl: int, now: int) returns (c: TelegramClient)
    ensures fresh(c) && fresh(c.cache) && fresh(c.throttle) && c.Valid()
    ensures c.token == "token" && c.chatId == "chat" && c.cacheTTL == ttl && c.hash == hash
    ensures c.cache.maxSize == 10 && c.cache.entries == map[CacheKeyOf(hash("boom")) := CacheValue(ttl, 1, 7)]
    ensures c.throttle.limit == 30 && c.throttle.maxSize == 20
    ensures c.throttle.queue == [] && c.throttle.requestCount == 1
    ensures c.pending == map[]
  {
    c := new TelegramClient("token", "chat", 10, ttl, 30, 20, 1000, hash);
    var d1, r1, e1, q1 := c.ExecuteWithThrottle(c.SendTask("boom"), now, Ok(7));
    assert d1 == Admitted;
    assert r1 == Some(SendMessageRequest(ApiUrl("token", "/sendMessage"), "chat", "boom"));
    assert MapWithout(map[], []) == map[];
  }

  /**
   * Sending the same content twice while its cache entry is live creates
   * the message once; the second send counts a duplicate and asks for an
   * update of the first message instead of sending again.
   */
  method DuplicateSendBecomesUpdate(hash: string -> string, ttl: int, now: int)
    requires now <= ttl
  {
    var c := ClientAfterFirstSend(hash, ttl, now);
    var key := CacheKeyOf(hash("boom"));
    var d2, r2, e2, q2 := c.ExecuteWithThrottle(c.SendTask("boom"), now, Ok(8));
    assert d2 == Admitted && r2 == None;
    assert e2 == Some(ForwardedToUpdate(7, "boom"));
    assert c.cache.entries[key].count == 2;
    assert c.throttle.requestCount == 1;
  }

  /** An update of a cached message carries the cached count in its text. */
  method UpdateShowsCount(hash: string -> string, ttl: int, now: int)
    requires now <= ttl
  {
    var c := ClientAfterFirstSend(hash, ttl, now);
    var key := CacheKeyOf(hash("boom"));
    assert !c.cache.IsExpired(key, now) && c.cache.Get(key) == Some(CacheValue(ttl, 1, 7));
    assert c.throttle.Can();
    var d3, r3, e3, q3 := c.UpdateMessage(7, "boom", now, Ok(7));
    assert d3 == Admitted;
    assert r3 == Some(EditMessageTextRequest(ApiUrl("token", "/editMessageText"), "chat", 7,
                                             UpdateText("boom", Some(CacheValue(ttl, 1, 7)))));
  }

  /**
   * The cache stores the TTL itself as `expireAt`, so once the clock is past
   * the TTL value the entry counts as expired and the same content is sent
   * a second time instead of being turned into an update.
   */
  method RawTtlDefeatsDedup(hash: string -> string, ttl: int, now: int)
    requires now > ttl
  {
    var c := ClientAfterFirstSend(hash, ttl, now);
    var d2, r2, e2, q2 := c.ExecuteWithThrottle(c.SendTask("boom"), now, Ok(8));
    assert d2 == Admitted;
    assert r2 == Some(SendMessageRequest(ApiUrl("token", "/sendMessage"), "chat", "boom"));
  }

  /**
   * With `limit = 1`, a second send right after the first is deferred to
   * the queue.
   */
  method SecondSendWaitsForTick(hash: string -> string, now: int) returns (c: TelegramClient)
    ensures fresh(c) && fresh(c.throttle) && c.hash == hash
    ensures c.throttle.limit == 1 && c.throttle.maxSize == 20
    ensures c.throttle.requestCount == 1 && c.throttle.queue == [c.SendTask("second")]
  {
    c := new TelegramClient("token", "chat", 10, 60000, 1, 20, 1000, hash);
    var d1, r1, e1, q1 := c.ExecuteWithThrottle(c.SendTask("first"), now, Ok(1));
    assert d1 == Admitted && c.throttle.requestCount == 1;
    var d2, r2, e2, q2 := c.ExecuteWithThrottle(c.SendTask("second"), now, Ok(2));
    assert d2 == Enqueued && r2 == None;
  }

  /** The drain tick after that clears the counter, runs the deferred send and uses the one slot. */
  method DeferredSendRunsOnTick(hash: string -> string, now: int)
  {
    var c := SecondSendWaitsForTick(hash, now);
    var ran := c.throttle.ProcessQueue();
    assert |ran| + |c.throttle.queue| == 1;
    assert c.throttle.queue == [];
    assert ran + c.throttle.queue == ran;
    assert ran == [c.SendTask("second")] && c.throttle.requestCount == 1;
  }

  /** A send rejected with 429 goes back to the queue instead of being lost. */
  method RateLimitedSendIsRequeued(hash: string -> string, now: int)
  {
    var c := new TelegramClient("token", "chat", 10, 60000, 30, 20, 1000, hash);
    var d, r, e, requeued := c.ExecuteWithThrottle(c.SendTask("boom"), now, Err(429));
    assert d == Admitted && requeued;
    assert c.throttle.queue == [c.SendTask("boom")];
    assert c.pending == map[] && c.cache.entries == map[];
    var d', r', e', requeued' := c.ExecuteWithThrottle(c.SendTask("boom"), now, Err(400));
    assert d' == Admitted && !requeued';
    assert c.throttle.queue == [c.SendTask("boom")];
  }
}
