/**
 * internal/service/transaction.go: the in-memory MessageTracker (a map from message ID to
 * TrackingInfo with a time-to-live) and TransactionService.ProcessTransaction, which validates,
 * sends and only then tracks. `now` is each call's reading of time.Now().
 */
module Tracking {
  import opened Wrappers
  import opened Strings
  import opened Model
  import WhatsApp

  /** The lookups' `now.Before(ExpiresAt)`. */
  predicate Active(info: TrackingInfo, now: int) {
    now < info.expiresAt
  }

  /** The sweep's `now.After(ExpiresAt)`. */
  predicate Expired(info: TrackingInfo, now: int) {
    now > info.expiresAt
  }

  /** The field a scanning lookup compares. */
  datatype Selector = ByChat(chat: string) | ByTrxId(trxId: string)

  predicate Selects(sel: Selector, info: TrackingInfo) {
    match sel
    case ByChat(chat) => info.destination == chat
    case ByTrxId(trxId) => info.trxId == trxId
  }

  /** Some entry matches the selector and is still active. */
  predicate HasActive(cache: map<string, TrackingInfo>, sel: Selector, now: int) {
    exists k | k in cache :: Selects(sel, cache[k]) && Active(cache[k], now)
  }

  /** The cache after every entry with now > ExpiresAt is deleted. */
  function Sweep(cache: map<string, TrackingInfo>, now: int): (swept: map<string, TrackingInfo>)
    ensures swept.Keys <= cache.Keys
    ensures forall k | k in swept :: swept[k] == cache[k] && !Expired(swept[k], now)
  {
    map k | k in cache && !Expired(cache[k], now) :: cache[k]
  }

  /** The cache after Track(info) at `now`: the entry, with its expiry set, stored under its message ID. */
  function Tracked(cache: map<string, TrackingInfo>, info: TrackingInfo, now: int, ttl: int): (c: map<string, TrackingInfo>)
    ensures c.Keys == cache.Keys + {info.messageId}
    ensures c[info.messageId].expiresAt == now + ttl && c[info.messageId].trxId == info.trxId
    ensures c[info.messageId].destination == info.destination
  {
    cache[info.messageId := info.(expiresAt := now + ttl)]
  }

  /** Every entry is stored under its own message ID. */
  predicate KeyedByMessageId(cache: map<string, TrackingInfo>) {
    forall k | k in cache :: cache[k].messageId == k
  }

  class MessageTracker {
    var cache: map<string, TrackingInfo>
    const ttl: int

    ghost predicate Valid()
      reads this
    {
      KeyedByMessageId(cache)
    }

    /** NewMessageTracker: an empty cache (the periodic cleanup goroutine is not modelled). */
    constructor (ttl: int)
      ensures Valid() && cache == map[] && this.ttl == ttl
    {
      this.ttl := ttl;
      cache := map[];
    }

    /** Track: sets ExpiresAt to now + ttl and stores the entry under its MessageID. */
    method Track(info: TrackingInfo, now: int)
      requires Valid()
      modifies this
      ensures Valid()
      ensures cache == Tracked(old(cache), info, now, ttl)
    {
      cache := cache[info.messageId := info.(expiresAt := now + ttl)];
    }

    /** The range loop shared by GetByChat and GetByTrxID: some active matching entry, in unspecified order. */
    method Find(sel: Selector, now: int) returns (r: Option<TrackingInfo>)
      ensures r.None? <==> !HasActive(cache, sel, now)
      ensures r.Some? ==> r.value in cache.Values && Selects(sel, r.value) && Active(r.value, now)
    {
      var keys := cache.Keys;
      while keys != {}
        invariant keys <= cache.Keys
        invariant forall k | k in cache && k !in keys :: !(Selects(sel, cache[k]) && Active(cache[k], now))
        decreases keys
      {
        var k :| k in keys;
        if Selects(sel, cache[k]) && Active(cache[k], now) {
          return Some(cache[k]);
        }
        keys := keys - {k};
      }
      return None;
    }

    method GetByChat(chatJid: string, now: int) returns (r: Option<TrackingInfo>)
      ensures r.None? <==> !HasActive(cache, ByChat(chatJid), now)
      ensures r.Some? ==> r.value in cache.Values && r.value.destination == chatJid && Active(r.value, now)
    {
      r := Find(ByChat(chatJid), now);
    }

    method GetByTrxID(trxId: string, now: int) returns (r: Option<TrackingInfo>)
      ensures r.None? <==> !HasActive(cache, ByTrxId(trxId), now)
      ensures r.Some? ==> r.value in cache.Values && r.value.trxId == trxId && Active(r.value, now)
    {
      r := Find(ByTrxId(trxId), now);
    }

    /** GetByMessageID: the entry under the key, when present and still active. */
    method GetByMessageID(messageId: string, now: int) returns (r: Option<TrackingInfo>)
      ensures r.Some? <==> messageId in cache && Active(cache[messageId], now)
      ensures r.Some? ==> r.value == cache[messageId]
    {
      if messageId in cache && Active(cache[messageId], now) {
        return Some(cache[messageId]);
      }
      return None;
    }

    /** CleanupExpired: deletes, inside a range loop, each entry with now > ExpiresAt and counts them. */
    method CleanupExpired(now: int) returns (count: int)
      requires Valid()
      modifies this
      ensures Valid()
      ensures cache == Sweep(old(cache), now)
      ensures count == |old(cache)| - |cache|
    {
      ghost var original := cache;
      var keys := cache.Keys;
      count := 0;
      while keys != {}
        invariant keys <= original.Keys
        invariant cache == map k | k in original && (k in keys || !Expired(original[k], now)) :: original[k]
        invariant count == |original| - |cache|
        decreases keys
      {
        var k :| k in keys;
        if Expired(cache[k], now) {
          assert |cache.Keys - {k}| == |cache.Keys| - 1;
          cache := cache - {k};
          count := count + 1;
        }
        keys := keys - {k};
      }
    }

    /** Count: the raw size of the cache, expired-but-unswept entries included. */
    method Count() returns (n: int)
      ensures n == |cache|
    {
      n := |cache|;
    }
  }

  /** A sweep at `now` keeps exactly the entries with ExpiresAt >= now. */
  lemma SweepKeepsExactly(cache: map<string, TrackingInfo>, now: int, k: string)
    ensures k in Sweep(cache, now) <==> k in cache && cache[k].expiresAt >= now
    ensures k in Sweep(cache, now) ==> Sweep(cache, now)[k] == cache[k]
  {
  }

  /** A sweep at `now` changes no lookup made at the same `now` (every active entry survives it). */
  lemma SweepPreservesLookups(cache: map<string, TrackingInfo>, now: int, sel: Selector, k: string)
    ensures HasActive(Sweep(cache, now), sel, now) <==> HasActive(cache, sel, now)
    ensures (k in Sweep(cache, now) && Active(Sweep(cache, now)[k], now)) <==> (k in cache && Active(cache[k], now))
  {
    var swept := Sweep(cache, now);
    if HasActive(cache, sel, now) {
      var j :| j in cache && Selects(sel, cache[j]) && Active(cache[j], now);
      assert j in swept && swept[j] == cache[j];
    }
  }

  /** An entry expiring exactly at `now` is neither deleted by the sweep nor returned by a lookup. */
  lemma BoundaryEntry(cache: map<string, TrackingInfo>, now: int, k: string)
    requires k in cache && cache[k].expiresAt == now
    ensures k in Sweep(cache, now)
    ensures !Active(cache[k], now)
  {
  }

  /** Entries only leave the active set as time passes: active at `later` means active at any earlier time. */
  lemma ActiveIsMonotone(info: TrackingInfo, earlier: int, later: int)
    requires earlier <= later && Active(info, later)
    ensures Active(info, earlier) && !Expired(info, later)
  {
  }

  /** Tracking leaves every other key alone and keeps entries stored under their own message ID. */
  lemma TrackedFrame(cache: map<string, TrackingInfo>, info: TrackingInfo, now: int, ttl: int, k: string)
    ensures k != info.messageId && k in cache ==> Tracked(cache, info, now, ttl)[k] == cache[k]
    ensures KeyedByMessageId(cache) ==> KeyedByMessageId(Tracked(cache, info, now, ttl))
  {
  }

  /** A second Track under the same message ID overwrites the first. */
  lemma TrackOverwrites(cache: map<string, TrackingInfo>, a: TrackingInfo, b: TrackingInfo, t1: int, t2: int, ttl: int)
    requires a.messageId == b.messageId
    ensures Tracked(Tracked(cache, a, t1, ttl), b, t2, ttl) == Tracked(cache, b, t2, ttl)
  {
  }

  /** Nothing enforces TrxID uniqueness: entries under two message IDs may share one TrxID. */
  lemma NoTrxIdUniqueness(cache: map<string, TrackingInfo>, a: TrackingInfo, b: TrackingInfo, now: int, ttl: int)
    requires a.messageId != b.messageId && a.trxId == b.trxId
    ensures var c := Tracked(Tracked(cache, a, now, ttl), b, now, ttl);
            a.messageId in c && b.messageId in c && c[a.messageId].trxId == c[b.messageId].trxId
  {
  }

  /** With a positive TTL, a freshly tracked entry is found by TrxID and by chat at the time it was tracked. */
  lemma TrackedIsFound(cache: map<string, TrackingInfo>, info: TrackingInfo, now: int, ttl: int)
    requires ttl > 0
    ensures HasActive(Tracked(cache, info, now, ttl), ByTrxId(info.trxId), now)
    ensures HasActive(Tracked(cache, info, now, ttl), ByChat(info.destination), now)
  {
    var c := Tracked(cache, info, now, ttl);
    assert info.messageId in c && Active(c[info.messageId], now);
  }

  // ---------------------------------------------------------------------------------------
  // ProcessTransaction

  /**
   * ProcessTransaction's result as a function of the directory's and the transport's answers:
   * the validation error or the send error, each wrapped, or the data of the sent message.
   */
  function Outcome(req: TransactionRequest, dir: WhatsApp.Directory, transport: WhatsApp.Transport, now: int)
    : (r: Result<TransactionData, string>)
    ensures r.Failure? <==> WhatsApp.ValidateDestination(req.destination, dir).Failure? ||
                            WhatsApp.SendMessage(transport, WhatsApp.ValidateDestination(req.destination, dir).value.jid).Failure?
    ensures r.Success? ==>
              var d := WhatsApp.ValidateDestination(req.destination, dir).value;
              && r.value.trxId == req.trxId && r.value.timestamp == now
              && r.value.destination == d.jid && r.value.destinationType == d.destinationType
              && Success(r.value.messageId) == WhatsApp.SendMessage(transport, d.jid)
  {
    match WhatsApp.ValidateDestination(req.destination, dir)
    case Failure(e) => Failure("invalid destination: " + e)
    case Success(d) =>
      match WhatsApp.SendMessage(transport, d.jid)
      case Failure(e) => Failure("failed to send message: " + e)
      case Success(id) => Success(TransactionData(req.trxId, d.jid, d.destinationType, id, now))
  }

  /** The entry ProcessTransaction hands to Track for a successful send. */
  function TrackingFor(data: TransactionData, now: int): TrackingInfo {
    TrackingInfo(data.messageId, data.trxId, data.destination, data.destinationType, now, 0)
  }

  /** Every error names its stage, and every success carries the request's TrxID. */
  lemma OutcomeShape(req: TransactionRequest, dir: WhatsApp.Directory, transport: WhatsApp.Transport, now: int)
    ensures var r := Outcome(req, dir, transport, now);
            r.Failure? ==> HasPrefix(r.error, "invalid destination: ") || HasPrefix(r.error, "failed to send message: ")
    ensures var r := Outcome(req, dir, transport, now);
            r.Success? ==> r.value.trxId == req.trxId && r.value.timestamp == now &&
                           r.value.destinationType in {"group", "personal"}
    ensures !transport.connected && WhatsApp.ValidateDestination(req.destination, dir).Success? ==>
              Outcome(req, dir, transport, now) == Failure("failed to send message: " + WhatsApp.NotConnected)
  {
    var r := Outcome(req, dir, transport, now);
    if r.Failure? {
      var v := WhatsApp.ValidateDestination(req.destination, dir);
      if v.Failure? {
        assert r.error == "invalid destination: " + v.error;
        assert r.error[..|"invalid destination: "|] == "invalid destination: ";
      } else {
        var e := WhatsApp.SendMessage(transport, v.value.jid).error;
        assert r.error == "failed to send message: " + e;
        assert r.error[..|"failed to send message: "|] == "failed to send message: ";
      }
    }
  }

  class TransactionService {
    const tracker: MessageTracker

    /** NewTransactionService: a fresh tracker with the configured TTL. */
    constructor (ttl: int)
      ensures fresh(tracker) && tracker.Valid() && tracker.cache == map[] && tracker.ttl == ttl
    {
      tracker := new MessageTracker(ttl);
    }

    /**
     * ProcessTransaction: validate, send, then track. A failure leaves the tracker as it was;
     * a success adds exactly the entry for the returned message ID.
     */
    method ProcessTransaction(req: TransactionRequest, dir: WhatsApp.Directory, transport: WhatsApp.Transport, now: int)
      returns (r: Result<TransactionData, string>)
      requires tracker.Valid()
      modifies tracker
      ensures tracker.Valid()
      ensures r == Outcome(req, dir, transport, now)
      ensures r.Failure? ==> tracker.cache == old(tracker.cache)
      ensures r.Success? ==> tracker.cache == Tracked(old(tracker.cache), TrackingFor(r.value, now), now, tracker.ttl)
    {
      var v := WhatsApp.ValidateDestination(req.destination, dir);
      if v.Failure? {
        return Failure("invalid destination: " + v.error);
      }
      var jid := v.value.jid;
      var destType := v.value.destinationType;
      var sent := WhatsApp.SendMessage(transport, jid);
      if sent.Failure? {
        return Failure("failed to send message: " + sent.error);
      }
      var messageId := sent.value;
      var data := TransactionData(req.trxId, jid, destType, messageId, now);
      tracker.Track(TrackingFor(data, now), now);
      r := Success(data);
    }
  }
}
