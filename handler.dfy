/**
 * internal/handler/transaction.go: the early-return checks of ForwardTransaction, the response it
 * writes, mapErrorCode's first-match classification of error text, and the hand-written
 * substring test it relies on.
 */
module Handler {
  import opened Wrappers
  import opened Strings
  import opened Model
  import WhatsApp
  import Tracking

  // ---------------------------------------------------------------------------------------
  // contains and findSubstring

  /** findSubstring: tries every start index 0 … len(s) - len(substr) in turn. */
  method FindSubstring(s: string, sub: string) returns (found: bool)
    ensures found <==> Occurs(sub, s)
  {
    var i := 0;
    while i <= |s| - |sub|
      invariant 0 <= i && (i == 0 || i <= |s| - |sub| + 1)
      invariant forall j | 0 <= j < i :: !OccursAt(sub, s, j)
      decreases |s| + 1 - i
    {
      if s[i..i + |sub|] == sub {
        assert OccursAt(sub, s, i);
        return true;
      }
      i := i + 1;
    }
    return false;
  }

  /**
   * contains: the guard expression around findSubstring, with the loop's result written
   * as what FindSubstring is proved to compute.
   */
  function Contains(s: string, sub: string): (b: bool)
    ensures b <==> Occurs(sub, s)
  {
    assert |s| >= |sub| && (s == sub || |sub| == 0) ==> OccursAt(sub, s, 0);
    |s| >= |sub| &&
    (s == sub || |sub| == 0 ||
     (|s| > 0 && |sub| > 0 && s[..|s|] != s[..0] && s[|s| - |s|..] != s[..0] && Occurs(sub, s)))
  }

  /** contains agrees with the plain meaning of "substring", the empty one included. */
  lemma ContainsIsSubstring(s: string, sub: string)
    ensures Contains(s, sub) <==> IsSubstring(sub, s)
    ensures Contains(s, "")
  {
    OccursIsSubstring(sub, s);
    assert OccursAt("", s, 0);
  }

  // ---------------------------------------------------------------------------------------
  // mapErrorCode

  const Internal := "ERR_INTERNAL_SERVER"

  /** mapErrorCode: the first case whose phrase the error text contains, else ERR_INTERNAL_SERVER. */
  function MapErrorCode(msg: string): (code: string)
    ensures code == Internal || exists j | 0 <= j < |Rules| :: Rules[j].code == code && Occurs(Rules[j].phrase, msg)
  {
    assert Rules[0] == Rule("invalid destination", "ERR_INVALID_DESTINATION");
    assert Rules[1] == Rule("not connected", "ERR_WHATSAPP_NOT_CONNECTED");
    assert Rules[2] == Rule("group not found", "ERR_GROUP_NOT_FOUND");
    assert Rules[3] == Rule("not registered on WhatsApp", "ERR_DESTINATION_NOT_ON_WHATSAPP");
    assert Rules[4] == Rule("failed to send", "ERR_MESSAGE_SEND_FAILED");
    if Contains(msg, "invalid destination") then "ERR_INVALID_DESTINATION"
    else if Contains(msg, "not connected") then "ERR_WHATSAPP_NOT_CONNECTED"
    else if Contains(msg, "group not found") then "ERR_GROUP_NOT_FOUND"
    else if Contains(msg, "not registered on WhatsApp") then "ERR_DESTINATION_NOT_ON_WHATSAPP"
    else if Contains(msg, "failed to send") then "ERR_MESSAGE_SEND_FAILED"
    else Internal
  }

  /** One case of the switch: a phrase and the code it selects. */
  datatype Rule = Rule(phrase: string, code: string)

  /** The switch's cases, in their order. */
  const Rules: seq<Rule> := [
    Rule("invalid destination", "ERR_INVALID_DESTINATION"),
    Rule("not connected", "ERR_WHATSAPP_NOT_CONNECTED"),
    Rule("group not found", "ERR_GROUP_NOT_FOUND"),
    Rule("not registered on WhatsApp", "ERR_DESTINATION_NOT_ON_WHATSAPP"),
    Rule("failed to send", "ERR_MESSAGE_SEND_FAILED")
  ]

  /** Reference definition: the index of the first of the first `n` rules whose phrase occurs in `msg`. */
  function FirstRule(msg: string, n: nat): (k: Option<nat>)
    requires n <= |Rules|
    ensures k.None? <==> forall j | 0 <= j < n :: !Occurs(Rules[j].phrase, msg)
    ensures k.Some? ==> k.value < n && Occurs(Rules[k.value].phrase, msg) &&
                        forall j | 0 <= j < k.value :: !Occurs(Rules[j].phrase, msg)
  {
    if n == 0 then None
    else
      var earlier := FirstRule(msg, n - 1);
      if earlier.Some? then earlier
      else if Occurs(Rules[n - 1].phrase, msg) then Some(n - 1)
      else None
  }

  /** mapErrorCode is first-match over its case table, with ERR_INTERNAL_SERVER when nothing matches. */
  lemma MapErrorCodeIsFirstMatch(msg: string)
    ensures MapErrorCode(msg) == match FirstRule(msg, |Rules|)
                                 case Some(k) => Rules[k].code
                                 case None => Internal
  {
    var f1, f2, f3, f4 := FirstRule(msg, 1), FirstRule(msg, 2), FirstRule(msg, 3), FirstRule(msg, 4);
    assert f1 == if Occurs(Rules[0].phrase, msg) then Some(0) else None;
    assert f2 == if f1.Some? then f1 else if Occurs(Rules[1].phrase, msg) then Some(1) else None;
    assert f3 == if f2.Some? then f2 else if Occurs(Rules[2].phrase, msg) then Some(2) else None;
    assert f4 == if f3.Some? then f3 else if Occurs(Rules[3].phrase, msg) then Some(3) else None;
  }

  /** A character of `sub` that is missing from `s` rules out an occurrence. */
  lemma MissingCharacter(sub: string, s: string, i: int)
    requires 0 <= i < |sub| && sub[i] !in s
    ensures !Occurs(sub, s)
  {
    forall k | 0 <= k <= |s| - |sub| ensures !OccursAt(sub, s, k) {
      assert s[k..k + |sub|][i] == s[k + i];
      assert s[k + i] in s;
    }
  }

  /** An occurrence in a suffix is an occurrence in the whole. */
  lemma OccursInSuffix(sub: string, p: string, t: string, i: int)
    requires OccursAt(sub, t, i)
    ensures Occurs(sub, p + t)
  {
    assert (p + t)[|p| + i..|p| + i + |sub|] == t[i..i + |sub|];
    assert OccursAt(sub, p + t, |p| + i);
  }

  /** Every validation error reaches the caller as "invalid destination: …", the first case. */
  lemma ValidationErrorCode(e: string)
    ensures MapErrorCode("invalid destination: " + e) == "ERR_INVALID_DESTINATION"
  {
    var msg := "invalid destination: " + e;
    assert msg[..|"invalid destination"|] == "invalid destination";
    PrefixOccurs("invalid destination", msg);
  }

  /** Every send error reaches the caller as "failed to send message: …", so it is never ERR_INTERNAL_SERVER. */
  lemma SendErrorIsNeverInternal(e: string)
    ensures MapErrorCode("failed to send message: " + e) != Internal
  {
    var msg := "failed to send message: " + e;
    assert msg[..|"failed to send"|] == "failed to send";
    PrefixOccurs("failed to send", msg);
  }

  lemma NoLetterV()
    ensures 'v' !in "failed to send message: " && 'v' !in WhatsApp.NotConnected
  {
  }

  /** The disconnected client's error is classified by the "not connected" case, which precedes "failed to send". */
  lemma NotConnectedCode()
    ensures MapErrorCode("failed to send message: " + WhatsApp.NotConnected) == "ERR_WHATSAPP_NOT_CONNECTED"
  {
    var p := "failed to send message: ";
    var msg := p + WhatsApp.NotConnected;
    assert "invalid destination"[2] == 'v';
    NoLetterV();
    MissingCharacter("invalid destination", msg, 2);
    assert WhatsApp.NotConnected[16..29] == "not connected";
    OccursInSuffix("not connected", p, WhatsApp.NotConnected, 16);
  }

  /**
   * The codes ProcessTransaction's errors can get: a validation failure always gives
   * ERR_INVALID_DESTINATION (so ERR_GROUP_NOT_FOUND and ERR_DESTINATION_NOT_ON_WHATSAPP never come
   * from it), a disconnected client gives ERR_WHATSAPP_NOT_CONNECTED, and no failure gives
   * ERR_INTERNAL_SERVER.
   */
  lemma ProcessingErrorCodes(req: TransactionRequest, dir: WhatsApp.Directory, transport: WhatsApp.Transport, now: int)
    ensures var r := Tracking.Outcome(req, dir, transport, now);
            WhatsApp.ValidateDestination(req.destination, dir).Failure? ==>
              MapErrorCode(r.error) == "ERR_INVALID_DESTINATION"
    ensures var r := Tracking.Outcome(req, dir, transport, now);
            WhatsApp.ValidateDestination(req.destination, dir).Success? && !transport.connected ==>
              MapErrorCode(r.error) == "ERR_WHATSAPP_NOT_CONNECTED"
    ensures var r := Tracking.Outcome(req, dir, transport, now);
            r.Failure? ==> MapErrorCode(r.error) != Internal
  {
    var v := WhatsApp.ValidateDestination(req.destination, dir);
    if v.Failure? {
      ValidationErrorCode(v.error);
    } else {
      var sent := WhatsApp.SendMessage(transport, v.value.jid);
      if sent.Failure? {
        SendErrorIsNeverInternal(sent.error);
      }
      if !transport.connected {
        NotConnectedCode();
      }
    }
  }

  // ---------------------------------------------------------------------------------------
  // ForwardTransaction

  /** The status code and JSON body the handler writes. */
  datatype HttpResponse = HttpResponse(statusCode: int, body: TransactionResponse)

  const MaxFieldLength := 4096

  /** sendErrorResponse: status "error", the message repeated inside the error object. */
  function ErrorResponse(code: string, message: string, statusCode: int): (resp: HttpResponse)
    ensures resp.statusCode == statusCode && resp.body.status == "error" && resp.body.data.None?
    ensures resp.body.error == Some(TransactionError(code, message)) && resp.body.message == message
  {
    HttpResponse(statusCode, TransactionResponse("error", message, None, Some(TransactionError(code, message))))
  }

  /** sendSuccessResponse: 200, status "success" and the transaction data. */
  function SuccessResponse(data: TransactionData): (resp: HttpResponse)
    ensures resp.statusCode == 200 && resp.body.status == "success" && resp.body.error.None?
    ensures resp.body.data == Some(data) && resp.body.message == "Transaction forwarded successfully"
  {
    HttpResponse(200, TransactionResponse("success", "Transaction forwarded successfully", Some(data), None))
  }

  predicate MissingParameter(req: TransactionRequest) {
    req.destination == "" || req.trxId == "" || req.descriptions == "" || req.instructions == ""
  }

  predicate TooLong(req: TransactionRequest) {
    |req.descriptions| > MaxFieldLength || |req.instructions| > MaxFieldLength
  }

  /**
   * The three guards in their order; `duplicate` is whether the tracker holds an active entry
   * for the TrxID. None means the request goes on to ProcessTransaction.
   */
  function Gate(req: TransactionRequest, duplicate: bool): (r: Option<HttpResponse>)
    ensures r.None? <==> !MissingParameter(req) && !TooLong(req) && !duplicate
    ensures MissingParameter(req) ==>
              r == Some(ErrorResponse("ERR_MISSING_PARAMETER", "Missing required parameters", 400))
    ensures !MissingParameter(req) && TooLong(req) ==>
              r == Some(ErrorResponse("ERR_INVALID_PARAMETER", "Description or instruction too long (max 4096 chars)", 400))
    ensures !MissingParameter(req) && !TooLong(req) && duplicate ==>
              r == Some(ErrorResponse("ERR_DUPLICATE_TRANSACTION",
                                      "Transaction with this TrxID already exists and is still being tracked", 409))
  {
    if MissingParameter(req) then
      Some(ErrorResponse("ERR_MISSING_PARAMETER", "Missing required parameters", 400))
    else if TooLong(req) then
      Some(ErrorResponse("ERR_INVALID_PARAMETER", "Description or instruction too long (max 4096 chars)", 400))
    else if duplicate then
      Some(ErrorResponse("ERR_DUPLICATE_TRANSACTION",
                         "Transaction with this TrxID already exists and is still being tracked", 409))
    else None
  }

  /** The response for ProcessTransaction's result: 500 with the mapped code and the error text, or 200. */
  function Respond(result: Result<TransactionData, string>): (resp: HttpResponse)
    ensures result.Failure? ==> resp.statusCode == 500 && resp.body.status == "error" && resp.body.data.None? &&
                                resp.body.error == Some(TransactionError(MapErrorCode(result.error), result.error))
    ensures result.Success? ==> resp.statusCode == 200 && resp.body.status == "success" && resp.body.error.None? &&
                                resp.body.data == Some(result.value)
  {
    match result
    case Failure(e) => ErrorResponse(MapErrorCode(e), e, 500)
    case Success(data) => SuccessResponse(data)
  }

  /** A field of exactly 4096 characters passes the length guard; one more is refused. */
  lemma LengthBoundary(req: TransactionRequest)
    requires !MissingParameter(req) && |req.instructions| <= MaxFieldLength
    ensures |req.descriptions| == MaxFieldLength ==> Gate(req, false).None?
    ensures |req.descriptions| == MaxFieldLength + 1 ==> Gate(req, false).Some? && Gate(req, false).value.statusCode == 400
  {
  }

  /**
   * After a forward succeeds with a positive TTL, a second well-formed request with the same TrxID
   * at the same time is refused with 409.
   */
  lemma DuplicateAfterSuccess(cache: map<string, TrackingInfo>, data: TransactionData, now: int, ttl: int,
                              req: TransactionRequest)
    requires ttl > 0 && req.trxId == data.trxId && !MissingParameter(req) && !TooLong(req)
    ensures var after := Tracking.Tracked(cache, Tracking.TrackingFor(data, now), now, ttl);
            Gate(req, Tracking.HasActive(after, Tracking.ByTrxId(req.trxId), now)) ==
              Some(ErrorResponse("ERR_DUPLICATE_TRANSACTION",
                                 "Transaction with this TrxID already exists and is still being tracked", 409))
  {
    Tracking.TrackedIsFound(cache, Tracking.TrackingFor(data, now), now, ttl);
  }

  class TransactionHandler {
    const service: Tracking.TransactionService

    constructor (service: Tracking.TransactionService)
      ensures this.service == service
    {
      this.service := service;
    }

    /**
     * ForwardTransaction: the guards in order, then ProcessTransaction and its response. A request
     * a guard refuses never reaches ProcessTransaction and leaves the tracker as it was.
     */
    method ForwardTransaction(req: TransactionRequest, dir: WhatsApp.Directory, transport: WhatsApp.Transport, now: int)
      returns (resp: HttpResponse)
      requires service.tracker.Valid()
      modifies service.tracker
      ensures service.tracker.Valid()
      ensures var gate := Gate(req, Tracking.HasActive(old(service.tracker.cache), Tracking.ByTrxId(req.trxId), now));
              gate.Some? ==> resp == gate.value && service.tracker.cache == old(service.tracker.cache)
      ensures var gate := Gate(req, Tracking.HasActive(old(service.tracker.cache), Tracking.ByTrxId(req.trxId), now));
              var result := Tracking.Outcome(req, dir, transport, now);
              gate.None? ==>
                && resp == Respond(result)
                && (result.Failure? ==> service.tracker.cache == old(service.tracker.cache))
                && (result.Success? ==>
                      service.tracker.cache == Tracking.Tracked(old(service.tracker.cache),
                                                                Tracking.TrackingFor(result.value, now), now, service.tracker.ttl))
    {
      if MissingParameter(req) {
        return ErrorResponse("ERR_MISSING_PARAMETER", "Missing required parameters", 400);
      }
      if TooLong(req) {
        return ErrorResponse("ERR_INVALID_PARAMETER", "Description or instruction too long (max 4096 chars)", 400);
      }
      var existing := service.tracker.GetByTrxID(req.trxId, now);
      if existing.Some? {
        return ErrorResponse("ERR_DUPLICATE_TRANSACTION",
                             "Transaction with this TrxID already exists and is still being tracked", 409);
      }
      var result := service.ProcessTransaction(req, dir, transport, now);
      if result.Failure? {
        return ErrorResponse(MapErrorCode(result.error), result.error, 500);
      }
      resp := SuccessResponse(result.value);
    }
  }
}
