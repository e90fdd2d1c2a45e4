/**
 * The decision logic of internal/service/whatsapp.go: phone-number normalisation, destination
 * validation, the connected check around sending, the whitelist, and the handling of an
 * inbound message (its gates and the webhook payload it builds). The chat network itself is
 * reached only through the oracle values Directory and Transport.
 */
module WhatsApp {
  import opened Wrappers
  import opened Strings
  import opened Model
  import Repository

  // ---------------------------------------------------------------------------------------
  // normalizePhoneNumber

  /** The regexp replacement of `[^\d]` by "": keeps the ASCII digits, in order. */
  function StripNonDigits(s: string): (r: string)
    ensures AllDigits(r) && |r| <= |s|
  {
    if s == [] then []
    else (if IsDigit(s[0]) then [s[0]] else []) + StripNonDigits(s[1..])
  }

  /** A digit string survives the replacement unchanged, and a string without digits vanishes. */
  lemma {:induction false} StripNonDigitsSpec(s: string)
    ensures AllDigits(s) ==> StripNonDigits(s) == s
    ensures (forall i | 0 <= i < |s| :: !IsDigit(s[i])) ==> StripNonDigits(s) == []
  {
    if s != [] {
      StripNonDigitsSpec(s[1..]);
    }
  }

  /** strings.TrimLeft(s, "0"): drops every leading '0'. */
  function TrimLeadingZeros(s: string): (r: string)
    ensures r == [] || r[0] != '0'
    ensures |r| <= |s| && r == s[|s| - |r|..]
    ensures forall i | 0 <= i < |s| - |r| :: s[i] == '0'
    ensures AllDigits(s) ==> AllDigits(r)
  {
    if s != [] && s[0] == '0' then TrimLeadingZeros(s[1..]) else s
  }

  /** normalizePhoneNumber: "" for an unusable number, else a 62-prefixed string of 11 to 15 digits. */
  function NormalizePhoneNumber(phone: string): (r: string)
    ensures r == "" || (AllDigits(r) && HasPrefix(r, "62") && 11 <= |r| <= 15)
  {
    StripNonDigitsSpec(phone);
    var digits := TrimLeadingZeros(StripNonDigits(phone));
    var prefixed := if HasPrefix(digits, "62") then digits else "62" + digits;
    if |prefixed| < 11 || |prefixed| > 15 then "" else prefixed
  }

  /** Normalising a normalised number changes nothing. */
  lemma NormalizeIdempotent(phone: string)
    requires NormalizePhoneNumber(phone) != ""
    ensures NormalizePhoneNumber(NormalizePhoneNumber(phone)) == NormalizePhoneNumber(phone)
  {
    NormalizedIsFixedPoint(NormalizePhoneNumber(phone));
  }

  /** The replacement works character by character, so it distributes over concatenation. */
  lemma {:induction false} StripNonDigitsConcat(s: string, t: string)
    ensures StripNonDigits(s + t) == StripNonDigits(s) + StripNonDigits(t)
  {
    if s == [] {
      assert s + t == t;
    } else {
      assert (s + t)[1..] == s[1..] + t;
      StripNonDigitsConcat(s[1..], t);
    }
  }

  /** A national number written with the trunk prefix '0' gets the country code 62 in its place. */
  lemma TrunkZeroReplaced(d: string)
    requires AllDigits(d) && d != [] && d[0] != '0' && !HasPrefix(d, "62")
    ensures 9 <= |d| <= 13 ==> NormalizePhoneNumber("0" + d) == "62" + d
    ensures !(9 <= |d| <= 13) ==> NormalizePhoneNumber("0" + d) == ""
  {
    var p := "0" + d;
    assert AllDigits(p);
    StripNonDigitsSpec(p);
    assert p[1..] == d;
    assert TrimLeadingZeros(p) == d;
  }

  /** Separators are irrelevant: a number normalises like its digits alone. */
  lemma NormalizeIgnoresSeparators(s: string)
    ensures NormalizePhoneNumber(s) == NormalizePhoneNumber(StripNonDigits(s))
  {
    var d := StripNonDigits(s);
    StripNonDigitsSpec(d);
    assert StripNonDigits(d) == d;
  }

  /** Groups of digits joined by dashes normalise like the digits written together. */
  lemma DashedGroups(a: string, b: string, c: string)
    requires AllDigits(a) && AllDigits(b) && AllDigits(c)
    ensures NormalizePhoneNumber(a + "-" + b + "-" + c) == NormalizePhoneNumber(a + b + c)
  {
    var ab := a + "-" + b;
    DashDropped(a, b);
    DashDropped(ab, c);
    StripNonDigitsSpec(a);
    StripNonDigitsSpec(b);
    StripNonDigitsSpec(c);
    assert StripNonDigits(ab + "-" + c) == a + b + c;
    NormalizeIgnoresSeparators(ab + "-" + c);
  }

  /** A dash between two pieces leaves nothing behind. */
  lemma DashDropped(x: string, y: string)
    ensures StripNonDigits(x + "-" + y) == StripNonDigits(x) + StripNonDigits(y)
  {
    StripNonDigitsConcat(x + "-", y);
    StripNonDigitsConcat(x, "-");
    assert StripNonDigits("-") == [];
  }

  /** A number already in the normalised form comes back unchanged. */
  lemma NormalizedIsFixedPoint(p: string)
    requires AllDigits(p) && HasPrefix(p, "62") && 11 <= |p| <= 15
    ensures NormalizePhoneNumber(p) == p
  {
    StripNonDigitsSpec(p);
    assert p[0] == '6';
    assert TrimLeadingZeros(p) == p;
  }

  // ---------------------------------------------------------------------------------------
  // ValidateDestination and SendMessage

  /** What the chat network answers; each field stands for one call into whatsmeow. */
  datatype Directory = Directory(
    parseJid: string -> Result<string, string>,         // types.ParseJID, as the JID's string form or its error
    groupInfoError: string -> Option<string>,          // GetGroupInfo(jid): its error, if any
    isOnWhatsApp: string -> Result<seq<bool>, string>)  // IsOnWhatsApp([phone]): each response's IsIn, or an error

  /** A validated destination: the JID's string form and "group" or "personal". */
  datatype Destination = Destination(jid: string, destinationType: string)

  const GroupServer := "@g.us"
  const UserServer := "@s.whatsapp.net"

  function ValidateDestination(destination: string, dir: Directory): (r: Result<Destination, string>)
    ensures r.Success? ==> (r.value.destinationType == "group" <==> Occurs(GroupServer, destination))
    ensures r.Success? ==> r.value.destinationType in {"group", "personal"}
    ensures !Occurs(GroupServer, destination) && NormalizePhoneNumber(destination) == "" ==>
              r == Failure("invalid phone number format")
    ensures r.Success? && !Occurs(GroupServer, destination) ==>
              r.value.jid == NormalizePhoneNumber(destination) + UserServer && NormalizePhoneNumber(destination) != ""
  {
    if Occurs(GroupServer, destination) then
      match dir.parseJid(destination)
      case Failure(e) => Failure("invalid group JID: " + e)
      case Success(jid) =>
        match dir.groupInfoError(jid)
        case Some(e) => Failure("group not found or bot not a member: " + e)
        case None => Success(Destination(jid, "group"))
    else
      var phone := NormalizePhoneNumber(destination);
      if phone == "" then Failure("invalid phone number format")
      else
        match dir.isOnWhatsApp(phone)
        case Failure(e) => Failure("failed to check WhatsApp status: " + e)
        case Success(resp) =>
          if |resp| == 0 || !resp[0] then Failure("phone number not registered on WhatsApp")
          else Success(Destination(phone + UserServer, "personal"))
  }

  /** The client's connection state and what its SendMessage returns for a JID (a message id or an error). */
  datatype Transport = Transport(connected: bool, send: string -> Result<string, string>)

  const NotConnected := "WhatsApp client not connected"

  function SendMessage(transport: Transport, jid: string): (r: Result<string, string>)
    ensures !transport.connected ==> r == Failure(NotConnected)
    ensures transport.connected && transport.send(jid).Success? ==> r == transport.send(jid)
    ensures transport.connected && transport.send(jid).Failure? ==>
              r == Failure("failed to send message: " + transport.send(jid).error)
  {
    if !transport.connected then Failure(NotConnected)
    else
      match transport.send(jid)
      case Failure(e) => Failure("failed to send message: " + e)
      case Success(id) => Success(id)
  }

  // ---------------------------------------------------------------------------------------
  // The inbound message event (the parts of events.Message the handler reads)

  datatype ContextInfo = ContextInfo(stanzaId: Option<string>, quoted: Option<Message>)
  datatype ExtendedText = ExtendedText(text: Option<string>, contextInfo: Option<ContextInfo>)
  datatype Message = Message(conversation: Option<string>, extended: Option<ExtendedText>)

  datatype MessageInfo = MessageInfo(
    isFromMe: bool,
    chat: string,        // Info.Chat.String()
    senderUser: string,  // Info.Sender.User
    pushName: string,
    timestamp: int)

  datatype MessageEvent = MessageEvent(info: MessageInfo, message: Message)

  /**
   * handleIncomingMessage dereferences ExtendedTextMessage.Text without a nil check when there is no
   * Conversation; this model only admits events where that pointer is set.
   */
  predicate TextPresent(m: Message) {
    m.conversation.None? && m.extended.Some? ==> m.extended.value.text.Some?
  }

  /** The message text: Conversation, else the extended text, else "". */
  function MessageText(m: Message): (content: string)
    requires TextPresent(m)
    ensures m.conversation.Some? ==> content == m.conversation.value
    ensures m.conversation.None? && m.extended.Some? ==> content == m.extended.value.text.value
    ensures m.conversation.None? && m.extended.None? ==> content == ""
  {
    if m.conversation.Some? then m.conversation.value
    else if m.extended.Some? then m.extended.value.text.value
    else ""
  }

  /** An explicit reply: an extended text message that carries a ContextInfo. */
  predicate IsReply(m: Message) {
    m.extended.Some? && m.extended.value.contextInfo.Some?
  }

  /** The quoted message's text: its Conversation, else its extended text, else "". */
  function QuotedText(q: Message): (text: string)
    ensures TextPresent(q) ==> text == MessageText(q)
    ensures !TextPresent(q) ==> text == ""
  {
    if q.conversation.Some? then q.conversation.value
    else if q.extended.Some? && q.extended.value.text.Some? then q.extended.value.text.value
    else ""
  }

  /** The webhook payload built for an event correlated with a tracked record. */
  function BuildPayload(evt: MessageEvent, record: Repository.TransactionRecord): (p: WebhookPayload)
    requires TextPresent(evt.message)
    ensures p.event == "message_received" && p.message.messageType == "text"
    ensures p.sender == Sender(evt.info.senderUser, evt.info.pushName)
    ensures p.message.content == MessageText(evt.message) && p.message.timestamp == evt.info.timestamp
    ensures p.context.chatType == record.destinationType
    ensures p.context.isReply <==> IsReply(evt.message)
    ensures !IsReply(evt.message) ==> p.context.originalMessageId == record.messageId && p.context.quotedMessageContent == ""
    ensures IsReply(evt.message) ==>
              var info := evt.message.extended.value.contextInfo.value;
              && p.context.originalMessageId == (if info.stanzaId.Some? then info.stanzaId.value else record.messageId)
              && p.context.quotedMessageContent == (if info.quoted.Some? then QuotedText(info.quoted.value) else "")
  {
    var base := MessageContext(record.destinationType, false, record.messageId, "");
    var context :=
      if IsReply(evt.message) then
        var info := evt.message.extended.value.contextInfo.value;
        base.(isReply := true,
              originalMessageId := if info.stanzaId.Some? then info.stanzaId.value else base.originalMessageId,
              quotedMessageContent := if info.quoted.Some? then QuotedText(info.quoted.value) else "")
      else base;
    WebhookPayload(
      "message_received",
      Sender(evt.info.senderUser, evt.info.pushName),
      MessageContent("text", MessageText(evt.message), evt.info.timestamp),
      context)
  }

  /** Why an inbound message produced no webhook. */
  datatype Skip = FromSelf | NoRepository | NotWhitelisted | LookupFailed | Untracked | NoDispatcher

  datatype Disposition = Discarded(reason: Skip) | Forwarded(payload: WebhookPayload, trxId: string)

  /** Whitelist policy: an empty list admits every chat, otherwise exact membership. */
  predicate Admitted(whitelist: seq<string>, chat: string) {
    |whitelist| == 0 || chat in whitelist
  }

  /**
   * handleIncomingMessage as a function of its inputs: `rows` is the repository's table (None
   * when no repository was set), `lookupFails` a driver error on the destination query, and
   * `dispatcher` whether an Otomax service was set.
   */
  function Correlate(evt: MessageEvent, rows: Option<seq<Repository.TransactionRecord>>, lookupFails: bool,
                     whitelist: seq<string>, dispatcher: bool, now: int): (d: Disposition)
    requires TextPresent(evt.message)
    ensures d.Forwarded? ==> !evt.info.isFromMe && rows.Some? && Admitted(whitelist, evt.info.chat) && !lookupFails && dispatcher
    ensures d.Forwarded? ==>
              exists r | r in rows.value :: && r.trxId == d.trxId && r.destination == evt.info.chat && r.expiresAt > now
                                            && d.payload == BuildPayload(evt, r)
  {
    if evt.info.isFromMe then Discarded(FromSelf)
    else if rows.None? then Discarded(NoRepository)
    else if |whitelist| > 0 && evt.info.chat !in whitelist then Discarded(NotWhitelisted)
    else if lookupFails then Discarded(LookupFailed)
    else
      match Repository.GetByDestination(rows.value, evt.info.chat, now)
      case None => Discarded(Untracked)
      case Some(record) =>
        if !dispatcher then Discarded(NoDispatcher)
        else Forwarded(BuildPayload(evt, record), record.trxId)
  }

  /** A webhook is sent exactly when every gate passes, and it carries the chat's latest active record. */
  lemma CorrelateForwardsIff(evt: MessageEvent, rows: Option<seq<Repository.TransactionRecord>>, lookupFails: bool,
                             whitelist: seq<string>, dispatcher: bool, now: int)
    requires TextPresent(evt.message)
    ensures var d := Correlate(evt, rows, lookupFails, whitelist, dispatcher, now);
            d.Forwarded? <==>
              && !evt.info.isFromMe
              && rows.Some?
              && Admitted(whitelist, evt.info.chat)
              && !lookupFails
              && Repository.GetByDestination(rows.value, evt.info.chat, now).Some?
              && dispatcher
    ensures var d := Correlate(evt, rows, lookupFails, whitelist, dispatcher, now);
            d.Forwarded? ==>
              var record := Repository.GetByDestination(rows.value, evt.info.chat, now).value;
              && d.trxId == record.trxId
              && d.payload == BuildPayload(evt, record)
              && record.destination == evt.info.chat && record.expiresAt > now
              && forall r | r in rows.value && r.destination == evt.info.chat && r.expiresAt > now :: r.sentAt <= record.sentAt
  {
    var d := Correlate(evt, rows, lookupFails, whitelist, dispatcher, now);
    if d.Forwarded? {
      var record := Repository.GetByDestination(rows.value, evt.info.chat, now).value;
      forall r | r in rows.value && r.destination == evt.info.chat && r.expiresAt > now
        ensures r.sentAt <= record.sentAt
      {
        var i :| 0 <= i < |rows.value| && rows.value[i] == r;
        assert Repository.MatchesDestination(rows.value[i], evt.info.chat, now);
      }
    }
  }

  /** The gates in order: the first one that fails names the reason. */
  lemma CorrelateDiscardReasons(evt: MessageEvent, rows: Option<seq<Repository.TransactionRecord>>, lookupFails: bool,
                                whitelist: seq<string>, dispatcher: bool, now: int)
    requires TextPresent(evt.message)
    ensures var d := Correlate(evt, rows, lookupFails, whitelist, dispatcher, now);
            && (evt.info.isFromMe ==> d == Discarded(FromSelf))
            && (!evt.info.isFromMe && rows.None? ==> d == Discarded(NoRepository))
            && (!evt.info.isFromMe && rows.Some? && !Admitted(whitelist, evt.info.chat) ==> d == Discarded(NotWhitelisted))
            && (!evt.info.isFromMe && rows.Some? && Admitted(whitelist, evt.info.chat) && !lookupFails &&
                (forall r | r in rows.value :: !(r.destination == evt.info.chat && r.expiresAt > now))
                ==> d == Discarded(Untracked))
  {
  }

  // ---------------------------------------------------------------------------------------
  // The service object and its setters

  class WhatsAppService {
    var repo: Repository.TransactionRepository?
    var whitelist: seq<string>
    var dispatcher: bool

    /** NewWhatsAppService: no repository, no whitelist, no Otomax service. */
    constructor ()
      ensures repo == null && whitelist == [] && !dispatcher
    {
      repo := null;
      whitelist := [];
      dispatcher := false;
    }

    method SetOtomaxService(present: bool)
      modifies this
      ensures dispatcher == present && repo == old(repo) && whitelist == old(whitelist)
    {
      dispatcher := present;
    }

    method SetTransactionRepository(r: Repository.TransactionRepository?)
      modifies this
      ensures repo == r && whitelist == old(whitelist) && dispatcher == old(dispatcher)
    {
      repo := r;
    }

    method SetWebhookWhitelist(w: seq<string>)
      modifies this
      ensures whitelist == w && repo == old(repo) && dispatcher == old(dispatcher)
    {
      whitelist := w;
    }

    /** isWhitelisted: a linear search for an exact match. */
    method IsWhitelisted(jid: string) returns (found: bool)
      ensures found <==> jid in whitelist
    {
      var i := 0;
      while i < |whitelist|
        invariant 0 <= i <= |whitelist|
        invariant jid !in whitelist[..i]
      {
        if whitelist[i] == jid {
          return true;
        }
        i := i + 1;
      }
      assert whitelist[..i] == whitelist;
      return false;
    }

    /** handleIncomingMessage: the guard returns in the order of the Go code, then the payload. */
    method HandleIncomingMessage(evt: MessageEvent, lookupFails: bool, now: int) returns (d: Disposition)
      requires TextPresent(evt.message)
      ensures d == Correlate(evt, if repo == null then None else Some(repo.rows), lookupFails, whitelist, dispatcher, now)
    {
      if evt.info.isFromMe {
        return Discarded(FromSelf);
      }
      if repo == null {
        return Discarded(NoRepository);
      }
      var chat := evt.info.chat;
      if |whitelist| > 0 {
        var ok := IsWhitelisted(chat);
        if !ok {
          return Discarded(NotWhitelisted);
        }
      }
      if lookupFails {
        return Discarded(LookupFailed);
      }
      var record := Repository.GetByDestination(repo.rows, chat, now);
      if record.None? {
        return Discarded(Untracked);
      }
      var payload := BuildPayload(evt, record.value);
      if !dispatcher {
        return Discarded(NoDispatcher);
      }
      d := Forwarded(payload, record.value.trxId);
    }
  }
}
