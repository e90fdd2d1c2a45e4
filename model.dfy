/**
 * The plain records of internal/model: what the tracker stores, what a transaction request
 * carries, what a successful request returns, and the webhook payload sent for a reply.
 * Timestamps are integers (nanoseconds on one clock).
 */
module Model {
  import opened Wrappers

  /** One message the tracker remembers (model.TrackingInfo). */
  datatype TrackingInfo = TrackingInfo(
    messageId: string,
    trxId: string,
    destination: string,
    destinationType: string,
    sentAt: int,
    expiresAt: int)

  /** The four query parameters of a forward request (model.TransactionRequest). */
  datatype TransactionRequest = TransactionRequest(
    destination: string,
    trxId: string,
    descriptions: string,
    instructions: string)

  /** The error part of a JSON response (model.TransactionError). */
  datatype TransactionError = TransactionError(code: string, message: string)

  /** The JSON body of a forward response (model.TransactionResponse); `status` is "success" or "error". */
  datatype TransactionResponse = TransactionResponse(
    status: string,
    message: string,
    data: Option<TransactionData>,
    error: Option<TransactionError>)

  /** What a successful forward returns (model.TransactionData). */
  datatype TransactionData = TransactionData(
    trxId: string,
    destination: string,
    destinationType: string,
    messageId: string,
    timestamp: int)

  datatype Sender = Sender(phone: string, name: string)

  datatype MessageContent = MessageContent(messageType: string, content: string, timestamp: int)

  /** `quotedMessageContent` is "" when no quoted text was found (Go's zero value). */
  datatype MessageContext = MessageContext(
    chatType: string,
    isReply: bool,
    originalMessageId: string,
    quotedMessageContent: string)

  /** The body POSTed to the Otomax webhook (model.WebhookPayload). */
  datatype WebhookPayload = WebhookPayload(
    event: string,
    sender: Sender,
    message: MessageContent,
    context: MessageContext)
}
