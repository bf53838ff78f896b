/**
 * What the route handlers send to and read back from the Bot API's
 * `sendDocument` method.  The HTTP call itself is not modelled: a handler
 * takes the transport as a function from the request to the reply.
 */
module Telegram {
  import opened Basics

  /** One `sendDocument` call: the payload and the file name it is labelled with. */
  datatype SendDocument = SendDocument(filename: string, payload: seq<byte>)

  /** `result.document` of a reply. */
  datatype DocumentInfo = DocumentInfo(fileId: Option<string>)

  /** One entry of `result.photo`, smallest size first. */
  datatype PhotoSize = PhotoSize(fileId: Option<string>)

  /** The `result` message of a reply. */
  datatype SentMessage = SentMessage(
    messageId: Option<int>,
    document: Option<DocumentInfo>,
    photo: Option<seq<PhotoSize>>)

  /** `response.ok` and the `result` field of the parsed body. */
  datatype TelegramReply = TelegramReply(ok: bool, result: Option<SentMessage>)
}
