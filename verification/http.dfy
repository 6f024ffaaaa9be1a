/** The abstract transport: the requests the mailer issues, the URLs they go
    to, and the decoded responses it reads back. */
module Http {
  import opened PhpValues
  import opened GraphTypes

  const BaseUrl: string := "https://graph.microsoft.com/v1.0/"

  datatype Verb = Get | Post | Delete

  /** The Graph resources the mailer addresses. */
  datatype Endpoint =
    | InboxMessages(mailbox: string)
    | MessageAttachments(mailbox: string, id: string)
    | Messages(mailbox: string)
    | MessageItem(mailbox: string, id: string)
    | MoveMessage(mailbox: string, id: string)
    | SendMessage(mailbox: string, id: string)

  /** The URL string each endpoint is requested at. */
  function Url(e: Endpoint): string {
    match e
    case InboxMessages(mb) => BaseUrl + "users/" + mb + "/mailFolders/Inbox/Messages"
    case MessageAttachments(mb, id) => BaseUrl + "users/" + mb + "/messages/" + id + "/attachments"
    case Messages(mb) => BaseUrl + "users/" + mb + "/messages"
    case MessageItem(mb, id) => BaseUrl + "users/" + mb + "/messages/" + id
    case MoveMessage(mb, id) => BaseUrl + "users/" + mb + "/messages/" + id + "/move"
    case SendMessage(mb, id) => BaseUrl + "users/" + mb + "/messages/" + id + "/send"
  }

  /** The JSON body of a request; `NoPayload` is a request without post fields. */
  datatype Payload =
    | NoPayload
    | MessageJson(message: WireMessage)
    | AttachmentJson(upload: FileUpload)
    | MoveJson(destinationId: string)

  datatype Request = Request(verb: Verb, endpoint: Endpoint, payload: Payload)

  /** A response body after `json_decode`, in the shapes the mailer reads.
      `Unreadable` is a body that decodes to nothing the mailer can use. */
  datatype Data =
    | Unreadable
    | Created(id: string)
    | MessageList(error: Option<GraphError>, messages: seq<RawMessage>)
    | AttachmentList(attachments: seq<Attachment>)

  datatype Response = Response(code: int, data: Data)

  /** The remote service: the answer to a request may depend on every request
      issued before it in the same operation. */
  type Transport = (seq<Request>, Request) -> Response

  /** `$response->id`: a body without an id yields null, which PHP
      concatenates into a URL as the empty string. */
  function CreatedId(d: Data): string {
    if d.Created? then d.id else ""
  }
}
