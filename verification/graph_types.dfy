/** The JSON records of the Microsoft Graph mail API that the mailer reads and
    writes, as immutable datatypes. */
module GraphTypes {
  import opened PhpValues

  const FileAttachmentType: string := "#microsoft.graph.fileAttachment"
  const ReferenceAttachmentType: string := "#microsoft.graph.referenceAttachment"

  /** The `name` key of an `emailAddress` object: absent, present with null,
      or present with a string. */
  datatype NameField = Omitted | NullName | Named(value: string)

  datatype EmailAddress = EmailAddress(address: string, name: NameField)

  /** `{emailAddress: {address, name?}}` */
  datatype Recipient = Recipient(emailAddress: EmailAddress)

  /** `{contentType, content}` */
  datatype ItemBody = ItemBody(contentType: string, content: Option<string>)

  /** One item of a `GET .../messages/{id}/attachments` listing. The
      properties the mailer does not look at (`size`, `lastModifiedDateTime`,
      a reference attachment's `sourceUrl`, ...) travel in `otherProperties`,
      each as its JSON text. */
  datatype Attachment = Attachment(
    odataType: string,
    id: string,
    name: string,
    contentType: string,
    isInline: bool,
    contentId: Option<string>,
    contentBytes: Option<Base64>,
    otherProperties: map<string, string>)

  /** The body of a `POST .../messages/{id}/attachments` upload. */
  datatype FileUpload = FileUpload(
    odataType: string,
    name: string,
    contentBytes: Base64,
    contentType: string,
    isInline: bool,
    contentId: Option<string>)

  /** The `error` object of a failed Graph call. */
  datatype GraphError = GraphError(code: string, message: string)

  /** One item of a `GET .../mailFolders/Inbox/Messages` listing, restricted to
      the properties the mailer copies. */
  datatype RawMessage = RawMessage(
    id: string,
    sentDateTime: string,
    subject: string,
    bodyPreview: string,
    importance: string,
    conversationId: string,
    isRead: bool,
    body: ItemBody,
    sender: Recipient,
    toRecipients: seq<Recipient>,
    ccRecipients: seq<Recipient>,
    replyTo: seq<Recipient>)

  /** The JSON message posted to `users/{mailbox}/messages`. A `None` recipient
      list is a key that is not written at all. */
  datatype WireMessage = WireMessage(
    toRecipients: Option<seq<Recipient>>,
    ccRecipients: Option<seq<Recipient>>,
    subject: Option<string>,
    importance: string,
    replyTo: Option<seq<Recipient>>,
    body: ItemBody)
}
