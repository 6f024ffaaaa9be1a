/** The mailer's operations over the abstract transport: each returns the
    ordered requests it issued together with its result or exception. */
module Mailer {
  import opened PhpValues
  import opened GraphTypes
  import opened Http
  import opened Compose
  import opened Normalize

  const NoTokenMessage: string := "No token defined"
  const Accepted: int := 202
  const DeletedItems: string := "deleteditems"

  /** The client: only whether it holds a (truthy) bearer token matters. */
  datatype Session = Session(token: Option<string>)

  /** `graphMailerException` and its message. */
  datatype MailerException = MailerException(message: string)

  datatype Result<+T> = Success(value: T) | Failure(error: MailerException)

  /** The requests an operation issued, in order, and what it returned or threw. */
  datatype Run<+T> = Run(trace: seq<Request>, result: Result<T>)

  // ----- getMessages ------------------------------------------------------------

  function ListRequest(mailbox: string): Request {
    Request(Get, InboxMessages(mailbox), NoPayload)
  }

  function AttachmentsRequest(mailbox: string, id: string): Request {
    Request(Get, MessageAttachments(mailbox, id), NoPayload)
  }

  /** `$messageList->error`: only a decoded listing can carry one. */
  function ListingError(d: Data): Option<GraphError> {
    if d.MessageList? then d.error else None
  }

  /** `$messageList->value`: a body that is not a listing lists nothing. */
  function ListedMessages(d: Data): seq<RawMessage> {
    if d.MessageList? then d.messages else []
  }

  /** One attachment listing per message, in list order. */
  function AttachmentRequests(mailbox: string, items: seq<RawMessage>): (reqs: seq<Request>)
    ensures |reqs| == |items|
    ensures forall i :: 0 <= i < |items| ==> reqs[i] == AttachmentsRequest(mailbox, items[i].id)
  {
    if items == [] then [] else [AttachmentsRequest(mailbox, items[0].id)] + AttachmentRequests(mailbox, items[1..])
  }

  function GetMessages(s: Session, mailbox: string, t: Transport): (run: Run<seq<Message>>)
    ensures !Truthy(s.token) ==> run == Run([], Failure(MailerException(NoTokenMessage)))
    ensures Truthy(s.token) ==> |run.trace| >= 1 && run.trace[0] == ListRequest(mailbox)
    ensures Truthy(s.token) && ListingError(t([], ListRequest(mailbox)).data).Some? ==>
      var e := ListingError(t([], ListRequest(mailbox)).data).value;
      run == Run([ListRequest(mailbox)], Failure(MailerException(e.code + " " + e.message)))
    ensures Truthy(s.token) && ListingError(t([], ListRequest(mailbox)).data).None? ==>
      var items := ListedMessages(t([], ListRequest(mailbox)).data);
      && run.result.Success?
      && |run.result.value| == |items|
      && |run.trace| == 1 + |items|
      && forall i :: 0 <= i < |items| ==>
           && run.trace[1 + i] == AttachmentsRequest(mailbox, items[i].id)
           && WellFormed(run.result.value[i])
           && Source(run.result.value[i]) == items[i]
           && run.result.value[i].attachments
                == NormalizeAttachments(AttachmentsOf(t(run.trace[..1 + i], run.trace[1 + i]).data))
  {
    if !Truthy(s.token) then
      Run([], Failure(MailerException(NoTokenMessage)))
    else
      var list := ListRequest(mailbox);
      var listing := t([], list).data;
      match ListingError(listing)
      case Some(e) => Run([list], Failure(MailerException(e.code + " " + e.message)))
      case None =>
        var items := ListedMessages(listing);
        var trace := [list] + AttachmentRequests(mailbox, items);
        var msgs := seq(|items|, i requires 0 <= i < |items| =>
          NormalizeMessage(items[i], AttachmentsOf(t(trace[..1 + i], trace[1 + i]).data)));
        Run(trace, Success(msgs))
  }

  // ----- deleteEmail ------------------------------------------------------------

  /** `deleteEmail` issues exactly one request and ignores its response; it
      neither checks the token nor returns anything. Without the flag it moves
      the message to deleted items. */
  function DeleteEmail(mailbox: string, id: string, moveToDeletedItems: bool := true): (run: Run<()>)
    ensures |run.trace| == 1 && run.result == Success(())
    ensures run.trace[0].verb == Delete <==> !moveToDeletedItems
    ensures run.trace[0].verb == Post <==> moveToDeletedItems
    ensures var e := run.trace[0].endpoint;
      (e.MessageItem? || e.MoveMessage?) && e.mailbox == mailbox && e.id == id
    ensures !moveToDeletedItems ==>
      run.trace[0].endpoint == MessageItem(mailbox, id) && run.trace[0].payload == NoPayload
    ensures moveToDeletedItems ==> Url(run.trace[0].endpoint) == Url(MessageItem(mailbox, id)) + "/move"
    ensures moveToDeletedItems ==> run.trace[0].payload == MoveJson(DeletedItems)
  {
    var r := if !moveToDeletedItems then
      Request(Delete, MessageItem(mailbox, id), NoPayload)
    else
      Request(Post, MoveMessage(mailbox, id), MoveJson(DeletedItems));
    Run([r], Success(()))
  }

  /** A call without the flag moves the message rather than deleting it. */
  lemma DeleteEmailDefaultMoves(mailbox: string, id: string)
    ensures DeleteEmail(mailbox, id) == DeleteEmail(mailbox, id, true)
    ensures DeleteEmail(mailbox, id).trace == [Request(Post, MoveMessage(mailbox, id), MoveJson(DeletedItems))]
  {
  }

  // ----- sendMail ---------------------------------------------------------------

  function CreateRequest(mailbox: string, d: Draft): Request {
    Request(Post, Messages(mailbox), MessageJson(ComposeMessage(d)))
  }

  function SendRequest(mailbox: string, id: string): Request {
    Request(Post, SendMessage(mailbox, id), NoPayload)
  }

  function ImageUpload(mailbox: string, id: string, img: Image): Request {
    Request(Post, MessageAttachments(mailbox, id), AttachmentJson(
      FileUpload(FileAttachmentType, img.name, Base64Of(img.content), img.contentType, true, Some(img.contentId))))
  }

  function FileSpecUpload(mailbox: string, id: string, f: FileSpec): Request {
    Request(Post, MessageAttachments(mailbox, id), AttachmentJson(
      FileUpload(FileAttachmentType, f.name, Base64Of(f.content), f.contentType, false, None)))
  }

  function ImageUploads(mailbox: string, id: string, imgs: seq<Image>): (reqs: seq<Request>)
    ensures |reqs| == |imgs|
    ensures forall i :: 0 <= i < |imgs| ==> reqs[i] == ImageUpload(mailbox, id, imgs[i])
  {
    if imgs == [] then [] else [ImageUpload(mailbox, id, imgs[0])] + ImageUploads(mailbox, id, imgs[1..])
  }

  function FileSpecUploads(mailbox: string, id: string, files: seq<FileSpec>): (reqs: seq<Request>)
    ensures |reqs| == |files|
    ensures forall i :: 0 <= i < |files| ==> reqs[i] == FileSpecUpload(mailbox, id, files[i])
  {
    if files == [] then [] else [FileSpecUpload(mailbox, id, files[0])] + FileSpecUploads(mailbox, id, files[1..])
  }

  /** Create, then every image, then every plain attachment, then send. */
  function SendTrace(mailbox: string, d: Draft, id: string): seq<Request> {
    [CreateRequest(mailbox, d)] + ImageUploads(mailbox, id, d.images)
      + FileSpecUploads(mailbox, id, d.attachments) + [SendRequest(mailbox, id)]
  }

  function SendMail(s: Session, mailbox: string, d: Draft, t: Transport): (run: Run<bool>)
    ensures !Truthy(s.token) ==> run == Run([], Failure(MailerException(NoTokenMessage)))
    ensures Truthy(s.token) ==>
      var id := CreatedId(t([], CreateRequest(mailbox, d)).data);
      var n := |run.trace|;
      && n == 2 + |d.images| + |d.attachments|
      && run.trace[0] == CreateRequest(mailbox, d)
      && (forall i :: 0 <= i < |d.images| ==> run.trace[1 + i] == ImageUpload(mailbox, id, d.images[i]))
      && (forall j :: 0 <= j < |d.attachments| ==>
            run.trace[1 + |d.images| + j] == FileSpecUpload(mailbox, id, d.attachments[j]))
      && run.trace[n - 1] == SendRequest(mailbox, id)
      && run.result == Success(t(run.trace[..n - 1], run.trace[n - 1]).code == Accepted)
    ensures Truthy(s.token) ==> run.trace == SendTrace(mailbox, d, CreatedId(t([], CreateRequest(mailbox, d)).data))
  {
    if !Truthy(s.token) then
      Run([], Failure(MailerException(NoTokenMessage)))
    else
      var create := CreateRequest(mailbox, d);
      var id := CreatedId(t([], create).data);
      var trace := SendTrace(mailbox, d, id);
      var n := |trace|;
      Run(trace, Success(t(trace[..n - 1], trace[n - 1]).code == Accepted))
  }

  // ----- Outbound meets inbound -------------------------------------------------

  /** The addresses of a draft's recipients, in order. */
  function DraftAddresses(rs: seq<DraftRecipient>): seq<string> {
    seq(|rs|, i requires 0 <= i < |rs| => rs[i].address)
  }

  /** Reading a composed recipient list back with `basicAddress` yields exactly
      the draft's addresses, in the draft's order. */
  lemma {:induction false} ComposedRecipientsReadBack(d: Draft)
    ensures ComposeMessage(d).toRecipients.Some? ==>
      BasicAddress(ComposeMessage(d).toRecipients.value) == DraftAddresses(d.toRecipients)
    ensures ComposeMessage(d).ccRecipients.Some? ==>
      BasicAddress(ComposeMessage(d).ccRecipients.value) == DraftAddresses(d.ccRecipients)
  {
    ShapedAddresses(d.toRecipients);
    ShapedAddresses(d.ccRecipients);
  }

  lemma {:induction false} ShapedAddresses(rs: seq<DraftRecipient>)
    ensures BasicAddress(ShapeRecipients(rs)) == DraftAddresses(rs)
  {
    var a := BasicAddress(ShapeRecipients(rs));
    var b := DraftAddresses(rs);
    forall i | 0 <= i < |rs|
      ensures a[i] == b[i]
    {
      assert ShapeRecipients(rs)[i] == ShapeRecipient(rs[i]);
    }
  }
}
