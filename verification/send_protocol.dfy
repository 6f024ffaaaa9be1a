/** The order the mail service requires of a send, as a state machine that is
    independent of how `sendMail` builds its requests: create the message,
    upload inline images, upload plain attachments, send. */
module SendProtocol {
  import opened PhpValues
  import opened GraphTypes
  import opened Http
  import opened Compose
  import opened Mailer

  datatype Phase = Drafting | MessageCreated | ImagesAttached | FilesAttached | Sent | Rejected

  predicate IsCreate(mailbox: string, r: Request) {
    r.verb == Post && r.endpoint == Messages(mailbox) && r.payload.MessageJson?
  }

  predicate IsInlineUpload(mailbox: string, id: string, r: Request) {
    && r.verb == Post
    && r.endpoint == MessageAttachments(mailbox, id)
    && r.payload.AttachmentJson?
    && r.payload.upload.odataType == FileAttachmentType
    && r.payload.upload.isInline
    && r.payload.upload.contentId.Some?
  }

  predicate IsPlainUpload(mailbox: string, id: string, r: Request) {
    && r.verb == Post
    && r.endpoint == MessageAttachments(mailbox, id)
    && r.payload.AttachmentJson?
    && r.payload.upload.odataType == FileAttachmentType
    && !r.payload.upload.isInline
    && r.payload.upload.contentId.None?
  }

  predicate IsSend(mailbox: string, id: string, r: Request) {
    r.verb == Post && r.endpoint == SendMessage(mailbox, id) && r.payload == NoPayload
  }

  /** One transition; a request the phase does not allow rejects the send. */
  function Step(mailbox: string, id: string, p: Phase, r: Request): Phase {
    match p
    case Drafting =>
      if IsCreate(mailbox, r) then MessageCreated else Rejected
    case MessageCreated | ImagesAttached =>
      if IsInlineUpload(mailbox, id, r) then ImagesAttached
      else if IsPlainUpload(mailbox, id, r) then FilesAttached
      else if IsSend(mailbox, id, r) then Sent
      else Rejected
    case FilesAttached =>
      if IsPlainUpload(mailbox, id, r) then FilesAttached
      else if IsSend(mailbox, id, r) then Sent
      else Rejected
    case Sent => Rejected
    case Rejected => Rejected
  }

  function Replay(mailbox: string, id: string, p: Phase, rs: seq<Request>): Phase
    decreases |rs|
  {
    if rs == [] then p else Replay(mailbox, id, Step(mailbox, id, p, rs[0]), rs[1..])
  }

  /** A trace that takes the message from draft to sent, for the message the
      service created with identifier `id`. */
  predicate Follows(mailbox: string, id: string, rs: seq<Request>) {
    Replay(mailbox, id, Drafting, rs) == Sent
  }

  lemma {:induction false} ReplayAppend(mailbox: string, id: string, p: Phase, a: seq<Request>, b: seq<Request>)
    ensures Replay(mailbox, id, p, a + b) == Replay(mailbox, id, Replay(mailbox, id, p, a), b)
    decreases |a|
  {
    if a == [] {
      assert a + b == b;
    } else {
      assert (a + b)[0] == a[0];
      assert (a + b)[1..] == a[1..] + b;
      ReplayAppend(mailbox, id, Step(mailbox, id, p, a[0]), a[1..], b);
    }
  }

  lemma {:induction false} ImageUploadsStep(mailbox: string, id: string, p: Phase, imgs: seq<Image>)
    requires p == MessageCreated || p == ImagesAttached
    ensures Replay(mailbox, id, p, ImageUploads(mailbox, id, imgs)) == (if imgs == [] then p else ImagesAttached)
    decreases |imgs|
  {
    if imgs != [] {
      var rs := ImageUploads(mailbox, id, imgs);
      assert rs[0] == ImageUpload(mailbox, id, imgs[0]);
      assert rs[1..] == ImageUploads(mailbox, id, imgs[1..]);
      ImageUploadsStep(mailbox, id, ImagesAttached, imgs[1..]);
    }
  }

  lemma {:induction false} FileSpecUploadsStep(mailbox: string, id: string, p: Phase, files: seq<FileSpec>)
    requires p == MessageCreated || p == ImagesAttached || p == FilesAttached
    ensures Replay(mailbox, id, p, FileSpecUploads(mailbox, id, files)) == (if files == [] then p else FilesAttached)
    decreases |files|
  {
    if files != [] {
      var rs := FileSpecUploads(mailbox, id, files);
      assert rs[0] == FileSpecUpload(mailbox, id, files[0]);
      assert rs[1..] == FileSpecUploads(mailbox, id, files[1..]);
      FileSpecUploadsStep(mailbox, id, FilesAttached, files[1..]);
    }
  }

  lemma {:induction false} SendTraceFollows(mailbox: string, d: Draft, id: string)
    ensures Follows(mailbox, id, SendTrace(mailbox, d, id))
  {
    var create := CreateRequest(mailbox, d);
    var imgs := ImageUploads(mailbox, id, d.images);
    var files := FileSpecUploads(mailbox, id, d.attachments);
    var send := SendRequest(mailbox, id);
    ReplayAppend(mailbox, id, Drafting, [create] + imgs + files, [send]);
    ReplayAppend(mailbox, id, Drafting, [create] + imgs, files);
    ReplayAppend(mailbox, id, Drafting, [create], imgs);
    assert Replay(mailbox, id, Drafting, [create]) == MessageCreated by {
      assert [create][1..] == [];
    }
    ImageUploadsStep(mailbox, id, MessageCreated, d.images);
    var afterImages := if d.images == [] then MessageCreated else ImagesAttached;
    FileSpecUploadsStep(mailbox, id, afterImages, d.attachments);
    var afterFiles := if d.attachments == [] then afterImages else FilesAttached;
    assert Replay(mailbox, id, afterFiles, [send]) == Sent by {
      assert [send][1..] == [];
    }
  }

  /** Every send with a token follows the protocol, for the id the create
      request was answered with. */
  lemma {:induction false} SendMailFollowsProtocol(s: Session, mailbox: string, d: Draft, t: Transport)
    requires Truthy(s.token)
    ensures Follows(mailbox, CreatedId(t([], CreateRequest(mailbox, d)).data), SendMail(s, mailbox, d, t).trace)
  {
    SendTraceFollows(mailbox, d, CreatedId(t([], CreateRequest(mailbox, d)).data));
  }

  lemma {:induction false} RejectedAbsorbs(mailbox: string, id: string, rs: seq<Request>)
    ensures Replay(mailbox, id, Rejected, rs) == Rejected
    decreases |rs|
  {
    if rs != [] {
      RejectedAbsorbs(mailbox, id, rs[1..]);
    }
  }

  lemma {:induction false} SentIsFinal(mailbox: string, id: string, rs: seq<Request>)
    ensures Replay(mailbox, id, Sent, rs) == Sent <==> rs == []
  {
    if rs != [] {
      RejectedAbsorbs(mailbox, id, rs[1..]);
    }
  }

  /** From an open message, reaching `Sent` means: uploads, plain ones never
      followed by inline ones, then exactly one send as the last request. */
  lemma {:induction false} TailShape(mailbox: string, id: string, p: Phase, rs: seq<Request>)
    requires p == MessageCreated || p == ImagesAttached || p == FilesAttached
    requires Replay(mailbox, id, p, rs) == Sent
    ensures |rs| >= 1 && IsSend(mailbox, id, rs[|rs| - 1])
    ensures forall k :: 0 <= k < |rs| - 1 ==> IsInlineUpload(mailbox, id, rs[k]) || IsPlainUpload(mailbox, id, rs[k])
    ensures p == FilesAttached ==> forall k :: 0 <= k < |rs| - 1 ==> IsPlainUpload(mailbox, id, rs[k])
    ensures forall i, j :: 0 <= i < j < |rs| - 1 && IsPlainUpload(mailbox, id, rs[i]) ==> IsPlainUpload(mailbox, id, rs[j])
    decreases |rs|
  {
    if rs == [] {
      assert false;
    } else {
      var r := rs[0];
      var rest := rs[1..];
      var q := Step(mailbox, id, p, r);
      assert Replay(mailbox, id, q, rest) == Sent;
      if q == Rejected {
        RejectedAbsorbs(mailbox, id, rest);
        assert false;
      } else if q == Sent {
        SentIsFinal(mailbox, id, rest);
        assert rs == [r];
      } else {
        assert IsInlineUpload(mailbox, id, r) || IsPlainUpload(mailbox, id, r);
        TailShape(mailbox, id, q, rest);
        assert forall k :: 0 < k < |rs| ==> rs[k] == rest[k - 1];
        if IsPlainUpload(mailbox, id, r) {
          assert q == FilesAttached;
        }
      }
    }
  }

  /** The protocol read backwards: every trace it accepts is one create, then
      uploads with every inline image before every plain attachment, then one
      send, with nothing after it. */
  lemma {:induction false} FollowsShape(mailbox: string, id: string, rs: seq<Request>)
    requires Follows(mailbox, id, rs)
    ensures |rs| >= 2
    ensures IsCreate(mailbox, rs[0])
    ensures IsSend(mailbox, id, rs[|rs| - 1])
    ensures forall k :: 0 < k < |rs| - 1 ==> IsInlineUpload(mailbox, id, rs[k]) || IsPlainUpload(mailbox, id, rs[k])
    ensures forall i, j :: 0 < i < j < |rs| - 1 && IsPlainUpload(mailbox, id, rs[i]) ==> !IsInlineUpload(mailbox, id, rs[j])
  {
    if rs == [] {
      assert false;
    } else {
      var q := Step(mailbox, id, Drafting, rs[0]);
      if q == Rejected {
        RejectedAbsorbs(mailbox, id, rs[1..]);
        assert false;
      }
      assert q == MessageCreated;
      TailShape(mailbox, id, MessageCreated, rs[1..]);
      assert forall k :: 0 < k < |rs| ==> rs[k] == rs[1..][k - 1];
    }
  }
}
