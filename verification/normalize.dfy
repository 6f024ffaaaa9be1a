/** Inbound normalization: each listed message becomes a fixed record with
    address-only recipient projections and readable attachments. */
module Normalize {
  import opened PhpValues
  import opened GraphTypes
  import opened Http

  /** The text substituted for the content of a reference attachment. */
  const Placeholder: string := "This is a link to a SharePoint online file, not yet supported"

  /** `basicAddress`: the address of every recipient, in order. */
  function BasicAddress(rs: seq<Recipient>): (addrs: seq<string>)
    ensures |addrs| == |rs|
    ensures forall i :: 0 <= i < |rs| ==> addrs[i] == rs[i].emailAddress.address
  {
    if rs == [] then [] else [rs[0].emailAddress.address] + BasicAddress(rs[1..])
  }

  predicate IsReference(a: Attachment) {
    a.odataType == ReferenceAttachmentType
  }

  /** A reference attachment gets the placeholder as content and is marked not
      inline; every other attachment is left alone. */
  function NormalizeAttachment(a: Attachment): (b: Attachment)
    ensures b.odataType == a.odataType && b.id == a.id && b.name == a.name
    ensures b.contentType == a.contentType && b.contentId == a.contentId
    ensures b.otherProperties == a.otherProperties
    ensures IsReference(a) ==> !b.isInline && b.contentBytes == Some(Base64Of(Placeholder))
    ensures !IsReference(a) ==> b == a
  {
    if IsReference(a) then a.(contentBytes := Some(Base64Of(Placeholder)), isInline := false) else a
  }

  function NormalizeAttachments(xs: seq<Attachment>): (ys: seq<Attachment>)
    ensures |ys| == |xs|
    ensures forall i :: 0 <= i < |xs| ==> ys[i] == NormalizeAttachment(xs[i])
  {
    if xs == [] then [] else [NormalizeAttachment(xs[0])] + NormalizeAttachments(xs[1..])
  }

  /** Every reference attachment already carries the placeholder, not inline. */
  predicate AttachmentsNormalized(xs: seq<Attachment>) {
    forall i :: 0 <= i < |xs| && IsReference(xs[i]) ==>
      !xs[i].isInline && xs[i].contentBytes == Some(Base64Of(Placeholder))
  }

  /** Normalized lists are exactly the fixed points of normalization. */
  lemma {:induction false} NormalizeAttachmentsFixedPoints(xs: seq<Attachment>)
    ensures AttachmentsNormalized(NormalizeAttachments(xs))
    ensures NormalizeAttachments(xs) == xs <==> AttachmentsNormalized(xs)
  {
    var ys := NormalizeAttachments(xs);
    forall i | 0 <= i < |ys| && IsReference(ys[i])
      ensures !ys[i].isInline && ys[i].contentBytes == Some(Base64Of(Placeholder))
    {
      assert ys[i] == NormalizeAttachment(xs[i]);
    }
    if AttachmentsNormalized(xs) {
      forall i | 0 <= i < |xs|
        ensures ys[i] == xs[i]
      {
        assert ys[i] == NormalizeAttachment(xs[i]);
      }
    }
  }

  /** Normalizing twice is normalizing once. */
  lemma {:induction false} NormalizeAttachmentsIdempotent(xs: seq<Attachment>)
    ensures NormalizeAttachments(NormalizeAttachments(xs)) == NormalizeAttachments(xs)
  {
    NormalizeAttachmentsFixedPoints(xs);
    NormalizeAttachmentsFixedPoints(NormalizeAttachments(xs));
  }

  /** `->value` of an attachment listing: a body that is not a listing (an
      error, an undecodable reply) yields the empty list. */
  function AttachmentsOf(d: Data): seq<Attachment> {
    if d.AttachmentList? then d.attachments else []
  }

  /** The record `getMessages` returns for one message. */
  datatype Message = Message(
    id: string,
    sentDateTime: string,
    subject: string,
    bodyPreview: string,
    importance: string,
    conversationId: string,
    isRead: bool,
    body: ItemBody,
    sender: Recipient,
    toRecipients: seq<Recipient>,
    ccRecipients: seq<Recipient>,
    toRecipientsBasic: seq<string>,
    ccRecipientsBasic: seq<string>,
    replyTo: seq<Recipient>,
    attachments: seq<Attachment>)

  /** The invariant every returned record keeps. */
  predicate WellFormed(m: Message) {
    && m.toRecipientsBasic == BasicAddress(m.toRecipients)
    && m.ccRecipientsBasic == BasicAddress(m.ccRecipients)
    && AttachmentsNormalized(m.attachments)
  }

  /** The listed message a record was built from. */
  function Source(m: Message): RawMessage {
    RawMessage(m.id, m.sentDateTime, m.subject, m.bodyPreview, m.importance,
               m.conversationId, m.isRead, m.body, m.sender,
               m.toRecipients, m.ccRecipients, m.replyTo)
  }

  /** One listed message with its fetched attachments becomes a well-formed
      record that keeps every copied property of the listing. */
  function NormalizeMessage(raw: RawMessage, attachments: seq<Attachment>): (m: Message)
    ensures WellFormed(m)
    ensures Source(m) == raw
    ensures |m.toRecipientsBasic| == |raw.toRecipients| && |m.ccRecipientsBasic| == |raw.ccRecipients|
    ensures m.attachments == NormalizeAttachments(attachments)
  {
    NormalizeAttachmentsFixedPoints(attachments);
    Message(raw.id, raw.sentDateTime, raw.subject, raw.bodyPreview, raw.importance,
            raw.conversationId, raw.isRead, raw.body, raw.sender,
            raw.toRecipients, raw.ccRecipients,
            BasicAddress(raw.toRecipients), BasicAddress(raw.ccRecipients),
            raw.replyTo, NormalizeAttachments(attachments))
  }

  /** A well-formed record is determined by its source message and its
      attachments: normalizing them again rebuilds it exactly. */
  lemma RenormalizeWellFormed(m: Message)
    requires WellFormed(m)
    ensures NormalizeMessage(Source(m), m.attachments) == m
  {
    NormalizeAttachmentsFixedPoints(m.attachments);
  }
}
