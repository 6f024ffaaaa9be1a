/** Outbound composition: the caller's draft becomes the JSON message that is
    posted to `users/{mailbox}/messages`. */
module Compose {
  import opened PhpValues
  import opened GraphTypes

  const DefaultImportance: string := "normal"
  const HtmlContentType: string := "HTML"

  /** `['address' => ..., 'name' => ...]`; the name is optional. */
  datatype DraftRecipient = DraftRecipient(address: string, name: Option<string>)

  /** An inline image: `Name`, `ContentType`, `Content`, `ContentID`. */
  datatype Image = Image(name: string, contentType: string, content: string, contentId: string)

  /** A plain attachment: `Name`, `ContentType`, `Content`. */
  datatype FileSpec = FileSpec(name: string, contentType: string, content: string)

  /** The message arguments a caller passes to `sendMail`. A missing recipient
      list is the empty list. */
  datatype Draft = Draft(
    toRecipients: seq<DraftRecipient>,
    ccRecipients: seq<DraftRecipient>,
    subject: Option<string>,
    importance: Option<string>,
    replyTo: Option<DraftRecipient>,
    body: Option<string>,
    images: seq<Image>,
    attachments: seq<FileSpec>)

  /** The `name` key of a to/cc recipient: written only when the draft's name
      is truthy. */
  function ShapeName(name: Option<string>): (f: NameField)
    ensures f.Omitted? <==> !Truthy(name)
    ensures !f.NullName?
    ensures f.Named? ==> name == Some(f.value)
  {
    if Truthy(name) then Named(name.value) else Omitted
  }

  function ShapeRecipient(r: DraftRecipient): (w: Recipient)
    ensures w.emailAddress.address == r.address
    ensures w.emailAddress.name == ShapeName(r.name)
  {
    Recipient(EmailAddress(r.address, ShapeName(r.name)))
  }

  /** Recipient shaping keeps order and count. */
  function ShapeRecipients(rs: seq<DraftRecipient>): (ws: seq<Recipient>)
    ensures |ws| == |rs|
    ensures forall i :: 0 <= i < |rs| ==> ws[i] == ShapeRecipient(rs[i])
  {
    if rs == [] then [] else [ShapeRecipient(rs[0])] + ShapeRecipients(rs[1..])
  }

  /** A recipient role: no key at all when the draft has no recipients. */
  function RoleKey(rs: seq<DraftRecipient>): (k: Option<seq<Recipient>>)
    ensures k.None? <==> rs == []
    ensures k.Some? ==> |k.value| == |rs| > 0
    ensures k.Some? ==> forall i :: 0 <= i < |rs| ==> k.value[i] == ShapeRecipient(rs[i])
  {
    if rs == [] then None else Some(ShapeRecipients(rs))
  }

  /** Importance is the draft's when truthy, `"normal"` otherwise. */
  function ComposeImportance(importance: Option<string>): (s: string)
    ensures s != "" && s != "0"
    ensures Truthy(importance) ==> s == importance.value
    ensures !Truthy(importance) ==> s == DefaultImportance
  {
    if Truthy(importance) then importance.value else DefaultImportance
  }

  /** `replyTo` carries both address and name (a missing name is written as
      null), wrapped in a one-element list. */
  function ShapeReplyTo(r: DraftRecipient): (ws: seq<Recipient>)
    ensures |ws| == 1
    ensures ws[0].emailAddress.address == r.address
    ensures r.name.None? <==> ws[0].emailAddress.name.NullName?
    ensures r.name.Some? ==> ws[0].emailAddress.name == Named(r.name.value)
  {
    var name := if r.name.Some? then Named(r.name.value) else NullName;
    [Recipient(EmailAddress(r.address, name))]
  }

  function ComposeMessage(d: Draft): (w: WireMessage)
    ensures w.toRecipients.None? <==> d.toRecipients == []
    ensures w.ccRecipients.None? <==> d.ccRecipients == []
    ensures w.subject == d.subject
    ensures w.importance != ""
    ensures w.replyTo.Some? <==> d.replyTo.Some?
    ensures w.replyTo.Some? ==> |w.replyTo.value| == 1
    ensures w.body == ItemBody(HtmlContentType, d.body)
  {
    WireMessage(
      RoleKey(d.toRecipients),
      RoleKey(d.ccRecipients),
      d.subject,
      ComposeImportance(d.importance),
      if d.replyTo.Some? then Some(ShapeReplyTo(d.replyTo.value)) else None,
      ItemBody(HtmlContentType, d.body))
  }

  // ----- Reading a wire message back as a draft ------------------------------

  function UnshapeName(f: NameField): Option<string> {
    if f.Named? then Some(f.value) else None
  }

  function UnshapeRecipient(w: Recipient): DraftRecipient {
    DraftRecipient(w.emailAddress.address, UnshapeName(w.emailAddress.name))
  }

  function UnshapeRecipients(ws: seq<Recipient>): (rs: seq<DraftRecipient>)
    ensures |rs| == |ws|
    ensures forall i :: 0 <= i < |ws| ==> rs[i] == UnshapeRecipient(ws[i])
  {
    if ws == [] then [] else [UnshapeRecipient(ws[0])] + UnshapeRecipients(ws[1..])
  }

  function UnshapeRole(k: Option<seq<Recipient>>): seq<DraftRecipient> {
    if k.Some? then UnshapeRecipients(k.value) else []
  }

  /** The draft a wire message says was sent (it carries no images or
      attachments: those travel as separate uploads). */
  function Decompose(w: WireMessage): Draft {
    Draft(
      UnshapeRole(w.toRecipients),
      UnshapeRole(w.ccRecipients),
      w.subject,
      Some(w.importance),
      if w.replyTo.Some? && |w.replyTo.value| > 0 then Some(UnshapeRecipient(w.replyTo.value[0])) else None,
      w.body.content,
      [], [])
  }

  // ----- Canonical drafts ------------------------------------------------------

  /** What composition keeps of a to/cc recipient: a falsy name is no name. */
  function CanonicalRecipient(r: DraftRecipient): DraftRecipient {
    r.(name := if Truthy(r.name) then r.name else None)
  }

  function CanonicalRecipients(rs: seq<DraftRecipient>): (cs: seq<DraftRecipient>)
    ensures |cs| == |rs|
    ensures forall i :: 0 <= i < |rs| ==> cs[i] == CanonicalRecipient(rs[i])
  {
    if rs == [] then [] else [CanonicalRecipient(rs[0])] + CanonicalRecipients(rs[1..])
  }

  /** The draft with every choice composition makes already made: falsy names
      dropped, importance defaulted, uploads removed. */
  function Canonical(d: Draft): Draft {
    d.(toRecipients := CanonicalRecipients(d.toRecipients),
       ccRecipients := CanonicalRecipients(d.ccRecipients),
       importance := Some(ComposeImportance(d.importance)),
       images := [], attachments := [])
  }

  lemma {:induction false} UnshapeShapeRecipients(rs: seq<DraftRecipient>)
    ensures UnshapeRecipients(ShapeRecipients(rs)) == CanonicalRecipients(rs)
  {
    var us := UnshapeRecipients(ShapeRecipients(rs));
    var cs := CanonicalRecipients(rs);
    assert |us| == |cs|;
    forall i | 0 <= i < |rs|
      ensures us[i] == cs[i]
    {
      var r := rs[i];
      assert ShapeRecipients(rs)[i] == ShapeRecipient(r);
      if Truthy(r.name) {
        assert ShapeName(r.name) == Named(r.name.value);
      } else {
        assert ShapeName(r.name) == Omitted;
      }
    }
  }

  /** Composition loses nothing but the choices `Canonical` makes: reading the
      wire message back gives the canonical draft. */
  lemma {:induction false} DecomposeCompose(d: Draft)
    ensures Decompose(ComposeMessage(d)) == Canonical(d)
  {
    UnshapeShapeRecipients(d.toRecipients);
    UnshapeShapeRecipients(d.ccRecipients);
    if d.toRecipients == [] {
      assert CanonicalRecipients(d.toRecipients) == [];
    }
    if d.ccRecipients == [] {
      assert CanonicalRecipients(d.ccRecipients) == [];
    }
  }

  lemma {:induction false} ShapeCanonicalRecipients(rs: seq<DraftRecipient>)
    ensures ShapeRecipients(CanonicalRecipients(rs)) == ShapeRecipients(rs)
  {
    var a := ShapeRecipients(CanonicalRecipients(rs));
    var b := ShapeRecipients(rs);
    forall i | 0 <= i < |rs|
      ensures a[i] == b[i]
    {
      assert CanonicalRecipients(rs)[i] == CanonicalRecipient(rs[i]);
    }
  }

  /** Canonical drafts are the representatives: canonicalising first changes
      nothing on the wire, so two drafts compose alike iff their canonical
      forms agree. */
  lemma {:induction false} ComposeCanonical(d: Draft)
    ensures ComposeMessage(Canonical(d)) == ComposeMessage(d)
  {
    ShapeCanonicalRecipients(d.toRecipients);
    ShapeCanonicalRecipients(d.ccRecipients);
  }

  lemma {:induction false} ComposeInjectiveOnCanonical(d1: Draft, d2: Draft)
    ensures ComposeMessage(d1) == ComposeMessage(d2) <==> Canonical(d1) == Canonical(d2)
  {
    DecomposeCompose(d1);
    DecomposeCompose(d2);
    if Canonical(d1) == Canonical(d2) {
      ComposeCanonical(d1);
      ComposeCanonical(d2);
    }
  }

  /** A draft with one unnamed recipient, a subject, an HTML body and no
      importance. */
  lemma ComposeExample()
    ensures ComposeMessage(Draft([DraftRecipient("a@x.com", None)], [], Some("Hi"), None, None, Some("<p>Hi</p>"), [], []))
         == WireMessage(Some([Recipient(EmailAddress("a@x.com", Omitted))]), None, Some("Hi"), "normal", None,
                        ItemBody("HTML", Some("<p>Hi</p>")))
  {
    var rs := [DraftRecipient("a@x.com", None)];
    assert ShapeRecipients(rs) == [ShapeRecipient(rs[0])];
  }
}
