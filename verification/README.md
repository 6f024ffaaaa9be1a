# graphMailer in Dafny

A model of the `graphMailer` class of PHPGraphMailer, a small PHP client that reads
and sends Exchange Online mail through the Microsoft Graph API. Three pieces are
modelled, with the HTTP transport replaced by an abstract request/response function:

- **Outbound composition** (`Compose`): the caller's message arguments (to/cc
  recipients with optional names, subject, importance, optional replyTo, HTML body)
  become the JSON message posted to `users/{mailbox}/messages`.
- **Inbound normalization** (`Normalize`): every listed Inbox message becomes a fixed
  record with address-only projections of its to and cc lists (`basicAddress`), and
  every reference attachment gets a fixed placeholder as content and is marked not inline.
- **Request sequencing** (`Mailer`, `SendProtocol`): `getMessages`, `sendMail` and
  `deleteEmail` are functions that return the ordered requests they issue together with
  their result or exception. `SendProtocol` is an independent state machine
  (draft, created, images attached, files attached, sent) that `sendMail`'s trace is
  proved to follow; it is also proved to accept only traces of that shape.

Modules: `PhpValues` (nullable slots, PHP string truthiness, base64 as a symbolic
encoding), `GraphTypes` (Graph JSON records), `Http` (endpoints and their URLs,
requests, decoded responses, the `Transport` type), `Compose`, `Normalize`, `Mailer`,
`SendProtocol`.

The transport is `(seq<Request>, Request) -> Response`: the service's answer to a
request may depend on every request the same operation issued before it. A response is
a status code plus its body already decoded into the shapes the mailer reads.

PHP truthiness is modelled exactly where the code tests it: a string slot that is null,
`""` or `"0"` is falsy. This governs the token guard (lines 40 and 89), whether a
recipient's name is written (line 123), and the importance default (line 129).

Facts about graph_mailer.php the model keeps:
- `deleteEmail` (lines 78-86) checks no token and returns nothing. Its one request's response is ignored. Its flag `moveToDeletedItems` defaults to true, so a call without it moves the message to deleted items.
- `sendMail` (lines 88-168) returns whether the send call answered 202.
- An empty attachment listing becomes `[]` (line 49).
- Composition (lines 119-133) writes only to and cc recipients, subject, importance, replyTo and body.

## Model

| member | source | states |
|---|---|---|
| Compose.ShapeName | graph_mailer.php:123 | a to/cc recipient's `name` key is omitted exactly when the draft name is null, `""` or `"0"`; otherwise it carries the draft name |
| Compose.ShapeRecipient | graph_mailer.php:122-123 | a shaped recipient keeps the draft address and carries the name only as `ShapeName` allows |
| Compose.ShapeRecipients | graph_mailer.php:120-126 | recipient shaping preserves count and order: element i is recipient i shaped |
| Compose.RoleKey | graph_mailer.php:120-126 | a role has no key in the wire message iff the draft has no recipients for it; otherwise the key holds all recipients, shaped, in order |
| Compose.ComposeImportance | graph_mailer.php:129 | importance is the draft's when truthy and `"normal"` otherwise, so it is never empty |
| Compose.ShapeReplyTo | graph_mailer.php:130-132 | replyTo becomes a one-element list with the draft's address and its name, which is written as null when the draft has none |
| Compose.ComposeMessage | graph_mailer.php:119-133 | to/cc keys present iff non-empty, subject copied verbatim, importance non-empty, replyTo present iff supplied and then one element, body is `{contentType: "HTML", content: body}` |
| Compose.UnshapeShapeRecipients | graph_mailer.php:120-126 | reading shaped recipients back yields the draft recipients with falsy names dropped |
| Compose.DecomposeCompose | graph_mailer.php:119-133 | reading the composed message back yields the canonical draft: composition drops only falsy names, fills only the importance default, and moves images and attachments out of the message |
| Compose.ShapeCanonicalRecipients | graph_mailer.php:121-124 | canonicalising recipients first does not change their shaped form |
| Compose.ComposeCanonical | graph_mailer.php:119-133 | a draft and its canonical form compose to the same wire message |
| Compose.ComposeInjectiveOnCanonical | graph_mailer.php:119-133 | two drafts compose to the same wire message iff their canonical forms are equal |
| Compose.ComposeExample | graph_mailer.php:119-133 | one unnamed recipient, subject "Hi", no importance: the wire message has that recipient without a name, importance "normal", an HTML body and no cc or replyTo key |
| Normalize.BasicAddress | graph_mailer.php:171-175 | the result has the input's length and order, element i being recipient i's `emailAddress.address` |
| Normalize.NormalizeAttachment | graph_mailer.php:50-55 | a `#microsoft.graph.referenceAttachment` ends not inline with the base64 placeholder as content and every other property kept, including the ones the mailer does not read; any other attachment is unchanged |
| Normalize.NormalizeAttachments | graph_mailer.php:50-55 | normalization keeps count and order and treats each attachment independently |
| Normalize.NormalizeAttachmentsFixedPoints | graph_mailer.php:50-55 | the output is always normalized, and a list is left unchanged iff every reference attachment in it already carries the placeholder and is not inline |
| Normalize.NormalizeAttachmentsIdempotent | graph_mailer.php:50-55 | normalizing twice equals normalizing once |
| Normalize.NormalizeMessage | graph_mailer.php:56-72 | the record keeps every copied property of the listed message, its basic lists are the `basicAddress` projections of its to and cc lists, and its attachments are the normalized fetched ones |
| Normalize.RenormalizeWellFormed | graph_mailer.php:56-72 | a well-formed record is rebuilt exactly from its source message and its attachments |
| Mailer.AttachmentRequests | graph_mailer.php:47-48 | one attachment listing request per message, in list order, for that message's id |
| Mailer.GetMessages | graph_mailer.php:39-76 | no token: throws "No token defined" before any request; a listing error: throws `code + " " + message` after the one listing request; otherwise one record per listed message in order, each well-formed and copied from its item, with attachments from the i-th attachment request |
| Mailer.DeleteEmail | graph_mailer.php:78-86 | exactly one request on that message and no exception: DELETE of the message when `moveToDeletedItems` is false, otherwise a POST to its `/move` URL with destination `deleteditems` |
| Mailer.DeleteEmailDefaultMoves | graph_mailer.php:78 | a call without the flag is the call with `moveToDeletedItems` true: one POST moving the message to `deleteditems` |
| Mailer.ImageUploads | graph_mailer.php:143-153 | one upload per image, in order, each for that image |
| Mailer.FileSpecUploads | graph_mailer.php:155-164 | one upload per plain attachment, in order, each for that attachment |
| Mailer.SendMail | graph_mailer.php:88-168 | no token: throws before any request; otherwise 2 + images + attachments requests: create with the composed message, image uploads in order, attachment uploads in order, then one send for the id from the create response; the result is true iff that send answered 202 |
| Mailer.ShapedAddresses | graph_mailer.php:171-175 | `basicAddress` of shaped draft recipients is the draft's address list |
| Mailer.ComposedRecipientsReadBack | graph_mailer.php:120-126 | the addresses in a composed to or cc key, read back with `basicAddress`, are exactly the draft's addresses in order |
| SendProtocol.ImageUploadsStep | graph_mailer.php:143-153 | image uploads are inline uploads with a content id, so they keep a created message in the images phase |
| SendProtocol.FileSpecUploadsStep | graph_mailer.php:155-164 | attachment uploads are non-inline uploads without a content id, so they move an open message into the files phase |
| SendProtocol.SendTraceFollows | graph_mailer.php:134-167 | create, images, attachments, send is accepted by the send protocol for the created id |
| SendProtocol.SendMailFollowsProtocol | graph_mailer.php:134-167 | every `sendMail` with a token issues a trace the send protocol accepts |
| SendProtocol.TailShape | graph_mailer.php:143-167 | from an open message, reaching sent means uploads, with no inline upload after a plain one, followed by exactly one final send |
| SendProtocol.FollowsShape | graph_mailer.php:134-167 | every accepted trace is one create, then uploads with all inline images before all plain attachments, then one send as the last request |

## Left out

- `getToken` (graph_mailer.php:28-37) and the constructor: the token exchange is not modelled. The token is only a nullable string whose PHP truthiness decides the guards.
- `sendDeleteRequest`, `sendPostRequest`, `sendGetRequest` (graph_mailer.php:177-216): network I/O. They become the abstract `Transport`. Headers are not modelled: the bearer token, `Content-type: application/json` and `Content-Length: 0`. The output that `sendDeleteRequest` echoes is not modelled either.
- `json_encode`, `json_decode`: requests carry structured payloads. Responses arrive already decoded into `Http.Data`. A body that decodes to something else is `Unreadable`. This includes a failed `curl_exec`.
- `base64_encode`: symbolic (`Base64Of(raw)`). Only its injectivity is used.
- The commented-out usage example (graph_mailer.php:91-117): documentation only.
- PHP warnings on missing keys or non-array values are not modelled. Missing to/cc lists in a draft are the empty list. A create response without an id yields the empty string in the following URLs. A non-listing body yields no messages and no attachments.
- Normalize.NormalizeAttachment: PHP sets `isInline` to the integer 0; the model uses boolean false, which PHP treats as equal.
- Listed messages are typed records whose copied fields are always present; a property missing from the service's JSON (copied as null by the code) is not modelled. Properties the code does not copy are not represented.
- `count(null)` raising a `TypeError` on PHP 8 (line 49) is not modelled. The model follows PHP 7, where a missing listing counts as empty.
- Folder-name resolution, reply drafting, delete-after-send, conversation-topic extraction and calendar events: graph_mailer.php has none of these.
- Attachment properties the mailer does not read are kept only as their JSON text in `otherProperties`; their structure is not modelled.
