/**
 * The chat data the cog stores and sends: one entry per turn, each with a role and either plain
 * text or a list of typed parts, and the Discord message fields the router reads.
 */
module Chat {
  import opened Wrappers
  import opened TextUtil

  type UserId = int

  datatype Role = System | User | Assistant

  /** `{"type": "text", "text": ...}` or `{"type": "image_url", "image_url": {"url": ...}}`. */
  datatype Part = TextPart(text: string) | ImageUrlPart(url: string)

  /** An entry's `content`: a plain string, or a list of parts. */
  datatype Content = Text(text: string) | Parts(parts: seq<Part>)

  datatype Entry = Entry(role: Role, content: Content)

  /** An attachment: its file name, its `content_type` (absent for some uploads) and its URL. */
  datatype Attachment = Attachment(filename: string, contentType: Option<string>, url: string)

  /** The fields of an incoming Discord message that the cog and the plugins read. */
  datatype Message = Message(
    author: UserId,
    authorIsBot: bool,
    authorIsOwner: bool,
    inGuild: bool,
    channel: int,
    content: string,
    attachments: seq<Attachment>,
    hasAvatar: bool)

  /** The fallback turn: the content as the single text part of a user entry. */
  function UserText(c: string): Entry {
    Entry(User, Parts([TextPart(c)]))
  }

  function AssistantReply(r: string): Entry {
    Entry(Assistant, Text(r))
  }

  /** A stored context alternates user and assistant entries, a whole number of rounds. */
  predicate Paired(ctx: seq<Entry>) {
    |ctx| % 2 == 0 &&
    forall i :: 0 <= i < |ctx| ==> ctx[i].role == (if i % 2 == 0 then User else Assistant)
  }

  /** `user_context[-4:]`: the last four entries, or all of them when there are fewer. */
  function Recent(ctx: seq<Entry>): (r: seq<Entry>)
    ensures |r| == Min(|ctx|, 4)
    ensures r == ctx[|ctx| - |r|..]
  {
    if |ctx| <= 4 then ctx else ctx[|ctx| - 4..]
  }

  lemma EvenShift(h: nat, i: nat)
    ensures (2 * h + i) % 2 == i % 2
  {
  }

  /** The window the plugins see is two rounds at most, and still paired. */
  lemma RecentIsTwoRounds(ctx: seq<Entry>)
    requires Paired(ctx)
    ensures Paired(Recent(ctx))
    ensures |Recent(ctx)| == 0 || |Recent(ctx)| == 2 || |Recent(ctx)| == 4
  {
    var r := Recent(ctx);
    if |ctx| > 4 {
      var h := (|ctx| - 4) / 2;
      assert |ctx| - 4 == 2 * h;
      forall i | 0 <= i < |r|
        ensures r[i].role == (if i % 2 == 0 then User else Assistant)
      {
        assert r[i] == ctx[2 * h + i];
        EvenShift(h, i);
      }
      assert |r| == 4;
    } else {
      assert r == ctx;
      assert |ctx| != 1 && |ctx| != 3;
    }
  }

  /** One round appended to a paired context keeps it paired. */
  lemma PairedAppend(ctx: seq<Entry>, u: Entry, a: Entry)
    requires Paired(ctx) && u.role == User && a.role == Assistant
    ensures Paired(ctx + [u, a])
  {
    var n := ctx + [u, a];
    forall i | 0 <= i < |n|
      ensures n[i].role == (if i % 2 == 0 then User else Assistant)
    {
      if i < |ctx| {
        assert n[i] == ctx[i];
      } else if i == |ctx| {
        assert n[i] == u;
      } else {
        assert n[i] == a;
      }
    }
  }

  /** The text that replaces an inlined image when a context is exported. */
  const Placeholder := "[BASE64_IMAGE_PLACEHOLDER]"

  predicate IsInlineImage(p: Part) {
    p.ImageUrlPart? && StartsWith(p.url, "data:image")
  }

  function RedactPart(p: Part): (r: Part)
    ensures IsInlineImage(p) ==> r == ImageUrlPart(Placeholder)
    ensures !IsInlineImage(p) ==> r == p
  {
    if IsInlineImage(p) then ImageUrlPart(Placeholder) else p
  }

  /** An entry with every inline image URL in its part list replaced by the placeholder. */
  function RedactEntry(e: Entry): (r: Entry)
    ensures r.role == e.role
    ensures e.content.Text? ==> r == e
    ensures e.content.Parts? ==> r.content.Parts? && |r.content.parts| == |e.content.parts|
    ensures e.content.Parts? ==> forall j :: 0 <= j < |e.content.parts| ==>
              r.content.parts[j] == RedactPart(e.content.parts[j])
  {
    match e.content
    case Text(_) => e
    case Parts(ps) => Entry(e.role, Parts(seq(|ps|, j requires 0 <= j < |ps| => RedactPart(ps[j]))))
  }

  function Redact(ctx: seq<Entry>): (r: seq<Entry>)
    ensures |r| == |ctx|
    ensures forall i :: 0 <= i < |ctx| ==> r[i] == RedactEntry(ctx[i])
  {
    seq(|ctx|, i requires 0 <= i < |ctx| => RedactEntry(ctx[i]))
  }

  /** No redacted part is an inline image. */
  predicate NoInlineImage(ctx: seq<Entry>) {
    forall i, j :: 0 <= i < |ctx| && ctx[i].content.Parts? && 0 <= j < |ctx[i].content.parts| ==>
      !IsInlineImage(ctx[i].content.parts[j])
  }

  /** Redaction removes every inline image, keeps roles and pairing, and a second pass changes nothing. */
  lemma RedactProperties(ctx: seq<Entry>)
    ensures NoInlineImage(Redact(ctx))
    ensures Paired(ctx) ==> Paired(Redact(ctx))
    ensures Redact(Redact(ctx)) == Redact(ctx)
    ensures forall i :: 0 <= i < |ctx| ==> Redact(ctx)[i].role == ctx[i].role
  {
    var r := Redact(ctx);
    assert Placeholder[0] == '[' && !StartsWith(Placeholder, "data:image");
    forall i | 0 <= i < |r|
      ensures RedactEntry(r[i]) == r[i]
    {
      var e := ctx[i];
      if e.content.Parts? {
        var ps := r[i].content.parts;
        assert forall j :: 0 <= j < |ps| ==> RedactPart(ps[j]) == ps[j];
        assert RedactEntry(r[i]).content.parts == ps;
      }
    }
  }
}
