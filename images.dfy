/** The image plugin: an image attachment is downloaded and inlined into a user turn as a data URL. */
module ImagesPlugin {
  import opened Wrappers
  import opened TextUtil
  import opened Chat
  import opened Base64
  import opened PluginBase

  /** The URL prefix used whatever the real image type is. */
  const DataUrlPrefix := "data:image/png;base64,"

  /** The first attachment has an `image/` content type (no attachments, or a missing type, is not that). */
  predicate HasImageFirst(atts: seq<Attachment>) {
    |atts| > 0 && atts[0].contentType.Some? && StartsWith(atts[0].contentType.value, "image/")
  }

  /** The user turn built from the message content and the downloaded bytes. */
  function Fragment(content: string, image: seq<Byte>): Entry {
    Entry(User, Parts([TextPart(content), ImageUrlPart(DataUrlPrefix + Encode(image))]))
  }

  /**
   * `process`: nothing without attachments or for a non-image first attachment, an exception when
   * the first attachment has no content type or the download fails, otherwise the image turn.
   * `download` stands for the HTTP GET of the attachment URL; `None` means it raised.
   */
  function Process(msg: Message, content: string, download: string -> Option<seq<Byte>>): (r: PluginResult)
    ensures |msg.attachments| == 0 ==> r == NoneResult
    ensures |msg.attachments| > 0 && msg.attachments[0].contentType.None? ==> r == Raised(MissingContentType)
    ensures r.NoneResult? <==> !HasImageFirst(msg.attachments) && (|msg.attachments| == 0 || msg.attachments[0].contentType.Some?)
    ensures r.Augment? <==> HasImageFirst(msg.attachments) && download(msg.attachments[0].url).Some?
    ensures !r.Taken? && !r.AugmentWithConfidence?
    ensures r.Raised? ==> r == Raised(MissingContentType) || r == Raised(External)
    ensures r.Augment? ==>
      var bytes := download(msg.attachments[0].url).value;
      r.entry.role == User && r.entry.content.Parts? && |r.entry.content.parts| == 2 &&
      r.entry.content.parts[0] == TextPart(content) &&
      r.entry.content.parts[1].ImageUrlPart? &&
      StartsWith(r.entry.content.parts[1].url, DataUrlPrefix) &&
      |r.entry.content.parts[1].url| == |DataUrlPrefix| + 4 * ((|bytes| + 2) / 3) &&
      Decode(r.entry.content.parts[1].url[|DataUrlPrefix|..]) == Some(bytes)
  {
    if |msg.attachments| == 0 then NoneResult
    else
      match msg.attachments[0].contentType
      case None => Raised(MissingContentType)
      case Some(t) =>
        if !StartsWith(t, "image/") then NoneResult
        else
          match download(msg.attachments[0].url)
          case None => Raised(External)
          case Some(bytes) =>
            var e := Fragment(content, bytes);
            var url := DataUrlPrefix + Encode(bytes);
            DecodeEncode(bytes);
            EncodeLength(bytes);
            assert url[|DataUrlPrefix|..] == Encode(bytes);
            assert url[..|DataUrlPrefix|] == DataUrlPrefix;
            Augment(e)
  }
}
