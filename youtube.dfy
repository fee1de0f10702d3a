/** The YouTube plugin: a message mentioning a YouTube link gets the video's transcript added to its turn. */
module YouTubePlugin {
  import opened Wrappers
  import opened TextUtil
  import opened Chat
  import opened PluginBase

  predicate MentionsVideo(s: string) {
    Contains(s, "youtube.com") || Contains(s, "youtu.be")
  }

  /** The first of `words` that mentions a video, with its index. */
  function FirstVideoWord(words: seq<string>): (r: Option<nat>)
    ensures r.Some? ==> r.value < |words| && MentionsVideo(words[r.value])
    ensures r.Some? ==> forall j :: 0 <= j < r.value ==> !MentionsVideo(words[j])
    ensures r.None? <==> forall j :: 0 <= j < |words| ==> !MentionsVideo(words[j])
    decreases |words|
  {
    if |words| == 0 then None
    else if MentionsVideo(words[0]) then Some(0)
    else
      match FirstVideoWord(words[1..])
      case None =>
        assert forall j :: 1 <= j < |words| ==> words[j] == words[1..][j - 1];
        None
      case Some(k) =>
        assert forall j :: 1 <= j < k + 1 ==> words[j] == words[1..][j - 1];
        Some(k + 1)
  }

  /** `extract_youtube_url`: the first whitespace-separated word that mentions a video. */
  function ExtractUrl(content: string): (r: Option<string>)
    ensures r.Some? ==> exists k :: (0 <= k < |Words(content)| && Words(content)[k] == r.value &&
                                     MentionsVideo(r.value) && forall j :: 0 <= j < k ==> !MentionsVideo(Words(content)[j]))
    ensures r.None? <==> forall j :: 0 <= j < |Words(content)| ==> !MentionsVideo(Words(content)[j])
  {
    match FirstVideoWord(Words(content))
    case None => None
    case Some(k) => Some(Words(content)[k])
  }

  /** The trigger of `process` always finds a word, so the invalid-URL branch cannot be taken. */
  lemma TriggerFindsUrl(content: string)
    requires MentionsVideo(content)
    ensures ExtractUrl(content).Some?
    ensures |ExtractUrl(content).value| > 0 && NoSpace(ExtractUrl(content).value)
  {
    var words := Words(content);
    var p: string;
    if Contains(content, "youtube.com") { p := "youtube.com"; } else { p := "youtu.be"; }
    HostsHaveNoSpace();
    var i: nat :| i <= |content| && OccursAt(content, p, i);
    var k := ContainedInSomeWord(content, p, i);
    assert MentionsVideo(words[k]);
    var r := FirstVideoWord(words);
    assert r.Some?;
    assert ExtractUrl(content) == Some(words[r.value]);
  }

  lemma HostsHaveNoSpace()
    ensures NoSpace("youtube.com") && NoSpace("youtu.be")
  {
  }

  /** What the download and transcription give: the video title and its transcript. */
  datatype Video = Video(title: string, transcript: string)

  const VideoInstruction: string := "\n\nPlease follow what the user asked you to do and/or say using this information."

  function VideoPrompt(content: string, v: Video): string {
    "User query: " + content + "\n\nYouTube video title: " + v.title + "\n\nYouTube video transcript:\n" + v.transcript + VideoInstruction
  }

  /**
   * `process`; `transcribe` stands for the download and Whisper run, `None` when it raised, which
   * the two-name unpack of the result cannot take. An empty transcript gives `None`.
   */
  function Process(content: string, transcribe: string -> Option<Video>): (r: PluginResult)
    ensures !MentionsVideo(content) ==> r == NoneResult
    ensures MentionsVideo(content) ==> ExtractUrl(content).Some?
    ensures MentionsVideo(content) && transcribe(ExtractUrl(content).value).None? ==> r == Raised(UnpackNone)
    ensures r.Augment? <==> MentionsVideo(content) && transcribe(ExtractUrl(content).value).Some? &&
                            transcribe(ExtractUrl(content).value).value.transcript != ""
    ensures r.Augment? ==> r.entry == Entry(User, Text(VideoPrompt(content, transcribe(ExtractUrl(content).value).value)))
    ensures !r.Taken? && !r.AugmentWithConfidence?
    ensures r.Raised? ==> r == Raised(UnpackNone)
  {
    if !MentionsVideo(content) then NoneResult
    else
      TriggerFindsUrl(content);
      var url := ExtractUrl(content).value;
      match transcribe(url)
      case None => Raised(UnpackNone)
      case Some(v) =>
        if v.transcript == "" then NoneResult
        else Augment(Entry(User, Text(VideoPrompt(content, v))))
  }
}
