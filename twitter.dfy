/** The Twitter plugin: a message naming `@user` gets that account's recent tweets added. */
module TwitterPlugin {
  import opened Wrappers
  import opened TextUtil
  import opened Chat
  import opened PluginBase

  /** `@(\w+)` matches at `i`: an `@` followed by at least one word character. */
  predicate MentionAt(s: string, i: nat) {
    i + 1 < |s| && s[i] == '@' && IsWordChar(s[i + 1])
  }

  /** `extract_twitter_username`: group 1 of the leftmost match, the maximal word run after `@`. */
  function ExtractUsername(content: string): (r: Option<string>)
    ensures r.Some? ==> exists i: nat :: (MentionAt(content, i) && forall j: nat :: j < i ==> !MentionAt(content, j)) &&
                                         r.value == content[i + 1..i + 1 + RunLength(content, i + 1, IsWordChar)]
    ensures r.None? <==> forall i: nat :: !MentionAt(content, i)
  {
    var at := (i: nat) => MentionAt(content, i);
    match FirstWhere(0, |content|, at)
    case None =>
      assert forall i: nat :: !MentionAt(content, i) by {
        forall i: nat ensures !MentionAt(content, i) {
          if i <= |content| {
            assert !at(i);
          }
        }
      }
      None
    case Some(i) =>
      assert forall j: nat :: j < i ==> !MentionAt(content, j) by {
        forall j: nat | j < i ensures !MentionAt(content, j) {
          assert !at(j);
        }
      }
      assert at(i);
      Some(content[i + 1..i + 1 + RunLength(content, i + 1, IsWordChar)])
  }

  /** A username is a non-empty run of word characters, so it holds no `@` and no whitespace. */
  lemma UsernameIsWord(content: string)
    requires ExtractUsername(content).Some?
    ensures |ExtractUsername(content).value| > 0
    ensures forall k :: 0 <= k < |ExtractUsername(content).value| ==> IsWordChar(ExtractUsername(content).value[k])
  {
    var u := ExtractUsername(content).value;
    var i: nat :| MentionAt(content, i) && u == content[i + 1..i + 1 + RunLength(content, i + 1, IsWordChar)];
    var n := RunLength(content, i + 1, IsWordChar);
    assert IsWordChar(content[i + 1]);
    assert n > 0 && |u| == n;
    forall k | 0 <= k < n ensures IsWordChar(u[k]) {
      assert u[k] == content[i + 1 + k];
    }
  }

  /** A message that opens with `@name` and a space names `name`. */
  lemma MentionExample(s: string)
    requires s == "@jack hi"
    ensures ExtractUsername(s) == Some("jack")
  {
    assert MentionAt(s, 0);
    assert s[5] == ' ' && RunLength(s, 5, IsWordChar) == 0;
    assert RunLength(s, 1, IsWordChar) == 4;
    assert s[1..5] == "jack";
  }

  /** The mirror whose profile pages are scraped. */
  const MirrorBase := "https://nitter.privacydev.net/"

  /** A profile page: its HTTP status and, in page order, the stripped text of each tweet. */
  datatype ProfilePage = ProfilePage(status: int, tweets: seq<string>)

  const TweetLimit: nat := 5

  /** What `fetch_tweets` returns: `None` unless the page is a 200 with tweets, else the first five. */
  function TweetsText(page: ProfilePage): (r: Option<string>)
    ensures r.None? <==> page.status != 200 || |page.tweets| == 0
    ensures r.Some? ==> r.value == Join(page.tweets[..Min(|page.tweets|, TweetLimit)], "\n\n")
  {
    if page.status != 200 || |page.tweets| == 0 then None
    else Some(Join(page.tweets[..Min(|page.tweets|, TweetLimit)], "\n\n"))
  }

  /** With tweets on the page, the text starts with the first tweet. */
  lemma TweetsTextStartsWithFirst(page: ProfilePage)
    requires page.status == 200 && |page.tweets| > 0
    ensures StartsWith(TweetsText(page).value, page.tweets[0])
  {
    var taken := page.tweets[..Min(|page.tweets|, TweetLimit)];
    assert taken[0] == page.tweets[0];
    JoinStartsWithFirst(taken, "\n\n", page.tweets[0]);
  }

  /** `fetch_tweets`' loop collecting the text of each found tweet, then the join. */
  method FetchTweets(page: ProfilePage) returns (r: Option<string>)
    ensures r == TweetsText(page)
  {
    if page.status != 200 {
      return None;
    }
    var found := page.tweets[..Min(|page.tweets|, TweetLimit)];
    if |found| == 0 {
      return None;
    }
    var formatted: seq<string> := [];
    var i := 0;
    while i < |found|
      invariant 0 <= i <= |found|
      invariant formatted == found[..i]
    {
      formatted := formatted + [found[i]];
      i := i + 1;
    }
    assert formatted == found;
    return Some(Join(formatted, "\n\n"));
  }

  const TweetsInstruction: string := "\n\nPlease analyze these tweets and respond to the user's query."

  function TweetsPrompt(content: string, username: string, tweets: string): string {
    "User query: " + content + "\n\nRecent tweets from @" + username + ":\n" + tweets + TweetsInstruction
  }

  /**
   * `process`; `get` stands for the GET of a profile URL, `None` when it raised, which
   * `fetch_tweets` does not catch. An empty text is refused like a missing one.
   */
  function Process(content: string, get: string -> Option<ProfilePage>): (r: PluginResult)
    ensures ExtractUsername(content).None? ==> r == NoneResult
    ensures ExtractUsername(content).Some? && get(MirrorBase + ExtractUsername(content).value).None? ==> r == Raised(External)
    ensures r.Augment? <==> (ExtractUsername(content).Some? && get(MirrorBase + ExtractUsername(content).value).Some? &&
                             TweetsText(get(MirrorBase + ExtractUsername(content).value).value).Some? &&
                             TweetsText(get(MirrorBase + ExtractUsername(content).value).value).value != "")
    ensures r.Augment? ==> r.entry.role == User && r.entry.content.Text?
    ensures r.Augment? ==>
      var name := ExtractUsername(content).value;
      r.entry == Entry(User, Text(TweetsPrompt(content, name, TweetsText(get(MirrorBase + name).value).value)))
    ensures !r.Taken? && !r.AugmentWithConfidence?
    ensures r.Raised? ==> r == Raised(External)
  {
    match ExtractUsername(content)
    case None => NoneResult
    case Some(name) =>
      match get(MirrorBase + name)
      case None => Raised(External)
      case Some(page) =>
        match TweetsText(page)
        case None => NoneResult
        case Some(tweets) =>
          if tweets == "" then NoneResult
          else Augment(Entry(User, Text(TweetsPrompt(content, name, tweets))))
  }
}
