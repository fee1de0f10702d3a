/** The Reddit plugin: a message linking a Reddit post gets the post and its top comments added. */
module RedditPlugin {
  import opened Wrappers
  import opened TextUtil
  import opened Chat
  import opened PluginBase

  /** `[A-Za-z0-9_]`, the class of subreddit names and post ids. */
  predicate IsIdChar(c: char) {
    IsWordChar(c)
  }

  /** `[A-Za-z0-9]`, the class of short-link ids. */
  predicate IsAlnum(c: char) {
    IsWordChar(c) && c != '_'
  }

  /** `[^/ ]`, the class of the slug after a post id. */
  predicate NotSlashOrSpace(c: char) {
    c != '/' && c != ' '
  }

  /** The index after an optional literal. */
  function Skip(s: string, i: nat, lit: string): (j: nat)
    requires i <= |s|
    ensures i <= j <= |s|
  {
    if OccursAt(s, lit, i) then i + |lit| else i
  }

  /** `https?://` at `i`; backtracking from `https` to `http` would need `:` where `s` is. */
  function AfterScheme(s: string, i: nat): (r: Option<nat>)
    requires i <= |s|
    ensures r.Some? ==> i < r.value <= |s| && OccursAt(s, "http", i)
  {
    if OccursAt(s, "https://", i) then
      assert s[i..i + 4] == s[i..i + 8][..4];
      Some(i + 8)
    else if OccursAt(s, "http://", i) then
      assert s[i..i + 4] == s[i..i + 7][..4];
      Some(i + 7)
    else None
  }

  /** An optional group `(?:/X+)?` at `i`: taken when `/` is followed by at least one `X`. */
  function SlashRun(s: string, i: nat, p: char -> bool): (j: nat)
    requires i <= |s|
    ensures i <= j <= |s|
  {
    if i < |s| && s[i] == '/' && RunLength(s, i + 1, p) > 0 then i + 1 + RunLength(s, i + 1, p) else i
  }

  /**
   * The first alternative, a post link
   * `https?://(?:www\.)?(?:old\.)?reddit\.com/r/[A-Za-z0-9_]+/(?:comments|s)/[A-Za-z0-9_]+(?:/[^/ ]+)?(?:/\w+)?`,
   * matched at `i`. Each optional prefix, when present, is the only way on (the next literal
   * does not start with `w` or `o`), each run is followed by a character outside its class,
   * and nothing has to match after the optional tail, so the greedy path is the match.
   */
  function PostUrlEnd(s: string, i: nat): (r: Option<nat>)
    requires i <= |s|
    ensures r.Some? ==> i < r.value <= |s| && OccursAt(s, "http", i)
    ensures r.Some? ==> exists b :: i <= b && b + 13 < r.value && OccursAt(s, "reddit.com/r/", b)
  {
    match AfterScheme(s, i)
    case None => None
    case Some(a) =>
      var b := Skip(s, Skip(s, a, "www."), "old.");
      if !OccursAt(s, "reddit.com/r/", b) then None
      else
        var c := b + 13;
        var n := RunLength(s, c, IsIdChar);
        if n == 0 || c + n >= |s| || s[c + n] != '/' then None
        else
          var d := c + n + 1;
          var e := if OccursAt(s, "comments/", d) then Some(d + 9) else if OccursAt(s, "s/", d) then Some(d + 2) else None;
          if e.None? then None
          else
            var m := RunLength(s, e.value, IsIdChar);
            if m == 0 then None
            else Some(SlashRun(s, SlashRun(s, e.value + m, NotSlashOrSpace), IsWordChar))
  }

  /** The second alternative, a short link `https?://(?:www\.)?redd\.it/[A-Za-z0-9]+`, matched at `i`. */
  function ShortUrlEnd(s: string, i: nat): (r: Option<nat>)
    requires i <= |s|
    ensures r.Some? ==> i < r.value <= |s| && OccursAt(s, "http", i)
    ensures r.Some? ==> exists b :: i <= b && b + 8 < r.value && OccursAt(s, "redd.it/", b)
  {
    match AfterScheme(s, i)
    case None => None
    case Some(a) =>
      var b := Skip(s, a, "www.");
      if !OccursAt(s, "redd.it/", b) then None
      else
        var n := RunLength(s, b + 8, IsAlnum);
        if n == 0 then None else Some(b + 8 + n)
  }

  /** The end of the match at `i`: the first alternative is tried first. */
  function MatchEnd(s: string, i: nat): (r: Option<nat>)
    requires i <= |s|
    ensures r.Some? ==> i < r.value <= |s|
  {
    match PostUrlEnd(s, i)
    case Some(e) => Some(e)
    case None => ShortUrlEnd(s, i)
  }

  predicate MatchesAt(s: string, i: nat) {
    i <= |s| && MatchEnd(s, i).Some?
  }

  /** The regex search as a test on start positions. */
  function Matcher(content: string): nat -> bool {
    (i: nat) => MatchesAt(content, i)
  }

  /** `extract_reddit_url`: `group(0)` of the match that `FirstWhere` finds, or none. */
  function ExtractUrl(content: string): (r: Option<string>)
    ensures r.Some? ==> |r.value| <= |content|
  {
    match FirstWhere(0, |content|, Matcher(content))
    case None => None
    case Some(i) =>
      assert Matcher(content)(i);
      Some(content[i..MatchEnd(content, i).value])
  }

  /** The extracted text is `group(0)` of the leftmost match, and there is none exactly when nothing matches. */
  lemma ExtractUrlLeftmost(content: string)
    ensures ExtractUrl(content).Some? ==>
              exists i: nat :: (MatchesAt(content, i) && ExtractUrl(content).value == content[i..MatchEnd(content, i).value] &&
                                forall j: nat :: j < i ==> !MatchesAt(content, j))
    ensures ExtractUrl(content).None? <==> forall i: nat :: !MatchesAt(content, i)
  {
    var at := Matcher(content);
    match FirstWhere(0, |content|, at)
    case None =>
      assert forall i: nat :: !MatchesAt(content, i) by {
        forall i: nat ensures !MatchesAt(content, i) {
          if i <= |content| {
            assert !at(i);
          }
        }
      }
    case Some(i) =>
      assert forall j: nat :: j < i ==> !MatchesAt(content, j) by {
        forall j: nat | j < i ensures !MatchesAt(content, j) {
          assert !at(j);
        }
      }
      assert at(i);
      assert MatchesAt(content, i);
  }

  /** A matched text starts with `http` and names `reddit.com/r/` or `redd.it/`. */
  lemma MatchShape(s: string, i: nat)
    requires i <= |s| && MatchEnd(s, i).Some?
    ensures StartsWith(s[i..MatchEnd(s, i).value], "http")
    ensures Contains(s[i..MatchEnd(s, i).value], "reddit.com/r/") || Contains(s[i..MatchEnd(s, i).value], "redd.it/")
  {
    var e := MatchEnd(s, i).value;
    assert OccursAt(s, "http", i);
    assert s[i..e][..4] == s[i..i + 4];
    if PostUrlEnd(s, i).Some? {
      var b :| i <= b && b + 13 < e && OccursAt(s, "reddit.com/r/", b);
      OccursWithin(s, i, e, "reddit.com/r/", b);
    } else {
      var b :| i <= b && b + 8 < e && OccursAt(s, "redd.it/", b);
      OccursWithin(s, i, e, "redd.it/", b);
    }
  }

  lemma OccursWithin(s: string, i: nat, e: nat, p: string, b: nat)
    requires i <= b && b + |p| <= e <= |s| && OccursAt(s, p, b)
    ensures Contains(s[i..e], p)
  {
    SliceOfSlice(s, i, e, b - i, b - i + |p|);
    assert OccursAt(s[i..e], p, b - i);
  }

  /** Every extracted link is non-empty, starts with `http` and names `reddit.com/r/` or `redd.it/`. */
  lemma ExtractedUrlShape(content: string)
    requires ExtractUrl(content).Some?
    ensures |ExtractUrl(content).value| > 0 && StartsWith(ExtractUrl(content).value, "http")
    ensures Contains(ExtractUrl(content).value, "reddit.com/r/") || Contains(ExtractUrl(content).value, "redd.it/")
  {
    ExtractUrlLeftmost(content);
    var i: nat :| MatchesAt(content, i) && ExtractUrl(content).value == content[i..MatchEnd(content, i).value];
    MatchShape(content, i);
  }

  /** A short link at the start of the message is extracted whole. */
  lemma ShortLinkExample(s: string)
    requires s == "https://redd.it/x"
    ensures ExtractUrl(s) == Some(s)
  {
    assert s[0..8] == "https://" && s[8..16] == "redd.it/";
    assert AfterScheme(s, 0) == Some(8);
    assert !OccursAt(s, "reddit.com/r/", 8);
    assert PostUrlEnd(s, 0).None?;
    assert s[8..12][0] == 'r' != "www."[0];
    assert !OccursAt(s, "www.", 8);
    assert s[16] == 'x';
    assert RunLength(s, 17, IsAlnum) == 0;
    assert RunLength(s, 16, IsAlnum) == 1;
    assert MatchEnd(s, 0) == Some(17);
    assert s[0..17] == s;
  }

  /** A submission: its title, its self text and the bodies of its top-level comments in order. */
  datatype Post = Post(title: string, selftext: string, comments: seq<string>)

  const CommentLimit: nat := 10

  /** The comment text `fetch_data` returns: the first ten top-level comments, a blank line apart. */
  function CommentsText(comments: seq<string>): string {
    Join(comments[..Min(|comments|, CommentLimit)], "\n\n")
  }

  /** The comment text is empty exactly when there are no comments or the only one is empty. */
  lemma CommentsTextEmpty(comments: seq<string>)
    ensures CommentsText(comments) == "" <==> |comments| == 0 || (|comments| == 1 && comments[0] == "")
  {
    JoinEmpty(comments[..Min(|comments|, CommentLimit)], "\n\n");
  }

  /** The comment text starts with the first comment. */
  lemma CommentsTextStartsWithFirst(comments: seq<string>)
    requires |comments| > 0
    ensures StartsWith(CommentsText(comments), comments[0])
  {
    var taken := comments[..Min(|comments|, CommentLimit)];
    assert taken[0] == comments[0];
    JoinStartsWithFirst(taken, "\n\n", comments[0]);
  }

  /** `fetch_data`'s loop over the first `limit` comments, then the join. */
  method FetchData(post: Post) returns (title: string, content: string, comments: string)
    ensures title == post.title && content == post.selftext
    ensures comments == CommentsText(post.comments)
  {
    var bodies: seq<string> := [];
    var n := Min(|post.comments|, CommentLimit);
    var i := 0;
    while i < n
      invariant 0 <= i <= n
      invariant bodies == post.comments[..i]
    {
      bodies := bodies + [post.comments[i]];
      i := i + 1;
    }
    assert bodies == post.comments[..n];
    return post.title, post.selftext, Join(bodies, "\n\n");
  }

  /**
   * The prompt. The unpack of `fetch_data` rebinds `content` to the post's self text, so the
   * "User query" field repeats the self text rather than the message.
   */
  const PostInstruction: string := "\n```\n\nPlease analyze these comments and follow what "
    + "the user asked you to do and/or say using this information. Do not write a response to this unless asked, "
    + "only follow what the user asked."

  function PostPrompt(title: string, selftext: string, comments: string): string {
    ("User query: " + selftext + "\n\n")
    + ("Reddit post title: " + title + "\n\nReddit post content:\n" + selftext
       + "\n\nTop Reddit post comments:\n```\n" + comments + PostInstruction)
  }

  /**
   * `process`; `fetch` stands for the API call, `None` when it raised, in which case
   * `fetch_data` returns `None` and the three-name unpack raises.
   */
  function Process(content: string, fetch: string -> Option<Post>): (r: PluginResult)
    ensures ExtractUrl(content).None? ==> r == NoneResult
    ensures ExtractUrl(content).Some? && fetch(ExtractUrl(content).value).None? ==> r == Raised(UnpackNone)
    ensures r.Augment? <==> ExtractUrl(content).Some? && fetch(ExtractUrl(content).value).Some? &&
                            CommentsText(fetch(ExtractUrl(content).value).value.comments) != ""
    ensures r.Augment? ==> r.entry.role == User && r.entry.content.Text?
    ensures r.Augment? ==>
      var post := fetch(ExtractUrl(content).value).value;
      r.entry == Entry(User, Text(PostPrompt(post.title, post.selftext, CommentsText(post.comments))))
    ensures !r.Taken? && !r.AugmentWithConfidence?
    ensures r.Raised? ==> r == Raised(UnpackNone)
  {
    match ExtractUrl(content)
    case None => NoneResult
    case Some(url) =>
      match fetch(url)
      case None => Raised(UnpackNone)
      case Some(post) =>
        var comments := CommentsText(post.comments);
        if comments == "" then NoneResult
        else Augment(Entry(User, Text(PostPrompt(post.title, post.selftext, comments))))
  }

  /** The "User query" field of the turn is the post's self text, not the message. */
  lemma UserQueryIsSelftext(content: string, fetch: string -> Option<Post>)
    requires Process(content, fetch).Augment?
    ensures StartsWith(Process(content, fetch).entry.content.text,
                       "User query: " + fetch(ExtractUrl(content).value).value.selftext + "\n\n")
  {
    var post := fetch(ExtractUrl(content).value).value;
    PromptStartsWithSelftext(post.title, post.selftext, CommentsText(post.comments));
  }

  lemma PromptStartsWithSelftext(title: string, selftext: string, comments: string)
    ensures StartsWith(PostPrompt(title, selftext, comments), "User query: " + selftext + "\n\n")
  {
    var head := "User query: " + selftext + "\n\n";
    var p := PostPrompt(title, selftext, comments);
    assert p[..|head|] == head;
  }

  /** The message enters the result only through its link: the prompt never quotes the message. */
  lemma ProcessDependsOnlyOnUrl(a: string, b: string, fetch: string -> Option<Post>)
    requires ExtractUrl(a) == ExtractUrl(b)
    ensures Process(a, fetch) == Process(b, fetch)
  {
  }
}
