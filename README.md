# NebulaAI message routing, in Dafny

A model of the core of NebulaAI, a Discord bot that answers messages with a language
model. The parts modelled are:

- **The round of `handle_gpt`.** A message prefixed with `;` in the bot's channel is handed to
  a fixed chain of plugins: Images, Reddit, YouTube, ImageGen, Shell, then Web. The first
  plugin that accepts decides the round.
  - A *takeover* plugin (Shell, ImageGen) answers by itself and the request is counted.
  - Any other plugin supplies the user turn of the prompt.
  - When no plugin accepts, the message (its leading `;` removed) is the user turn.
- **The prompt and the context.** The prompt sent to the model is the system prompt, then
  the author's stored context, then that turn. The context is extended with the turn and the
  reply before the reply is sent. The request counter goes up only once sending succeeded.
- **The cog's state and its admin commands.** The state is the per-user context store, the
  blacklist, owner-only mode, the request counter, the system prompt and the model names.
  The commands are reset, resetall, set_prompt, set_model, blacklist, unblacklist,
  toggle_owner_only and get_context, whose export redacts inline images in the stored
  entries themselves.
- **The gate of `on_message`** and the split of a reply into Python code blocks and
  2000-character messages.
- **Each plugin's decision and the text it builds,** as functions of what the outside world
  answered:
  - the confidence numeral of the Shell and Web classifiers;
  - ImageGen's trigger phrases and prompt clean-up;
  - Shell's command extraction and transcript;
  - Web's query, context filter and page-text normalisation;
  - the link and handle extraction of YouTube, Reddit and Twitter;
  - the base64 data URL of Images (section 4 of RFC 4648).
- **The plugin base class:** defaults, prompt loading and status embeds.
- **`get_color`:** the avatar URL size rewrite and the RGB packing.

Every call to the outside is a parameter that returns `Option`, with `None` meaning the call
raised. This covers the language model, HTTP, Reddit, yt-dlp/Whisper, SSH and Discord. A
plugin's `process` gives a `PluginBase.PluginResult`:

- `NoneResult`;
- `Taken` (a bare `True`);
- `Augment(entry)` (a one-element prompt list);
- `AugmentWithConfidence(entry, confidence)` (a pair);
- `Raised(fault)` (it raised).

`Router.Run` connects each plugin's model to the chain.

Where the code and its description differ, the model follows the code:
- the Reddit prompt repeats the post body as "User query", because `content` is rebound;
- Web returns a bare `False` for images, which the caller's unpack cannot take;
- a failed YouTube transcription or Reddit fetch returns `None`, and unpacking it raises;
- the two removals of `unblacklist` act on one list;
- Shell shows transcripts of up to 1990 characters inline, so 1989 and 1990 characters give a
  message Discord refuses. `ShellPlugin.RunSession` follows that code; the corrected split is
  under "## Findings".

Regular expressions are modelled as leftmost scanners. Their doc comments argue why
backtracking cannot change the match. `\w` and `\d` are ASCII classes here.

## Model

| member | source | states |
|---|---|---|
| Confidence.FirstNumeral | plugins/shell.py:127 | Leftmost `\d+\.\d+` match: found at some index with no match at any earlier one, and no match anywhere exactly when it is absent |
| Confidence.Decide | plugins/shell.py:127-139 | With a numeral, accepts iff it is at or above the threshold; no numeral gives `(False, 0.00)`; the confidence returned is the numeral |
| Confidence.LowerThresholdAccepts | plugins/web.py:88 | A reply accepted at Shell's 0.60 is accepted at Web's 0.50 threshold |
| Confidence.DecideAcceptsExample | plugins/shell.py:134 | `0.75` is accepted at 0.60 with confidence 0.75 |
| Confidence.DecideThresholdExample | plugins/web.py:88 | `0.59` is refused at 0.60 and accepted at 0.50 |
| Confidence.DecideRefusesExample | plugins/shell.py:128-129 | A reply without a numeral is refused with confidence 0.00 |
| Base64.EncodeLength | plugins/images.py:29 | An encoding has 4·⌈n/3⌉ symbols |
| Base64.Encode | plugins/images.py:29 | Whole groups of four symbols; empty iff there are no bytes |
| Base64.Decode | plugins/images.py:29 | The strict reference decoder: only inputs of whole four-symbol groups decode |
| Base64.GroupRoundTrip | plugins/images.py:29 | A group of one to three bytes decodes back from its four symbols; a padded group only at the end |
| Base64.DecodeEncode | plugins/images.py:29 | Strict decoding of an encoding gives the bytes back |
| Base64.EncodeExample | plugins/images.py:29 | The test vectors `foo` → `Zm9v` and `f` → `Zg==` |
| Chat.Recent | cogs/ai.py:211-215 | The window is the last min(n, 4) entries of the stored context |
| Chat.RecentIsTwoRounds | cogs/ai.py:211-215 | On a paired context the window is 0, 2 or 4 entries and still paired |
| Chat.PairedAppend | cogs/ai.py:280-287 | Appending a user turn and a reply keeps a context paired |
| Chat.RedactEntry | cogs/ai.py:706-715 | Role kept, text content unchanged, every part replaced by its redaction |
| Chat.RedactProperties | cogs/ai.py:706-715 | No inline image survives; pairing and roles kept; a second redaction changes nothing |
| PluginBase.NameOf | plugins/_plugin.py:9 | A class without its own `name` reads `"Plugin"` |
| PluginBase.TakeoverOf | plugins/_plugin.py:10 | A class without its own `normal_takeover` reads `False` |
| PluginBase.TakeoverKinds | plugins/_plugin.py:10 | Exactly Shell and ImageGen take over; the others inherit `False`; every plugin names itself |
| PluginBase.PromptDir | plugins/_plugin.py:27-28 | The directory exists exactly when the class string has a second `.` field, and is `config/prompts/` + that field |
| PluginBase.PromptDirField | plugins/_plugin.py:27-28 | A class string `<class 'plugins.M.…` names `config/prompts/M` |
| PluginBase.PromptDirOfPlugin | plugins/_plugin.py:27-28 | Every plugin reads the directory of its own module |
| PluginBase.PromptName | plugins/_plugin.py:32 | `splitext` drops the `.md` extension except for a name made only of dots |
| PluginBase.PromptsFrom | plugins/_plugin.py:29-36 | The listing read in order, a later file winning; `PromptsFromContents` states the result |
| PluginBase.PromptsFromContents | plugins/_plugin.py:29-36 | Only `.md` files give keys; each value is some such file's stripped text; every `.md` file gives its key |
| PluginBase.LoadPrompts | plugins/_plugin.py:25-36 | A missing directory gives no prompts; otherwise the listing read in order |
| PluginBase.GetPrompt | plugins/_plugin.py:38-39 | The stored text, or `""` for an absent name |
| PluginBase.GetPromptMissing | plugins/_plugin.py:38-39 | A name no `.md` file maps to reads as `""` |
| PluginBase.UpdateEmbed | plugins/_plugin.py:58-65 | Red and the error emoji exactly for an error, blue otherwise; the description ends with the text |
| ImagesPlugin.Process | plugins/images.py:17-48 | Accepts iff the first attachment's type starts with `image/`; a missing type raises; the turn is `[text, image_url]` with a PNG data URL that decodes to the download; never takes over |
| ImageGenPlugin.AnyPhrase | plugins/imagegen.py:90 | `any(phrase in s)` holds iff some phrase occurs |
| ImageGenPlugin.ShouldUse | plugins/imagegen.py:89-93 | `(True, 1.0)` iff a trigger phrase occurs in the lower-cased content, else `(False, 0.0)` |
| ImageGenPlugin.SdPrompt | plugins/imagegen.py:95-101 | The prompt is stripped and single-spaced |
| ImageGenPlugin.GeneratePrompt | plugins/imagegen.py:95-101 | The phrase loop and the whitespace collapse compute the prompt |
| ImageGenPlugin.RemoveAbsentPhrases | plugins/imagegen.py:97-98 | Text without any of the phrases is only stripped |
| ImageGenPlugin.CapitalisedTriggerAccepted | plugins/imagegen.py:90 | `Create art` triggers the plugin |
| ImageGenPlugin.CapitalisedTriggerKept | plugins/imagegen.py:96-98 | `Create art` is not removed from the prompt |
| ImageGenPlugin.Process | plugins/imagegen.py:36-87 | `None` iff not triggered; once triggered, `True` iff the POST returned and, on a 200, the reply decodes and the author has an avatar; otherwise it raises; no completion |
| ShellPlugin.ShouldUse | plugins/shell.py:124-139 | Accepts iff the stripped reply's first numeral is at least 0.60; no numeral gives `(False, 0.00)` |
| ShellPlugin.Segments | plugins/shell.py:59-63 | The pieces after the first once the `bash` and `shell` openers are bare fences; `SegmentsFenceFree` proves none holds a fence |
| ShellPlugin.CommandOf | plugins/shell.py:65 | A command is stripped and holds no fence |
| ShellPlugin.CommandsAreStrippedSegments | plugins/shell.py:59-70 | Every segment, text between blocks included, gives its stripped text when non-empty |
| ShellPlugin.SegmentsFenceFree | plugins/shell.py:59-63 | No segment of the split holds a fence |
| ShellPlugin.RunRunsCommandsInOrder | plugins/shell.py:59-70 | The commands run are the extracted ones in order; all of them unless an exec raised |
| ShellPlugin.RunCommands | plugins/shell.py:58-70 | The loop over the segments computes the results and whether an exec raised |
| ShellPlugin.TranscriptOf | plugins/shell.py:76-79 | The transcript is empty iff nothing ran |
| ShellPlugin.TranscriptAppend | plugins/shell.py:76-79 | The transcript of two runs is their transcripts concatenated |
| ShellPlugin.TranscriptLength | plugins/shell.py:76-79 | The transcript is as long as the command blocks together |
| ShellPlugin.BuildTranscript | plugins/shell.py:76-79 | The `out +=` loop gives the transcript |
| ShellPlugin.SplitMessageAsWritten | plugins/shell.py:162-177 | File with the notice iff over 1990 characters; otherwise the transcript inside a 12-character bash fence |
| ShellPlugin.SplitMessageAsWrittenOverflows | plugins/shell.py:163-174 | A 1990-character transcript is shown inline as 2002 characters |
| ShellPlugin.AsWrittenFitsIff | plugins/shell.py:162-177 | As written, the message fits 2000 characters iff the transcript has at most 1988 or more than 1990 characters |
| ShellPlugin.SplitMessage | plugins/shell.py:162-177 | Corrected: file iff over 1988 characters; inline text is the fenced transcript; the message always fits 2000 |
| ShellPlugin.RunSession | plugins/shell.py:43-102 | The container is removed iff every exec succeeded (no `finally`); output is shown iff it was removed, the author has an avatar and the message `send_split_message` builds fits Discord's limit, and it is that message |
| ShellPlugin.Process | plugins/shell.py:29-106 | `None` iff refused; `True` whatever the session did once accepted; only the completions raise |
| WebPlugin.ClassifierText | plugins/web.py:61 | The classifier text is no longer than the message and does not start with `;` |
| WebPlugin.ShouldSearch | plugins/web.py:56-93 | A first image attachment gives a bare `False`; a missing type raises; otherwise accepts iff the stripped reply's first numeral is at least 0.50 |
| WebPlugin.AssistantContentsAppend | plugins/web.py:96 | The filter distributes over concatenation |
| WebPlugin.AssistantContentsOfPaired | plugins/web.py:96 | On a paired context it keeps exactly the replies, in order |
| WebPlugin.SearchString | plugins/web.py:40 | No quote: the whole query; otherwise a string with no quote |
| WebPlugin.SearchStringBetweenQuotes | plugins/web.py:40 | The text between the first quote and the next one, or the end |
| WebPlugin.NormalizeText | plugins/web.py:157-161 | Lines split, stripped, broken at double spaces and the non-empty phrases joined by one space; `NormalizeTextClean` states the result |
| WebPlugin.NormalizeTextClean | plugins/web.py:157-161 | The normalised text is one stripped line without double spaces |
| WebPlugin.ScrapeText | plugins/web.py:134-175 | At most 2000 characters; a failure or non-200 gives `No content available` |
| WebPlugin.ScrapeWithoutComments | plugins/web.py:157-171 | Without comment blocks, the normalised text cut to 2000, one line |
| WebPlugin.HitBlocks | plugins/web.py:126-130 | One block per hit, in order, each with its page text |
| WebPlugin.SearchText | plugins/web.py:116-132 | `No results found.` without hits, else the hit blocks a blank line apart; the two lemmas below state the result |
| WebPlugin.SearchTextStartsWithFirstHit | plugins/web.py:132 | The search text starts with the first hit's block |
| WebPlugin.SearchTextSingleHit | plugins/web.py:132 | One hit reads as exactly its block |
| WebPlugin.SearchWeb | plugins/web.py:116-132 | The loop computes the search text (`No results found.` for no hits) |
| WebPlugin.Process | plugins/web.py:24-54 | A bare `False` raises at the unpack and only then; `None` iff refused; an accepted turn carries the confidence; the query is generated from the assistant replies alone, the search is for its quoted part, and the turn is the user query, that query and the search text |
| YouTubePlugin.FirstVideoWord | plugins/youtube.py:70-73 | The first word that mentions a video, and none exactly when no word does |
| YouTubePlugin.ExtractUrl | plugins/youtube.py:68-73 | The first whitespace-separated word containing either host, or none |
| YouTubePlugin.TriggerFindsUrl | plugins/youtube.py:39-47 | The trigger always finds a non-empty URL word, so the invalid-URL branch cannot run |
| YouTubePlugin.Process | plugins/youtube.py:32-66 | `None` without a link; a failed transcription raises at the unpack; a turn iff the transcript is non-empty |
| RedditPlugin.PostUrlEnd | plugins/reddit.py:73 | A post-link match spans `reddit.com/r/` |
| RedditPlugin.ShortUrlEnd | plugins/reddit.py:73 | A short-link match spans `redd.it/` |
| RedditPlugin.ExtractUrl | plugins/reddit.py:71-76 | A found link is a part of the message, so no longer than it |
| RedditPlugin.ExtractUrlLeftmost | plugins/reddit.py:71-76 | The link is `group(0)` of the leftmost match, and there is none exactly when the pattern matches nowhere |
| RedditPlugin.MatchShape | plugins/reddit.py:73 | A match starts with `http` and names `reddit.com/r/` or `redd.it/` |
| RedditPlugin.ExtractedUrlShape | plugins/reddit.py:71-76 | The extracted link is non-empty, starts with `http` and names one of the hosts |
| RedditPlugin.ShortLinkExample | plugins/reddit.py:73 | `https://redd.it/x` is extracted whole |
| RedditPlugin.CommentsText | plugins/reddit.py:62-66 | The first ten comments a blank line apart; the two lemmas below state the result |
| RedditPlugin.CommentsTextEmpty | plugins/reddit.py:62-66 | The comment text is empty iff there are no comments or the only one is empty |
| RedditPlugin.CommentsTextStartsWithFirst | plugins/reddit.py:62-66 | The comment text starts with the first comment |
| RedditPlugin.FetchData | plugins/reddit.py:55-66 | Title, self text, and the first ten comments joined by a blank line |
| RedditPlugin.Process | plugins/reddit.py:25-53 | `None` without a link; a failed fetch raises at the unpack; a turn iff the comment text is non-empty, and the turn is the prompt built from the post's title, self text and comment text |
| RedditPlugin.PromptStartsWithSelftext | plugins/reddit.py:45-50 | The prompt opens with `User query: ` and the self text |
| RedditPlugin.UserQueryIsSelftext | plugins/reddit.py:35-48 | Because `content` is rebound, the turn's `User query` is the post's self text |
| RedditPlugin.ProcessDependsOnlyOnUrl | plugins/reddit.py:35-48 | Because `content` is rebound to the post body, two messages with the same link give the same result |
| TwitterPlugin.ExtractUsername | plugins/twitter.py:50-52 | The maximal word run after the leftmost `@` followed by a word character, or none |
| TwitterPlugin.UsernameIsWord | plugins/twitter.py:51 | A username is a non-empty run of word characters |
| TwitterPlugin.MentionExample | plugins/twitter.py:51 | `@jack hi` names `jack` |
| TwitterPlugin.TweetsText | plugins/twitter.py:54-72 | `None` iff not a 200 or no tweets; else the first five joined by a blank line |
| TwitterPlugin.TweetsTextStartsWithFirst | plugins/twitter.py:72 | The text starts with the first tweet |
| TwitterPlugin.FetchTweets | plugins/twitter.py:54-72 | The loop computes the tweets text |
| TwitterPlugin.Process | plugins/twitter.py:18-48 | `None` without a handle; a failed GET raises; a turn iff tweets were found, and the turn is the message, the handle and the tweets text |
| ColorThief.TrailingDigits | utils/colorthief.py:17 | The maximal run of digits ending the query |
| ColorThief.SizeSuffix | utils/colorthief.py:17 | A found size is one of the pattern's and ends the query |
| ColorThief.SizeSuffixComplete | utils/colorthief.py:17 | Every query ending in `?size=N` for a listed `N` is found with that `N` |
| ColorThief.Resize | utils/colorthief.py:16-18 | The size rewrite never lengthens the URL |
| ColorThief.RewriteQuery | utils/colorthief.py:12-18 | The query fetched is never longer than the one given |
| ColorThief.RewriteOnlyCdn | utils/colorthief.py:12-15 | A URL off the CDN icon/avatar paths is fetched as given |
| ColorThief.SmallSizeFinal | utils/colorthief.py:17 | `?size=16` is not a size of the pattern |
| ColorThief.NewlineHasNoSize | utils/colorthief.py:17 | A text ending in a newline has no size suffix |
| ColorThief.ResizeIdempotent | utils/colorthief.py:16-18 | Rewriting a rewritten URL changes nothing |
| ColorThief.ResizeExample | utils/colorthief.py:16-18 | `…?size=1024` becomes `…?size=16` |
| ColorThief.HexValueAppend | utils/colorthief.py:24 | Appending hex digits shifts the value left four bits per digit |
| ColorThief.Hex2Value | utils/colorthief.py:24 | `:02x` of a channel reads back as the channel |
| ColorThief.ColorLiteralValue | utils/colorthief.py:24 | The literal parses as r·65536 + g·256 + b, below 2²⁴ |
| ColorThief.GetColor | utils/colorthief.py:10-27 | Below 2²⁴; `0x505050` when anything raises; otherwise the packed dominant colour of the rewritten URL |
| ResponseSplit.OddPieces | cogs/ai.py:325-326 | The pieces at odd indices of the split |
| ResponseSplit.PythonBlocks | cogs/ai.py:325-328 | At most one code block per odd piece |
| ResponseSplit.PythonBlocksSound | cogs/ai.py:325-328 | Each code block is stripped and is the stripped rest of some piece starting with `python` |
| ResponseSplit.PythonBlocksCount | cogs/ai.py:325-328 | No block without a piece starting with `python`; one per piece when all start with it |
| ResponseSplit.CodeBlocks | cogs/ai.py:324-328 | Every code block is stripped and holds no fence |
| ResponseSplit.NoFenceNoBlocks | cogs/ai.py:324-328 | A reply without a fence offers no code |
| ResponseSplit.Chunks | cogs/ai.py:330-331 | Non-empty chunks of at most 2000 characters, all but the last full |
| ResponseSplit.ChunksCount | cogs/ai.py:330-331 | There are ⌈n/2000⌉ chunks |
| ResponseSplit.ChunksConcat | cogs/ai.py:330-331 | The chunks concatenate to the reply |
| ResponseSplit.NoChunksOnlyWhenEmpty | cogs/ai.py:330 | Only an empty reply gives no chunk |
| ResponseSplit.CollectCodeBlocks | cogs/ai.py:324-328 | The first loop computes the code blocks |
| ResponseSplit.PythonCode | cogs/ai.py:325-328 | The loop over odd indices computes the code of the `python` blocks |
| ResponseSplit.ChunkResponse | cogs/ai.py:330-331 | The second loop computes the chunks |
| ResponseSplit.SplitResponse | cogs/ai.py:322-331 | Both lists of `send_response` |
| Router.Run | cogs/ai.py:223-225 | Only takeover plugins return `True`; turns from the others are user turns; only Web gives a confidence or a bare `False` |
| Router.SelectFrom | cogs/ai.py:223-251 | Stops at the first plugin whose result is truthy or raised; all before it gave `None` |
| Router.Select | cogs/ai.py:223-251 | The first stopping plugin, and no plugin stops exactly when all give `None` |
| Router.Dispatch | cogs/ai.py:223-251 | The loop's selection, and the plugins invoked are the chain up to it; none after |
| Router.DefaultChainNoUnpackBool | cogs/ai.py:166-175 | In the default chain no round ends on Web's bare `False`, because Images comes first |
| Router.RouteOf | cogs/ai.py:226-251 | Takeover iff a takeover plugin was truthy; fallback turn without a plugin; a raise ends the round |
| Router.InputOf | cogs/ai.py:204-215 | Plugins see the content without leading `;` and at most four stored entries |
| Router.RouteForIsSound | cogs/ai.py:238-251 | No round sees a bare `True` from a non-takeover plugin; every turn is a user turn |
| Router.RequestOf | cogs/ai.py:253-264 | Vision model iff there are attachments; messages are system, the whole stored context, the turn |
| Router.Complete | cogs/ai.py:253-311 | Counted iff taken over or answered; failures before the send leave the context; a sent or failed send leaves it extended by turn and reply |
| Router.Delivers | cogs/ai.py:330-369 | `send_response` completes iff there is a chunk to send, Discord takes it, the author has an avatar and SSH connects when code is offered |
| Router.RoundOf | cogs/ai.py:203-311 | The round is the chain's route completed; the lemmas below state what it does |
| Router.TakeoverIffTakeoverPlugin | cogs/ai.py:226-236 | A round is taken over iff the first accepting plugin is Shell or ImageGen |
| Router.FallbackRequest | cogs/ai.py:247-264 | With no plugin accepting, the request ends with the content as a text user turn |
| Router.RoundTouchesOnlyAuthor | cogs/ai.py:280-287 | Only the author's context can change |
| Router.CompleteKeepsPaired | cogs/ai.py:280-287 | A completed round keeps every context paired; a changed context holds at least one exchange |
| Router.RoundKeepsPaired | cogs/ai.py:280-287 | Every round keeps every context paired |
| Router.GateOf | cogs/ai.py:384-441 | Routes iff guild, no bot, not blacklisted, owner-only respected, no voice note, the channel and `;` |
| AICog.FirstIndex | cogs/ai.py:678 | The first index of the id, none exactly when it is absent |
| AICog.Remove | cogs/ai.py:678-680 | `list.remove`: raises iff absent; otherwise one occurrence fewer, the first one |
| AICog.UnblacklistOf | cogs/ai.py:678-680 | Refused iff the id is absent, and then the list is kept |
| AICog.RemoveAppended | cogs/ai.py:646-680 | An id blacklisted once is removed by the first removal and the second one raises |
| AICog.UnblacklistCounts | cogs/ai.py:678-680 | Absent: refused, list kept; listed once: removed, then the second removal raises; listed twice or more: two occurrences fewer |
| AICog.RedactParts | cogs/ai.py:706-715 | The inner loop redacts one entry |
| AICog.RedactStored | cogs/ai.py:704-715 | The outer loop redacts every entry |
| AICog.Cog.constructor | cogs/ai.py:150-175 | No contexts, the configured blacklist, owner-only off, the date in the prompt, the default chain |
| AICog.Cog.IncrementRequests | cogs/ai.py:199-201 | The counter rises by one, nothing else changes |
| AICog.Cog.HandleGpt | cogs/ai.py:203-311 | The state after the round is the round's; contexts stay paired |
| AICog.Cog.Record | cogs/ai.py:280-287 | The author's stored context gains the turn and the reply, a new key starting with the turn; nothing else changes |
| AICog.Cog.Respond | cogs/ai.py:253-311 | The completion, the context update before the send and the count after it |
| AICog.Cog.OnMessage | cogs/ai.py:384-441 | A message passing the gate runs a round; any other changes nothing |
| AICog.Cog.Reset | cogs/ai.py:509-522 | Refuses iff the caller has no context; removes exactly the caller's key |
| AICog.Cog.ResetAll | cogs/ai.py:524-532 | The owner empties every context |
| AICog.Cog.SetPrompt | cogs/ai.py:539-557 | The owner's text replaces the prompt as given and every context is dropped |
| AICog.Cog.SetModel | cogs/ai.py:591-618 | The owner replaces both model names |
| AICog.Cog.Blacklist | cogs/ai.py:643-664 | A listed id is refused; another is appended once |
| AICog.Cog.Unblacklist | cogs/ai.py:666-688 | Non-owners change nothing; the owner gets the outcome of the two removals and the list they leave |
| AICog.Cog.ToggleOwnerOnly | cogs/ai.py:767-776 | The owner flips owner-only mode |
| AICog.Cog.GetContext | cogs/ai.py:690-734 | Another user's context only for the owner; the export is the redacted context, and the stored entries become it too |

## Left out

- Discord presentation is not modelled: embeds, reactions, buttons, the code-run view and
  select menu, message edits and replies, and the plugin-info/statistics footers. Delivery is
  one flag per call.
- The language model is a function from the request to an optional completion.
  - Timing is a whole number of thousandths of a second. Only the zero that makes the
    tokens-per-second division raise is modelled.
  - The token count and the float formatting are not modelled.
- `Router.Complete`: any failure of `send_response` is one flag, so which chunk failed is not
  modelled.
- `AICog.Cog.OnMessage`: the voice-message branch is not modelled. That branch transcribes
  the note, may run a round and counts a request. Here it changes nothing.
- The get_prompt, get_model, get_base_url, set_base_url, docker and convert commands are
  not modelled. They only display values or send out, except set_base_url, which sets the
  client URL outside this model. `models_autocompletion` and `get_ssh_connection` are not
  modelled either.
- Persistence is not modelled: `write_json`, `load_proxies` and the random proxy choice.
  The configuration lives in the cog's fields.
- Prompt files are given as a list of (name, text) pairs in listing order. No file is read.
- yt-dlp, Whisper, asyncpraw, DuckDuckGo, BeautifulSoup and the Stable Diffusion server are
  abstract results.
  - A page is its status, its visible text and its comment texts. The HTML traversal is not
    modelled.
- SSH and docker are modelled as one `Host` record of outcomes. `utils/container.py` is not
  part of this model.
- `utils/context_commands.py` and `utils/scrapers/` are not part of this model.
- The colour cache and the dominant-colour extraction are not modelled.
- Concurrency is not modelled: each round is one sequential step.
- `ShellPlugin.ShouldUse`, `WebPlugin.ShouldSearch`, `Confidence.Decide`: confidences are
  exact decimals, not floats. They can differ only on numerals with huge precision.
- `TextUtil`: `\w`, `\d` and `lower()` are ASCII. Whitespace is the full set Python's
  `isspace` accepts. `splitlines` splits at every line-break character.
- `RedditPlugin.ExtractUrl`, `TwitterPlugin.ExtractUsername`: non-ASCII word characters are
  not matched.
- The texts of the classifier, query-generation and command-generation prompts are not
  modelled. Those completions are functions of the input.
- TwitterPlugin is modelled, but it is not in the chain the cog builds, so no round runs
  it.
- `WebPlugin.SearchWeb`, `WebPlugin.HitBlocks`: a page's fetch and text extraction are one
  parameter `scrape`. `WebPlugin.Process` passes `ScrapeText` of its fetch.
- `ShellPlugin.RunCommands` takes the segments; the replace and split that produce them are
  `ShellPlugin.Segments`, applied by `ShellPlugin.RunSession`.
- `ImageGenPlugin.Process`: after a status 200, the reply is one flag saying whether the JSON,
  its first image and the base64 decode all succeed. The image file and the embed are not
  modelled.

## Findings

| source | as written | input that shows it | evidently intended | confidence | as-written member | corrected member |
|---|---|---|---|---|---|---|
| plugins/shell.py:163 | transcripts up to 1990 characters are shown inline inside a 12-character bash fence | a 1990-character transcript gives a 2002-character message, over Discord's 2000 | every inline message fits 2000 characters | not executed | ShellPlugin.SplitMessageAsWrittenOverflows | ShellPlugin.SplitMessage |
