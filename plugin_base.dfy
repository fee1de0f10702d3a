/**
 * The plugin base class: the class attributes every plugin inherits or overrides, the prompt
 * files a plugin loads from `config/prompts/<module>/`, `get_prompt`, the status-embed line of
 * `update_embed`, and the values a plugin's `process` can hand back to the router.
 */
module PluginBase {
  import opened Wrappers
  import opened TextUtil
  import opened Chat
  import opened Confidence

  /** The plugin classes of the repository. */
  datatype PluginKind = Images | Reddit | YouTube | ImageGen | Shell | Web | Twitter

  /** The base class's `name` and `normal_takeover`. */
  const DefaultName := "Plugin"
  const DefaultTakeover := false

  /** The class attributes a subclass declares itself; `None` means it inherits the base value. */
  datatype ClassAttrs = ClassAttrs(name: Option<string>, normalTakeover: Option<bool>)

  function Declared(k: PluginKind): ClassAttrs {
    match k
    case Images => ClassAttrs(Some("Image Processing"), None)
    case Reddit => ClassAttrs(Some("Reddit"), None)
    case YouTube => ClassAttrs(Some("YouTube"), None)
    case ImageGen => ClassAttrs(Some("Image Generation"), Some(true))
    case Shell => ClassAttrs(Some("Shell"), Some(true))
    case Web => ClassAttrs(Some("Web Search"), None)
    case Twitter => ClassAttrs(Some("Twitter"), None)
  }

  /** Attribute lookup: the subclass's own value, else the base class's. */
  function NameOf(a: ClassAttrs): (r: string)
    ensures a.name.None? ==> r == DefaultName
    ensures a.name.Some? ==> r == a.name.value
  {
    a.name.GetOr(DefaultName)
  }

  function TakeoverOf(a: ClassAttrs): (r: bool)
    ensures a.normalTakeover.None? ==> r == DefaultTakeover
    ensures a.normalTakeover.Some? ==> r == a.normalTakeover.value
  {
    a.normalTakeover.GetOr(DefaultTakeover)
  }

  function Name(k: PluginKind): string {
    NameOf(Declared(k))
  }

  function NormalTakeover(k: PluginKind): bool {
    TakeoverOf(Declared(k))
  }

  /** Exactly the Shell and ImageGen plugins take a round over; every other plugin inherits `False`. */
  lemma TakeoverKinds(k: PluginKind)
    ensures NormalTakeover(k) <==> (k == Shell || k == ImageGen)
    ensures !NormalTakeover(k) ==> Declared(k).normalTakeover.None?
    ensures Name(k) != DefaultName
  {
  }

  /** The module file of a plugin class, under `plugins/`. */
  function ModuleOf(k: PluginKind): string {
    match k
    case Images => "images"
    case Reddit => "reddit"
    case YouTube => "youtube"
    case ImageGen => "imagegen"
    case Shell => "shell"
    case Web => "web"
    case Twitter => "twitter"
  }

  function ClassName(k: PluginKind): string {
    match k
    case Images => "ImagesPlugin"
    case Reddit => "RedditPlugin"
    case YouTube => "YouTubePlugin"
    case ImageGen => "ImageGenPlugin"
    case Shell => "ShellPlugin"
    case Web => "WebPlugin"
    case Twitter => "TwitterPlugin"
  }

  /** `str(self.__class__)` of a plugin. */
  function ClassRepr(k: PluginKind): string {
    "<class 'plugins" + "." + ModuleOf(k) + "." + ClassName(k) + "'>"
  }

  /** The prompt directory named by the second `.`-separated field of a class string; `None` when there is none (the index raises). */
  function PromptDir(repr: string): (r: Option<string>)
    ensures r.Some? <==> |Split(repr, ".")| >= 2
    ensures r.Some? ==> r.value == "config/prompts/" + Split(repr, ".")[1]
  {
    var fields := Split(repr, ".");
    if |fields| < 2 then None else Some("config/prompts/" + fields[1])
  }

  /** A class string `<class 'plugins.M.rest` names the directory of module `M` when `M` has no dot. */
  lemma PromptDirField(m: string, rest: string)
    requires '.' !in m
    ensures PromptDir("<class 'plugins" + "." + m + "." + rest) == Some("config/prompts/" + m)
  {
    var head := "<class 'plugins";
    assert '.' !in head;
    assert head + "." + m + "." + rest == head + ['.'] + (m + ['.'] + rest);
    SplitAtChar(head, '.', m + ['.'] + rest);
    SplitAtChar(m, '.', rest);
  }

  lemma ModuleHasNoDot(k: PluginKind)
    ensures '.' !in ModuleOf(k)
  {
    match k
    case Images =>
    case Reddit =>
    case YouTube =>
    case ImageGen =>
    case Shell =>
    case Web =>
    case Twitter =>
  }

  /** Every plugin reads its prompts from the directory named after its module. */
  lemma PromptDirOfPlugin(k: PluginKind)
    ensures PromptDir(ClassRepr(k)) == Some("config/prompts/" + ModuleOf(k))
  {
    var m := ModuleOf(k);
    ModuleHasNoDot(k);
    PromptDirField(m, ClassName(k) + "'>");
    assert ClassRepr(k) == "<class 'plugins" + "." + m + "." + (ClassName(k) + "'>");
  }

  /** A directory entry: the file name and the file's text. */
  datatype PromptFile = PromptFile(name: string, text: string)

  /**
   * `os.path.splitext(f)[0]` for a name ending in `.md`: the name without its extension, except
   * that when everything before the last dot is dots the whole name is kept.
   */
  function PromptName(f: string): (r: string)
    requires EndsWith(f, ".md")
    ensures r == f || r == f[..|f| - 3]
    ensures (exists i :: 0 <= i < |f| - 3 && f[i] != '.') ==> r == f[..|f| - 3]
  {
    var stem := f[..|f| - 3];
    if forall i :: 0 <= i < |stem| ==> stem[i] == '.' then f else stem
  }

  predicate IsPromptFile(f: PromptFile) {
    EndsWith(f.name, ".md")
  }

  /** The prompt map after reading `files` in order; a later file with the same key wins. */
  function PromptsFrom(files: seq<PromptFile>): map<string, string>
    decreases |files|
  {
    if |files| == 0 then map[]
    else
      var m := PromptsFrom(files[..|files| - 1]);
      var f := files[|files| - 1];
      if IsPromptFile(f) then m[PromptName(f.name) := Strip(f.text)] else m
  }

  /** Only `.md` files give keys, each value is a stripped file text, and every `.md` file gives its key. */
  lemma {:induction false} PromptsFromContents(files: seq<PromptFile>)
    ensures forall key :: key in PromptsFrom(files) ==>
      exists i :: 0 <= i < |files| && IsPromptFile(files[i]) && PromptName(files[i].name) == key
                  && PromptsFrom(files)[key] == Strip(files[i].text)
    ensures forall i :: 0 <= i < |files| && IsPromptFile(files[i]) ==> PromptName(files[i].name) in PromptsFrom(files)
    decreases |files|
  {
    if |files| > 0 {
      var init := files[..|files| - 1];
      PromptsFromContents(init);
      forall i | 0 <= i < |init| ensures init[i] == files[i] { }
    }
  }

  /** `load_prompts`: an absent directory gives no prompts; otherwise each `.md` file is read in listing order. */
  method LoadPrompts(dir: Option<seq<PromptFile>>) returns (prompts: map<string, string>)
    ensures dir.None? ==> prompts == map[]
    ensures dir.Some? ==> prompts == PromptsFrom(dir.value)
  {
    prompts := map[];
    if dir.None? {
      return;
    }
    var files := dir.value;
    var i := 0;
    while i < |files|
      invariant 0 <= i <= |files|
      invariant prompts == PromptsFrom(files[..i])
    {
      var f := files[i];
      if EndsWith(f.name, ".md") {
        prompts := prompts[PromptName(f.name) := Strip(f.text)];
      }
      assert files[..i + 1][..i] == files[..i];
      i := i + 1;
    }
    assert files[..i] == files;
  }

  /** `get_prompt`: the stored text, or the empty string for a name with no prompt. */
  function GetPrompt(prompts: map<string, string>, name: string): (r: string)
    ensures name in prompts ==> r == prompts[name]
    ensures name !in prompts ==> r == ""
  {
    if name in prompts then prompts[name] else ""
  }

  /** A prompt name no `.md` file maps to reads as the empty string. */
  lemma GetPromptMissing(files: seq<PromptFile>, name: string)
    requires forall i :: 0 <= i < |files| && IsPromptFile(files[i]) ==> PromptName(files[i].name) != name
    ensures GetPrompt(PromptsFrom(files), name) == ""
  {
    PromptsFromContents(files);
  }

  /** The Discord colours the bot uses. */
  datatype Colour = Red | Blue | Green

  datatype StatusEmbed = StatusEmbed(description: string, colour: Colour)

  const ErrorEmoji := "<:error:1294770298649972850>"
  const LoadingEmoji := "<a:loading:1292980861142040606>"

  /** `update_embed`: the error emoji and red for an error, the loading emoji and blue otherwise. */
  function UpdateEmbed(description: string, error: bool): (r: StatusEmbed)
    ensures r.colour == Red <==> error
    ensures r.colour == Blue <==> !error
    ensures StartsWith(r.description, ErrorEmoji) <==> error
    ensures EndsWith(r.description, " " + description)
  {
    var d := (if error then ErrorEmoji else LoadingEmoji) + " " + description;
    assert d[..|ErrorEmoji|] == if error then ErrorEmoji else LoadingEmoji[..|ErrorEmoji|];
    assert LoadingEmoji[1] != ErrorEmoji[1];
    assert d[|d| - |" " + description|..] == " " + description;
    StatusEmbed(d, if error then Red else Blue)
  }

  /** Why a plugin's `process` ended with an exception instead of a value. */
  datatype Fault =
    | MissingContentType   // `content_type` is None, so `.startswith` fails
    | UnpackBool           // `should_search_web` returned a bare `False`
    | UnpackNone           // a fetch or transcription helper returned `None`
    | External             // an HTTP, completion or other remote call raised

  /**
   * What `process` hands back: `None`, `True`, a one-element prompt list, a
   * `(prompt list, confidence)` pair, or an exception that leaves the router.
   */
  datatype PluginResult =
    | NoneResult
    | Taken
    | Augment(entry: Entry)
    | AugmentWithConfidence(entry: Entry, confidence: Decimal)
    | Raised(fault: Fault)

  /** Python truthiness of a returned value (an exception is no value). */
  predicate Truthy(r: PluginResult) {
    r.Taken? || r.Augment? || r.AugmentWithConfidence?
  }
}
