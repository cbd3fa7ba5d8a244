/**
 * The trigger service: MQTT topics `<base>/<service>` are routed to
 * downloads (`handleService`, `downloadTwitch`, `downloadYoutube`), each
 * download gets a yt-dlp argument list built by `push` and `splice`
 * (`downloadVideo`), repeated messages are dropped until the minute changes,
 * and a minute tick publishes "online" and starts garbage collection.
 * Environment variables, the cookie-file check and the video metadata are
 * parameters; the broker and the cluster are not modelled.
 */
module Index {
  import opened Js
  import KubeApi

  const DefaultFormat := "%(title)s [%(id)s].%(ext)s"
  const TwitchUrl := "https://www.twitch.tv/"
  const TwitchVideos := "videos/"
  const YoutubeWatchUrl := "https://www.youtube.com/watch?v="
  const DirectoryPrefix := "directory/"
  const CookieFile := "/data/cookies.txt"

  /** The list `downloadVideo` starts from. */
  const BaseOptions: seq<string> := ["-f", "bestvideo+bestaudio/best", "--add-metadata", "--embed-subs",
                                     "--merge-output-format", "mkv", "-c", "--wait-for-video", "60", "--embed-thumbnail"]

  /**
   * The environment: the title formats ("" when unset) and the numeric
   * values `ALWAYS_MKV` and `SAVE_MTIME` compare as (0 when unset).
   */
  datatype Env = Env(titleFormatTwitch: string, titleFormatYoutube: string, alwaysMkv: int, saveMtime: int)

  /** `TITLE_FORMAT_TWITCH || DEFAULT_FORMAT`, `TITLE_FORMAT_YOUTUBE || DEFAULT_FORMAT`, or the default, by source. */
  function OutputFormat(env: Env, source: string): (f: string)
    ensures f != ""
    ensures source == "youtube" && env.titleFormatYoutube != "" ==> f == env.titleFormatYoutube
    ensures source == "twitch" && env.titleFormatTwitch != "" ==> f == env.titleFormatTwitch
    ensures source == "youtube" && env.titleFormatYoutube == "" ==> f == DefaultFormat
    ensures source == "twitch" && env.titleFormatTwitch == "" ==> f == DefaultFormat
    ensures source != "youtube" && source != "twitch" ==> f == DefaultFormat
  {
    if source == "youtube" then (if env.titleFormatYoutube != "" then env.titleFormatYoutube else DefaultFormat)
    else if source == "twitch" then (if env.titleFormatTwitch != "" then env.titleFormatTwitch else DefaultFormat)
    else DefaultFormat
  }

  // ---------------------------------------------------------------- download requests

  /** The arguments of one `downloadVideo(url, source, trigger, includeSubs, subdirectory)` call. */
  datatype Download = Download(url: string, source: string, trigger: string, includeSubs: Option<bool>, subdirectory: string)

  predicate IsAsciiDigit(c: char) { '0' <= c <= '9' }

  /** `/^\d{4}\d+$/`: five or more ASCII digits and nothing else. */
  predicate LooksLikeVod(username: string) {
    |username| >= 5 && forall i :: 0 <= i < |username| ==> IsAsciiDigit(username[i])
  }

  /** `downloadTwitch(username, directory)`: a channel URL, or a VOD URL for a long number. */
  function DownloadTwitch(username: string, directory: string): (d: Download)
    ensures d.source == "twitch" && d.trigger == username && d.includeSubs == Some(false)
    ensures d.subdirectory == directory
    ensures LooksLikeVod(username) ==> d.url == TwitchUrl + TwitchVideos + username
    ensures !LooksLikeVod(username) ==> d.url == TwitchUrl + username
  {
    var url := TwitchUrl + (if LooksLikeVod(username) then TwitchVideos else "") + username;
    Download(url, "twitch", username, Some(false), directory)
  }

  /** The name a Twitch URL built by `downloadTwitch` was made from. */
  function TwitchUsername(url: string): string
    requires StartsWith(url, TwitchUrl)
  {
    var rest := url[|TwitchUrl|..];
    if StartsWith(rest, TwitchVideos) && LooksLikeVod(rest[|TwitchVideos|..]) then rest[|TwitchVideos|..] else rest
  }

  /**
   * The URL determines the name when the name has no '/': otherwise
   * "videos/12345" and "12345" would build the same URL.
   */
  lemma TwitchUrlRoundTrip(username: string, directory: string)
    requires '/' !in username
    ensures StartsWith(DownloadTwitch(username, directory).url, TwitchUrl)
    ensures TwitchUsername(DownloadTwitch(username, directory).url) == username
  {
    var url := DownloadTwitch(username, directory).url;
    if LooksLikeVod(username) {
      var rest := url[|TwitchUrl|..];
      assert rest == TwitchVideos + username;
      assert rest[..|TwitchVideos|] == TwitchVideos;
      assert rest[|TwitchVideos|..] == username;
    } else {
      assert url[|TwitchUrl|..] == username;
      if |username| >= |TwitchVideos| {
        assert username[..|TwitchVideos|][6] != TwitchVideos[6];
      }
      assert !StartsWith(username, TwitchVideos);
    }
  }

  /** `downloadYoutube(videoId, directory)`: the watch URL of the id, subtitles requested. */
  function DownloadYoutube(videoId: string, directory: string): (d: Download)
    ensures d.source == "youtube" && d.trigger == videoId && d.includeSubs == Some(true)
    ensures d.subdirectory == directory
    ensures StartsWith(d.url, YoutubeWatchUrl) && d.url[|YoutubeWatchUrl|..] == videoId
  {
    Download(YoutubeWatchUrl + videoId, "youtube", videoId, Some(true), directory)
  }

  // ---------------------------------------------------------------- routing

  /** What routing one message asks for, in order: directories created, then at most one download. */
  datatype Action = CreateDirectory(path: string) | Fetch(download: Download)

  datatype Routing = Routing(handled: bool, actions: seq<Action>)

  function PathOf(a: Action): string {
    match a
    case CreateDirectory(p) => p
    case Fetch(d) => d.subdirectory
  }

  /** `newDirectory` in `handleService`: the directory, a '/' only if it is non-empty, then the segment. */
  function Subdirectory(directory: string, segment: string): (r: string)
    ensures StartsWith(r, directory)
    ensures directory == "" ==> r == segment
    ensures directory != "" ==> |r| > |directory| && r[|directory|] == '/' && r[|directory| + 1..] == segment
  {
    var r := (if directory != "" then directory + "/" else "") + segment;
    assert r[..|directory|] == directory;
    assert directory != "" ==> r[|directory| + 1..] == segment;
    r
  }

  lemma StartsWithTransitive(a: string, b: string, c: string)
    requires StartsWith(a, b) && StartsWith(b, c)
    ensures StartsWith(a, c)
  {
    assert a[..|c|] == a[..|b|][..|c|];
  }

  /**
   * `handleService(serviceName, message, directory)`. The `createDirectory`
   * job is an action; the recursive call it is chained to runs whatever that
   * job's outcome, so its actions follow.
   */
  function HandleService(service: string, message: string, directory: string): (r: Routing)
    ensures r.handled ==> service != "" && message != ""
    ensures !r.handled ==> r.actions == []
    decreases |service|
  {
    if service == "" || message == "" then Routing(false, [])
    else if service == "twitch" then Routing(true, [Fetch(DownloadTwitch(message, directory))])
    else if service == "youtube" then Routing(true, [Fetch(DownloadYoutube(message, directory))])
    else if service == "url" then Routing(true, [Fetch(Download(message, "url", message, Some(true), directory))])
    else if IndexOf(service, DirectoryPrefix) == 0 then
      var parts := Split(service[|DirectoryPrefix|..], '/');
      if |parts| > 1 then
        var newDirectory := Subdirectory(directory, parts[0]);
        var newService := Join(parts[1..], '/');
        SplitTail(service[|DirectoryPrefix|..], '/');
        Routing(true, [CreateDirectory(newDirectory)] + HandleService(newService, message, newDirectory).actions)
      else Routing(false, [])
    else Routing(false, [])
  }

  /** The three download services are handled whenever there is a message, each with its own single download. */
  lemma ServicesHandled(service: string, message: string, directory: string)
    requires service in {"twitch", "youtube", "url"} && message != ""
    ensures HandleService(service, message, directory).handled
    ensures service == "twitch" ==> HandleService(service, message, directory).actions == [Fetch(DownloadTwitch(message, directory))]
    ensures service == "youtube" ==> HandleService(service, message, directory).actions == [Fetch(DownloadYoutube(message, directory))]
    ensures service == "url" ==>
              HandleService(service, message, directory).actions == [Fetch(Download(message, "url", message, Some(true), directory))]
  {
  }

  /**
   * The shape of a routing: directories, each inside `directory` and inside
   * the one before, then at most one download, into the last directory
   * created or into `directory` itself when none was.
   */
  ghost predicate WellShaped(actions: seq<Action>, directory: string) {
    && (forall i :: 0 <= i < |actions| - 1 ==> actions[i].CreateDirectory?)
    && (|actions| > 0 && actions[0].Fetch? ==> PathOf(actions[0]) == directory)
    && (forall i :: 0 <= i < |actions| ==> StartsWith(PathOf(actions[i]), directory))
    && (forall i :: 0 < i < |actions| ==> StartsWith(PathOf(actions[i]), PathOf(actions[i - 1])))
    && (|actions| > 1 && actions[|actions| - 1].Fetch? ==>
          PathOf(actions[|actions| - 1]) == PathOf(actions[|actions| - 2]))
  }

  /** Creating a directory inside `directory` in front of a routing shaped for it keeps the shape. */
  lemma CreateThenRoute(newDirectory: string, inner: seq<Action>, directory: string)
    requires StartsWith(newDirectory, directory) && WellShaped(inner, newDirectory)
    ensures WellShaped([CreateDirectory(newDirectory)] + inner, directory)
  {
    var actions := [CreateDirectory(newDirectory)] + inner;
    forall i | 0 < i < |actions|
      ensures StartsWith(PathOf(actions[i]), directory)
      ensures StartsWith(PathOf(actions[i]), PathOf(actions[i - 1]))
    {
      assert actions[i] == inner[i - 1];
      StartsWithTransitive(PathOf(actions[i]), newDirectory, directory);
      if i > 1 {
        assert actions[i - 1] == inner[i - 2];
      }
    }
  }

  /** Every routing has that shape: at most one download per message, always inside the directories it created. */
  lemma {:induction false} RoutingShape(service: string, message: string, directory: string)
    ensures WellShaped(HandleService(service, message, directory).actions, directory)
    decreases |service|
  {
    var r := HandleService(service, message, directory);
    if service != "" && message != "" && service !in {"twitch", "youtube", "url"} && IndexOf(service, DirectoryPrefix) == 0 {
      var rest := service[|DirectoryPrefix|..];
      var parts := Split(rest, '/');
      if |parts| > 1 {
        var newDirectory := Subdirectory(directory, parts[0]);
        var newService := Join(parts[1..], '/');
        SplitTail(rest, '/');
        RoutingShape(newService, message, newDirectory);
        CreateThenRoute(newDirectory, HandleService(newService, message, newDirectory).actions, directory);
      }
    }
  }

  /**
   * One `directory/<segment>/<rest>` step: the directory is created and
   * `<rest>` is routed inside it, whatever `<rest>` is.
   */
  lemma DirectoryStep(segment: string, rest: string, message: string, directory: string)
    requires '/' !in segment && message != ""
    ensures HandleService(DirectoryPrefix + segment + "/" + rest, message, directory)
            == Routing(true, [CreateDirectory(Subdirectory(directory, segment))]
                             + HandleService(rest, message, Subdirectory(directory, segment)).actions)
  {
    var service := DirectoryPrefix + segment + "/" + rest;
    var tail := segment + "/" + rest;
    assert service == DirectoryPrefix + tail;
    assert service[..|DirectoryPrefix|] == DirectoryPrefix;
    assert service[|DirectoryPrefix|..] == tail;
    assert |service| > |"twitch"|;
    SplitAtHead(segment, rest, '/');
  }

  /** A service that is not one of the three and does not start with "directory/" is not handled. */
  lemma UnknownServiceIgnored(service: string, message: string, directory: string)
    requires service !in {"twitch", "youtube", "url"} && !StartsWith(service, DirectoryPrefix)
    ensures HandleService(service, message, directory) == Routing(false, [])
  {
  }

  /**
   * Exactly which calls return true: a non-empty service and message, and
   * either one of the three download services or "directory/" followed by
   * something with a further '/' (`parts.length > 1`).
   */
  lemma HandledExactly(service: string, message: string, directory: string)
    ensures HandleService(service, message, directory).handled
            <==> service != "" && message != ""
                 && (service in {"twitch", "youtube", "url"}
                     || (StartsWith(service, DirectoryPrefix) && '/' in service[|DirectoryPrefix|..]))
  {
  }

  /** A YouTube message routed inside a directory downloads into it. */
  lemma YoutubeInDirectory(videoId: string, directory: string)
    requires videoId != ""
    ensures HandleService("youtube", videoId, directory).actions == [Fetch(DownloadYoutube(videoId, directory))]
  {
  }

  /** "directory/<b>/youtube" in a directory creates <directory>/<b> and downloads into it. */
  lemma DirectoryThenYoutube(b: string, videoId: string, directory: string)
    requires directory != "" && '/' !in b && videoId != ""
    ensures HandleService(DirectoryPrefix + b + "/youtube", videoId, directory).actions
            == [CreateDirectory(directory + "/" + b), Fetch(DownloadYoutube(videoId, directory + "/" + b))]
  {
    var service := DirectoryPrefix + b + "/youtube";
    assert service == DirectoryPrefix + b + "/" + "youtube";
    DirectoryStep(b, "youtube", videoId, directory);
    var inner := Subdirectory(directory, b);
    YoutubeInDirectory(videoId, inner);
    assert HandleService(service, videoId, directory).actions
           == [CreateDirectory(inner), Fetch(DownloadYoutube(videoId, inner))];
    assert inner == directory + "/" + b;
  }

  /**
   * Nested directories need the prefix repeated:
   * "directory/<a>/directory/<b>/youtube" creates a and a/b and downloads
   * into a/b ...
   */
  lemma NestedDirectories(a: string, b: string, videoId: string)
    requires a != "" && '/' !in a && '/' !in b && videoId != ""
    ensures HandleService(DirectoryPrefix + a + "/" + DirectoryPrefix + b + "/youtube", videoId, "").actions
            == [CreateDirectory(a), CreateDirectory(a + "/" + b), Fetch(DownloadYoutube(videoId, a + "/" + b))]
  {
    var middleService := DirectoryPrefix + b + "/youtube";
    var service := DirectoryPrefix + a + "/" + middleService;
    assert service == DirectoryPrefix + a + "/" + DirectoryPrefix + b + "/youtube";
    DirectoryStep(a, middleService, videoId, "");
    assert Subdirectory("", a) == a;
    assert HandleService(service, videoId, "").actions == [CreateDirectory(a)] + HandleService(middleService, videoId, a).actions;
    DirectoryThenYoutube(b, videoId, a);
  }

  /** "<b>/<tail>" with a '/'-free segment other than "directory" is not a directory service. */
  lemma SlashFreeSegmentIsNotDirectory(b: string, tail: string)
    requires '/' !in b && b != "directory"
    ensures !StartsWith(b + "/" + tail, DirectoryPrefix)
  {
    var s := b + "/" + tail;
    if |s| >= |DirectoryPrefix| {
      if |b| > 9 {
        assert s[..10][9] != DirectoryPrefix[9];
      } else if |b| < 9 {
        assert s[..10][|b|] != DirectoryPrefix[|b|];
      } else {
        assert s[..10][..9] == b;
        assert DirectoryPrefix[..9] == "directory";
      }
    }
  }

  /**
   * ... while "directory/<a>/<b>/youtube" only creates a: "<b>/youtube" is
   * no service, and neither is "directory/youtube", which has too few parts.
   */
  lemma UnrepeatedPrefixDownloadsNothing(a: string, b: string, videoId: string)
    requires '/' !in a && '/' !in b && videoId != ""
    ensures HandleService(DirectoryPrefix + a + "/" + b + "/youtube", videoId, "") == Routing(true, [CreateDirectory(a)])
  {
    var rest := b + "/youtube";
    assert rest[|b|] == '/';
    assert rest !in {"twitch", "youtube", "url"};
    if b == "directory" {
      // "directory/youtube" has a single part after the prefix
      assert rest == DirectoryPrefix + "youtube";
      assert rest[|DirectoryPrefix|..] == "youtube";
      HandledExactly(rest, videoId, a);
    } else {
      SlashFreeSegmentIsNotDirectory(b, "youtube");
      UnknownServiceIgnored(rest, videoId, a);
    }
    assert Subdirectory("", a) == a;
    DirectoryStep(a, rest, videoId, "");
    assert DirectoryPrefix + a + "/" + rest == DirectoryPrefix + a + "/" + b + "/youtube";
  }

  // ---------------------------------------------------------------- yt-dlp options

  /** `metadata.is_live`, `undefined` when yt-dlp did not report it. */
  datatype VideoMetadata = VideoMetadata(isLive: Value)

  /** `metadata && metadata.is_live && metadata.is_live != 'was_live'`; `None` is a null metadata. */
  predicate IsLive(metadata: Option<VideoMetadata>) {
    metadata.Some? && Truthy(metadata.value.isLive) && !LooseEqualsString(metadata.value.isLive, "was_live")
  }

  /** `typeof includeSubs === 'undefined' || includeSubs` */
  predicate SubsRequested(includeSubs: Option<bool>) {
    includeSubs.None? || includeSubs.value
  }

  /** A Twitch URL always drops the chat flags; a YouTube URL drops them only while live. */
  predicate IgnoreChat(url: string, isLive: bool) {
    Contains(url, "twitch") || (Contains(url, "youtube") && isLive)
  }

  /** `--all-subs`, pushed unless subtitles were turned off. */
  function SubsOption(includeSubs: Option<bool>): seq<string> {
    if SubsRequested(includeSubs) then ["--all-subs"] else []
  }

  /** `--remux-video mkv` when `ALWAYS_MKV > 0`, then `--mtime` or `--no-mtime` by `SAVE_MTIME`. */
  function EarlyOptions(env: Env): seq<string>
  {
    (if env.alwaysMkv > 0 then ["--remux-video", "mkv"] else [])
    + (if env.saveMtime > 0 then ["--mtime"] else ["--no-mtime"])
  }

  /** `--cookies /data/cookies.txt` when the cookie file exists. */
  function CookieOptions(hasCookie: bool): seq<string>
  {
    if hasCookie then ["--cookies", CookieFile] else []
  }

  /** `--fixup never` for a Twitch URL. */
  function FixupOptions(url: string): seq<string>
  {
    if Contains(url, "twitch") then ["--fixup", "never"] else []
  }

  /** The Twitch fixup, then the output template for the source. */
  function TailOptions(env: Env, url: string, source: string): seq<string>
  {
    FixupOptions(url) + ["-o", OutputFormat(env, source)]
  }

  /** What `downloadVideo` pushes after the subtitle flag, in order. */
  function LaterOptions(env: Env, url: string, source: string, hasCookie: bool): seq<string>
  {
    EarlyOptions(env) + CookieOptions(hasCookie) + TailOptions(env, url, source)
  }

  /** The list after every `push` of `downloadVideo`, before the chat flags are taken out. */
  function PushedOptions(env: Env, url: string, source: string, includeSubs: Option<bool>, hasCookie: bool): seq<string>
  {
    BaseOptions + SubsOption(includeSubs) + LaterOptions(env, url, source, hasCookie)
  }

  /** The yt-dlp options of one download: the pushed list, less the first of each chat flag when chat is ignored. */
  function YtDlpOptions(env: Env, url: string, source: string, includeSubs: Option<bool>, hasCookie: bool,
                        metadata: Option<VideoMetadata>): seq<string>
  {
    WithoutChat(PushedOptions(env, url, source, includeSubs, hasCookie), IgnoreChat(url, IsLive(metadata)))
  }

  /** The list less the first `--all-subs` and the first `--embed-subs` when chat is ignored. */
  function WithoutChat(options: seq<string>, ignoreChat: bool): seq<string>
  {
    if ignoreChat then RemoveFirst(RemoveFirst(options, "--all-subs"), "--embed-subs") else options
  }

  /** The flags the builder itself emits. */
  const Flags: set<string> := {"--all-subs", "--embed-subs", "--remux-video", "--mtime", "--no-mtime", "--cookies", "--fixup", "-o"}

  /** An output format that is not one of the flags, so that it cannot be mistaken for one. */
  predicate PlainFormat(format: string) {
    format !in Flags
  }

  /** The initial list without its `--embed-subs`. */
  const BaseWithoutEmbed: seq<string> := ["-f", "bestvideo+bestaudio/best", "--add-metadata",
                                          "--merge-output-format", "mkv", "-c", "--wait-for-video", "60", "--embed-thumbnail"]

  /** The initial list holds `--embed-subs` once, at index 3, and no other flag. */
  lemma BaseOptionsFlags()
    ensures BaseOptions[3] == "--embed-subs" && BaseOptions[..3] + BaseOptions[4..] == BaseWithoutEmbed
    ensures forall x :: x in Flags ==> x !in BaseWithoutEmbed
    ensures forall x :: x in Flags && x != "--embed-subs" ==> x !in BaseOptions
  {
  }

  /** Neither chat flag nor `-o`. */
  predicate Unmarked(xs: seq<string>) {
    "--all-subs" !in xs && "--embed-subs" !in xs && "-o" !in xs
  }

  /** The switches pushed between the subtitle flag and the output template carry no chat flag and no `-o`. */
  lemma SwitchesUnmarked(env: Env, url: string, hasCookie: bool)
    ensures Unmarked(EarlyOptions(env) + CookieOptions(hasCookie) + FixupOptions(url))
  {
    assert Unmarked(EarlyOptions(env));
    assert Unmarked(CookieOptions(hasCookie));
    assert Unmarked(FixupOptions(url));
  }

  /** The later part holds no chat flag and a single `-o`, as its last but one element. */
  lemma LaterOptionsShape(env: Env, url: string, source: string, hasCookie: bool)
    requires PlainFormat(OutputFormat(env, source))
    ensures var later := LaterOptions(env, url, source, hasCookie);
      && "--all-subs" !in later && "--embed-subs" !in later
      && |later| >= 2 && later[|later| - 2..] == ["-o", OutputFormat(env, source)]
      && "-o" !in later[..|later| - 2]
  {
    var format := OutputFormat(env, source);
    var switches := EarlyOptions(env) + CookieOptions(hasCookie) + FixupOptions(url);
    SwitchesUnmarked(env, url, hasCookie);
    var later := LaterOptions(env, url, source, hasCookie);
    assert later == switches + ["-o", format];
    assert later[..|later| - 2] == switches;
    assert format != "--all-subs" && format != "--embed-subs";
  }

  /** Removing `x` from `base + subs + later` drops `subs` when it is `[x]` and `x` occurs nowhere else. */
  lemma DropOptionalFlag(base: seq<string>, subs: seq<string>, later: seq<string>, x: string)
    requires x !in base && (subs == [] || subs == [x]) && x !in later
    ensures RemoveFirst(base + subs + later, x) == base + later
  {
    var rest := subs + later;
    assert base + subs + later == base + rest;
    RemoveFirstRight(base, rest, x);
    if subs == [] {
      assert rest == later;
    } else {
      SeqIndexOfUnique(rest, x, 0);
      assert rest[1..] == later;
    }
  }

  /** Removing `y` from `base + later` drops `base[3]` when that is the first `y`. */
  lemma DropFourth(base: seq<string>, later: seq<string>, y: string)
    requires |base| > 3 && base[3] == y && y !in base[..3]
    ensures RemoveFirst(base + later, y) == base[..3] + base[4..] + later
  {
    RemoveFirstLeft(base, later, y);
    SeqIndexOfUnique(base, y, 3);
  }

  /** Ignoring chat takes out the subtitle flag and the initial `--embed-subs`, and nothing else. */
  lemma ChatFlagsRemoved(env: Env, url: string, source: string, includeSubs: Option<bool>,
                         hasCookie: bool, metadata: Option<VideoMetadata>)
    requires PlainFormat(OutputFormat(env, source)) && IgnoreChat(url, IsLive(metadata))
    ensures YtDlpOptions(env, url, source, includeSubs, hasCookie, metadata)
            == BaseWithoutEmbed + LaterOptions(env, url, source, hasCookie)
  {
    var later := LaterOptions(env, url, source, hasCookie);
    BaseOptionsFlags();
    LaterOptionsShape(env, url, source, hasCookie);
    DropOptionalFlag(BaseOptions, SubsOption(includeSubs), later, "--all-subs");
    DropFourth(BaseOptions, later, "--embed-subs");
  }

  /** Which flags the later part holds, each with the condition that puts it there. */
  lemma LaterFlags(env: Env, url: string, source: string, hasCookie: bool)
    requires PlainFormat(OutputFormat(env, source))
    ensures var later := LaterOptions(env, url, source, hasCookie);
      && ("--remux-video" in later <==> env.alwaysMkv > 0)
      && ("--mtime" in later <==> env.saveMtime > 0)
      && ("--no-mtime" in later <==> env.saveMtime <= 0)
      && ("--cookies" in later <==> hasCookie)
      && ("--fixup" in later <==> Contains(url, "twitch"))
  {
  }

  /** The chat flags stay exactly when chat is kept, and `--all-subs` only when subtitles were asked for. */
  lemma ChatFlags(env: Env, url: string, source: string, includeSubs: Option<bool>, hasCookie: bool,
                  metadata: Option<VideoMetadata>)
    requires PlainFormat(OutputFormat(env, source))
    ensures var opts := YtDlpOptions(env, url, source, includeSubs, hasCookie, metadata);
      && ("--all-subs" in opts <==> SubsRequested(includeSubs) && !IgnoreChat(url, IsLive(metadata)))
      && ("--embed-subs" in opts <==> !IgnoreChat(url, IsLive(metadata)))
  {
    BaseOptionsFlags();
    LaterOptionsShape(env, url, source, hasCookie);
    if IgnoreChat(url, IsLive(metadata)) {
      ChatFlagsRemoved(env, url, source, includeSubs, hasCookie, metadata);
    } else {
      assert BaseOptions[3] in PushedOptions(env, url, source, includeSubs, hasCookie);
    }
  }

  /** The other flags are given exactly when their settings ask for them, whether or not chat is kept. */
  lemma OptionFlags(env: Env, url: string, source: string, includeSubs: Option<bool>, hasCookie: bool,
                    metadata: Option<VideoMetadata>)
    requires PlainFormat(OutputFormat(env, source))
    ensures var opts := YtDlpOptions(env, url, source, includeSubs, hasCookie, metadata);
      && ("--remux-video" in opts <==> env.alwaysMkv > 0)
      && ("--mtime" in opts <==> env.saveMtime > 0)
      && ("--no-mtime" in opts <==> env.saveMtime <= 0)
      && ("--cookies" in opts <==> hasCookie)
      && ("--fixup" in opts <==> Contains(url, "twitch"))
  {
    var later := LaterOptions(env, url, source, hasCookie);
    var opts := YtDlpOptions(env, url, source, includeSubs, hasCookie, metadata);
    BaseOptionsFlags();
    LaterFlags(env, url, source, hasCookie);
    var front := OptionsFront(env, url, source, includeSubs, hasCookie, metadata);
    assert opts == front + later;
  }

  /** None of the flags chosen by the settings. */
  predicate NoSwitch(xs: seq<string>) {
    "--remux-video" !in xs && "--mtime" !in xs && "--no-mtime" !in xs && "--cookies" !in xs && "--fixup" !in xs
  }

  /** Exactly one `-o` is given, as the last but one argument, followed by the format for the source. */
  lemma {:induction false} OutputTemplateLast(env: Env, url: string, source: string, includeSubs: Option<bool>,
                                              hasCookie: bool, metadata: Option<VideoMetadata>)
    requires PlainFormat(OutputFormat(env, source))
    ensures var opts := YtDlpOptions(env, url, source, includeSubs, hasCookie, metadata);
      && |opts| >= 2 && opts[|opts| - 2..] == ["-o", OutputFormat(env, source)]
      && "-o" !in opts[..|opts| - 2]
  {
    var opts := YtDlpOptions(env, url, source, includeSubs, hasCookie, metadata);
    var later := LaterOptions(env, url, source, hasCookie);
    LaterOptionsShape(env, url, source, hasCookie);
    var front := OptionsFront(env, url, source, includeSubs, hasCookie, metadata);
    LastPair(front, later, "-o", OutputFormat(env, source));
    assert opts == front + later;
  }

  /** A list ending in `[x, y]` keeps that ending behind any front part, and gains no `x` from a front without one. */
  lemma LastPair(front: seq<string>, later: seq<string>, x: string, y: string)
    requires |later| >= 2 && later[|later| - 2..] == [x, y] && x !in later[..|later| - 2] && x !in front
    ensures var all := front + later; |all| >= 2 && all[|all| - 2..] == [x, y] && x !in all[..|all| - 2]
  {
    var all := front + later;
    var n := |later| - 2;
    assert all[..|all| - 2] == front + later[..n];
    assert all[|all| - 2..] == later[n..];
  }

  /** What comes before the later part: the initial list and the subtitle flag, or the list without chat flags. */
  lemma OptionsFront(env: Env, url: string, source: string, includeSubs: Option<bool>, hasCookie: bool,
                     metadata: Option<VideoMetadata>) returns (front: seq<string>)
    requires PlainFormat(OutputFormat(env, source))
    ensures YtDlpOptions(env, url, source, includeSubs, hasCookie, metadata) == front + LaterOptions(env, url, source, hasCookie)
    ensures NoSwitch(front) && "-o" !in front
  {
    BaseOptionsFlags();
    if IgnoreChat(url, IsLive(metadata)) {
      ChatFlagsRemoved(env, url, source, includeSubs, hasCookie, metadata);
      front := BaseWithoutEmbed;
    } else {
      front := BaseOptions + SubsOption(includeSubs);
    }
  }

  /** The `forEach` over the chat flags: the first of each is spliced out of the list, when it is there. */
  method DropChatFlags(options: StringArray)
    modifies options
    ensures options.items == RemoveFirst(RemoveFirst(old(options.items), "--all-subs"), "--embed-subs")
  {
    ghost var pushed := options.items;
    var chatFlags := ["--all-subs", "--embed-subs"];
    for k := 0 to |chatFlags|
      invariant k == 0 ==> options.items == pushed
      invariant k == 1 ==> options.items == RemoveFirst(pushed, "--all-subs")
      invariant k == 2 ==> options.items == RemoveFirst(RemoveFirst(pushed, "--all-subs"), "--embed-subs")
    {
      var index := options.IndexOf(chatFlags[k]);
      if index != -1 {
        SeqIndexOfUnique(options.items, chatFlags[k], index);
        options.SpliceOne(index);
      }
    }
  }

  /**
   * `downloadVideo(url, source, trigger, includeSubs, subdirectory)` once the
   * cookie check and the metadata lookup have answered: the options the
   * function pushes before the cookie check, then its two callbacks.
   */
  method DownloadVideo(env: Env, request: Download, hasCookie: bool, metadata: Option<VideoMetadata>)
    returns (job: KubeApi.Job)
    ensures |job.containers| == 1
    ensures job.containers[0].args
            == YtDlpOptions(env, request.url, request.source, request.includeSubs, hasCookie, metadata) + [Trim(request.url)]
    ensures job.containers[0].workingDir == KubeApi.DataRoot + "/" + request.subdirectory
    ensures job.priorityClassName == Some(if IsLive(metadata) then KubeApi.PriorityClassHigh else KubeApi.PriorityClassLow)
    ensures job.labels == map[KubeApi.TypeKey := KubeApi.TaskTypeDownload]
    ensures job.annotations == KubeApi.Annotate(map[], Some(KubeApi.TaskParams(Trim(request.url), request.source, request.trigger, KubeApi.TaskTypeDownload)))
  {
    var youtubeOptions := new StringArray(BaseOptions);
    var subdirectory := request.subdirectory;

    if request.includeSubs.None? || request.includeSubs.value {
      youtubeOptions.Push(["--all-subs"]);
    }
    ghost var withSubs := youtubeOptions.items;
    assert withSubs == BaseOptions + SubsOption(request.includeSubs);
    if env.alwaysMkv > 0 {
      youtubeOptions.Push(["--remux-video", "mkv"]);
    }
    if env.saveMtime > 0 {
      youtubeOptions.Push(["--mtime"]);
    } else {
      youtubeOptions.Push(["--no-mtime"]);
    }
    assert youtubeOptions.items == withSubs + EarlyOptions(env);

    job := CookieChecked(env, request.url, request.source, request.trigger, subdirectory, youtubeOptions, hasCookie, metadata);
    Regroup(BaseOptions, SubsOption(request.includeSubs), EarlyOptions(env), CookieOptions(hasCookie),
            TailOptions(env, request.url, request.source));
  }

  /** The members `kube-api.js` exports, by name. */
  const KubeApiExports: set<string> :=
    {"test", "downloadVideo", "getVideoMetadata", "createDirectory", "onUpdate", "garbageCollect", "disconnect"}

  /** What `checkCookieFileExists()` gives: the answer of `kubeClient.fileExists`, or the TypeError of calling a missing member. */
  datatype CookieAnswer = Answered(hasCookie: bool) | TypeError

  /**
   * `checkCookieFileExists()` against a client exporting `exports`; whether
   * the cookie file is there is a parameter.
   */
  function CheckCookieFileExists(exports: set<string>, cookieFilePresent: bool): (a: CookieAnswer)
    ensures a.TypeError? <==> "fileExists" !in exports
    ensures a.Answered? ==> a.hasCookie == cookieFilePresent
  {
    if "fileExists" in exports then Answered(cookieFilePresent) else TypeError
  }

  /**
   * `downloadVideo` as a whole: the cookie check is called synchronously
   * inside the async function, so a TypeError rejects its promise before
   * any metadata lookup or Job; otherwise the download Job is built.
   */
  method StartDownload(env: Env, request: Download, exports: set<string>, cookieFilePresent: bool, metadata: Option<VideoMetadata>)
    returns (job: Option<KubeApi.Job>)
    ensures job.None? <==> "fileExists" !in exports
    ensures job.Some? ==> |job.value.containers| == 1
    ensures job.Some? ==>
              job.value.containers[0].args
              == YtDlpOptions(env, request.url, request.source, request.includeSubs, cookieFilePresent, metadata) + [Trim(request.url)]
  {
    var answer := CheckCookieFileExists(exports, cookieFilePresent);
    if answer.TypeError? {
      return None;
    }
    var started := DownloadVideo(env, request, answer.hasCookie, metadata);
    job := Some(started);
  }

  /** As written, the client has no `fileExists`, so every download is rejected and no Job is created. */
  lemma CookieCheckThrowsAsWritten(cookieFilePresent: bool)
    ensures CheckCookieFileExists(KubeApiExports, cookieFilePresent) == TypeError
  {
  }

  /** With a `fileExists` exported, the check answers whether the cookie file is there, and the download proceeds. */
  lemma CookieCheckWithFileExists(cookieFilePresent: bool)
    ensures CheckCookieFileExists(KubeApiExports + {"fileExists"}, cookieFilePresent) == Answered(cookieFilePresent)
  {
  }

  /** The pushes regrouped: `a + b + (c + d + e)` is the list pushed one part after another. */
  lemma Regroup(a: seq<string>, b: seq<string>, c: seq<string>, d: seq<string>, e: seq<string>)
    ensures a + b + (c + d + e) == a + b + c + d + e
  {
  }

  /** The callback of the cookie check: the cookie flag when the file exists, then the metadata callback. */
  method CookieChecked(env: Env, url: string, source: string, trigger: string, subdirectory: string,
                       youtubeOptions: StringArray, hasCookie: bool, metadata: Option<VideoMetadata>)
    returns (job: KubeApi.Job)
    modifies youtubeOptions
    ensures |job.containers| == 1
    ensures youtubeOptions.items == job.containers[0].args
    ensures job.containers[0].args
            == WithoutChat(old(youtubeOptions.items) + CookieOptions(hasCookie) + TailOptions(env, url, source),
                           IgnoreChat(url, IsLive(metadata))) + [Trim(url)]
    ensures job.containers[0].workingDir == KubeApi.DataRoot + "/" + subdirectory
    ensures job.priorityClassName == Some(if IsLive(metadata) then KubeApi.PriorityClassHigh else KubeApi.PriorityClassLow)
    ensures job.labels == map[KubeApi.TypeKey := KubeApi.TaskTypeDownload]
    ensures job.annotations == KubeApi.Annotate(map[], Some(KubeApi.TaskParams(Trim(url), source, trigger, KubeApi.TaskTypeDownload)))
  {
    if hasCookie {
      youtubeOptions.Push(["--cookies", CookieFile]);
    }
    assert youtubeOptions.items == old(youtubeOptions.items) + CookieOptions(hasCookie);
    job := MetadataReady(env, url, source, trigger, subdirectory, youtubeOptions, metadata);
  }

  /**
   * The callback of the metadata lookup: whether the video is live, the
   * Twitch fixup, the output template, the chat flags taken out, and the
   * download Job.
   */
  method MetadataReady(env: Env, url: string, source: string, trigger: string, subdirectory: string,
                       youtubeOptions: StringArray, metadata: Option<VideoMetadata>)
    returns (job: KubeApi.Job)
    modifies youtubeOptions
    ensures |job.containers| == 1
    ensures youtubeOptions.items == job.containers[0].args
    ensures job.containers[0].args
            == WithoutChat(old(youtubeOptions.items) + TailOptions(env, url, source), IgnoreChat(url, IsLive(metadata)))
               + [Trim(url)]
    ensures job.containers[0].workingDir == KubeApi.DataRoot + "/" + subdirectory
    ensures job.priorityClassName == Some(if IsLive(metadata) then KubeApi.PriorityClassHigh else KubeApi.PriorityClassLow)
    ensures job.labels == map[KubeApi.TypeKey := KubeApi.TaskTypeDownload]
    ensures job.annotations == KubeApi.Annotate(map[], Some(KubeApi.TaskParams(Trim(url), source, trigger, KubeApi.TaskTypeDownload)))
  {
    var isLive := false;
    if metadata.Some? && Truthy(metadata.value.isLive) && !LooseEqualsString(metadata.value.isLive, "was_live") {
      isLive := true;
    }

    var ignoreChat := false;
    if IndexOf(url, "twitch") != -1 {
      youtubeOptions.Push(["--fixup", "never"]);
      ignoreChat := true;
    }
    ghost var fixed := youtubeOptions.items;

    if source == "youtube" {
      youtubeOptions.Push(["-o", if env.titleFormatYoutube != "" then env.titleFormatYoutube else DefaultFormat]);
    } else if source == "twitch" {
      youtubeOptions.Push(["-o", if env.titleFormatTwitch != "" then env.titleFormatTwitch else DefaultFormat]);
    } else {
      youtubeOptions.Push(["-o", DefaultFormat]);
    }
    assert youtubeOptions.items == fixed + ["-o", OutputFormat(env, source)];

    if IndexOf(url, "youtube") != -1 && isLive {
      ignoreChat := true;
    }
    assert youtubeOptions.items == old(youtubeOptions.items) + TailOptions(env, url, source);

    if ignoreChat {
      DropChatFlags(youtubeOptions);
    }

    job := KubeApi.DownloadVideo(Trim(url), source, trigger, youtubeOptions, subdirectory, isLive);
  }

  // ---------------------------------------------------------------- message de-duplication and the minute tick

  /** `alreadyRequested` and `lastTick`. */
  datatype Dedup = Dedup(alreadyRequested: set<string>, lastTick: int)

  /** The `handleService(service, message)` call a message leads to. */
  datatype Request = Request(service: string, message: string)

  datatype MessageOutcome = MessageOutcome(next: Dedup, dispatched: Option<Request>)

  /**
   * The `message` handler: a topic under `<base>/` is handled once per key
   * `topic + message`; the service is the topic without `<base>/`, and the
   * `status` service is only recorded, never routed.
   */
  function OnMessageStep(s: Dedup, baseTopic: string, topic: string, message: string): (o: MessageOutcome)
    ensures o.next.lastTick == s.lastTick
    ensures !StartsWith(topic, baseTopic + "/") ==> o == MessageOutcome(s, None)
    ensures topic + message in s.alreadyRequested ==> o == MessageOutcome(s, None)
    ensures StartsWith(topic, baseTopic + "/") && topic + message !in s.alreadyRequested ==>
              && o.next.alreadyRequested == s.alreadyRequested + {topic + message}
              && (o.dispatched.Some? <==> topic[|baseTopic| + 1..] != "status")
              && (o.dispatched.Some? ==> o.dispatched.value == Request(topic[|baseTopic| + 1..], Trim(message)))
  {
    var prefix := baseTopic + "/";
    if IndexOf(topic, prefix) != 0 then MessageOutcome(s, None)
    else if topic + message in s.alreadyRequested then MessageOutcome(s, None)
    else
      var next := s.(alreadyRequested := s.alreadyRequested + {topic + message});
      var service := ReplaceFirst(topic, prefix, "");
      ReplacePrefix(topic, prefix);
      var msg := Trim(message);
      if service != "status" then MessageOutcome(next, Some(Request(service, msg)))
      else MessageOutcome(next, None)
  }

  /** `OnMessageStep` branch by branch, in the terms the handler computes. */
  lemma OnMessageCases(s: Dedup, baseTopic: string, topic: string, message: string)
    ensures var o := OnMessageStep(s, baseTopic, topic, message);
      var prefix := baseTopic + "/";
      var key := topic + message;
      && (IndexOf(topic, prefix) != 0 || key in s.alreadyRequested ==> o == MessageOutcome(s, None))
      && (IndexOf(topic, prefix) == 0 && key !in s.alreadyRequested ==>
            var service := ReplaceFirst(topic, prefix, "");
            o == MessageOutcome(Dedup(s.alreadyRequested + {key}, s.lastTick),
                                if service != "status" then Some(Request(service, Trim(message))) else None))
  {
  }

  /** `Math.floor((Date.now() / 1000) / 60)` from integer milliseconds. */
  function MinuteOf(nowMs: int): int {
    nowMs / 60000
  }

  datatype TickOutcome = TickOutcome(next: Dedup, publishOnline: bool, collectGarbage: bool)

  /**
   * One run of the 20-second tick: nothing happens within the same minute;
   * on a new minute the seen keys are cleared, "online" is published every
   * fifth minute (when there is a broker), and garbage collection runs on
   * every minute that is not a multiple of 30.
   */
  function TickStep(s: Dedup, hasBroker: bool, nowMs: int): (o: TickOutcome)
    ensures MinuteOf(nowMs) == s.lastTick ==> o == TickOutcome(s, false, false)
    ensures MinuteOf(nowMs) != s.lastTick ==>
              && o.next == Dedup({}, MinuteOf(nowMs))
              && (o.publishOnline <==> hasBroker && MinuteOf(nowMs) % 5 == 0)
              && (o.collectGarbage <==> MinuteOf(nowMs) % 30 != 0)
  {
    var time := MinuteOf(nowMs);
    if s.lastTick == time then TickOutcome(s, false, false)
    else TickOutcome(Dedup({}, time), hasBroker && time % 5 == 0, time % 30 != 0)
  }

  /** A second tick in the same minute does nothing. */
  lemma TickIdempotent(s: Dedup, hasBroker: bool, nowMs: int, laterMs: int)
    requires MinuteOf(laterMs) == MinuteOf(nowMs)
    ensures TickStep(TickStep(s, hasBroker, nowMs).next, hasBroker, laterMs) == TickOutcome(TickStep(s, hasBroker, nowMs).next, false, false)
  {
  }

  datatype Event = Message(topic: string, message: string) | Tick(nowMs: int)

  datatype Trace = Trace(final: Dedup, dispatchedKeys: seq<string>)

  /** A run of the handler and the tick over a sequence of events: the keys of the messages routed, in order. */
  function Run(s: Dedup, baseTopic: string, hasBroker: bool, events: seq<Event>): Trace
    decreases |events|
  {
    if events == [] then Trace(s, [])
    else
      match events[0]
      case Message(topic, message) =>
        var o := OnMessageStep(s, baseTopic, topic, message);
        var rest := Run(o.next, baseTopic, hasBroker, events[1..]);
        Trace(rest.final, (if o.dispatched.Some? then [topic + message] else []) + rest.dispatchedKeys)
      case Tick(nowMs) =>
        Run(TickStep(s, hasBroker, nowMs).next, baseTopic, hasBroker, events[1..])
  }

  predicate SameMinute(s: Dedup, events: seq<Event>) {
    forall i :: 0 <= i < |events| && events[i].Tick? ==> MinuteOf(events[i].nowMs) == s.lastTick
  }

  /**
   * The keys routed between two sets of seen keys: distinct, none seen
   * before, all seen after, and nothing seen before is forgotten.
   */
  predicate RoutedOnce(keys: seq<string>, before: set<string>, after: set<string>) {
    && (forall i, j :: 0 <= i < j < |keys| ==> keys[i] != keys[j])
    && (forall i :: 0 <= i < |keys| ==> keys[i] !in before && keys[i] in after)
    && before <= after
  }

  /** One more step in front: a key routed then was new and is recorded from then on. */
  lemma RoutedOnceCons(routed: bool, key: string, keys: seq<string>, before: set<string>, mid: set<string>, after: set<string>)
    requires RoutedOnce(keys, mid, after) && before <= mid
    requires routed ==> key !in before && key in mid
    ensures RoutedOnce((if routed then [key] else []) + keys, before, after)
  {
    var all := (if routed then [key] else []) + keys;
    if routed {
      forall i | 0 < i < |all|
        ensures all[i] == keys[i - 1]
      {
      }
    }
  }

  /**
   * Within one minute a `topic + message` key is routed at most once, and
   * never if it was already seen: the keys routed are distinct and new.
   */
  lemma {:induction false} RoutedAtMostOncePerMinute(s: Dedup, baseTopic: string, hasBroker: bool, events: seq<Event>)
    requires SameMinute(s, events)
    ensures var t := Run(s, baseTopic, hasBroker, events);
      RoutedOnce(t.dispatchedKeys, s.alreadyRequested, t.final.alreadyRequested) && t.final.lastTick == s.lastTick
    decreases |events|
  {
    if events != [] {
      match events[0]
      case Message(topic, message) =>
        var o := OnMessageStep(s, baseTopic, topic, message);
        MessageKeyRecorded(s, baseTopic, topic, message);
        SameMinuteTail(s, o.next, events);
        RoutedAtMostOncePerMinute(o.next, baseTopic, hasBroker, events[1..]);
        var rest := Run(o.next, baseTopic, hasBroker, events[1..]);
        RoutedOnceCons(o.dispatched.Some?, topic + message, rest.dispatchedKeys,
                       s.alreadyRequested, o.next.alreadyRequested, rest.final.alreadyRequested);
      case Tick(nowMs) =>
        assert TickStep(s, hasBroker, nowMs).next == s;
        SameMinuteTail(s, s, events);
        RoutedAtMostOncePerMinute(s, baseTopic, hasBroker, events[1..]);
    }
  }

  /** A routed message's key was new, and the handler records it; nothing is forgotten and the minute stays. */
  lemma MessageKeyRecorded(s: Dedup, baseTopic: string, topic: string, message: string)
    ensures var o := OnMessageStep(s, baseTopic, topic, message);
      && o.next.lastTick == s.lastTick
      && s.alreadyRequested <= o.next.alreadyRequested
      && (o.dispatched.Some? ==> topic + message !in s.alreadyRequested && topic + message in o.next.alreadyRequested)
  {
  }

  /** The events after the first stay in the minute of a state with the same `lastTick`. */
  lemma SameMinuteTail(s: Dedup, next: Dedup, events: seq<Event>)
    requires events != [] && SameMinute(s, events) && next.lastTick == s.lastTick
    ensures SameMinute(next, events[1..])
  {
    forall i | 0 <= i < |events[1..]| && events[1..][i].Tick?
      ensures MinuteOf(events[1..][i].nowMs) == next.lastTick
    {
      assert events[1..][i] == events[i + 1];
    }
  }

  /** A message on `<base>/status` is never routed. */
  lemma StatusNeverRouted(s: Dedup, baseTopic: string, message: string)
    ensures OnMessageStep(s, baseTopic, baseTopic + "/status", message).dispatched == None
  {
    var topic := baseTopic + "/status";
    assert StartsWith(topic, baseTopic + "/");
    assert topic[|baseTopic| + 1..] == "status";
  }

  /**
   * After a new minute has begun, a message routed before is routed again:
   * any topic under `<base>/` other than `<base>/status`, any message.
   */
  lemma RoutedAgainAfterNewMinute(s: Dedup, baseTopic: string, hasBroker: bool, nowMs: int, topic: string, message: string)
    requires MinuteOf(nowMs) != s.lastTick
    requires StartsWith(topic, baseTopic + "/") && topic[|baseTopic| + 1..] != "status"
    ensures var first := OnMessageStep(s, baseTopic, topic, message);
      var cleared := TickStep(first.next, hasBroker, nowMs).next;
      && topic + message in first.next.alreadyRequested
      && OnMessageStep(cleared, baseTopic, topic, message).dispatched
         == Some(Request(topic[|baseTopic| + 1..], Trim(message)))
  {
    var first := OnMessageStep(s, baseTopic, topic, message);
    assert first.next.lastTick == s.lastTick;
  }

  /** The service process: the seen keys and the last minute, changed by the message handler and the tick. */
  class TriggerService {
    const baseTopic: string
    const hasBroker: bool
    var alreadyRequested: set<string>
    var lastTick: int

    /** `MQTT_TOPIC || 'video-recorder'` is passed in; `hasBroker` says whether `MQTT_BROKER` was set. */
    constructor (baseTopic: string, hasBroker: bool)
      ensures this.baseTopic == baseTopic && this.hasBroker == hasBroker
      ensures alreadyRequested == {} && lastTick == 0
    {
      this.baseTopic := baseTopic;
      this.hasBroker := hasBroker;
      alreadyRequested := {};
      lastTick := 0;
    }

    function State(): Dedup
      reads this
    {
      Dedup(alreadyRequested, lastTick)
    }

    /** `mqttClient.on('message', ...)`: the `handleService` call it makes, if any; `HandleService` gives its routing. */
    method OnMessage(topic: string, message: string) returns (dispatched: Option<Request>)
      modifies this
      ensures MessageOutcome(Dedup(alreadyRequested, lastTick), dispatched)
              == OnMessageStep(Dedup(old(alreadyRequested), old(lastTick)), baseTopic, topic, message)
    {
      ghost var o := OnMessageStep(Dedup(alreadyRequested, lastTick), baseTopic, topic, message);
      var prefix := baseTopic + "/";
      var key := topic + message;
      OnMessageCases(Dedup(alreadyRequested, lastTick), baseTopic, topic, message);
      dispatched := None;
      if IndexOf(topic, prefix) == 0 && key !in alreadyRequested {
        ghost var service := ReplaceFirst(topic, prefix, "");
        assert o == MessageOutcome(Dedup(alreadyRequested + {key}, lastTick),
                                   if service != "status" then Some(Request(service, Trim(message))) else None);
        alreadyRequested := alreadyRequested + {key};
        if ReplaceFirst(topic, prefix, "") != "status" {
          dispatched := Some(Request(ReplaceFirst(topic, prefix, ""), Trim(message)));
        }
      } else {
        assert o == MessageOutcome(Dedup(alreadyRequested, lastTick), None);
      }
    }

    /** The body of `tickInterval`: whether "online" is published and whether garbage collection starts. */
    method Tick(nowMs: int) returns (publishOnline: bool, collectGarbage: bool)
      modifies this
      ensures TickOutcome(State(), publishOnline, collectGarbage) == TickStep(old(State()), hasBroker, nowMs)
    {
      publishOnline, collectGarbage := false, false;
      var time := nowMs / 60000;
      if lastTick == time {
        return;
      }
      lastTick := time;
      alreadyRequested := {};
      if hasBroker {
        if time % 5 == 0 {
          publishOnline := true;
        }
      }
      if time % 30 != 0 {
        collectGarbage := true;
      }
    }
  }
}
