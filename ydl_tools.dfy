/** The yt-dlp downloader's rules: the parameter dictionary handed to
    yt-dlp, the two passes that rename downloaded subtitles and keep the
    best one per language, the retry counter for HTTP 429 errors, and the
    names the downloaded files are yielded under. yt-dlp itself, the
    temporary directory and the sleeps are left out; the directory is the
    set of file names in it. */
module YdlTools {
  import opened Wrappers
  import opened JsonValue
  import opened Text

  const AudioFormat: string := "(flac/m4a/ogg/wav/webm/mp3/mp4/mpeg/mpga)[asr>=16000][vcodec=none]"

  /** `2 ** n` as Python computes it for an int exponent. */
  function Pow2(n: int): (r: real)
    ensures r > 0.0
    ensures n >= 0 ==> r >= 1.0
    decreases if n >= 0 then n else -n
  {
    if n == 0 then 1.0
    else if n > 0 then 2.0 * Pow2(n - 1)
    else Pow2(n + 1) / 2.0
  }

  /** `cookies_from_browser` is truthy. */
  predicate CookiesGiven(cookies: Option<string>) {
    cookies.Some? && cookies.value != []
  }

  /** The option names used in the parameter dictionary handed to yt-dlp. */
  datatype Param =
    | SkipDownload | CookiesFromBrowser | WriteInfoJson | CleanInfoJson | Paths | OutTmpl
    | WriteAutomaticSub | WriteSubtitles | SubtitlesLangs | PostProcessors | ExtractorArgs
    | ExtractAudio | Format | FormatSort | SleepIntervalSubtitles

  /** The key yt-dlp knows each option by. */
  function ParamName(k: Param): string {
    match k
    case SkipDownload => "skip_download"
    case CookiesFromBrowser => "cookiesfrombrowser"
    case WriteInfoJson => "writeinfojson"
    case CleanInfoJson => "clean_infojson"
    case Paths => "paths"
    case OutTmpl => "outtmpl"
    case WriteAutomaticSub => "writeautomaticsub"
    case WriteSubtitles => "writesubtitles"
    case SubtitlesLangs => "subtitleslangs"
    case PostProcessors => "postprocessors"
    case ExtractorArgs => "extractor_args"
    case ExtractAudio => "extractaudio"
    case Format => "format"
    case FormatSort => "format_sort"
    case SleepIntervalSubtitles => "sleep_interval_subtitles"
  }

  /** The languages requested from yt-dlp: "<lang>.*" for automatic subtitles. */
  function LangPatterns(langs: seq<string>, automatic: bool): (r: seq<Value>)
    ensures |r| == |langs|
    ensures forall i :: 0 <= i < |langs| ==> r[i] == Str(if automatic then langs[i] + ".*" else langs[i])
  {
    seq(|langs|, i requires 0 <= i < |langs| => Str(if automatic then langs[i] + ".*" else langs[i]))
  }

  /** File names by kind: "<id>.<format>.<ext>", "<id>.<lang>.<ext>", "<id>.info.json". */
  const OutTemplates: Value := Dict(map[
    "default" := Str("%(id)s.%(format_id)s.%(ext)s"),
    "subtitle" := Str("%(id)s.%(ext)s"),
    "infojson" := Str("%(id)s")])

  /** Subtitles are converted to SRT before they are written. */
  const SrtConvertor: Value := List([Dict(map["key" := Str("FFmpegSubtitlesConvertor"), "format" := Str("srt"), "when" := Str("before_dl")])])

  /** Translated automatic subtitles are skipped. */
  const SkipTranslated: Value := Dict(map["youtube" := Dict(map["skip" := List([Str("translated_subs")])])])

  /** The options every call sets: the cleaned info.json is written into
      the download path, nothing else is downloaded, and the browser's
      cookies are used when given. */
  function BaseParams(downloadPath: string, cookies: Option<string>): (p: map<Param, Value>)
    ensures forall k :: k in p <==> k == SkipDownload || k == CookiesFromBrowser || k == WriteInfoJson || k == CleanInfoJson || k == Paths || k == OutTmpl
    ensures p[WriteInfoJson] == Bool(true) && p[CleanInfoJson] == Bool(true) && p[SkipDownload] == Bool(true)
    ensures p[Paths] == Dict(map["home" := Str(downloadPath)])
    ensures p[CookiesFromBrowser] == if CookiesGiven(cookies) then List([Str(cookies.value)]) else Null
  {
    map[
      SkipDownload := Bool(true),
      CookiesFromBrowser := (if CookiesGiven(cookies) then List([Str(cookies.value)]) else Null),
      WriteInfoJson := Bool(true),
      CleanInfoJson := Bool(true),
      Paths := Dict(map["home" := Str(downloadPath)]),
      OutTmpl := OutTemplates]
  }

  /** `if download_subtitles: params |= {...}`: the listed languages are
      fetched, automatic ones when asked. */
  function WithSubtitles(p: map<Param, Value>, langs: seq<string>, automatic: bool): (q: map<Param, Value>)
    ensures forall k :: k in q <==> k in p || (langs != [] && (k == WriteAutomaticSub || k == WriteSubtitles || k == SubtitlesLangs || k == PostProcessors || k == ExtractorArgs))
    ensures forall k :: k in p && k != WriteAutomaticSub && k != WriteSubtitles && k != SubtitlesLangs && k != PostProcessors && k != ExtractorArgs ==> q[k] == p[k]
    ensures langs != [] ==> q[WriteSubtitles] == Bool(true) && q[WriteAutomaticSub] == Bool(automatic)
    ensures langs != [] ==> q[SubtitlesLangs] == List(LangPatterns(langs, automatic))
    ensures langs == [] ==> q == p
  {
    if langs == [] then p
    else p[WriteAutomaticSub := Bool(automatic)][
      WriteSubtitles := Bool(true)][
      SubtitlesLangs := List(LangPatterns(langs, automatic))][
      PostProcessors := SrtConvertor][
      ExtractorArgs := SkipTranslated]
  }

  /** `if download_audio: params |= {...}`: the smallest usable audio is
      downloaded. */
  function WithAudio(p: map<Param, Value>, downloadAudio: bool): (q: map<Param, Value>)
    ensures forall k :: k in q <==> k in p || (downloadAudio && (k == SkipDownload || k == ExtractAudio || k == Format || k == FormatSort))
    ensures forall k :: k in p && k != SkipDownload && k != ExtractAudio && k != Format && k != FormatSort ==> q[k] == p[k]
    ensures downloadAudio ==> q[SkipDownload] == Bool(false) && q[ExtractAudio] == Bool(true) && q[Format] == Str(AudioFormat)
    ensures !downloadAudio ==> q == p
  {
    if !downloadAudio then p
    else p[SkipDownload := Bool(false)][
      ExtractAudio := Bool(true)][
      Format := Str(AudioFormat)][
      FormatSort := List([Str("+size")])]
  }

  /** After count rate limits, or with cookies, yt-dlp waits 2 ** count
      seconds between subtitle requests. */
  function WithSleep(p: map<Param, Value>, cookies: Option<string>, rateLimitCount: int): (q: map<Param, Value>)
    ensures forall k :: k in q <==> k in p || (k == SleepIntervalSubtitles && (CookiesGiven(cookies) || rateLimitCount > 0))
    ensures forall k :: k in p && k != SleepIntervalSubtitles ==> q[k] == p[k]
    ensures CookiesGiven(cookies) || rateLimitCount > 0 ==> q[SleepIntervalSubtitles] == Num(Pow2(rateLimitCount))
  {
    if CookiesGiven(cookies) || rateLimitCount > 0 then p[SleepIntervalSubtitles := Num(Pow2(rateLimitCount))]
    else p
  }

  /** `get_video_params`; `download_subtitles` None is the empty list. The
      values the options take are stated by the lemmas below. */
  function GetVideoParams(downloadPath: string, subtitles: seq<string>, downloadAudio: bool, automatic: bool,
                          cookies: Option<string>, rateLimitCount: int): (p: map<Param, Value>)
    ensures forall k :: k in p <==> (|| (k == SkipDownload || k == CookiesFromBrowser || k == WriteInfoJson || k == CleanInfoJson || k == Paths || k == OutTmpl)
                                      || (subtitles != [] && (k == WriteAutomaticSub || k == WriteSubtitles || k == SubtitlesLangs || k == PostProcessors || k == ExtractorArgs))
                                      || (downloadAudio && (k == SkipDownload || k == ExtractAudio || k == Format || k == FormatSort))
                                      || (k == SleepIntervalSubtitles && (CookiesGiven(cookies) || rateLimitCount > 0)))
  {
    WithSleep(WithAudio(WithSubtitles(BaseParams(downloadPath, cookies), subtitles, automatic), downloadAudio), cookies, rateLimitCount)
  }

  /** Every call writes the cleaned info.json into the download path and
      passes the browser's cookies when they are given. */
  lemma {:induction false} GetVideoParamsInfo(downloadPath: string, subtitles: seq<string>, downloadAudio: bool, automatic: bool,
                           cookies: Option<string>, rateLimitCount: int)
    ensures var p := GetVideoParams(downloadPath, subtitles, downloadAudio, automatic, cookies, rateLimitCount);
      && p[WriteInfoJson] == Bool(true) && p[CleanInfoJson] == Bool(true)
      && p[Paths] == Dict(map["home" := Str(downloadPath)])
      && p[CookiesFromBrowser] == (if CookiesGiven(cookies) then List([Str(cookies.value)]) else Null)
  {
    var base := BaseParams(downloadPath, cookies);
    var withSubtitles := WithSubtitles(base, subtitles, automatic);
    var withAudio := WithAudio(withSubtitles, downloadAudio);
    LaterLayersKeep(withSubtitles, downloadAudio, cookies, rateLimitCount, WriteInfoJson);
    LaterLayersKeep(withSubtitles, downloadAudio, cookies, rateLimitCount, CleanInfoJson);
    LaterLayersKeep(withSubtitles, downloadAudio, cookies, rateLimitCount, Paths);
    LaterLayersKeep(withSubtitles, downloadAudio, cookies, rateLimitCount, CookiesFromBrowser);
  }

  /** The audio and sleep options leave every other option as it was. */
  lemma {:induction false} LaterLayersKeep(p: map<Param, Value>, downloadAudio: bool, cookies: Option<string>, rateLimitCount: int, k: Param)
    requires k in p && k != SkipDownload && k != ExtractAudio && k != Format && k != FormatSort && k != SleepIntervalSubtitles
    ensures var q := WithSleep(WithAudio(p, downloadAudio), cookies, rateLimitCount);
      k in q && q[k] == p[k]
  {
    var withAudio := WithAudio(p, downloadAudio);
    assert k in withAudio && withAudio[k] == p[k];
  }

  /** The media is downloaded exactly when audio is wanted, and then in the
      audio format. */
  lemma {:induction false} GetVideoParamsAudio(downloadPath: string, subtitles: seq<string>, downloadAudio: bool, automatic: bool,
                            cookies: Option<string>, rateLimitCount: int)
    ensures var p := GetVideoParams(downloadPath, subtitles, downloadAudio, automatic, cookies, rateLimitCount);
      && p[SkipDownload] == Bool(!downloadAudio)
      && (downloadAudio ==> p[ExtractAudio] == Bool(true) && p[Format] == Str(AudioFormat))
  {
    var base := BaseParams(downloadPath, cookies);
    var withSubtitles := WithSubtitles(base, subtitles, automatic);
    assert withSubtitles[SkipDownload] == Bool(true);
    var withAudio := WithAudio(withSubtitles, downloadAudio);
    assert withAudio[SkipDownload] == Bool(!downloadAudio);
    SleepKeeps(withAudio, cookies, rateLimitCount, SkipDownload);
    if downloadAudio {
      SleepKeeps(withAudio, cookies, rateLimitCount, ExtractAudio);
      SleepKeeps(withAudio, cookies, rateLimitCount, Format);
    }
  }

  /** The sleep option leaves every other option as it was. */
  lemma {:induction false} SleepKeeps(p: map<Param, Value>, cookies: Option<string>, rateLimitCount: int, k: Param)
    requires k in p && k != SleepIntervalSubtitles
    ensures var q := WithSleep(p, cookies, rateLimitCount);
      k in q && q[k] == p[k]
  {
  }

  /** Wanted subtitles are requested by language, as "<lang>.*" patterns
      when they are automatic ones. */
  lemma {:induction false} GetVideoParamsSubtitles(downloadPath: string, subtitles: seq<string>, downloadAudio: bool, automatic: bool,
                                cookies: Option<string>, rateLimitCount: int)
    requires subtitles != []
    ensures var p := GetVideoParams(downloadPath, subtitles, downloadAudio, automatic, cookies, rateLimitCount);
      && p[WriteSubtitles] == Bool(true) && p[WriteAutomaticSub] == Bool(automatic)
      && p[SubtitlesLangs] == List(LangPatterns(subtitles, automatic))
  {
    var base := BaseParams(downloadPath, cookies);
    var withSubtitles := WithSubtitles(base, subtitles, automatic);
    LaterLayersKeep(withSubtitles, downloadAudio, cookies, rateLimitCount, WriteSubtitles);
    LaterLayersKeep(withSubtitles, downloadAudio, cookies, rateLimitCount, WriteAutomaticSub);
    LaterLayersKeep(withSubtitles, downloadAudio, cookies, rateLimitCount, SubtitlesLangs);
  }

  /** After count rate limits yt-dlp waits 2 ** count seconds between
      subtitle requests. */
  lemma {:induction false} GetVideoParamsSleep(downloadPath: string, subtitles: seq<string>, downloadAudio: bool, automatic: bool,
                            cookies: Option<string>, rateLimitCount: int)
    ensures var p := GetVideoParams(downloadPath, subtitles, downloadAudio, automatic, cookies, rateLimitCount);
      SleepIntervalSubtitles in p ==> p[SleepIntervalSubtitles] == Num(Pow2(rateLimitCount))
  {
    var base := BaseParams(downloadPath, cookies);
    var withSubtitles := WithSubtitles(base, subtitles, automatic);
    SubtitlesLeaveSleep(base, subtitles, automatic);
    AudioLeavesSleep(withSubtitles, downloadAudio);
  }

  /** The subtitle options do not include the sleep option. */
  lemma {:induction false} SubtitlesLeaveSleep(p: map<Param, Value>, subtitles: seq<string>, automatic: bool)
    requires SleepIntervalSubtitles !in p
    ensures SleepIntervalSubtitles !in WithSubtitles(p, subtitles, automatic)
  {
  }

  /** The audio options do not include the sleep option. */
  lemma {:induction false} AudioLeavesSleep(p: map<Param, Value>, downloadAudio: bool)
    requires SleepIntervalSubtitles !in p
    ensures SleepIntervalSubtitles !in WithAudio(p, downloadAudio)
  {
  }

  datatype SubType = Proper | Transcription | Translation

  /** The subtitle type as the word used in file names. */
  function TypeName(t: SubType): string {
    match t
    case Proper => "proper"
    case Transcription => "transcription"
    case Translation => "translation"
  }

  /** How good a subtitle is: proper over transcription over translation. */
  function Rank(t: SubType): nat {
    match t
    case Proper => 2
    case Transcription => 1
    case Translation => 0
  }

  /** A file name yt-dlp gave a subtitle: a file ending in ".srt" with
      exactly two dots, "<id>.<lang>.srt". */
  predicate IsFreshSubtitle(name: string) {
    EndsWith(name, ".srt") && Count(name, '.') == 2
  }

  /** The three pieces of a fresh subtitle name. */
  function Pieces(name: string): (r: seq<string>)
    requires IsFreshSubtitle(name)
    ensures |r| == 3
  {
    SplitCount(name, '.');
    Split(name, '.')
  }

  /** The type and language of an automatic subtitle: "-orig" marks the
      transcription of the spoken language and is stripped; any other
      language is a translation. */
  function Automatic(lang: string): (r: (SubType, string))
    ensures r.0 != Proper
    ensures r.0 == Transcription <==> EndsWith(lang, "-orig")
    ensures lang == r.1 + (if r.0 == Transcription then "-orig" else "")
  {
    if EndsWith(lang, "-orig") then (Transcription, lang[..|lang| - 5]) else (Translation, lang)
  }

  /** A file in the download directory, by what its name says: a subtitle
      as yt-dlp wrote it ("<id>.<lang>.<ext>"), a subtitle already renamed
      ("<id>.<type>.<lang>.<ext>"), or any other file. */
  datatype Entry =
    | Downloaded(id: string, lang: string, ext: string)
    | Named(id: string, subType: SubType, lang: string, ext: string)
    | Other(name: string)

  /** The file name an entry stands for. */
  function EntryName(e: Entry): string {
    match e
    case Downloaded(id, lang, ext) => Join([id, lang, ext], ".")
    case Named(id, t, lang, ext) => Join([id, TypeName(t), lang, ext], ".")
    case Other(name) => name
  }

  /** How the downloader reads a file name: `name.endswith(".srt") and
      name.count(".") == 2` marks a fresh subtitle, split on its dots. */
  function Parse(name: string): (e: Entry)
    ensures e.Downloaded? <==> IsFreshSubtitle(name)
    ensures !e.Named?
  {
    if IsFreshSubtitle(name) then
      var p := Pieces(name);
      Downloaded(p[0], p[1], p[2])
    else Other(name)
  }

  /** Parsing keeps the name: splitting then joining gives it back. */
  lemma {:induction false} ParseName(name: string)
    ensures EntryName(Parse(name)) == name
  {
    if IsFreshSubtitle(name) {
      SplitJoin(name, '.');
      var p := Pieces(name);
      assert p == [p[0], p[1], p[2]];
    }
  }

  /** A renamed subtitle's name gives its four parts back. */
  lemma {:induction false} NamedSplit(id: string, t: SubType, lang: string, ext: string)
    requires '.' !in id && '.' !in lang && '.' !in ext
    ensures Split(EntryName(Named(id, t, lang, ext)), '.') == [id, TypeName(t), lang, ext]
  {
    assert '.' !in TypeName(t);
    JoinSplit([id, TypeName(t), lang, ext], '.');
  }

  /** A renamed subtitle has three dots, so it is never taken for a fresh
      one by a later pass. */
  lemma {:induction false} NamedIsNotFresh(id: string, t: SubType, lang: string, ext: string)
    requires '.' !in id && '.' !in lang && '.' !in ext
    ensures Parse(EntryName(Named(id, t, lang, ext))) == Other(EntryName(Named(id, t, lang, ext)))
  {
    assert '.' !in TypeName(t);
    JoinCount([id, TypeName(t), lang, ext], '.');
  }

  lemma {:induction false} TypeNameInjective(t: SubType, t': SubType)
    requires TypeName(t) == TypeName(t')
    ensures t == t'
  {
  }

  /** Different renamed subtitles have different names. */
  lemma {:induction false} NamedInjective(a: Entry, b: Entry)
    requires a.Named? && '.' !in a.id && '.' !in a.lang && '.' !in a.ext
    requires b.Named? && '.' !in b.id && '.' !in b.lang && '.' !in b.ext
    requires EntryName(a) == EntryName(b)
    ensures a == b
  {
    NamedSplit(a.id, a.subType, a.lang, a.ext);
    NamedSplit(b.id, b.subType, b.lang, b.ext);
    TypeNameInjective(a.subType, b.subType);
  }

  /** A kept subtitle: its type and the parts of its file name besides the
      language it is kept under. */
  datatype Kept = Kept(subType: SubType, id: string, ext: string)

  /** The file of the subtitle kept under lang. */
  function KeptFile(lang: string, k: Kept): Entry {
    Named(k.id, k.subType, lang, k.ext)
  }

  /** The subtitles kept so far, by language (`done_subtitles`). */
  type Done = map<string, Kept>

  /** Every kept subtitle is a file in the directory. */
  predicate KeptOnDisk(done: Done, dir: set<Entry>) {
    forall l :: l in done ==> KeptFile(l, done[l]) in dir
  }

  /** The languages of the fresh subtitles among entries. */
  function FreshLangs(entries: seq<Entry>): set<string> {
    if entries == [] then {}
    else
      var last := entries[|entries| - 1];
      FreshLangs(entries[..|entries| - 1]) + (if last.Downloaded? then {last.lang} else {})
  }

  /** One fresh subtitle in the first pass: it becomes the proper subtitle
      of its language under its new name. */
  method ProperStep(e: Entry, dir0: set<Entry>, done0: Done) returns (dir: set<Entry>, done: Done)
    requires e.Downloaded? && e in dir0 && KeptOnDisk(done0, dir0)
    ensures KeptOnDisk(done, dir)
    ensures done == done0[e.lang := Kept(Proper, e.id, e.ext)]
    ensures dir == dir0 - {e} + {Named(e.id, Proper, e.lang, e.ext)}
  {
    dir := dir0 - {e} + {Named(e.id, Proper, e.lang, e.ext)};
    done := done0[e.lang := Kept(Proper, e.id, e.ext)];
  }

  /** The first pass: every fresh subtitle is a proper one, is renamed to
      "<id>.proper.<lang>.<ext>" and replaces what was kept for its
      language. */
  method ProperPass(entries: seq<Entry>, dir0: set<Entry>, done0: Done) returns (dir: set<Entry>, done: Done)
    requires forall i :: 0 <= i < |entries| ==> entries[i] in dir0
    requires forall i, j :: 0 <= i < j < |entries| ==> entries[i] != entries[j]
    requires KeptOnDisk(done0, dir0)
    ensures KeptOnDisk(done, dir)
    ensures done.Keys == done0.Keys + FreshLangs(entries)
    ensures forall l :: l in FreshLangs(entries) ==> done[l].subType == Proper
    ensures forall l :: l in done0 && l !in FreshLangs(entries) ==> done[l] == done0[l]
    ensures forall e :: e in dir && e.Downloaded? ==> e in dir0
    ensures forall k :: 0 <= k < |entries| && entries[k].Downloaded? ==> entries[k] !in dir
  {
    dir := dir0;
    done := done0;
    for i := 0 to |entries|
      invariant KeptOnDisk(done, dir)
      invariant done.Keys == done0.Keys + FreshLangs(entries[..i])
      invariant forall l :: l in FreshLangs(entries[..i]) ==> done[l].subType == Proper
      invariant forall l :: l in done0 && l !in FreshLangs(entries[..i]) ==> done[l] == done0[l]
      invariant forall e :: e in dir && e.Downloaded? ==> e in dir0
      invariant forall k :: 0 <= k < i && entries[k].Downloaded? ==> entries[k] !in dir
      invariant forall k :: i <= k < |entries| ==> entries[k] in dir
    {
      assert entries[..i + 1][..i] == entries[..i];
      if entries[i].Downloaded? {
        dir, done := ProperStep(entries[i], dir, done);
      }
    }
    assert entries[..|entries|] == entries;
  }

  /** The type and language an automatic subtitle is kept as. */
  function AutoKept(e: Entry): (SubType, string)
    requires e.Downloaded?
  {
    Automatic(e.lang)
  }

  /** The languages the fresh subtitles among entries are kept under in the
      second pass. */
  function AutoLangs(entries: seq<Entry>): set<string> {
    if entries == [] then {}
    else
      var last := entries[|entries| - 1];
      AutoLangs(entries[..|entries| - 1]) + (if last.Downloaded? then {AutoKept(last).1} else {})
  }

  /** One fresh subtitle in the second pass. A proper or transcribed
      subtitle already kept for its language wins and the newcomer is
      deleted; otherwise a kept translation is deleted and the newcomer is
      kept under its new name. */
  method AutomaticStep(e: Entry, dir0: set<Entry>, done0: Done) returns (dir: set<Entry>, done: Done)
    requires e.Downloaded? && e in dir0 && KeptOnDisk(done0, dir0)
    ensures KeptOnDisk(done, dir)
    ensures done.Keys == done0.Keys + {AutoKept(e).1}
    ensures Rank(done[AutoKept(e).1].subType) >= Rank(AutoKept(e).0)
    ensures forall l :: l in done0 ==> Rank(done[l].subType) >= Rank(done0[l].subType)
    ensures forall l :: l in done0 && (l != AutoKept(e).1 || done0[l].subType != Translation) ==> done[l] == done0[l]
    ensures e !in dir
    ensures forall x :: x in dir && x.Downloaded? ==> x in dir0
    ensures forall x :: x in dir0 && x != e && x.Downloaded? ==> x in dir
  {
    var (t, lang) := AutoKept(e);
    if lang in done0 && done0[lang].subType != Translation {
      dir := dir0 - {e};
      done := done0;
    } else {
      dir := dir0 - {e};
      if lang in done0 {
        dir := dir - {KeptFile(lang, done0[lang])};
      }
      dir := dir + {Named(e.id, t, lang, e.ext)};
      done := done0[lang := Kept(t, e.id, e.ext)];
    }
  }

  /** The second pass: every fresh subtitle is an automatic one, renamed to
      "<id>.transcription.<lang>.<ext>" or "<id>.translation.<lang>.<ext>",
      and each language keeps the best of what it had and what came in:
      proper over transcription over translation. */
  method AutomaticPass(entries: seq<Entry>, dir0: set<Entry>, done0: Done) returns (dir: set<Entry>, done: Done)
    requires forall i :: 0 <= i < |entries| ==> entries[i] in dir0
    requires forall i, j :: 0 <= i < j < |entries| ==> entries[i] != entries[j]
    requires KeptOnDisk(done0, dir0)
    ensures KeptOnDisk(done, dir)
    ensures done.Keys == done0.Keys + AutoLangs(entries)
    ensures forall l :: l in done0 ==> Rank(done[l].subType) >= Rank(done0[l].subType)
    ensures forall l :: l in done0 && done0[l].subType != Translation ==> done[l] == done0[l]
    ensures forall k :: 0 <= k < |entries| && entries[k].Downloaded? ==> AutoKept(entries[k]).1 in done && Rank(done[AutoKept(entries[k]).1].subType) >= Rank(AutoKept(entries[k]).0)
    ensures forall e :: e in dir && e.Downloaded? ==> e in dir0
    ensures forall k :: 0 <= k < |entries| && entries[k].Downloaded? ==> entries[k] !in dir
  {
    dir := dir0;
    done := done0;
    for i := 0 to |entries|
      invariant AutoPassed(entries, i, dir0, done0, dir, done)
    {
      dir, done := AutomaticPassStep(entries, i, dir0, done0, dir, done);
    }
    assert entries[..|entries|] == entries;
  }

  /** The state of the second pass after the first i entries. */
  ghost predicate AutoPassed(entries: seq<Entry>, i: nat, dir0: set<Entry>, done0: Done, dir: set<Entry>, done: Done)
    requires i <= |entries|
  {
    && KeptOnDisk(done, dir)
    && done.Keys == done0.Keys + AutoLangs(entries[..i])
    && (forall l :: l in done0 ==> Rank(done[l].subType) >= Rank(done0[l].subType))
    && (forall l :: l in done0 && done0[l].subType != Translation ==> done[l] == done0[l])
    && (forall k :: 0 <= k < i && entries[k].Downloaded? ==> AutoKept(entries[k]).1 in done && Rank(done[AutoKept(entries[k]).1].subType) >= Rank(AutoKept(entries[k]).0))
    && (forall e :: e in dir && e.Downloaded? ==> e in dir0)
    && (forall k :: 0 <= k < i && entries[k].Downloaded? ==> entries[k] !in dir)
    && (forall k :: i <= k < |entries| && entries[k].Downloaded? ==> entries[k] in dir)
  }

  /** One entry of the second pass. */
  method AutomaticPassStep(entries: seq<Entry>, i: nat, dir0: set<Entry>, done0: Done, dir: set<Entry>, done: Done)
    returns (dir': set<Entry>, done': Done)
    requires i < |entries| && forall i, j :: 0 <= i < j < |entries| ==> entries[i] != entries[j]
    requires AutoPassed(entries, i, dir0, done0, dir, done)
    ensures AutoPassed(entries, i + 1, dir0, done0, dir', done')
  {
    assert entries[..i + 1][..i] == entries[..i];
    dir', done' := dir, done;
    if entries[i].Downloaded? {
      dir', done' := AutomaticStep(entries[i], dir, done);
    }
  }

  /** What one call of yt-dlp does: it writes some files, or returns a
      non-zero error code, or raises DownloadError with a message. */
  datatype Download = Fetched(files: set<Entry>) | Failed | Raised(msg: string)

  /** The arguments of one call of yt-dlp: the languages asked for, whether
      automatic subtitles are meant, and the rate-limit count at the time.
      The parameters handed over are GetVideoParams of these. */
  datatype Call = Call(langs: seq<string>, automatic: bool, rateLimitCount: nat)

  const MaxRateLimitCount: nat := 5

  /** `"HTTP Error 429" in e.msg`. */
  predicate RateLimited(msg: string) {
    Contains(msg, "HTTP Error 429")
  }

  /** The languages asked for that are not kept yet. */
  function Missing(wanted: set<string>, done: Done): (r: set<string>)
    ensures forall l :: l in r <==> l in wanted && l !in done
  {
    wanted - done.Keys
  }

  /** The error a failed call ends an attempt with. */
  function CallError(d: Download): (e: Error)
    requires !d.Fetched?
    ensures e.DownloadError? <==> d.Raised?
  {
    if d.Raised? then DownloadError(d.msg) else RuntimeError("yt-dlp download failed!")
  }

  /** One attempt of the download loop: download the proper subtitles (and
      the audio), rename them, download automatic subtitles for what is
      still missing, and rename those. The n-th call of yt-dlp gives
      world(n). An error ends the attempt, and what was renamed and kept
      before it stays. */
  method Attempt(wanted: set<string>, rateLimitCount: nat, world: nat -> Download, n: nat, dir0: set<Entry>, done0: Done)
    returns (err: Option<Error>, dir: set<Entry>, done: Done, calls: seq<Call>)
    requires KeptOnDisk(done0, dir0)
    ensures KeptOnDisk(done, dir)
    ensures forall l :: l in done0 ==> l in done && Rank(done[l].subType) >= Rank(done0[l].subType)
    ensures 1 <= |calls| <= 2
    ensures calls[0].rateLimitCount == rateLimitCount && !calls[0].automatic
    ensures forall l :: l in calls[0].langs <==> l in Missing(wanted, done0)
    ensures |calls| == 2 ==> calls[1] == Call(calls[1].langs, true, rateLimitCount) && calls[1].langs != []
    ensures |calls| == 2 ==> forall l :: l in calls[1].langs ==> l in calls[0].langs
    ensures err.None? ==> |calls| == 1 ==> forall l :: l in wanted ==> l in done
    ensures err.None? ==> forall e :: e in dir ==> !e.Downloaded?
    ensures err.Some? ==> !world(n + |calls| - 1).Fetched? && err.value == CallError(world(n + |calls| - 1))
  {
    dir, done := dir0, done0;
    var missing := Listing(Missing(wanted, done));
    calls := [Call(missing, false, rateLimitCount)];
    if !world(n).Fetched? {
      return Some(CallError(world(n))), dir, done, calls;
    }
    dir := dir + world(n).files;
    var listing := Listing(dir);
    dir, done := ProperPass(listing, dir, done);
    forall l | l in done0
      ensures l in done && Rank(done[l].subType) >= Rank(done0[l].subType)
    {
      if l in FreshLangs(listing) {
        assert done[l].subType == Proper;
      }
    }
    var missing' := Listing(Missing(wanted, done));
    if missing' != [] {
      calls := calls + [Call(missing', true, rateLimitCount)];
      if !world(n + 1).Fetched? {
        return Some(CallError(world(n + 1))), dir, done, calls;
      }
      dir := dir + world(n + 1).files;
    }
    listing := Listing(dir);
    dir, done := AutomaticPass(listing, dir, done);
    err := None;
  }

  /** The download loop: an attempt that ends in a DownloadError about
      HTTP 429 is repeated after sleeping 2 ** count seconds, at most
      MaxRateLimitCount times; any other error is raised. The sleeps are
      returned instead of taken. */
  method DownloadAll(wanted: seq<string>, world: nat -> Download)
    returns (r: Result<set<Entry>>, done: Done, calls: seq<Call>, sleeps: seq<real>)
    ensures |sleeps| <= MaxRateLimitCount
    ensures forall i :: 0 <= i < |sleeps| ==> sleeps[i] == Pow2(i + 1)
    ensures forall k :: 0 <= k < |calls| ==> calls[k].rateLimitCount <= |sleeps|
    ensures r.Ok? ==> KeptOnDisk(done, r.value) && forall e :: e in r.value ==> !e.Downloaded?
    ensures r.Err? ==> r.error.RuntimeError? || r.error.DownloadError?
    ensures r.Err? && r.error.DownloadError? && RateLimited(r.error.msg) ==> |sleeps| == MaxRateLimitCount
  {
    var wantedSet := set l | l in wanted;
    var count: nat := 0;
    var dir: set<Entry> := {};
    done := map[];
    calls := [];
    sleeps := [];
    while true
      invariant count <= MaxRateLimitCount && |sleeps| == count
      invariant forall i :: 0 <= i < |sleeps| ==> sleeps[i] == Pow2(i + 1)
      invariant forall k :: 0 <= k < |calls| ==> calls[k].rateLimitCount <= count
      invariant KeptOnDisk(done, dir)
      decreases MaxRateLimitCount - count
    {
      var err, newCalls;
      err, dir, done, newCalls := Attempt(wantedSet, count, world, |calls|, dir, done);
      calls := calls + newCalls;
      if err.None? {
        return Ok(dir), done, calls, sleeps;
      }
      var e := err.value;
      if e.DownloadError? && RateLimited(e.msg) && count < MaxRateLimitCount {
        count := count + 1;
        sleeps := sleeps + [Pow2(count)];
      } else {
        return Err(e), done, calls, sleeps;
      }
    }
  }

  /** `video_id, name = entry.name.split(".", maxsplit=1)`: the id before
      the first dot and the name a file is yielded under after it, and
      ValueError when there is no dot to split at. */
  function SplitName(name: string): (r: Result<(string, string)>)
    ensures r.Ok? <==> '.' in name
    ensures r.Ok? ==> '.' !in r.value.0 && name == r.value.0 + "." + r.value.1
  {
    var parts := SplitOnce(name, '.');
    if |parts| == 2 then Ok((parts[0], parts[1])) else Err(ValueError("not enough values to unpack"))
  }

  /** A renamed subtitle is yielded as "<type>.<lang>.<ext>", e.g.
      "proper.en.srt". */
  lemma {:induction false} YieldedNamed(id: string, t: SubType, lang: string, ext: string)
    requires '.' !in id
    ensures SplitName(EntryName(Named(id, t, lang, ext))) == Ok((id, Join([TypeName(t), lang, ext], ".")))
  {
    var name := EntryName(Named(id, t, lang, ext));
    var rest := Join([TypeName(t), lang, ext], ".");
    assert name == id + "." + rest;
    PrefixIndex(id, rest, '.');
    assert name[..|id|] == id && name[|id| + 1..] == rest;
  }

  /** The yielded name and path of each file in turn; the first name
      without a dot ends the listing with ValueError. */
  method YieldAll(tmpdir: string, names: seq<string>) returns (r: Result<seq<(string, string)>>)
    ensures r.Ok? <==> forall k :: 0 <= k < |names| ==> '.' in names[k]
    ensures r.Ok? ==> |r.value| == |names|
    ensures r.Ok? ==> forall k :: 0 <= k < |names| ==> r.value[k] == (SplitName(names[k]).value.1, tmpdir + "/" + names[k])
    ensures r.Err? ==> r.error.ValueError?
  {
    var out: seq<(string, string)> := [];
    for i := 0 to |names|
      invariant |out| == i
      invariant forall k :: 0 <= k < i ==> '.' in names[k]
      invariant forall k :: 0 <= k < i ==> out[k] == (SplitName(names[k]).value.1, tmpdir + "/" + names[k])
    {
      var split := SplitName(names[i]);
      if split.Err? {
        return Err(split.error);
      }
      out := out + [(split.value.1, tmpdir + "/" + names[i])];
    }
    r := Ok(out);
  }

  /** The files of the download directory in listing order, each as its
      yielded name and its path. */
  method YieldFiles(tmpdir: string, dir: set<Entry>) returns (order: seq<Entry>, r: Result<seq<(string, string)>>)
    ensures forall e :: e in dir <==> e in order
    ensures r.Ok? <==> forall k :: 0 <= k < |order| ==> '.' in EntryName(order[k])
    ensures r.Ok? ==> |r.value| == |order|
    ensures r.Ok? ==> forall k :: 0 <= k < |order| ==> r.value[k] == (SplitName(EntryName(order[k])).value.1, tmpdir + "/" + EntryName(order[k]))
    ensures r.Err? ==> r.error.ValueError?
  {
    order := Listing(dir);
    var names := seq(|order|, k requires 0 <= k < |order| => EntryName(order[k]));
    r := YieldAll(tmpdir, names);
    assert forall k :: 0 <= k < |order| ==> names[k] == EntryName(order[k]);
  }

  /** `download_video`: the download loop, then every file of the
      directory yielded under its name after the video id. The subtitles
      asked for default to none. */
  method DownloadVideo(tmpdir: string, downloadSubtitles: Option<seq<string>>, world: nat -> Download)
    returns (r: Result<seq<(string, string)>>, dir: set<Entry>, order: seq<Entry>, calls: seq<Call>, sleeps: seq<real>)
    ensures |sleeps| <= MaxRateLimitCount
    ensures forall i :: 0 <= i < |sleeps| ==> sleeps[i] == Pow2(i + 1)
    ensures r.Ok? ==> forall e :: e in dir ==> !e.Downloaded?
    ensures r.Ok? ==> (forall e :: e in dir <==> e in order) && |r.value| == |order|
    ensures r.Ok? ==> forall k :: 0 <= k < |order| ==> '.' in EntryName(order[k])
    ensures r.Ok? ==> forall k :: 0 <= k < |order| ==> r.value[k] == (SplitName(EntryName(order[k])).value.1, tmpdir + "/" + EntryName(order[k]))
    ensures r.Err? && r.error.DownloadError? && RateLimited(r.error.msg) ==> |sleeps| == MaxRateLimitCount
  {
    var wanted := downloadSubtitles.GetOr([]);
    var downloaded, done;
    downloaded, done, calls, sleeps := DownloadAll(wanted, world);
    order := [];
    dir := {};
    if downloaded.Err? {
      return Err(downloaded.error), dir, order, calls, sleeps;
    }
    dir := downloaded.value;
    order, r := YieldFiles(tmpdir, dir);
  }
}
