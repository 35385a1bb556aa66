/** Playback resolution (`play_video_ai`, main.py:505-602): from the playlist
    the service returned for a video, the optional video description and the
    configured cookie, either the notification that ends the attempt or the
    playable item handed to the player. Fetching, logging and the host's
    `ListItem` are not modelled; the item's path, info tag, properties and
    subtitles are the fields of `PlayItem`. */
module Playback {
  import opened Wrappers
  import opened Urls

  const InputStreamProperty: string := "inputstream"
  const InputStreamAdaptive: string := "inputstream.adaptive"
  const ManifestTypeProperty: string := "inputstream.adaptive.manifest_type"
  const ManifestTypeMpd: string := "mpd"
  const LicenseTypeProperty: string := "inputstream.adaptive.license_type"
  const WidevineLicenseType: string := "com.widevine.alpha"
  const LicenseKeyProperty: string := "inputstream.adaptive.license_key"

  /** The header every licence request carries. */
  const OctetStreamHeader: string := "Content-Type=application/octet-stream"
  /** The placeholder the player replaces by the DRM session message. */
  const SessionMessageToken: string := "R{SSM}"

  /** One entry of a transport's source list. */
  datatype Source = Source(src: Option<string>)
  /** The descriptor of one DRM scheme. */
  datatype DrmScheme = DrmScheme(src: Option<string>)
  /** One subtitle track. */
  datatype Subtitle = Subtitle(url: Option<string>)

  /** The playlist object: each key the resolver reads may be absent, and
      `otherFields` says whether the object holds any other key (it matters
      only to Python's test of whether the object is empty). */
  datatype Playlist = Playlist(
    sources: Option<map<string, seq<Source>>>,
    drm: Option<map<string, DrmScheme>>,
    subtitles: Option<seq<Subtitle>>,
    otherFields: bool)
  {
    predicate IsEmpty() {
      sources.None? && drm.None? && subtitles.None? && !otherFields
    }
  }

  /** The video description object, read the same way. */
  datatype VideoInfo = VideoInfo(
    title: Option<string>,
    description: Option<string>,
    duration: Option<int>,
    otherFields: bool)
  {
    predicate IsEmpty() {
      title.None? && description.None? && duration.None? && !otherFields
    }
  }

  /** The title, plot and duration set on the item's video info tag. */
  datatype InfoTag = InfoTag(title: string, plot: string, duration: int)

  /** The playable item: its path (the stream URL), the info tag if one was
      set, the string properties set on it, and the subtitle list if one was set. */
  datatype PlayItem = PlayItem(
    path: string,
    info: Option<InfoTag>,
    properties: map<string, string>,
    subtitles: Option<seq<string>>)

  /** The two notifications after which nothing is played. */
  datatype ResolveError = StreamInfoUnavailable | NoDashStream

  /** The fetch returned an object and that object is not empty (`if not playlist_data`). */
  predicate IsUsable(playlist: Option<Playlist>) {
    playlist.Some? && !playlist.value.IsEmpty()
  }

  /** The `src` of the first DASH source as given, `""` when that entry has
      none; `None` when there is no DASH list or it is empty. */
  function FirstDashSrc(sources: map<string, seq<Source>>): Option<string> {
    if "DASH" in sources && |sources["DASH"]| > 0 then Some(sources["DASH"][0].src.GetOr("")) else None
  }

  /** The stream URL: the normalised `src` of the first DASH source, if not empty. */
  function StreamUrl(p: Playlist): (r: Option<string>)
    ensures var first := FirstDashSrc(p.sources.GetOr(map[]));
      r.Some? <==> first.Some? && first.value != ""
    ensures r.Some? ==> r.value != "" && !IsProtocolRelative(r.value)
    ensures r.Some? ==> r.value == Normalize(FirstDashSrc(p.sources.GetOr(map[])).value)
  {
    match FirstDashSrc(p.sources.GetOr(map[]))
    case None => None
    case Some(src) =>
      var url := Normalize(src);
      if url == "" then None else Some(url)
  }

  /** The Widevine licence URL exactly as the playlist gives it, `""` when absent. */
  function WidevineUrl(p: Playlist): string {
    var drm := p.drm.GetOr(map[]);
    if "WIDEVINE" in drm then drm["WIDEVINE"].src.GetOr("") else ""
  }

  /** The headers segment of the licence key: the content type, then the
      cookie header when a cookie is configured. */
  function LicenseHeaders(cookie: string): string {
    if cookie != "" then OctetStreamHeader + "&Cookie=" + cookie else OctetStreamHeader
  }

  /** The licence key `URL|headers|R{SSM}|` passed to the player. */
  function LicenseKey(licenseUrl: string, cookie: string): string {
    licenseUrl + "|" + LicenseHeaders(cookie) + "|" + SessionMessageToken + "|"
  }

  /** The properties set on every resolved item, plus the licence type and
      key when a Widevine URL is present. */
  function ItemProperties(widevineUrl: string, cookie: string): map<string, string> {
    var adaptive := map[InputStreamProperty := InputStreamAdaptive, ManifestTypeProperty := ManifestTypeMpd];
    if widevineUrl != "" then
      adaptive[LicenseTypeProperty := WidevineLicenseType][LicenseKeyProperty := LicenseKey(widevineUrl, cookie)]
    else
      adaptive
  }

  /** The info tag set from a non-empty video description, with its defaults. */
  function Metadata(info: Option<VideoInfo>): Option<InfoTag> {
    if info.Some? && !info.value.IsEmpty() then
      Some(InfoTag(info.value.title.GetOr("Unknown"), info.value.description.GetOr(""), info.value.duration.GetOr(0)))
    else
      None
  }

  /** The URL of one subtitle track, normalised, `""` when it has none. */
  function SubtitleUrl(s: Subtitle): string {
    Normalize(s.url.GetOr(""))
  }

  /** The subtitle URLs: one per track, in track order. */
  function SubtitleUrls(subtitles: seq<Subtitle>): (urls: seq<string>)
    ensures |urls| == |subtitles|
    ensures forall i :: 0 <= i < |subtitles| ==> urls[i] == SubtitleUrl(subtitles[i])
  {
    if subtitles == [] then [] else [SubtitleUrl(subtitles[0])] + SubtitleUrls(subtitles[1..])
  }

  /** The subtitle list set on the item: only when the playlist lists a track. */
  function AttachedSubtitles(p: Playlist): Option<seq<string>> {
    var subtitles := p.subtitles.GetOr([]);
    if |subtitles| > 0 then Some(SubtitleUrls(subtitles)) else None
  }

  /** What resolving a playlist yields: the notification that ends the
      attempt, or the item to play. */
  function Resolution(playlist: Option<Playlist>, info: Option<VideoInfo>, cookie: string)
    : Result<PlayItem, ResolveError>
  {
    if !IsUsable(playlist) then
      Failure(StreamInfoUnavailable)
    else
      var p := playlist.value;
      match StreamUrl(p)
      case None => Failure(NoDashStream)
      case Some(url) =>
        Success(PlayItem(url, Metadata(info), ItemProperties(WidevineUrl(p), cookie), AttachedSubtitles(p)))
  }

  /** The choice of the stream: the first DASH source's `src`, normalised;
      `None` when there is no DASH list or it is empty. */
  method SelectDashUrl(sources: map<string, seq<Source>>) returns (dashUrl: Option<string>)
    ensures dashUrl.Some? <==> FirstDashSrc(sources).Some?
    ensures dashUrl.Some? ==> dashUrl.value == Normalize(FirstDashSrc(sources).value)
  {
    dashUrl := None;
    if "DASH" in sources && |sources["DASH"]| > 0 {
      var src := sources["DASH"][0].src.GetOr("");
      if IsProtocolRelative(src) {
        src := HttpsScheme + src;
      }
      dashUrl := Some(src);
    }
  }

  /** The assembly of the licence key, the cookie header added only when a cookie is configured. */
  method BuildLicenseKey(widevineUrl: string, cookie: string) returns (licenseKey: string)
    ensures licenseKey == LicenseKey(widevineUrl, cookie)
  {
    var licenseHeaders := OctetStreamHeader;
    if cookie != "" {
      licenseHeaders := licenseHeaders + "&Cookie=" + cookie;
    }
    licenseKey := widevineUrl + "|" + licenseHeaders + "|" + SessionMessageToken + "|";
  }

  /** The loop that normalises each subtitle URL and appends it to the list. */
  method CollectSubtitleUrls(subtitles: seq<Subtitle>) returns (subtitleUrls: seq<string>)
    ensures subtitleUrls == SubtitleUrls(subtitles)
  {
    subtitleUrls := [];
    for i := 0 to |subtitles|
      invariant |subtitleUrls| == i
      invariant forall k :: 0 <= k < i ==> subtitleUrls[k] == SubtitleUrl(subtitles[k])
    {
      var url := subtitles[i].url.GetOr("");
      if IsProtocolRelative(url) {
        url := HttpsScheme + url;
      }
      subtitleUrls := subtitleUrls + [url];
    }
  }

  /** `play_video_ai` once its fetches are done: the same steps in the same
      order, building the item one property at a time. */
  method PlayVideo(playlist: Option<Playlist>, videoInfo: Option<VideoInfo>, cookie: string)
    returns (r: Result<PlayItem, ResolveError>)
    ensures r == Resolution(playlist, videoInfo, cookie)
  {
    if playlist.None? || playlist.value.IsEmpty() {
      return Failure(StreamInfoUnavailable);
    }
    var playlistData := playlist.value;
    var sources: map<string, seq<Source>> := playlistData.sources.GetOr(map[]);
    var drm: map<string, DrmScheme> := playlistData.drm.GetOr(map[]);

    var dashUrl := SelectDashUrl(sources);
    if dashUrl.None? || dashUrl.value == "" {
      return Failure(NoDashStream);
    }

    var widevineUrl := if "WIDEVINE" in drm then drm["WIDEVINE"].src.GetOr("") else "";
    assert widevineUrl == WidevineUrl(playlistData);

    var playItem := PlayItem(dashUrl.value, None, map[], None);
    if videoInfo.Some? && !videoInfo.value.IsEmpty() {
      var info := videoInfo.value;
      playItem := playItem.(info := Some(InfoTag(info.title.GetOr("Unknown"), info.description.GetOr(""), info.duration.GetOr(0))));
    }

    playItem := playItem.(properties := playItem.properties[InputStreamProperty := InputStreamAdaptive]);
    playItem := playItem.(properties := playItem.properties[ManifestTypeProperty := ManifestTypeMpd]);
    assert playItem.properties == ItemProperties("", cookie);

    if widevineUrl != "" {
      var licenseKey := BuildLicenseKey(widevineUrl, cookie);
      playItem := playItem.(properties := playItem.properties[LicenseTypeProperty := WidevineLicenseType]);
      playItem := playItem.(properties := playItem.properties[LicenseKeyProperty := licenseKey]);
      assert playItem.properties == ItemProperties(widevineUrl, cookie);
    } else {
      assert playItem.properties == ItemProperties(widevineUrl, cookie);
    }

    var subtitles: seq<Subtitle> := playlistData.subtitles.GetOr([]);
    if |subtitles| > 0 {
      var subtitleUrls := CollectSubtitleUrls(subtitles);
      if |subtitleUrls| > 0 {
        playItem := playItem.(subtitles := Some(subtitleUrls));
      }
    }
    assert playItem.subtitles == AttachedSubtitles(playlistData);
    assert playItem.path == StreamUrl(playlistData).value;
    assert playItem.info == Metadata(videoInfo);
    r := Success(playItem);
  }

  /** The outcome of a resolution: an unusable playlist stops it first; a
      usable one fails exactly when the first DASH source is missing or has an
      empty `src`, whatever the other transports and later DASH sources hold. */
  lemma ResolutionOutcome(playlist: Option<Playlist>, info: Option<VideoInfo>, cookie: string)
    ensures !IsUsable(playlist) ==> Resolution(playlist, info, cookie) == Failure(StreamInfoUnavailable)
    ensures IsUsable(playlist) ==>
      var sources := playlist.value.sources.GetOr(map[]);
      (Resolution(playlist, info, cookie).Failure? <==>
        !("DASH" in sources && |sources["DASH"]| > 0 && sources["DASH"][0].src.GetOr("") != "")) &&
      (Resolution(playlist, info, cookie).Failure? ==>
        Resolution(playlist, info, cookie).error == NoDashStream)
  {
  }

  /** A resolved item plays the normalised `src` of the first DASH source and
      is always set up for the adaptive input stream with an MPD manifest; a
      non-empty description sets the info tag, with the defaults `Unknown`,
      `""` and `0` for a missing title, description and duration. */
  lemma ResolvedStream(playlist: Option<Playlist>, info: Option<VideoInfo>, cookie: string)
    ensures Resolution(playlist, info, cookie).Success? ==>
      (var sources := playlist.value.sources.GetOr(map[]);
      "DASH" in sources && |sources["DASH"]| > 0 &&
      Resolution(playlist, info, cookie).value.path == Normalize(sources["DASH"][0].src.GetOr("")))
    ensures Resolution(playlist, info, cookie).Success? ==>
      (var props := Resolution(playlist, info, cookie).value.properties;
      InputStreamProperty in props && props[InputStreamProperty] == InputStreamAdaptive &&
      ManifestTypeProperty in props && props[ManifestTypeProperty] == ManifestTypeMpd)
    ensures Resolution(playlist, info, cookie).Success? ==>
      (var tag := Resolution(playlist, info, cookie).value.info;
       (tag.Some? <==> info.Some? && !info.value.IsEmpty()) &&
       (tag.Some? ==>
          tag.value.title == info.value.title.GetOr("Unknown") &&
          tag.value.plot == info.value.description.GetOr("") &&
          tag.value.duration == info.value.duration.GetOr(0)))
  {
    if Resolution(playlist, info, cookie).Success? {
      assert Resolution(playlist, info, cookie).value.info == Metadata(info);
    }
  }

  /** The licence type and key are set exactly when the Widevine URL is not
      empty; the key holds that URL as given, not normalised. */
  lemma ResolvedLicense(playlist: Option<Playlist>, info: Option<VideoInfo>, cookie: string)
    ensures Resolution(playlist, info, cookie).Success? ==>
      (var licenseUrl := WidevineUrl(playlist.value);
      var props := Resolution(playlist, info, cookie).value.properties;
      (LicenseTypeProperty in props <==> licenseUrl != "") &&
      (LicenseKeyProperty in props <==> licenseUrl != "") &&
      (licenseUrl != "" ==>
        props[LicenseTypeProperty] == WidevineLicenseType &&
        props[LicenseKeyProperty] == LicenseKey(licenseUrl, cookie)))
  {
  }

  /** Subtitles are attached exactly when the playlist lists a track, one
      normalised URL per track, in order. */
  lemma ResolvedSubtitles(playlist: Option<Playlist>, info: Option<VideoInfo>, cookie: string)
    ensures Resolution(playlist, info, cookie).Success? ==>
      (var subtitles := playlist.value.subtitles.GetOr([]);
      var attached := Resolution(playlist, info, cookie).value.subtitles;
      (attached.Some? <==> |subtitles| > 0) &&
      (attached.Some? ==>
        |attached.value| == |subtitles| &&
        forall i :: 0 <= i < |subtitles| ==> attached.value[i] == Normalize(subtitles[i].url.GetOr(""))))
  {
  }

  /** The video description and the cookie never decide whether a playlist
      resolves, nor the stream and subtitles it resolves to. */
  lemma ResolutionIndependentOfExtras(playlist: Option<Playlist>, info1: Option<VideoInfo>, cookie1: string,
                                      info2: Option<VideoInfo>, cookie2: string)
    ensures Resolution(playlist, info1, cookie1).Success? == Resolution(playlist, info2, cookie2).Success?
    ensures Resolution(playlist, info1, cookie1).Failure? ==>
      Resolution(playlist, info1, cookie1) == Resolution(playlist, info2, cookie2)
    ensures Resolution(playlist, info1, cookie1).Success? ==>
      Resolution(playlist, info1, cookie1).value.path == Resolution(playlist, info2, cookie2).value.path &&
      Resolution(playlist, info1, cookie1).value.subtitles == Resolution(playlist, info2, cookie2).value.subtitles
  {
  }

  /** Python's `str.split(sep)`: the fields between separators, in order. */
  function Split(s: string, sep: char): (fields: seq<string>)
    ensures |fields| > 0
  {
    if s == [] then [""]
    else
      var rest := Split(s[1..], sep);
      if s[0] == sep then [""] + rest else [[s[0]] + rest[0]] + rest[1..]
  }

  lemma {:induction false} SplitAfterField(field: string, sep: char, rest: string)
    requires sep !in field
    ensures Split(field + [sep] + rest, sep) == [field] + Split(rest, sep)
  {
    var s := field + [sep] + rest;
    if field == [] {
      assert s[1..] == rest;
    } else {
      assert s[0] == field[0] && s[0] != sep;
      assert s[1..] == field[1..] + [sep] + rest;
      SplitAfterField(field[1..], sep, rest);
      assert [field[0]] + field[1..] == field;
    }
  }

  /** The player reads the licence key as four `|`-separated fields: the
      licence URL, the request headers, the request body template `R{SSM}` and
      an empty response field. This holds whenever neither the URL nor the
      cookie contains a `|`. */
  lemma LicenseKeyFields(licenseUrl: string, cookie: string)
    requires '|' !in licenseUrl && '|' !in cookie
    ensures Split(LicenseKey(licenseUrl, cookie), '|')
      == [licenseUrl, LicenseHeaders(cookie), SessionMessageToken, ""]
  {
    var headers := LicenseHeaders(cookie);
    assert '|' !in headers by {
      assert '|' !in OctetStreamHeader && '|' !in "&Cookie=";
    }
    assert LicenseKey(licenseUrl, cookie)
      == licenseUrl + ['|'] + (headers + ['|'] + (SessionMessageToken + ['|'] + ""));
    SplitAfterField(licenseUrl, '|', headers + ['|'] + (SessionMessageToken + ['|'] + ""));
    SplitAfterField(headers, '|', SessionMessageToken + ['|'] + "");
    SplitAfterField(SessionMessageToken, '|', "");
  }

  /** A playlist whose stream, licence and subtitle URLs are all protocol-relative. */
  function ExamplePlaylist(): Playlist {
    Playlist(
      Some(map["DASH" := [Source(Some("//cdn/a.mpd"))]]),
      Some(map["WIDEVINE" := DrmScheme(Some("//lic/k"))]),
      Some([Subtitle(Some("//subs/en.vtt"))]),
      false)
  }

  /** Resolving the example without a cookie plays the stream URL with `https:` prepended
      (`https://cdn/a.mpd`). */
  lemma ExampleStream()
    ensures var r := Resolution(Some(ExamplePlaylist()), None, "");
      r.Success? && r.value.path == HttpsScheme + "//cdn/a.mpd"
  {
    assert IsProtocolRelative("//cdn/a.mpd");
    assert StreamUrl(ExamplePlaylist()) == Some(HttpsScheme + "//cdn/a.mpd");
  }

  /** In the example the licence URL enters the key unchanged, followed by the
      content-type header and the `R{SSM}` template. */
  lemma ExampleLicense()
    ensures var r := Resolution(Some(ExamplePlaylist()), None, "");
      r.Success? && LicenseKeyProperty in r.value.properties &&
      Split(r.value.properties[LicenseKeyProperty], '|')
        == ["//lic/k", "Content-Type=application/octet-stream", "R{SSM}", ""]
  {
    var p := ExamplePlaylist();
    assert StreamUrl(p).Some?;
    assert WidevineUrl(p) == "//lic/k";
    LicenseKeyFields("//lic/k", "");
  }

  /** In the example the one subtitle URL gains `https:` (`https://subs/en.vtt`). */
  lemma ExampleSubtitles()
    ensures var r := Resolution(Some(ExamplePlaylist()), None, "");
      r.Success? && r.value.subtitles == Some([HttpsScheme + "//subs/en.vtt"])
  {
    var p := ExamplePlaylist();
    assert StreamUrl(p).Some?;
    assert AttachedSubtitles(p) == Some([HttpsScheme + "//subs/en.vtt"]) by {
      assert IsProtocolRelative("//subs/en.vtt");
      assert SubtitleUrls([Subtitle(Some("//subs/en.vtt"))]) == [HttpsScheme + "//subs/en.vtt"];
    }
  }
}
