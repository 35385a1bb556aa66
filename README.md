# plugin.video.lrtepika — playback resolution and navigation, in Dafny

This project models the logic of the LRT Epika video plugin for Kodi (`main.py`)
that works out what to play and where each menu entry leads:

- **Playback resolution** (`play_video_ai`). The inputs are the playlist the
  service returned, the optional video description and the configured cookie.
  The result is either one of the two notifications that end the attempt or the
  playable item. A playable item carries the stream URL, the optional info tag,
  the `inputstream.adaptive` properties (with the Widevine licence type and key
  when a licence URL is present) and the optional subtitle list.
  - `Playback.Resolution` is the specification function.
  - `Playback.PlayVideo` runs the source's steps in the source's order. It is
    proved equal to `Resolution`.
  - Lemmas state what a resolution yields.
- **Protocol-relative URLs** (`Urls`). A URL starting with `//` gets `https:`
  prepended. Any other URL is left as it is.
- **Dispatch** (`router`). `Routing.Route` maps the parsed query parameters to an
  `Action`, or to the error Python would raise (missing key, text that `int`
  rejects, unknown action).
  - `Routing.Link` gives the parameters the plugin writes into its own menu URLs.
  - `Routing.RouteOfLink` proves that every such link routes back to the action
    it was written for.
  - This round trip needs `int(str(n)) == n`, which `Numerals` models and proves.
- **Video listing** (`list_videos`). A `MOVIE` becomes a non-folder `play`
  entry. Anything else becomes a folder `serial` entry. The loop over the page
  builds one entry per video, in page order.

Modules: `Wrappers` (Option/Result), `Urls`, `Numerals`, `Routing`, `Listing`,
`Playback`. Host and network calls are inputs or results, not modelled:

- A fetch that failed is `None`.
- A notification is a `Failure` value.
- The Kodi `ListItem` is the `PlayItem` / `DirectoryItem` record.

JSON objects are records. Each key the code reads is an `Option`. The flag
`otherFields` records whether the object holds any other key, because the code
tests objects for emptiness (`if not playlist_data`).

Unlike the stream and subtitle URLs, the Widevine licence URL is not
normalised: `drm['WIDEVINE']['src']` enters the licence key verbatim
(main.py:540, 578). `Playback.ExampleLicense` shows
a `//lic/k` licence URL reaching the key unchanged.

## Model

| member | source | states |
|---|---|---|
| `Urls.Normalize` | main.py:526-529 | the result is never protocol-relative. It differs from the input exactly when the input starts with `//`, and then it is `https:` followed by the input. The input is always a suffix of the result, and an empty URL stays empty |
| `Urls.NormalizeIdempotent` | main.py:528-529 | normalising twice gives the same URL as normalising once |
| `Urls.NormalizeMakesHttps` | main.py:593-594 | a protocol-relative URL becomes `https://` followed by the rest of the URL |
| `Numerals.NatToString` | main.py:163 | decimal text of a natural number: non-empty, all digits, no leading zero |
| `Numerals.IntToString` | main.py:163 | Python's `str` on an int is text `int` accepts, and starts with `-` exactly for negative numbers |
| `Numerals.ParseInt` | main.py:626 | Python's `int` on text succeeds exactly on an optional sign followed by one or more digits |
| `Numerals.DigitsValueOfNatToString` | main.py:626 | reading back the digits of `n` gives `n` |
| `Numerals.ParseIntOfIntToString` | main.py:626-631 | `int(str(n)) == n` for every integer |
| `Routing.TextParam` | main.py:623 | `params[name]` succeeds exactly when the key is present, else it is a missing-key error |
| `Routing.IntParam` | main.py:626 | `int(params[name])` succeeds exactly when the key is present and holds an integer literal, and then its value is what `int` reads from the text. A missing key is reported as missing, and text `int` rejects is reported as not an integer, with the key and the text |
| `Routing.Route` | main.py:617-639 | no parameters lists the categories. Parameters without `action` are a missing-key error. A missing-key error always names a key that is absent, and a not-an-integer error names a present key together with its text, which `int` rejects. The result is the invalid-paramstring error exactly when `action` is present but unknown. Routing succeeds exactly when there are no parameters, or the action is known and every key its handler reads is present, holding an integer literal where `int` is applied. For any non-empty parameters, a successful dispatch is the action `action` names (never the category listing), its arguments are the values read from their keys, and `play` always uses the video type `MOVIE` |
| `Routing.RouteOfLink` | main.py:605-639 | every URL the plugin writes for an action routes back to exactly that action |
| `Listing.VideoItem` | main.py:353-360 | the entry is labelled with the title and marked playable. It is a folder exactly when the video is not a `MOVIE`, and its action is `play` for a movie and `serial` otherwise |
| `Listing.VideoItemRoutes` | main.py:353-360 | a movie entry routes to playing `video=id` with type `MOVIE`. Any other entry routes to the series listing with the same category, subcategory and `video_id` |
| `Listing.ListVideos` | main.py:312-362 | no page is the "failed to get videos" error. An empty page is the "no videos" error. Otherwise there is one entry per video, in order, each as `VideoItem` gives it |
| `Playback.StreamUrl` | main.py:525-537 | a stream URL exists exactly when the DASH list is present and non-empty and its first `src` is non-empty. Later entries are never used. The URL is the normalised first `src`, so it is non-empty and not protocol-relative |
| `Playback.SelectDashUrl` | main.py:525-529 | the DASH choice yields a URL exactly when the DASH list is present and non-empty. That URL is the normalised `src` of the first entry, with a missing `src` read as empty |
| `Playback.BuildLicenseKey` | main.py:570-578 | the key is built by appending the cookie header only when a cookie is configured, and equals `LicenseKey` |
| `Playback.SubtitleUrls` | main.py:590-595 | one URL per subtitle track, in the same order. Each is the normalised `url` of its track, with a missing `url` read as empty |
| `Playback.CollectSubtitleUrls` | main.py:590-595 | the append loop produces exactly `SubtitleUrls` of the tracks |
| `Playback.PlayVideo` | main.py:505-602 | the imperative resolver, which sets properties one at a time, returns exactly `Resolution` for every playlist, description and cookie |
| `Playback.ResolutionOutcome` | main.py:510-537 | a missing or empty playlist ends in "stream information unavailable", whatever the other inputs hold. Otherwise resolution fails exactly when there is no DASH list, the list is empty or its first `src` is empty, and then with "no DASH stream". Other transports make no difference |
| `Playback.ResolvedStream` | main.py:546-558 | a resolved item's path is the normalised first DASH `src`. `inputstream` is `inputstream.adaptive` and the manifest type is `mpd`. The info tag is the description's title, plot and duration with defaults `Unknown`, `""` and `0`, and is set only for a non-empty description |
| `Playback.ResolvedLicense` | main.py:540-584 | the licence type and key are set exactly when the Widevine `src` is non-empty. The type is then `com.widevine.alpha` and the key is `LicenseKey` of that URL as given |
| `Playback.ResolvedSubtitles` | main.py:588-598 | subtitles are attached exactly when the playlist lists at least one track. There is then one normalised URL per track, in order |
| `Playback.ResolutionIndependentOfExtras` | main.py:549-575 | the description and the cookie never change whether resolution succeeds, which error it gives, or the stream and subtitles it resolves to |
| `Playback.LicenseKeyFields` | main.py:577-578 | when neither the licence URL nor the cookie contains a pipe character, the key splits at each pipe into exactly the licence URL, the headers, `R{SSM}` and an empty field |
| `Playback.ExampleStream` | main.py:526-529 | the example playlist with `//cdn/a.mpd` plays `https://cdn/a.mpd` |
| `Playback.ExampleLicense` | main.py:568-581 | in the example without a cookie, the key fields are `//lic/k`, `Content-Type=application/octet-stream`, `R{SSM}` and empty |
| `Playback.ExampleSubtitles` | main.py:588-598 | in the example the subtitle `//subs/en.vtt` becomes `https://subs/en.vtt` |

## Left out

- Kodi host calls are not modelled: `xbmcplugin.*`, `xbmcgui.ListItem`, notifications, `xbmc.log` and `setResolvedUrl`. Notifications are `Failure` values. List-item properties are record fields. Log messages, including the "no DRM licence URL" warning, leave no trace.
- Network access is not modelled: `LRTEpikaAPI`, `get_videos` and the generated API client's `.sync` calls. Their results are inputs. A failed fetch is `None`.
- `PlayVideo` receives the video description as a parameter. The source fetches it only after the DASH check succeeds, and the model cannot show that ordering. `ResolutionIndependentOfExtras` shows that the description never affects the outcome.
- The video id and video type passed to `play_video_ai` are not modelled. They only key the two fetches: the playlist fetch uses both, and the description fetch (`get_video_info`, main.py:549) uses the id. Both fetch results are inputs of `PlayVideo`.
- `get_url`, `urlencode` and `parse_qsl` are not modelled. `Route` takes the parsed map, and `Link` is the keyword map before encoding. The effect of `parse_qsl` dropping blank values is not modelled.
- `ADDON.getSetting('cookies')` is not modelled. The cookie is a parameter.
- `Numerals.ParseInt`: does not accept the surrounding whitespace, underscores between digits or non-ASCII digits that Python's `int` also accepts. It does not model CPython's 4300-digit limit on int/str conversion either: `int` raises `ValueError` on a longer literal, and the model accepts it.
- `Numerals.IntToString`: does not model CPython's 4300-digit limit, under which `str` raises `ValueError` for an int with more digits.
- `Numerals.ParseIntOfIntToString`: holds for every integer in the model. In CPython it holds only for integers of at most 4300 digits, because of the int/str conversion limit.
- JSON values of an unexpected type are not modelled, for example `sources` being `null` or a `src` that is not a string. Python raises a `TypeError` or `AttributeError` for these. The model types every field.
- Listing items: the poster art, the info-tag genre, plot and year, and the sort methods are not modelled. `DirectoryItem` keeps the label, the link, the folder flag and `IsPlayable`. The page's `items` being unset is not modelled. A page is either missing or a list of videos.
- `list_categories`, `list_sub_categories`, `list_series` and `list_episodes` are not modelled. Each reads its entries (the hard-coded category list in `list_categories`, main.py:234; an API call in the others) and loops adding one entry per result: folder entries, except that `list_episodes` adds non-folder playable `play` entries (main.py:385-393). Their link parameters are the `Link` cases `RouteOfLink` covers.
- The TypedDict payload declarations are not modelled; they are type declarations only.
- The hard-coded category list (`get_categories_internal`, main.py:176-180) is not modelled; only `list_categories` (main.py:234) reads it.
- The stub `get_sub_category_internal` (main.py:199-200) is not modelled. `list_videos` and `list_series` read its `.name` only to set the plugin category title (main.py:302, 305, 404-405), which is a host call.
- The unused `play_video` helper is not modelled.
