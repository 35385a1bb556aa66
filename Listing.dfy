/** The video listing of a subcategory (`list_videos`, main.py:300-367): each
    video of the fetched page becomes a menu entry that either plays it (a
    movie) or opens its seasons (anything else). Host UI calls become fields of
    `DirectoryItem`; the page fetch is an input. */
module Listing {
  import opened Wrappers
  import opened Numerals
  import opened Routing

  /** The type of a catalogue product; only `MOVIE` is told apart. */
  datatype MovieType = Movie | OtherType(name: string)

  /** The fields of a catalogue product the listing reads. */
  datatype Vod = Vod(id: int, title: string, kind: MovieType)

  /** One entry added to the folder: its label (the video title), the parameters of the plugin
      URL it leads to, whether it opens a sub-folder, and whether the entry
      carries the `IsPlayable` property. */
  datatype DirectoryItem = DirectoryItem(title: string, url: map<string, string>, isFolder: bool, playable: bool)

  /** The two notifications after which the listing is abandoned. */
  datatype ListingError = FailedToGetVideos | NoVideosFound

  /** The entry for one video (main.py:333, 350, 353-360). */
  function VideoItem(category: int, subcategory: int, video: Vod): (item: DirectoryItem)
    ensures item.title == video.title && item.playable
    ensures item.isFolder <==> video.kind != Movie
    ensures "action" in item.url && item.url["action"] == (if video.kind == Movie then "play" else "serial")
  {
    if video.kind == Movie then
      DirectoryItem(video.title, Link(Play(IntToString(video.id), DefaultVideoType)), false, true)
    else
      DirectoryItem(video.title, Link(ListSeries(category, subcategory, video.id)), true, true)
  }

  /** A movie entry routes to playing that movie with the default video type;
      any other entry routes to the season list of that video in the same
      category and subcategory. */
  lemma VideoItemRoutes(category: int, subcategory: int, video: Vod)
    ensures video.kind == Movie ==>
      Route(VideoItem(category, subcategory, video).url)
        == Success(Play(IntToString(video.id), DefaultVideoType))
    ensures video.kind != Movie ==>
      Route(VideoItem(category, subcategory, video).url)
        == Success(ListSeries(category, subcategory, video.id))
  {
    if video.kind == Movie {
      RouteOfLink(Play(IntToString(video.id), DefaultVideoType));
    } else {
      RouteOfLink(ListSeries(category, subcategory, video.id));
    }
  }

  /** The folder contents for a fetched page of videos (`None` when the fetch
      returned nothing): one entry per video, in page order. */
  method ListVideos(category: int, subcategory: int, page: Option<seq<Vod>>)
    returns (r: Result<seq<DirectoryItem>, ListingError>)
    ensures page.None? ==> r == Failure(FailedToGetVideos)
    ensures page == Some([]) ==> r == Failure(NoVideosFound)
    ensures page.Some? && page.value != [] ==> r.Success? && |r.value| == |page.value|
    ensures page.Some? && r.Success? ==>
      forall i :: 0 <= i < |page.value| ==> r.value[i] == VideoItem(category, subcategory, page.value[i])
  {
    if page.None? {
      return Failure(FailedToGetVideos);
    }
    var videos := page.value;
    if |videos| == 0 {
      return Failure(NoVideosFound);
    }
    var items: seq<DirectoryItem> := [];
    for i := 0 to |videos|
      invariant |items| == i
      invariant forall k :: 0 <= k < i ==> items[k] == VideoItem(category, subcategory, videos[k])
    {
      items := items + [VideoItem(category, subcategory, videos[i])];
    }
    r := Success(items);
  }
}
