/** The six projections of SpotifyHelper: each switches over a playable item and
    reads one field of a track or an episode, or yields a fixed default for any
    other item. Indexing an empty image list and looking up a missing Spotify link
    throw in the source; here they give `Thrown`. */
module Projection {
  import opened Wrappers
  import opened Playable

  /** The Spotify entry of a URL dictionary, or KeyNotFound when it has none. */
  function SpotifyUrl(urls: ExternalUrls): (r: Result<string>)
    ensures r.Ok? <==> SpotifyKey in urls
    ensures r.Ok? ==> r.value == urls[SpotifyKey]
    ensures r.Thrown? ==> r.fault == KeyNotFound
  {
    if SpotifyKey in urls then Ok(urls[SpotifyKey]) else Thrown(KeyNotFound)
  }

  /** A resource named `name` and linked to the Spotify entry of `urls`. */
  function ResourceOf(name: string, urls: ExternalUrls): (r: Result<SpotifyResource>)
    ensures r.Ok? <==> SpotifyKey in urls
    ensures r.Ok? ==> r.value.name == name && r.value.url == urls[SpotifyKey]
  {
    match SpotifyUrl(urls)
    case Ok(u) => Ok(SpotifyResource(name, u))
    case Thrown(f) => Thrown(f)
  }

  /** The first image's URL, or ArgumentOutOfRange for an empty list. */
  function FirstImageUrl(images: seq<Image>): (r: Result<string>)
    ensures r.Ok? <==> |images| > 0
    ensures r.Ok? ==> r.value == images[0].url
    ensures r.Thrown? ==> r.fault == ArgumentOutOfRange
  {
    if |images| > 0 then Ok(images[0].url) else Thrown(ArgumentOutOfRange)
  }

  /** Wraps a returned reference as non-null. */
  function Present<T>(r: Result<T>): Result<Option<T>>
  {
    match r
    case Ok(v) => Ok(Some(v))
    case Thrown(f) => Thrown(f)
  }

  /** Cover art: the album's first image for a track, the episode's own first image
      for an episode, null otherwise. */
  function GetCover(item: PlayableItem): (r: Result<Option<string>>)
    ensures r == Ok(None) <==> item.Other?
    ensures item.Track? ==>
      (r.Ok? <==> |item.track.album.images| > 0) &&
      (r.Ok? ==> r.value == Some(item.track.album.images[0].url))
    ensures item.Episode? ==>
      (r.Ok? <==> |item.episode.images| > 0) &&
      (r.Ok? ==> r.value == Some(item.episode.images[0].url))
    ensures r.Thrown? ==> r.fault == ArgumentOutOfRange
  {
    match item
    case Track(t) => Present(FirstImageUrl(t.album.images))
    case Episode(e) => Present(FirstImageUrl(e.images))
    case Other => Ok(None)
  }

  /** One resource per artist, in artist order; the first artist without a Spotify
      link makes the whole call throw. */
  function ArtistResources(artists: seq<SimpleArtist>): (r: Result<seq<SpotifyResource>>)
    ensures r.Ok? <==> forall a :: a in artists ==> SpotifyKey in a.externalUrls
    ensures r.Thrown? ==> r.fault == KeyNotFound
    ensures r.Ok? ==> |r.value| == |artists|
    ensures r.Ok? ==> forall k :: 0 <= k < |artists| ==>
      r.value[k] == SpotifyResource(artists[k].name, artists[k].externalUrls[SpotifyKey])
  {
    if |artists| == 0 then Ok([])
    else
      match ResourceOf(artists[0].name, artists[0].externalUrls)
      case Thrown(f) => Thrown(f)
      case Ok(first) =>
        match ArtistResources(artists[1..])
        case Thrown(f) => Thrown(f)
        case Ok(rest) => Ok([first] + rest)
  }

  /** The creators: the artists of a track, the show of an episode, none otherwise. */
  function GetCreators(item: PlayableItem): (r: Result<seq<SpotifyResource>>)
    ensures r.Thrown? ==> r.fault == KeyNotFound
    ensures item.Other? ==> r == Ok([])
    ensures item.Track? ==> r == ArtistResources(item.track.artists)
    ensures item.Episode? ==>
      (r.Ok? <==> SpotifyKey in item.episode.show.externalUrls) &&
      (r.Ok? ==> r.value == [SpotifyResource(item.episode.show.name,
                                             item.episode.show.externalUrls[SpotifyKey])])
  {
    match item
    case Track(t) => ArtistResources(t.artists)
    case Episode(e) =>
      (match ResourceOf(e.show.name, e.show.externalUrls)
       case Ok(s) => Ok([s])
       case Thrown(f) => Thrown(f))
    case Other => Ok([])
  }

  /** Duration in milliseconds; the placeholder 100 for any other item. */
  function GetDuration(item: PlayableItem): (r: int)
    ensures item.Track? ==> r == item.track.durationMs
    ensures item.Episode? ==> r == item.episode.durationMs
    ensures item.Other? ==> r == 100
  {
    match item
    case Track(t) => t.durationMs
    case Episode(e) => e.durationMs
    case Other => 100
  }

  /** The grouping: a track's album or an episode's show; null otherwise. */
  function GetGrouping(item: PlayableItem): (r: Result<Option<SpotifyResource>>)
    ensures r.Thrown? ==> r.fault == KeyNotFound
    ensures r == Ok(None) <==> item.Other?
    ensures item.Track? ==>
      (r.Ok? <==> SpotifyKey in item.track.album.externalUrls) &&
      (r.Ok? ==> r.value == Some(SpotifyResource(item.track.album.name,
                                                 item.track.album.externalUrls[SpotifyKey])))
    ensures item.Episode? ==>
      (r.Ok? <==> SpotifyKey in item.episode.show.externalUrls) &&
      (r.Ok? ==> r.value == Some(SpotifyResource(item.episode.show.name,
                                                 item.episode.show.externalUrls[SpotifyKey])))
  {
    match item
    case Track(t) => Present(ResourceOf(t.album.name, t.album.externalUrls))
    case Episode(e) => Present(ResourceOf(e.show.name, e.show.externalUrls))
    case Other => Ok(None)
  }

  /** The item's id; null for any other item (and for a track or episode whose own
      id is null). Never throws. */
  function GetId(item: PlayableItem): (r: Option<string>)
    ensures item.Other? ==> r.None?
    ensures item.Track? ==> r == item.track.id
    ensures item.Episode? ==> r == item.episode.id
  {
    match item
    case Track(t) => t.id
    case Episode(e) => e.id
    case Other => None
  }

  /** The item itself as a resource (its own name and Spotify link); null otherwise. */
  function GetResource(item: PlayableItem): (r: Result<Option<SpotifyResource>>)
    ensures r.Thrown? ==> r.fault == KeyNotFound
    ensures r == Ok(None) <==> item.Other?
    ensures item.Track? ==>
      (r.Ok? <==> SpotifyKey in item.track.externalUrls) &&
      (r.Ok? ==> r.value == Some(SpotifyResource(item.track.name,
                                                 item.track.externalUrls[SpotifyKey])))
    ensures item.Episode? ==>
      (r.Ok? <==> SpotifyKey in item.episode.externalUrls) &&
      (r.Ok? ==> r.value == Some(SpotifyResource(item.episode.name,
                                                 item.episode.externalUrls[SpotifyKey])))
  {
    match item
    case Track(t) => Present(ResourceOf(t.name, t.externalUrls))
    case Episode(e) => Present(ResourceOf(e.name, e.externalUrls))
    case Other => Ok(None)
  }

  /** Every projection of an unrecognised item is its documented default. */
  lemma OtherDefaults()
    ensures GetCover(Other) == Ok(None)
    ensures GetCreators(Other) == Ok([])
    ensures GetDuration(Other) == 100
    ensures GetGrouping(Other) == Ok(None)
    ensures GetId(Other) == None
    ensures GetResource(Other) == Ok(None)
  {
  }

  /** No projection throws on `item` exactly when `item` is well formed. */
  lemma NeverThrowsIffWellFormed(item: PlayableItem)
    ensures WellFormed(item) <==>
      && GetCover(item).Ok?
      && GetCreators(item).Ok?
      && GetGrouping(item).Ok?
      && GetResource(item).Ok?
  {
  }

  /** On a well-formed item, the nullable projections are null exactly for an
      unrecognised item. */
  lemma NullExactlyForOther(item: PlayableItem)
    requires WellFormed(item)
    ensures GetCover(item) == Ok(None) <==> item.Other?
    ensures GetGrouping(item) == Ok(None) <==> item.Other?
    ensures GetResource(item) == Ok(None) <==> item.Other?
    ensures GetCover(item).Ok? && GetGrouping(item).Ok? && GetResource(item).Ok?
  {
  }

  /** An episode's single creator is its grouping: both are the show. */
  lemma EpisodeCreatorIsGrouping(item: PlayableItem)
    requires item.Episode?
    ensures GetCreators(item).Ok? <==> GetGrouping(item).Ok?
    ensures GetGrouping(item).Ok? ==>
      GetCreators(item).value == [GetGrouping(item).value.value]
  {
  }

  /** A well-formed track has one creator per artist, each named after that artist
      and linked to that artist's Spotify URL. */
  lemma TrackCreatorsFollowArtists(item: PlayableItem)
    requires item.Track? && WellFormed(item)
    ensures GetCreators(item).Ok?
    ensures |GetCreators(item).value| == |item.track.artists|
    ensures forall k :: 0 <= k < |item.track.artists| ==>
      GetCreators(item).value[k].name == item.track.artists[k].name &&
      GetCreators(item).value[k].url == item.track.artists[k].externalUrls[SpotifyKey]
  {
  }
}
