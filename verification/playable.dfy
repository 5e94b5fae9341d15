/** The player-state shapes the helper reads. Only the fields that the projections
    touch are kept; every other field of the client library's types is left out. */
module Playable {
  import opened Wrappers

  /** The key under which an external-URL dictionary holds the Spotify link. */
  const SpotifyKey: string := "spotify"

  /** An external-URL dictionary (service name to URL). */
  type ExternalUrls = map<string, string>

  datatype Image = Image(url: string)

  datatype SimpleArtist = SimpleArtist(name: string, externalUrls: ExternalUrls)

  datatype SimpleAlbum = SimpleAlbum(name: string, externalUrls: ExternalUrls, images: seq<Image>)

  datatype SimpleShow = SimpleShow(name: string, externalUrls: ExternalUrls)

  /** A track; `id` is nullable (local files carry no id). */
  datatype FullTrack = FullTrack(
    name: string,
    id: Option<string>,
    durationMs: int,
    album: SimpleAlbum,
    artists: seq<SimpleArtist>,
    externalUrls: ExternalUrls)

  /** A podcast episode; `id` is nullable. */
  datatype FullEpisode = FullEpisode(
    name: string,
    id: Option<string>,
    durationMs: int,
    images: seq<Image>,
    show: SimpleShow,
    externalUrls: ExternalUrls)

  /** The value switched over by every projection: a track, an episode, or anything
      else (including `null`), which each projection maps to its default. */
  datatype PlayableItem =
    | Track(track: FullTrack)
    | Episode(episode: FullEpisode)
    | Other

  /** A display name paired with its external URL. */
  datatype SpotifyResource = SpotifyResource(name: string, url: string)

  /** True when every indexing and dictionary lookup a projection performs on `item`
      succeeds: image lists are non-empty and every dictionary has a Spotify link. */
  predicate WellFormed(item: PlayableItem)
  {
    match item
    case Track(t) =>
      && |t.album.images| > 0
      && SpotifyKey in t.album.externalUrls
      && SpotifyKey in t.externalUrls
      && forall a :: a in t.artists ==> SpotifyKey in a.externalUrls
    case Episode(e) =>
      && |e.images| > 0
      && SpotifyKey in e.show.externalUrls
      && SpotifyKey in e.externalUrls
    case Other => true
  }
}
