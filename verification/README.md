# SpotifyHelper, modelled in Dafny

This project models `SpotifyHelper`, the static helper of SpotifyStatus that sits between the
Spotify client library and the status display. It has three parts:

- **Resource projections.** `GetCover`, `GetCreators`, `GetDuration`, `GetGrouping`, `GetId` and
  `GetResource` read a field of the current playable item. The item is a track, an episode, or
  anything else. Anything else (including `null`) gets a fixed default.
- **Small codecs.**
  - The repeat-state name table (`GetState`).
  - The cyclic successor `Next` on repeat states.
  - `ToUpdateInt`, which numbers a single-bit `SpotifyInfo` flag by its bit position.
- **The two fetchers.**
  - `SendCanvasAsync` scrapes a canvas link out of a third-party page with a fixed pattern.
  - `SendLyricsAsync` streams lyric lines.
  - Both report through a `(SpotifyInfo, string)` callback. Here each one is a pure function that
    returns the sequence of callback messages, and the network's answer is an input.

Modules:

| file | module | contents |
|---|---|---|
| `wrappers.dfy` | `Wrappers` | `Option` (a nullable reference), `Result` (a value or a thrown `Fault`) |
| `playable.dfy` | `Playable` | the item shapes (`FullTrack`, `FullEpisode`, `PlayableItem`), `SpotifyResource`, `WellFormed` |
| `projection.dfy` | `Projection` | the six projections and their lemmas |
| `repeat_state.dfy` | `RepeatStates` | `RepeatState`, the name table, `GetState`, `Next`, period-three lemmas |
| `update_index.dfy` | `UpdateIndex` | `ToUpdateInt` on the flag's integer value, integer `Log2`, powers of two |
| `canvas_pattern.dfy` | `CanvasPattern` | the pattern scanner (`ExtractCanvasUrl`) with its leftmost-shortest specification |
| `messages.dfy` | `Messages` | `SendCanvas`, `SendLyrics` and their message traces |

In the C# code, indexing an empty image list and reading a missing `"spotify"` entry both throw.
The model returns `Thrown(ArgumentOutOfRange)` or `Thrown(KeyNotFound)` in those cases instead of
putting a precondition on the caller. `WellFormed(item)` holds exactly when no projection throws.

Two consequences of the code that the model states:

- **Canvas on failure.** Once an id is present, a failed request, a page without the button and a
  blank link all send exactly `[(Canvas, "")]`. `GetSpotifyTrackDownloadUrl` catches every
  exception and returns `null` (SpotifyHelper.cs:150-154), and `SendCanvasAsync` turns `null` into
  an empty Canvas message (SpotifyHelper.cs:109-113). The outer `catch` of `SendCanvasAsync` can
  only be reached if the callback itself throws. `SendCanvasCases` states this.
- **Projections can throw.** `Images[0]` on an empty list (SpotifyHelper.cs:38-39) and
  `ExternalUrls["spotify"]` without that key (SpotifyHelper.cs:48-49, 68-69, 88-89) throw, as
  described above.

Assumptions about code outside the file:

- **Repeat-state ordinals.** The client library's `PlayerSetRepeatRequest.State` is taken to
  number its members Track = 0, Context = 1, Off = 2.
- **`SpotifyInfo` values.** The enum is declared outside SpotifyHelper.cs, so its numeric values
  are not part of this model. That is why it appears in two forms. `ToUpdateInt` takes a member's
  integer value, which must be zero (`Clear`) or a power of two. The message traces use a datatype
  of the three members these fetchers send: `Canvas`, `ClearLyrics` and `LyricsLine`.
  `MessageKindsHaveDistinctIndices` links the two forms. For any assignment of distinct single-bit
  values to those three members, their update indices are distinct and never 0.

## Model

| member | source | states |
|---|---|---|
| Projection.GetCover | SpotifyStatus.Standalone/SpotifyHelper.cs:34-42 | null exactly for an unrecognised item; a track gives its album's first image URL and an episode its own first image URL; an empty image list throws ArgumentOutOfRange |
| Projection.ArtistResources | SpotifyStatus.Standalone/SpotifyHelper.cs:48 | one resource per artist, in artist order, each with that artist's name and Spotify link; it throws KeyNotFound exactly when some artist has no Spotify link |
| Projection.GetCreators | SpotifyStatus.Standalone/SpotifyHelper.cs:44-52 | a track's creators are its artists' resources; an episode has exactly one creator, its show; any other item has none; a missing Spotify link throws KeyNotFound |
| Projection.GetDuration | SpotifyStatus.Standalone/SpotifyHelper.cs:54-62 | the track's or episode's duration, and the placeholder 100 for any other item |
| Projection.GetGrouping | SpotifyStatus.Standalone/SpotifyHelper.cs:64-72 | the album for a track, the show for an episode, null exactly for other items; a missing Spotify link throws KeyNotFound |
| Projection.GetId | SpotifyStatus.Standalone/SpotifyHelper.cs:74-82 | the track's or episode's own id, null for other items; never throws |
| Projection.GetResource | SpotifyStatus.Standalone/SpotifyHelper.cs:84-92 | the item's own name and Spotify link, null exactly for other items; a missing link throws KeyNotFound |
| Projection.OtherDefaults | SpotifyStatus.Standalone/SpotifyHelper.cs:34-92 | every projection of an unrecognised item is its default: null, empty, 100 |
| Projection.NeverThrowsIffWellFormed | SpotifyStatus.Standalone/SpotifyHelper.cs:34-92 | no projection throws if and only if the image lists are non-empty and every read dictionary has a Spotify link |
| Projection.NullExactlyForOther | SpotifyStatus.Standalone/SpotifyHelper.cs:34-92 | on a well-formed item, cover, grouping and resource are null exactly for an unrecognised item |
| Projection.EpisodeCreatorIsGrouping | SpotifyStatus.Standalone/SpotifyHelper.cs:49-69 | an episode's creator list is exactly its grouping, the show, and one throws exactly when the other does |
| Projection.TrackCreatorsFollowArtists | SpotifyStatus.Standalone/SpotifyHelper.cs:48 | a well-formed track has as many creators as artists, the k-th named and linked after the k-th artist |
| RepeatStates.Name | SpotifyStatus.Standalone/SpotifyHelper.cs:22-27 | every state has a name in the table, and the table maps that name back to it |
| RepeatStates.GetState | SpotifyStatus.Standalone/SpotifyHelper.cs:94 | exactly "track", "context" and "off" give Track, Context and Off; every other name throws KeyNotFound |
| RepeatStates.GetStateNameRoundTrip | SpotifyStatus.Standalone/SpotifyHelper.cs:22-94 | looking up a state's name gives the state back, and only its own name does |
| RepeatStates.Next | SpotifyStatus.Standalone/SpotifyHelper.cs:96-97 | Track goes to Context, Context to Off, Off to Track |
| RepeatStates.NextPeriodThree | SpotifyStatus.Standalone/SpotifyHelper.cs:96-97 | three steps return to the start state; neither one nor two steps do |
| RepeatStates.NextInjective | SpotifyStatus.Standalone/SpotifyHelper.cs:96-97 | distinct states have distinct successors |
| RepeatStates.IterateOrdinal | SpotifyStatus.Standalone/SpotifyHelper.cs:96-97 | n steps of Next add n to the ordinal modulo three |
| RepeatStates.IteratePeriod | SpotifyStatus.Standalone/SpotifyHelper.cs:96-97 | n steps return to the start state if and only if n is a multiple of three |
| UpdateIndex.Log2 | SpotifyStatus.Standalone/SpotifyHelper.cs:191 | the result k satisfies 2^k <= v < 2^(k+1), the integer form of the floored logarithm |
| UpdateIndex.ToUpdateInt | SpotifyStatus.Standalone/SpotifyHelper.cs:190-191 | zero exactly for Clear; for a flag the index r has 2^(r-1) equal to the flag |
| UpdateIndex.ToUpdateIntOfPow2 | SpotifyStatus.Standalone/SpotifyHelper.cs:190-191 | the flag 2^k is accepted and numbered k + 1 |
| UpdateIndex.ToUpdateIntInjective | SpotifyStatus.Standalone/SpotifyHelper.cs:190-191 | distinct flags get distinct indices |
| CanvasPattern.LazyEnd | SpotifyStatus.Standalone/SpotifyHelper.cs:137 | the lazy group: the first position where the closing text starts before any line break, or none exists |
| CanvasPattern.MatchFrom | SpotifyStatus.Standalone/SpotifyHelper.cs:137-138 | the leftmost match starting at or after a position, shortest from that start, or none at all from there |
| CanvasPattern.FirstMatch | SpotifyStatus.Standalone/SpotifyHelper.cs:138 | the match reported is the first one, and there is none exactly when the page has no match |
| CanvasPattern.FirstMatchUnique | SpotifyStatus.Standalone/SpotifyHelper.cs:137-138 | there is at most one first match, so the extracted link is determined by the page |
| CanvasPattern.ExtractCanvasUrl | SpotifyStatus.Standalone/SpotifyHelper.cs:137-148 | null exactly when no match exists; otherwise the text captured by the leftmost, shortest match |
| CanvasPattern.CaptureHasNoSuffix | SpotifyStatus.Standalone/SpotifyHelper.cs:137 | the extracted link holds no line break and no occurrence of the closing text |
| CanvasPattern.ExtractFromButton | SpotifyStatus.Standalone/SpotifyHelper.cs:137-142 | opening text, then a link without line breaks or closing text, then the closing text, with no earlier opening text, yields that link |
| CanvasPattern.NoPrefixNoUrl | SpotifyStatus.Standalone/SpotifyHelper.cs:140-147 | a page without the opening text gives null |
| CanvasPattern.ExampleButtonPage | SpotifyStatus.Standalone/SpotifyHelper.cs:137-142 | a page with the button for https://example.com/canvas.mp4 yields that link |
| Messages.IsNullOrEmpty | SpotifyStatus.Standalone/SpotifyHelper.cs:102 | as `string.IsNullOrEmpty`: null and "" are empty, and any non-empty string is not |
| Messages.IsWhiteSpace | SpotifyStatus.Standalone/SpotifyHelper.cs:109 | as `char.IsWhiteSpace`: among ASCII characters, exactly space, tab, line feed, vertical tab, form feed and carriage return; no white-space character lies outside U+0009 to U+3000 |
| Messages.IsNullOrWhiteSpace | SpotifyStatus.Standalone/SpotifyHelper.cs:109 | as `string.IsNullOrWhiteSpace`: null, the empty string and every string made only of white space count, and a string with any non-white-space character does not |
| Messages.WhiteSpaceExamples | SpotifyStatus.Standalone/SpotifyHelper.cs:109 | space, tab, line feed, no-break space, line separator and ideographic space are white space; letters, the zero-width space and U+FEFF are not |
| Messages.CanvasRequestUrl | SpotifyStatus.Standalone/SpotifyHelper.cs:127 | the request is the fixed canvas-service base followed by exactly the track id |
| Messages.LyricsRequestUrl | SpotifyStatus.Standalone/SpotifyHelper.cs:168 | the request is the fixed lyrics-API base followed by exactly the track id |
| Messages.RequestUrlsInjective | SpotifyStatus.Standalone/SpotifyHelper.cs:127-168 | distinct ids make distinct canvas requests and distinct lyrics requests |
| Messages.MessageKindsHaveDistinctIndices | SpotifyStatus.Standalone/SpotifyHelper.cs:190-191 | whatever distinct single-bit values Canvas, ClearLyrics and LyricsLine have, their update indices are distinct and at least 1 |
| Messages.GetSpotifyTrackDownloadUrl | SpotifyStatus.Standalone/SpotifyHelper.cs:125-155 | a failed request gives null; a fetched page gives null exactly when it has no match, else the first match's link |
| Messages.SendCanvas | SpotifyStatus.Standalone/SpotifyHelper.cs:99-123 | at most one message, always Canvas; none exactly when the id is null or empty; the text is empty exactly when the link is null or blank, and otherwise is the link extracted from the fetched page |
| Messages.SendCanvasCases | SpotifyStatus.Standalone/SpotifyHelper.cs:99-155 | no id gives no messages; a failed request or a page without the button gives exactly [(Canvas, "")]; a first match gives [(Canvas, link)] unless the link is blank |
| Messages.SendCanvasExample | SpotifyStatus.Standalone/SpotifyHelper.cs:99-142 | a track whose page has the example button reports exactly [(Canvas, "https://example.com/canvas.mp4")] |
| Messages.LineMessages | SpotifyStatus.Standalone/SpotifyHelper.cs:180-181 | one LyricsLine message per line, in order, with that line's text |
| Messages.SendLyrics | SpotifyStatus.Standalone/SpotifyHelper.cs:158-188 | the first message is always (ClearLyrics, ""); all later messages are LyricsLine; when error-free lines arrive the trace has 1 + their count messages, the k-th line at k + 1; otherwise the clear message is the whole trace |
| Messages.SendLyricsExample | SpotifyStatus.Standalone/SpotifyHelper.cs:158-181 | the lines "a", "b" give clear, "a", "b" in that order; an error-flagged document gives the clear message alone |
| Messages.NoIdNoRequests | SpotifyStatus.Standalone/SpotifyHelper.cs:99-164 | with a null or empty id, canvas sends nothing and lyrics sends only the clear message |

## Left out

- HTTP requests are parameters. The network is a function from request URL to outcome: `PageFetch` for the canvas page and `LyricsFetch` for the lyrics document. This covers `GetAsync`, `EnsureSuccessStatusCode` and the stream reading. Every way a request can fail is one `PageFailed` or `LyricsFailed` value.
- JSON deserialisation of the lyrics document is not modelled. The parsed `SongLyrics` (error flag and nullable line list) is an input. The line type is a type parameter, because the `SongLyrics` class is not part of this model.
- `line.ToString()` is the `render` parameter, assumed not to throw.
- The callback is assumed not to throw. A throwing callback would cut a trace short inside the `try` blocks.
- `async void`, fire-and-forget scheduling, and the relative order of concurrent canvas and lyrics calls are not modelled. Only the messages of a single call are.
- `Console.WriteLine` logging is left out. It has no behavioural contract.
- General .NET regular expressions are not modelled. Only the one fixed pattern is, as a scanner with the same leftmost-then-shortest semantics.
- UpdateIndex.ToUpdateInt: requires a zero or single-bit value. The source also accepts combined masks and negative values, where it goes through the floating-point `Math.Log2`. Combined masks have no meaningful bit index, so they are not modelled.
- The library types are not modelled beyond the fields the projections read. Only the ids are nullable, because `string.IsNullOrEmpty` tests them. The model has no other nulls:
  - null names and null URLs inside tracks and episodes;
  - a null `Album`, `Artists`, `Show`, `Images` or `ExternalUrls`, on which the projections throw NullReferenceException;
  - a null name passed to `GetState`, on which the `_states` indexer throws ArgumentNullException (SpotifyHelper.cs:94).
- The pattern literal at SpotifyHelper.cs:137 does not terminate as written. It ends in `\"";`, and in a C# verbatim string `""` is one quote character, so the literal runs on past the `;`. `CanvasPattern` models the evidently intended pattern, `download-button' onclick="window.open('(.*?)', '_blank')"`, whose closing quote would need `\""";`.
- `GetDuration` passes the 32-bit duration through unchanged, so no integer width is modelled.
