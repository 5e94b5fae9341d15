/** The two fetchers, SendCanvasAsync and SendLyricsAsync, as pure functions from the
    playable item and the network's answer to the sequence of messages they hand to
    the callback. The network is a parameter `fetch` from request URL to outcome, so
    the answer the model uses depends only on the request the code builds. */
module Messages {
  import opened Wrappers
  import opened Playable
  import opened Projection
  import opened CanvasPattern
  import UpdateIndex

  /** The SpotifyInfo members these fetchers report under. */
  datatype SpotifyInfo = Canvas | ClearLyrics | LyricsLine

  /** One `sendMessage(info, text)` call. */
  type Message = (SpotifyInfo, string)

  /** `string.IsNullOrEmpty`: null or the empty string. */
  predicate IsNullOrEmpty(s: Option<string>)
    ensures s.Some? && |s.value| > 0 ==> !IsNullOrEmpty(s)
    ensures s.None? || s == Some("") ==> IsNullOrEmpty(s)
  {
    s.None? || s.value == ""
  }

  /** `char.IsWhiteSpace`: the Unicode space, line and paragraph separators together
      with U+0009 to U+000D, U+0085 and U+00A0. */
  predicate IsWhiteSpace(c: char)
    ensures IsWhiteSpace(c) ==> 0x9 <= c as int <= 0x3000
    ensures c as int < 0x80 ==> (IsWhiteSpace(c) <==> c == ' ' || c == '\t' || c == '\n' || c == '\r' || c == '\U{B}' || c == '\U{C}')
  {
    var n := c as int;
    || 0x9 <= n <= 0xD
    || n == 0x20 || n == 0x85 || n == 0xA0 || n == 0x1680
    || 0x2000 <= n <= 0x200A
    || n == 0x2028 || n == 0x2029 || n == 0x202F || n == 0x205F || n == 0x3000
  }

  /** `string.IsNullOrWhiteSpace`: null, empty, or white space only. */
  predicate IsNullOrWhiteSpace(s: Option<string>)
    ensures IsNullOrEmpty(s) ==> IsNullOrWhiteSpace(s)
    ensures s.Some? && (forall k :: 0 <= k < |s.value| ==> IsWhiteSpace(s.value[k])) ==> IsNullOrWhiteSpace(s)
    ensures s.Some? && (exists k :: 0 <= k < |s.value| && !IsWhiteSpace(s.value[k])) ==> !IsNullOrWhiteSpace(s)
  {
    s.None? || forall c :: c in s.value ==> IsWhiteSpace(c)
  }

  // ---------------------------------------------------------------------------
  // Canvas

  /** What the canvas page GET produced: the body of a successful response, or any
      failure (transport error, non-success status, unreadable body). */
  datatype PageFetch = Page(html: string) | PageFailed

  /** The fixed start of every canvas page request. */
  const CanvasRequestBase: string := "https://www.canvasdownloader.com/canvas?link=https://open.spotify.com/track/"

  /** The scraping service's page for a track: the fixed base followed by the id,
      so the id can be read back from the request. */
  function CanvasRequestUrl(trackId: string): (url: string)
    ensures |url| == |CanvasRequestBase| + |trackId|
    ensures url[..|CanvasRequestBase|] == CanvasRequestBase
    ensures url[|CanvasRequestBase|..] == trackId
  {
    CanvasRequestBase + trackId
  }

  /** GetSpotifyTrackDownloadUrl: every failure is caught and turned into null; a
      fetched page gives the link the pattern captures, or null. */
  function GetSpotifyTrackDownloadUrl(trackId: string, fetch: string -> PageFetch): (r: Option<string>)
    ensures fetch(CanvasRequestUrl(trackId)).PageFailed? ==> r.None?
    ensures fetch(CanvasRequestUrl(trackId)).Page? ==>
      (r.None? <==> forall i, j :: !IsMatch(fetch(CanvasRequestUrl(trackId)).html, i, j))
    ensures r.Some? ==>
      && fetch(CanvasRequestUrl(trackId)).Page?
      && exists i, j :: IsFirstMatch(fetch(CanvasRequestUrl(trackId)).html, i, j) &&
           r.value == fetch(CanvasRequestUrl(trackId)).html[i + |Prefix|..j]
  {
    match fetch(CanvasRequestUrl(trackId))
    case PageFailed => None
    case Page(html) => ExtractCanvasUrl(html)
  }

  /** SendCanvasAsync: nothing without an id; otherwise one Canvas message carrying
      the link, or the empty string when there is no usable link. */
  function SendCanvas(item: PlayableItem, fetch: string -> PageFetch): (trace: seq<Message>)
    ensures |trace| <= 1
    ensures trace == [] <==> IsNullOrEmpty(GetId(item))
    ensures forall k :: 0 <= k < |trace| ==> trace[k].0 == Canvas
    ensures trace != [] ==>
      (trace[0].1 == "" <==> IsNullOrWhiteSpace(GetSpotifyTrackDownloadUrl(GetId(item).value, fetch)))
    ensures trace != [] && trace[0].1 != "" ==>
      && fetch(CanvasRequestUrl(GetId(item).value)).Page?
      && ExtractCanvasUrl(fetch(CanvasRequestUrl(GetId(item).value)).html) == Some(trace[0].1)
      && !IsNullOrWhiteSpace(Some(trace[0].1))
  {
    var trackId := GetId(item);
    if IsNullOrEmpty(trackId) then []
    else
      var canvasUrl := GetSpotifyTrackDownloadUrl(trackId.value, fetch);
      if IsNullOrWhiteSpace(canvasUrl) then [(Canvas, "")]
      else [(Canvas, canvasUrl.value)]
  }

  /** The canvas trace, case by case: a failed fetch and a page without the button
      both give the "no canvas" message, not silence. */
  lemma SendCanvasCases(item: PlayableItem, fetch: string -> PageFetch)
    ensures IsNullOrEmpty(GetId(item)) ==> SendCanvas(item, fetch) == []
    ensures !IsNullOrEmpty(GetId(item)) && fetch(CanvasRequestUrl(GetId(item).value)).PageFailed? ==>
      SendCanvas(item, fetch) == [(Canvas, "")]
    ensures !IsNullOrEmpty(GetId(item)) && fetch(CanvasRequestUrl(GetId(item).value)).Page? &&
            (forall i, j :: !IsMatch(fetch(CanvasRequestUrl(GetId(item).value)).html, i, j)) ==>
      SendCanvas(item, fetch) == [(Canvas, "")]
    ensures forall i, j ::
      !IsNullOrEmpty(GetId(item)) && fetch(CanvasRequestUrl(GetId(item).value)).Page? &&
      IsFirstMatch(fetch(CanvasRequestUrl(GetId(item).value)).html, i, j) ==>
        var link := fetch(CanvasRequestUrl(GetId(item).value)).html[i + |Prefix|..j];
        SendCanvas(item, fetch) == if IsNullOrWhiteSpace(Some(link)) then [(Canvas, "")] else [(Canvas, link)]
  {
  }

  /** A track whose canvas page holds the download button for
      https://example.com/canvas.mp4 reports exactly that link. */
  lemma SendCanvasExample(t: FullTrack, fetch: string -> PageFetch)
    requires t.id == Some("4uLU6hMCjMI75M1A2tKUQC")
    requires fetch(CanvasRequestUrl("4uLU6hMCjMI75M1A2tKUQC")) ==
      Page("<a class='" + Prefix + "https://example.com/canvas.mp4" + Suffix + ">")
    ensures SendCanvas(Track(t), fetch) == [(Canvas, "https://example.com/canvas.mp4")]
  {
    ExampleButtonPage();
    var link := "https://example.com/canvas.mp4";
    assert link[0] == 'h' && !IsWhiteSpace(link[0]);
  }

  // ---------------------------------------------------------------------------
  // Lyrics

  /** The deserialised lyrics document; `lines` may be null. L is the line type,
      whose fields this model does not need. */
  datatype SongLyrics<L> = SongLyrics(error: bool, lines: Option<seq<L>>)

  /** What the lyrics GET and deserialisation produced: the document (null when the
      JSON is `null`), or a thrown failure. */
  datatype LyricsFetch<L> = Parsed(lyrics: Option<SongLyrics<L>>) | LyricsFailed

  /** The fixed start of every lyrics request. */
  const LyricsRequestBase: string := "https://spotify-lyrics-api-umber.vercel.app/?trackid="

  /** The lyrics API request for a track: the fixed base followed by the id. */
  function LyricsRequestUrl(trackId: string): (url: string)
    ensures |url| == |LyricsRequestBase| + |trackId|
    ensures url[..|LyricsRequestBase|] == LyricsRequestBase
    ensures url[|LyricsRequestBase|..] == trackId
  {
    LyricsRequestBase + trackId
  }

  /** Distinct ids make distinct requests, for both services. */
  lemma RequestUrlsInjective(a: string, b: string)
    requires a != b
    ensures CanvasRequestUrl(a) != CanvasRequestUrl(b)
    ensures LyricsRequestUrl(a) != LyricsRequestUrl(b)
  {
  }

  /** One LyricsLine message per line, in order, carrying the line's text. */
  function LineMessages<L>(lines: seq<L>, render: L -> string): (ms: seq<Message>)
    ensures |ms| == |lines|
    ensures forall k :: 0 <= k < |lines| ==> ms[k] == (LyricsLine, render(lines[k]))
  {
    if |lines| == 0 then []
    else [(LyricsLine, render(lines[0]))] + LineMessages(lines[1..], render)
  }

  /** The request for `item` was made and returned a document without the error
      flag whose lines are `lines`. */
  ghost predicate DeliversLines<L>(item: PlayableItem, fetch: string -> LyricsFetch<L>, lines: seq<L>)
  {
    && !IsNullOrEmpty(GetId(item))
    && fetch(LyricsRequestUrl(GetId(item).value)) == Parsed(Some(SongLyrics(false, Some(lines))))
  }

  /** SendLyricsAsync: always the clear message first; then, when the request
      delivers error-free lyrics, one message per line. A missing id, a failed
      request, a null or error-flagged document and a null line list (the loop
      throws, and the exception is caught) all stop after the clear message. */
  function SendLyrics<L(!new)>(item: PlayableItem, fetch: string -> LyricsFetch<L>, render: L -> string): (trace: seq<Message>)
    ensures |trace| >= 1 && trace[0] == (ClearLyrics, "")
    ensures forall k :: 1 <= k < |trace| ==> trace[k].0 == LyricsLine
    ensures forall lines :: DeliversLines(item, fetch, lines) ==>
      |trace| == 1 + |lines| &&
      forall k :: 0 <= k < |lines| ==> trace[k + 1] == (LyricsLine, render(lines[k]))
    ensures (forall lines :: !DeliversLines(item, fetch, lines)) ==> trace == [(ClearLyrics, "")]
  {
    var id := GetId(item);
    [(ClearLyrics, "")] +
      if IsNullOrEmpty(id) then []
      else
        match fetch(LyricsRequestUrl(id.value))
        case LyricsFailed => []
        case Parsed(None) => []
        case Parsed(Some(lyrics)) =>
          if lyrics.error then []
          else
            match lyrics.lines
            case None => []
            case Some(lines) =>
              assert DeliversLines(item, fetch, lines);
              LineMessages(lines, render)
  }

  /** The document `{"error": false, "lines": ["a", "b"]}` gives the clear message,
      then "a", then "b"; `{"error": true}` gives the clear message alone. */
  lemma SendLyricsExample(t: FullTrack, fetch: string -> LyricsFetch<string>)
    requires t.id == Some("4uLU6hMCjMI75M1A2tKUQC")
    ensures fetch(LyricsRequestUrl("4uLU6hMCjMI75M1A2tKUQC")) == Parsed(Some(SongLyrics(false, Some(["a", "b"])))) ==>
      SendLyrics(Track(t), fetch, (l: string) => l) ==
        [(ClearLyrics, ""), (LyricsLine, "a"), (LyricsLine, "b")]
    ensures fetch(LyricsRequestUrl("4uLU6hMCjMI75M1A2tKUQC")) == Parsed(Some(SongLyrics(true, None))) ==>
      SendLyrics(Track(t), fetch, (l: string) => l) == [(ClearLyrics, "")]
  {
    var trace := SendLyrics(Track(t), fetch, (l: string) => l);
    if fetch(LyricsRequestUrl("4uLU6hMCjMI75M1A2tKUQC")) == Parsed(Some(SongLyrics(false, Some(["a", "b"])))) {
      assert DeliversLines(Track(t), fetch, ["a", "b"]);
    }
  }

  /** Without an id neither fetcher asks the network: canvas stays silent and lyrics
      only clears. */
  lemma NoIdNoRequests<L(!new)>(item: PlayableItem, pages: string -> PageFetch,
                          lyrics: string -> LyricsFetch<L>, render: L -> string)
    requires IsNullOrEmpty(GetId(item))
    ensures SendCanvas(item, pages) == []
    ensures SendLyrics(item, lyrics, render) == [(ClearLyrics, "")]
  {
  }

  /** White space as char.IsWhiteSpace sees it: the ASCII controls tab to carriage
      return and the no-break space count, the zero-width space and letters do not. */
  lemma WhiteSpaceExamples()
    ensures IsWhiteSpace(' ') && IsWhiteSpace('\t') && IsWhiteSpace('\n')
    ensures IsWhiteSpace('\U{A0}') && IsWhiteSpace('\U{2028}') && IsWhiteSpace('\U{3000}')
    ensures !IsWhiteSpace('h') && !IsWhiteSpace('\U{200B}') && !IsWhiteSpace('\U{FEFF}')
    ensures IsNullOrWhiteSpace(Some(" \t\r\n")) && !IsNullOrWhiteSpace(Some(" x "))
  {
    assert " x "[1] == 'x';
  }

  /** The kinds these fetchers send are distinct single-bit SpotifyInfo values, whatever
      their numbers are; their update indices are then distinct and never the Clear index. */
  lemma MessageKindsHaveDistinctIndices(value: SpotifyInfo -> int)
    requires forall info :: UpdateIndex.IsSingleBit(value(info))
    requires value(Canvas) != value(ClearLyrics) && value(Canvas) != value(LyricsLine)
    requires value(ClearLyrics) != value(LyricsLine)
    ensures UpdateIndex.ToUpdateInt(value(Canvas)) >= 1
    ensures UpdateIndex.ToUpdateInt(value(ClearLyrics)) >= 1
    ensures UpdateIndex.ToUpdateInt(value(LyricsLine)) >= 1
    ensures UpdateIndex.ToUpdateInt(value(Canvas)) != UpdateIndex.ToUpdateInt(value(ClearLyrics))
    ensures UpdateIndex.ToUpdateInt(value(Canvas)) != UpdateIndex.ToUpdateInt(value(LyricsLine))
    ensures UpdateIndex.ToUpdateInt(value(ClearLyrics)) != UpdateIndex.ToUpdateInt(value(LyricsLine))
  {
    var c, cl, l := value(Canvas), value(ClearLyrics), value(LyricsLine);
    assert UpdateIndex.IsSingleBit(c) && UpdateIndex.IsSingleBit(cl) && UpdateIndex.IsSingleBit(l);
    if UpdateIndex.ToUpdateInt(c) == UpdateIndex.ToUpdateInt(cl) {
      UpdateIndex.ToUpdateIntInjective(c, cl);
    }
    if UpdateIndex.ToUpdateInt(c) == UpdateIndex.ToUpdateInt(l) {
      UpdateIndex.ToUpdateIntInjective(c, l);
    }
    if UpdateIndex.ToUpdateInt(cl) == UpdateIndex.ToUpdateInt(l) {
      UpdateIndex.ToUpdateIntInjective(cl, l);
    }
  }
}
