/** The canvas-link extraction: the fixed pattern
      download-button' onclick="window.open('(.*?)', '_blank')"
    searched for in a page, written as a direct scanner. As in .NET, `.` matches
    any character but '\n', the match found is the one that starts leftmost, and
    the lazy group makes it the shortest capture from that start.
    The literal in SpotifyHelper.cs:137 ends in a doubled quote that a C# verbatim
    string reads as one quote character, so as written it does not terminate. This
    module scans for the pattern that literal evidently intends, shown above. */
module CanvasPattern {
  import opened Wrappers

  /** The literal text before the captured link. */
  const Prefix: string := "download-button' onclick=\"window.open('"

  /** The literal text after the captured link. */
  const Suffix: string := "', '_blank')\""

  /** The word w occurs in s starting at index k. */
  predicate OccursAt(s: string, k: int, w: string)
  {
    0 <= k && k + |w| <= |s| && s[k..k + |w|] == w
  }

  /** The pattern matches s with the prefix at i and the suffix at j; the capture
      is s[i + |Prefix|..j], which holds no line break. */
  predicate IsMatch(s: string, i: int, j: int)
  {
    && OccursAt(s, i, Prefix)
    && i + |Prefix| <= j
    && OccursAt(s, j, Suffix)
    && '\n' !in s[i + |Prefix|..j]
  }

  /** (i, j) is the match the regex engine reports: no match starts further left,
      and none from the same start ends sooner. */
  ghost predicate IsFirstMatch(s: string, i: int, j: int)
  {
    && IsMatch(s, i, j)
    && forall i', j' :: IsMatch(s, i', j') ==> i < i' || (i == i' && j <= j')
  }

  /** The lazy group: from `j` on (with no line break between `from` and `j`), the
      first position where the suffix starts before any line break. */
  function LazyEnd(s: string, from: nat, j: nat): (r: Option<nat>)
    requires from <= j <= |s|
    requires '\n' !in s[from..j]
    decreases |s| - j
    ensures r.Some? ==> j <= r.value && OccursAt(s, r.value, Suffix) && '\n' !in s[from..r.value]
    ensures r.Some? ==> forall k :: j <= k < r.value ==> !OccursAt(s, k, Suffix)
    ensures r.None? ==> forall k :: j <= k <= |s| && '\n' !in s[from..k] ==> !OccursAt(s, k, Suffix)
  {
    if OccursAt(s, j, Suffix) then Some(j)
    else if j < |s| && s[j] != '\n' then
      assert s[from..j + 1] == s[from..j] + [s[j]];
      LazyEnd(s, from, j + 1)
    else
      assert forall k :: j < k <= |s| ==> s[from..k][j - from] == '\n';
      None
  }

  /** The leftmost match starting at or after i. */
  function MatchFrom(s: string, i: nat): (r: Option<(nat, nat)>)
    requires i <= |s|
    decreases |s| - i
    ensures r.Some? ==> i <= r.value.0 && IsMatch(s, r.value.0, r.value.1)
    ensures r.Some? ==> forall i', j' :: i <= i' && IsMatch(s, i', j') ==>
      r.value.0 < i' || (r.value.0 == i' && r.value.1 <= j')
    ensures r.None? ==> forall i', j' :: i <= i' ==> !IsMatch(s, i', j')
  {
    var start := i + |Prefix|;
    if OccursAt(s, i, Prefix) && LazyEnd(s, start, start).Some? then
      Some((i, LazyEnd(s, start, start).value))
    else if i < |s| then
      MatchFrom(s, i + 1)
    else
      None
  }

  /** The match the regex engine reports for the page, if any. */
  function FirstMatch(s: string): (r: Option<(nat, nat)>)
    ensures r.Some? ==> IsFirstMatch(s, r.value.0, r.value.1)
    ensures r.None? <==> forall i, j :: !IsMatch(s, i, j)
  {
    MatchFrom(s, 0)
  }

  /** The first match is unique, so IsFirstMatch pins the extracted link down. */
  lemma FirstMatchUnique(s: string, i: int, j: int, i': int, j': int)
    requires IsFirstMatch(s, i, j) && IsFirstMatch(s, i', j')
    ensures i == i' && j == j'
  {
  }

  /** The link captured by the first match, or null when the page has no match. */
  function ExtractCanvasUrl(html: string): (r: Option<string>)
    ensures r.None? <==> forall i, j :: !IsMatch(html, i, j)
    ensures forall i, j :: IsFirstMatch(html, i, j) ==> r == Some(html[i + |Prefix|..j])
    ensures r.Some? ==> exists i, j :: IsFirstMatch(html, i, j) && r.value == html[i + |Prefix|..j]
  {
    match FirstMatch(html)
    case None => None
    case Some((i, j)) =>
      assert IsFirstMatch(html, i, j);
      Some(html[i + |Prefix|..j])
  }

  /** Because the group is lazy, the extracted link never contains the closing
      text, and because `.` stops at line breaks, it holds no line break. */
  lemma CaptureHasNoSuffix(html: string, i: int, j: int, k: int)
    requires IsFirstMatch(html, i, j)
    ensures '\n' !in html[i + |Prefix|..j]
    ensures !OccursAt(html[i + |Prefix|..j], k, Suffix)
  {
    var u := html[i + |Prefix|..j];
    if OccursAt(u, k, Suffix) {
      var j' := i + |Prefix| + k;
      assert |u| == j - i - |Prefix| && j' + |Suffix| <= j;
      var w, x := u[k..k + |Suffix|], html[j'..j' + |Suffix|];
      assert forall t :: 0 <= t < |w| ==> w[t] == x[t];
      assert u[..k] == html[i + |Prefix|..j'];
      assert IsMatch(html, i, j');
    }
  }

  /** A page laid out as `a`, the opening text, a link `u` without line breaks or
      closing text, the closing text and then anything, yields `u`, provided no
      opening text starts inside `a`. */
  lemma ExtractFromButton(a: string, u: string, b: string)
    requires forall k :: 0 <= k < |a| ==> !OccursAt(a + Prefix + u + Suffix + b, k, Prefix)
    requires '\n' !in u
    requires forall k :: 0 <= k < |u| ==> !OccursAt(u + Suffix, k, Suffix)
    ensures ExtractCanvasUrl(a + Prefix + u + Suffix + b) == Some(u)
  {
    var s := a + Prefix + u + Suffix + b;
    var i := |a|;
    var j := |a| + |Prefix| + |u|;
    assert s[i..i + |Prefix|] == Prefix;
    assert s[j..j + |Suffix|] == Suffix;
    assert s[i + |Prefix|..j] == u;
    assert IsMatch(s, i, j);
    forall i', j' | IsMatch(s, i', j')
      ensures i < i' || (i == i' && j <= j')
    {
      if i' == i && j' < j {
        var k := j' - i - |Prefix|;
        assert (u + Suffix)[k..k + |Suffix|] == s[j'..j' + |Suffix|];
        assert OccursAt(u + Suffix, k, Suffix);
        assert false;
      }
    }
    assert IsFirstMatch(s, i, j);
  }

  /** A page without the opening text has no canvas link. */
  lemma NoPrefixNoUrl(html: string)
    requires forall k :: !OccursAt(html, k, Prefix)
    ensures ExtractCanvasUrl(html) == None
  {
  }

  /** The page `<a class='download-button' onclick="window.open('https://example.com/canvas.mp4', '_blank')">`
      yields the link https://example.com/canvas.mp4. */
  lemma ExampleButtonPage()
    ensures ExtractCanvasUrl("<a class='" + Prefix + "https://example.com/canvas.mp4" + Suffix + ">")
         == Some("https://example.com/canvas.mp4")
  {
    var a := "<a class='";
    var u := "https://example.com/canvas.mp4";
    var s := a + Prefix + u + Suffix + ">";
    forall k | 0 <= k < |a|
      ensures !OccursAt(s, k, Prefix)
    {
      assert s[k] == a[k] && a[k] != 'd' && Prefix[0] == 'd';
      if k + |Prefix| <= |s| {
        assert s[k..k + |Prefix|][0] == s[k];
      }
    }
    forall k | 0 <= k < |u|
      ensures !OccursAt(u + Suffix, k, Suffix)
    {
      assert (u + Suffix)[k] == u[k] && u[k] != '\'' && Suffix[0] == '\'';
      if k + |Suffix| <= |u + Suffix| {
        assert (u + Suffix)[k..k + |Suffix|][0] == (u + Suffix)[k];
      }
    }
    ExtractFromButton(a, u, ">");
  }
}
