/**
 * The marker convention of background.js: every popup URL carries the query parameter
 * `littlefox=1`, so code running inside the popup can recognise it.
 */
module PopupUrl {

  const MARKER_KEY: string := "littlefox"
  const MARKER_VALUE: string := "1"

  /** `&` when the URL already contains a `?` anywhere, `?` otherwise. */
  function Separator(url: string): (c: char)
    ensures c == '&' <==> '?' in url
    ensures c == '&' || c == '?'
  {
    if '?' in url then '&' else '?'
  }

  /** The URL a popup is opened with: the target URL, a separator and `littlefox=1`. */
  function WithMarker(url: string): (r: string)
    ensures |r| == |url| + 1 + |MARKER_KEY| + 1 + |MARKER_VALUE|
    ensures r[..|url|] == url
    ensures r[|url|] == (if '?' in url then '&' else '?')
    ensures r[|url| + 1..] == MARKER_KEY + "=" + MARKER_VALUE
    ensures '?' in r
  {
    url + [Separator(url)] + MARKER_KEY + "=" + MARKER_VALUE
  }

  /** A target URL without a query gets the marker as its query. */
  lemma PlainUrlGetsQuery()
    ensures WithMarker("https://x/y") == "https://x/y?littlefox=1"
  {
  }

  /** A target URL with a query keeps it and gets the marker appended with `&`. */
  lemma QueryUrlKeepsQuery()
    ensures WithMarker("https://x/y?a=1") == "https://x/y?a=1&littlefox=1"
  {
  }
}
