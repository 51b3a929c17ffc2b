/**
 * The five entries of the main navigation: their titles and the routes they
 * link to. Both navigation lists (the overlay's and the main sidebar's) use
 * this table in this order.
 */
module Routes {
  import opened Optional

  const ChatTitle := "Chat"
  const ChatUrl := "/app/chat"

  const Titles: seq<string> := [ChatTitle, "Explorar", "Guardados", "Viajes", "Inspiración"]
  const Urls: seq<string> := [ChatUrl, "/app/explorar", "/app/guardados", "/app/viajes", "/app/inspiracion"]

  /** A valid position in the navigation table. */
  predicate IsEntry(i: int) { 0 <= i < |Urls| }

  /** No two entries share a route. */
  lemma UrlsDistinct()
    ensures |Urls| == |Titles| == 5
    ensures forall i, j :: IsEntry(i) && IsEntry(j) && Urls[i] == Urls[j] ==> i == j
  {
  }

  /** The position of `pathname` in `urls`, searched from the front. */
  function IndexIn(urls: seq<string>, pathname: string): (r: Option<nat>)
    ensures r.Some? ==> r.value < |urls| && urls[r.value] == pathname
    ensures r.Some? ==> forall k :: 0 <= k < r.value ==> urls[k] != pathname
    ensures r.None? <==> pathname !in urls
  {
    if urls == [] then None
    else if urls[0] == pathname then Some(0)
    else match IndexIn(urls[1..], pathname)
      case None => None
      case Some(k) => Some(k + 1)
  }

  /** The entry whose route is exactly `pathname`, if any. */
  function RouteIndex(pathname: string): (r: Option<nat>)
    ensures r.Some? <==> pathname in Urls
    ensures r.Some? ==> IsEntry(r.value) && Urls[r.value] == pathname
    ensures forall i :: IsEntry(i) ==> (Urls[i] == pathname <==> r == Some(i))
  {
    UrlsDistinct();
    IndexIn(Urls, pathname)
  }
}
