/** The JSON object the picture-of-the-day endpoint answers with, typed: each
    field the bot reads is either absent or a string, and `otherKeys` counts
    the keys the bot never reads (they matter only for the object's
    truthiness). */
module ApodRecord {
  import opened Wrappers
  import opened PyText

  datatype Record = Record(
    date: Option<string>,
    title: Option<string>,
    explanation: Option<string>,
    mediaType: Option<string>,
    url: Option<string>,
    hdurl: Option<string>,
    copyright: Option<string>,
    otherKeys: nat)

  const DefaultTitle := "Astronomy Picture of the Day"
  const DefaultExplanation := "No explanation available."

  /** Python truthiness of the decoded object: a dict is true when it has a key. */
  predicate NonEmpty(r: Record) {
    r.date.Some? || r.title.Some? || r.explanation.Some? || r.mediaType.Some?
    || r.url.Some? || r.hdurl.Some? || r.copyright.Some? || r.otherKeys > 0
  }

  /** `get('title', default)`: the default applies only when the key is absent. */
  function Title(r: Record): string {
    if r.title.Some? then r.title.value else DefaultTitle
  }

  function Explanation(r: Record): string {
    if r.explanation.Some? then r.explanation.value else DefaultExplanation
  }

  /** `get('hdurl') or get('url')`: the high-resolution link when it is a
      non-empty string, the ordinary one otherwise. */
  function ImageUrl(r: Record): (u: Option<string>)
    ensures u == r.hdurl || u == r.url
    ensures Present(u) <==> Present(r.hdurl) || Present(r.url)
    ensures Present(r.hdurl) ==> u == r.hdurl
  {
    if Present(r.hdurl) then r.hdurl else r.url
  }
}
