/** Rewriting of protocol-relative URLs (`//host/path`) into absolute
    `https:` URLs, as the playback resolver does for the stream URL and for
    every subtitle URL (main.py:528-529 and main.py:593-594). */
module Urls {

  const HttpsScheme: string := "https:"

  /** The URL starts with `//` (Python's `url.startswith('//')`). */
  predicate IsProtocolRelative(url: string) {
    |url| >= 2 && url[..2] == "//"
  }

  /** Prepends `https:` to a protocol-relative URL and leaves any other URL as it is. */
  function Normalize(url: string): (r: string)
    ensures !IsProtocolRelative(r)
    ensures r == url <==> !IsProtocolRelative(url)
    ensures r == url || r == HttpsScheme + url
    ensures r[|r| - |url|..] == url
    ensures r == "" <==> url == ""
  {
    if IsProtocolRelative(url) then
      assert (HttpsScheme + url)[..2] == "ht";
      HttpsScheme + url
    else
      url
  }

  /** Normalising an already normalised URL changes nothing. */
  lemma NormalizeIdempotent(url: string)
    ensures Normalize(Normalize(url)) == Normalize(url)
  {
  }

  /** A protocol-relative URL becomes an absolute `https://` URL. */
  lemma NormalizeMakesHttps(url: string)
    requires IsProtocolRelative(url)
    ensures Normalize(url)[..8] == "https://"
    ensures Normalize(url)[8..] == url[2..]
  {
  }
}
