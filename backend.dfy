/**
 The URL normalisation done by the Tauri back end before a feed document is
 fetched (`format_url` in src-tauri/src/main.rs). The fetch itself and the
 RSS parse that follow it are outside this model.
 */
module Backend {

  /** The literal prefix the back end tests for; the test is case-sensitive. */
  const HttpPrefix: string := "http"

  /** What the back end puts in front of a URL that lacks the prefix. */
  const HttpsScheme: string := "https://"

  /** `s.starts_with(prefix)` on Rust strings: a literal, character-for-character prefix test. */
  predicate StartsWith(s: string, prefix: string)
  {
    |prefix| <= |s| && s[..|prefix|] == prefix
  }

  /**
   Normalises a feed URL: a string that does not begin with "http" gets
   "https://" in front of it, anything else is returned as it is.
   */
  function FormatUrl(url: string): (r: string)
    // the result is always something the fetcher sees as an http(s) address
    ensures StartsWith(r, HttpPrefix)
    // the input comes back unchanged exactly when it already carried the prefix
    ensures r == url <==> StartsWith(url, HttpPrefix)
    // the only change ever made is to put the scheme in front
    ensures r == url || r == HttpsScheme + url
    // the input is always a suffix of the output, which grows by 0 or 8 characters
    ensures |r| == |url| || |r| == |url| + |HttpsScheme|
    ensures r[|r| - |url|..] == url
  {
    if !StartsWith(url, HttpPrefix) then HttpsScheme + url else url
  }

  /** Normalising twice is the same as normalising once. */
  lemma FormatUrlIdempotent(url: string)
    ensures FormatUrl(FormatUrl(url)) == FormatUrl(url)
  {
  }

  /**
   The prefix test is literal: an upper-case scheme is not recognised, any
   string that merely begins with the four letters "http" passes through, and
   the empty string becomes the bare scheme.
   */
  lemma FormatUrlLiteralPrefix()
    ensures FormatUrl("HTTP://x") == "https://HTTP://x"
    ensures FormatUrl("httpx.org") == "httpx.org"
    ensures FormatUrl("httpfoo") == "httpfoo"
    ensures FormatUrl("") == "https://"
  {
    assert !StartsWith("HTTP://x", HttpPrefix) by {
      assert "HTTP://x"[..4][0] == 'H';
    }
    assert StartsWith("httpx.org", HttpPrefix) by {
      assert "httpx.org"[..4] == HttpPrefix;
    }
    assert StartsWith("httpfoo", HttpPrefix) by {
      assert "httpfoo"[..4] == HttpPrefix;
    }
  }

  /**
   Two different inputs can name the same fetch target: a bare host and the
   same host with the scheme written out normalise to one string.
   */
  lemma FormatUrlMergesSchemelessAndExplicit(host: string)
    requires !StartsWith(host, HttpPrefix)
    ensures FormatUrl(host) == FormatUrl(HttpsScheme + host)
    ensures host != HttpsScheme + host
  {
  }
}
