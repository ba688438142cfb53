/**
 * Server URL clean-up before connecting: trim, rewrite the scheme to an HTTP
 * one, let the URL parser canonicalise it, and drop the trailing slashes of a
 * root path. The parser itself is a parameter.
 */
module Urls {
  import opened Wrappers
  import opened KotlinStd

  /** What the URL parser gives back for a URL it accepts: its canonical text and its encoded path. */
  datatype ParsedUrl = ParsedUrl(text: string, encodedPath: string)

  const URL_REQUIRED: string := "Server URL is required"
  const URL_INVALID: string := "Invalid server URL"

  predicate IsSlash(c: char) { c == '/' }

  /**
   * The scheme step, tried in this order: an `http://` or `https://` URL is
   * kept, `ws://` becomes `http://` and `wss://` becomes `https://` before the
   * text after the first `://`, and anything else gets `http://` in front.
   * Scheme prefixes are compared ignoring ASCII case.
   */
  function WithHttpScheme(trimmed: string): (r: string)
    ensures StartsWithIgnoreCase(r, "http://") || StartsWithIgnoreCase(r, "https://")
  {
    if StartsWithIgnoreCase(trimmed, "http://") then trimmed
    else if StartsWithIgnoreCase(trimmed, "https://") then trimmed
    else if StartsWithIgnoreCase(trimmed, "ws://") then "http://" + SubstringAfter(trimmed, "://")
    else if StartsWithIgnoreCase(trimmed, "wss://") then "https://" + SubstringAfter(trimmed, "://")
    else "http://" + trimmed
  }

  /** In a URL starting with a scheme of `n` letters and `://`, the first `://` sits right after the letters. */
  lemma SchemeSeparatorAt(s: string, scheme: string)
    requires StartsWithIgnoreCase(s, scheme + "://")
    requires forall i :: 0 <= i < |scheme| ==> scheme[i] != ':'
    ensures SubstringAfter(s, "://") == s[|scheme| + 3..]
  {
    var n := |scheme|;
    var prefix := scheme + "://";
    forall k | n <= k < n + 3 ensures s[k] == prefix[k] {
      assert prefix[k] == "://"[k - n];
    }
    assert s[n..n + 3] == "://";
    assert MatchesAt(s, "://", n);
    forall j: nat | j < n ensures !MatchesAt(s, "://", j) {
      assert LowerAscii(s[j]) == LowerAscii(scheme[j]);
    }
    var i := IndexOf(s, "://");
    assert i == Some(n);
  }

  /** The scheme step on each of the five forms, in terms of the input's characters. */
  lemma WithHttpSchemeCases(trimmed: string)
    ensures (StartsWithIgnoreCase(trimmed, "http://") || StartsWithIgnoreCase(trimmed, "https://")) ==>
      WithHttpScheme(trimmed) == trimmed
    ensures (!StartsWithIgnoreCase(trimmed, "http://") && !StartsWithIgnoreCase(trimmed, "https://")
             && StartsWithIgnoreCase(trimmed, "ws://")) ==>
      WithHttpScheme(trimmed) == "http://" + trimmed[5..]
    ensures (!StartsWithIgnoreCase(trimmed, "http://") && !StartsWithIgnoreCase(trimmed, "https://")
             && !StartsWithIgnoreCase(trimmed, "ws://") && StartsWithIgnoreCase(trimmed, "wss://")) ==>
      WithHttpScheme(trimmed) == "https://" + trimmed[6..]
    ensures (!StartsWithIgnoreCase(trimmed, "http://") && !StartsWithIgnoreCase(trimmed, "https://")
             && !StartsWithIgnoreCase(trimmed, "ws://") && !StartsWithIgnoreCase(trimmed, "wss://")) ==>
      WithHttpScheme(trimmed) == "http://" + trimmed
  {
    if StartsWithIgnoreCase(trimmed, "ws://") {
      assert "ws" + "://" == "ws://";
      SchemeSeparatorAt(trimmed, "ws");
    }
    if StartsWithIgnoreCase(trimmed, "wss://") {
      assert "wss" + "://" == "wss://";
      SchemeSeparatorAt(trimmed, "wss");
    }
  }

  /**
   * The slash step on a parsed URL: its canonical text, with the trailing
   * slashes removed when its encoded path is the root `/`.
   */
  function WithoutRootSlash(u: ParsedUrl): (t: string)
    ensures |t| <= |u.text| && u.text[..|t|] == t
    ensures u.encodedPath != "/" ==> t == u.text
    ensures u.encodedPath == "/" ==> (t != [] ==> t[|t| - 1] != '/')
    ensures u.encodedPath == "/" ==> forall i :: |t| <= i < |u.text| ==> u.text[i] == '/'
  {
    if u.encodedPath == "/" then TrimEndWhere(u.text, IsSlash) else u.text
  }

  /**
   * `sanitizeUrl` with the URL parser `parse` (which returns the rebuilt URL
   * or nothing): a blank input is refused as required, an input the parser
   * rejects as invalid; otherwise the canonical text, with trailing slashes
   * removed when the path is the root.
   */
  function SanitizeUrl(input: string, parse: string -> Option<ParsedUrl>): (r: Result<string, string>)
    ensures IsBlank(input) <==> r == Err(URL_REQUIRED)
    ensures r == Err(URL_INVALID) <==> !IsBlank(input) && parse(WithHttpScheme(Trim(input))).None?
    ensures r.Ok? ==>
      && !IsBlank(input) && parse(WithHttpScheme(Trim(input))).Some?
      && r.value == WithoutRootSlash(parse(WithHttpScheme(Trim(input))).value)
  {
    BlankIffTrimEmpty(input);
    assert URL_REQUIRED[0] != URL_INVALID[0];
    var trimmed := Trim(input);
    if trimmed == [] then Err(URL_REQUIRED)
    else match parse(WithHttpScheme(trimmed))
      case None => Err(URL_INVALID)
      case Some(rebuilt) => Ok(WithoutRootSlash(rebuilt))
  }
}
