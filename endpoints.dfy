/** Endpoint derivation: `_build_url` resolves a path against the proxy's
    base URL, `_resolve_status_path` derives a job's status path from the
    configured responses path. */
module Endpoints {
  import opened Strings

  /** The fixed segment under which the proxy exposes queued requests. */
  const Segment := "/ai-request"

  predicate IsAbsoluteUrl(s: string) {
    StartsWith(s, "http://") || StartsWith(s, "https://")
  }

  /** `_build_url`. */
  function BuildUrl(path: string, baseUrl: string): string {
    var trimmed := Strip(path);
    if IsAbsoluteUrl(trimmed) then trimmed
    else if StartsWith(trimmed, "/") then baseUrl + trimmed
    else baseUrl + "/" + trimmed
  }

  /** What `_build_url` produces: the path is trimmed; an absolute URL is used
      as it is, anything else is appended to the base URL after exactly one
      separating slash, inserted unless the path already starts with one. The
      base URL itself is not normalised. */
  lemma BuildUrlJoins(path: string, baseUrl: string)
    ensures IsAbsoluteUrl(Strip(path)) ==> BuildUrl(path, baseUrl) == Strip(path)
    ensures !IsAbsoluteUrl(Strip(path)) ==>
      var url := BuildUrl(path, baseUrl);
      && StartsWith(url, baseUrl + "/")
      && url == baseUrl + (if StartsWith(Strip(path), "/") then Strip(path) else "/" + Strip(path))
  {
    var trimmed := Strip(path);
    if !IsAbsoluteUrl(trimmed) {
      var url := BuildUrl(path, baseUrl);
      if StartsWith(trimmed, "/") {
        assert url == baseUrl + trimmed;
        assert url[..|baseUrl| + 1] == baseUrl + "/";
      } else {
        assert url == baseUrl + "/" + trimmed;
        assert url[..|baseUrl| + 1] == baseUrl + "/";
      }
    }
  }

  /** The resolved URL ends the way the trimmed path ends. */
  lemma BuildUrlKeepsSuffix(path: string, baseUrl: string, suffix: string)
    requires EndsWith(Strip(path), suffix)
    ensures EndsWith(BuildUrl(path, baseUrl), suffix)
  {
    var trimmed := Strip(path);
    var url := BuildUrl(path, baseUrl);
    if !IsAbsoluteUrl(trimmed) {
      assert url[|url| - |trimmed|..] == trimmed;
      assert url[|url| - |suffix|..] == trimmed[|trimmed| - |suffix|..];
    }
  }

  /** Whitespace around the path never matters. */
  lemma BuildUrlIgnoresSurroundingWhitespace(path: string, baseUrl: string)
    ensures BuildUrl(Strip(path), baseUrl) == BuildUrl(path, baseUrl)
  {
    StripCharsIdempotent(path, Whitespace);
    BuildUrlJoins(path, baseUrl);
    BuildUrlJoins(Strip(path), baseUrl);
  }

  /** A base URL followed by a path that does not end in whitespace is kept
      by the strip and is absolute again. */
  lemma JoinedUrlIsAbsolute(baseUrl: string, tail: string)
    requires IsAbsoluteUrl(baseUrl)
    requires tail != [] && tail[|tail| - 1] !in Whitespace
    ensures Strip(baseUrl + tail) == baseUrl + tail
    ensures IsAbsoluteUrl(baseUrl + tail)
  {
    var url := baseUrl + tail;
    assert url[0] == baseUrl[0] == 'h';
    assert url[|url| - 1] == tail[|tail| - 1];
    StripUnchanged(url);
    assert url[..|baseUrl|] == baseUrl;
    if StartsWith(baseUrl, "http://") {
      assert url[..7] == baseUrl[..7];
    } else {
      assert url[..8] == baseUrl[..8];
    }
  }

  /** With an absolute base URL every resolved URL is absolute, so resolving
      it again, against any base, gives it back unchanged. */
  lemma BuildUrlResolvedIsFixpoint(path: string, baseUrl: string, otherBase: string)
    requires IsAbsoluteUrl(baseUrl)
    ensures BuildUrl(BuildUrl(path, baseUrl), otherBase) == BuildUrl(path, baseUrl)
  {
    var trimmed := Strip(path);
    BuildUrlJoins(path, baseUrl);
    if IsAbsoluteUrl(trimmed) {
      StripCharsIdempotent(path, Whitespace);
      BuildUrlJoins(trimmed, otherBase);
    } else {
      StripCharsEnds(path, Whitespace);
      var tail := if StartsWith(trimmed, "/") then trimmed else "/" + trimmed;
      assert tail[|tail| - 1] !in Whitespace by {
        if trimmed != [] { assert tail[|tail| - 1] == trimmed[|trimmed| - 1]; }
      }
      JoinedUrlIsAbsolute(baseUrl, tail);
      BuildUrlJoins(baseUrl + tail, otherBase);
    }
  }

  /** A relative path without surrounding whitespace or a leading slash is
      joined to the base URL with exactly one slash. */
  lemma BuildUrlRelative(path: string, baseUrl: string)
    requires Strip(path) == path && path != [] && path[0] != '/' && path[0] != 'h'
    ensures BuildUrl(path, baseUrl) == baseUrl + "/" + path
  {
  }

  lemma BuildUrlRelativeExample()
    ensures BuildUrl("ai-request", "https://x.com") == "https://x.com/ai-request"
  {
    StripUnchanged("ai-request");
    BuildUrlRelative("ai-request", "https://x.com");
  }

  /** An absolute URL ignores the base URL, whatever it is. */
  lemma BuildUrlAbsoluteExample(baseUrl: string)
    ensures BuildUrl("https://y.com/z", baseUrl) == "https://y.com/z"
  {
    var p := "https://y.com/z";
    StripUnchanged(p);
    assert IsAbsoluteUrl(p);
  }

  /** The base URL is not normalised: a base ending in a slash joined with a
      path starting with one keeps both slashes. */
  lemma BuildUrlKeepsBaseSlash(path: string, baseUrl: string)
    requires Strip(path) == path && path != [] && path[0] == '/'
    ensures BuildUrl(path, baseUrl) == baseUrl + path
  {
    assert !StartsWith(path, "http://") && !StartsWith(path, "https://");
  }

  /** `_resolve_status_path`: the responses path without its trailing
      slashes, followed by the segment unless it already ends with it, then
      `/{id}/status`. */
  function StatusPath(responsesPath: string, id: string): string {
    var base := TrimEnd(responsesPath, {'/'});
    if base == "" then Segment + "/" + id + "/status"
    else if !EndsWith(base, Segment) then base + Segment + "/" + id + "/status"
    else base + "/" + id + "/status"
  }

  /** Every status path ends with `/ai-request/{id}/status`. */
  lemma StatusPathEnds(responsesPath: string, id: string)
    ensures EndsWith(StatusPath(responsesPath, id), Segment + "/" + id + "/status")
  {
    var base := TrimEnd(responsesPath, {'/'});
    var suffix := Segment + "/" + id + "/status";
    var p := StatusPath(responsesPath, id);
    if base == "" {
      assert p == suffix;
    } else if !EndsWith(base, Segment) {
      assert p == base + suffix;
      assert p[|p| - |suffix|..] == suffix;
    } else {
      var stem := base[..|base| - |Segment|];
      assert base == stem + Segment;
      assert p == stem + suffix;
      assert p[|p| - |suffix|..] == suffix;
    }
  }

  /** Trailing slashes on the responses path are irrelevant. */
  lemma StatusPathIgnoresTrailingSlash(responsesPath: string, id: string)
    ensures StatusPath(responsesPath + "/", id) == StatusPath(responsesPath, id)
  {
    var s := responsesPath + "/";
    assert s[..|s| - 1] == responsesPath;
  }

  /** A path that already ends with the segment is not extended again:
      configuring `p` or `p + "/ai-request"` gives the same status path. */
  lemma {:induction false} StatusPathSegmentOnce(p: string, id: string)
    requires p != "" && p[|p| - 1] != '/' && !EndsWith(p, Segment)
    ensures StatusPath(p + Segment, id) == StatusPath(p, id) == p + Segment + "/" + id + "/status"
  {
    var q := p + Segment;
    assert TrimEnd(p, {'/'}) == p;
    assert TrimEnd(q, {'/'}) == q;
    assert q[|q| - |Segment|..] == Segment;
  }

  /** The status path when no responses path is configured. */
  lemma StatusPathWithoutResponsesPath(id: string)
    ensures StatusPath("", id) == "/ai-request/" + id + "/status"
  {
  }
}
