/**
 * Splitting a URL into scheme, authority (`netloc`), path, query and fragment, the way
 * Python's `urllib.parse.urlparse` does it: the generic syntax of section 3 of RFC 3986
 * (the decomposition of its Appendix B, with the scheme syntax of section 3.1), plus the
 * `;params` split of the last path segment that `urlparse` adds for the schemes that use it.
 */
module UrlSplit {
  import opened Wrappers
  import opened Text

  /** The five components of section 3 of RFC 3986. `None` is an absent component, which
      keeps "absent" apart from "present but empty" so that the split can be undone. */
  datatype Components = Components(
    scheme: Option<string>,
    authority: Option<string>,
    path: string,
    query: Option<string>,
    fragment: Option<string>)

  /** What `urlparse` returns: every absent component is the empty string. */
  datatype ParseResult = ParseResult(
    scheme: string,
    netloc: string,
    path: string,
    params: string,
    query: string,
    fragment: string)

  /** The schemes for which `urlparse` splits `;params` off the path (`uses_params`). */
  const UsesParams: set<string> := {"", "ftp", "hdl", "prospero", "http", "imap", "https", "shttp",
                                    "rtsp", "rtsps", "rtspu", "sip", "sips", "mms", "sftp", "tel"}

  /** The characters that end the authority. */
  const AuthorityEnd: set<char> := {'/', '?', '#'}

  predicate IsSchemeChar(c: char) {
    IsAsciiAlpha(c) || IsDigit(c) || c == '+' || c == '-' || c == '.'
  }

  /** `scheme = ALPHA *( ALPHA / DIGIT / "+" / "-" / "." )`, section 3.1 of RFC 3986. */
  predicate IsScheme(s: string) {
    |s| > 0 && IsAsciiAlpha(s[0]) && forall i :: 0 <= i < |s| ==> IsSchemeChar(s[i])
  }

  /** How each optional component is written back, with its delimiter (section 5.3 of RFC 3986). */
  function SchemePart(scheme: Option<string>): string {
    if scheme.Some? then scheme.value + ":" else ""
  }

  function AuthorityPart(authority: Option<string>): string {
    if authority.Some? then "//" + authority.value else ""
  }

  function Tagged(tag: char, part: Option<string>): string {
    if part.Some? then [tag] + part.value else ""
  }

  /** The scheme is what precedes the first `:`, when that is a well-formed scheme. */
  function SplitScheme(url: string): (r: (Option<string>, string))
    ensures r.0.Some? ==> IsScheme(r.0.value)
    ensures url == SchemePart(r.0) + r.1
  {
    var i := IndexOf(url, ':');
    if i < |url| && IsScheme(url[..i]) then
      assert url == url[..i] + ":" + url[i + 1..];
      (Some(url[..i]), url[i + 1..])
    else
      (None, url)
  }

  /** After the scheme, `//` opens an authority that runs up to the first `/`, `?` or `#`. */
  function SplitAuthority(rest: string): (r: (Option<string>, string))
    ensures rest == AuthorityPart(r.0) + r.1
    ensures r.0.Some? ==> forall i :: 0 <= i < |r.0.value| ==> r.0.value[i] !in AuthorityEnd
    ensures r.0.Some? ==> r.1 == [] || r.1[0] in AuthorityEnd
  {
    if StartsWith(rest, "//") then
      var d := 2 + IndexOfAny(rest[2..], AuthorityEnd);
      assert rest == "//" + rest[2..d] + rest[d..];
      (Some(rest[2..d]), rest[d..])
    else
      (None, rest)
  }

  /** Python's `s.split(c, 1)` when `c in s`, and `s` unsplit otherwise. */
  function SplitOnce(s: string, c: char): (r: (string, Option<string>))
    ensures c !in r.0
    ensures s == r.0 + Tagged(c, r.1)
  {
    var i := IndexOf(s, c);
    if i == |s| then
      (s, None)
    else
      assert s == s[..i] + [c] + s[i + 1..];
      (s[..i], Some(s[i + 1..]))
  }

  /** Python's `urlsplit`, keeping absent components apart from empty ones. */
  function SplitComponents(url: string): (c: Components)
    ensures c.authority.Some? ==> forall i :: 0 <= i < |c.authority.value| ==> c.authority.value[i] !in AuthorityEnd
    ensures '?' !in c.path && '#' !in c.path
    ensures c.query.Some? ==> '#' !in c.query.value
  {
    var s := SplitScheme(url);
    var a := SplitAuthority(s.1);
    var f := SplitOnce(a.1, '#');
    var q := SplitOnce(f.0, '?');
    Components(s.0, a.0, q.0, q.1, f.1)
  }

  /** Recomposition of the components, section 5.3 of RFC 3986. */
  function Recompose(c: Components): string
  {
    SchemePart(c.scheme) + AuthorityPart(c.authority) + c.path + Tagged('?', c.query) + Tagged('#', c.fragment)
  }

  lemma Reassociate(a: string, b: string, c: string, d: string, e: string)
    ensures a + (b + ((c + d) + e)) == a + b + c + d + e
  {
  }

  /** Splitting loses nothing: recomposing the components gives back the URL. */
  lemma RecomposeSplit(url: string)
    ensures Recompose(SplitComponents(url)) == url
  {
    var s := SplitScheme(url);
    var a := SplitAuthority(s.1);
    var f := SplitOnce(a.1, '#');
    var q := SplitOnce(f.0, '?');
    assert SplitComponents(url) == Components(s.0, a.0, q.0, q.1, f.1);
    Reassociate(SchemePart(s.0), AuthorityPart(a.0), q.0, Tagged('?', q.1), Tagged('#', f.1));
  }

  /** Python's `_splitparams`: `;params` is cut off at the first `;` of the last path segment. */
  function SplitParams(path: string): (r: (string, Option<string>))
    ensures path == r.0 + Tagged(';', r.1)
  {
    var slash := LastIndexOf(path, '/');
    var i := if slash >= 0 then slash + IndexOf(path[slash..], ';') else IndexOf(path, ';');
    if i == |path| then
      (path, None)
    else
      assert path == path[..i] + ";" + path[i + 1..];
      (path[..i], Some(path[i + 1..]))
  }

  /** The path and params `urlparse` reports for a path that `urlsplit` gave under `scheme`. */
  function PathAndParams(scheme: string, path: string): (r: (string, Option<string>))
    ensures path == r.0 + Tagged(';', r.1)
    ensures r.1.Some? ==> scheme in UsesParams
  {
    if scheme in UsesParams && ';' in path then SplitParams(path) else (path, None)
  }

  /** Python's `urlparse`. */
  function UrlParse(url: string): (p: ParseResult)
    ensures forall i :: 0 <= i < |p.netloc| ==> p.netloc[i] !in AuthorityEnd
    ensures '?' !in p.path && '#' !in p.path && '#' !in p.query
    ensures StartsWith(SplitComponents(url).path, p.path)
  {
    var c := SplitComponents(url);
    var pp := PathAndParams(c.scheme.GetOr(""), c.path);
    assert c.path == pp.0 + Tagged(';', pp.1);
    assert c.path[..|pp.0|] == pp.0;
    ParseResult(c.scheme.GetOr(""), c.authority.GetOr(""), pp.0, pp.1.GetOr(""), c.query.GetOr(""), c.fragment.GetOr(""))
  }

  lemma SplitSchemeOf(scheme: string, after: string)
    requires IsScheme(scheme)
    ensures SplitScheme(scheme + ":" + after) == (Some(scheme), after)
  {
    var url := scheme + ":" + after;
    assert url[|scheme|] == ':';
    assert forall j :: 0 <= j < |scheme| ==> url[j] == scheme[j];
    assert IndexOf(url, ':') == |scheme|;
    assert url[..|scheme|] == scheme;
    assert url[|scheme| + 1..] == after;
  }

  lemma SplitAuthorityOf(host: string, rest: string)
    requires forall i :: 0 <= i < |host| ==> host[i] !in AuthorityEnd
    requires rest == [] || rest[0] in AuthorityEnd
    ensures SplitAuthority("//" + host + rest) == (Some(host), rest)
  {
    var after := "//" + host + rest;
    assert StartsWith(after, "//");
    assert after[2..] == host + rest;
    var d := IndexOfAny(host + rest, AuthorityEnd);
    assert forall j :: 0 <= j < |host| ==> (host + rest)[j] == host[j];
    assert rest != [] ==> (host + rest)[|host|] == rest[0];
    assert d == |host|;
    assert after[2..2 + d] == host;
    assert after[2 + d..] == rest;
  }

  /** A URL written `scheme://host rest`, where the host holds none of `/?#` and the rest is empty
      or starts with one of them, parses into that scheme and that host; when the rest holds
      none of `;?#` it is the whole path and there is no query. */
  lemma ParseHierarchical(scheme: string, host: string, rest: string)
    requires IsScheme(scheme)
    requires forall i :: 0 <= i < |host| ==> host[i] !in AuthorityEnd
    requires rest == [] || rest[0] in AuthorityEnd
    ensures UrlParse(scheme + "://" + host + rest).scheme == scheme
    ensures UrlParse(scheme + "://" + host + rest).netloc == host
    ensures ';' !in rest && '?' !in rest && '#' !in rest ==>
              UrlParse(scheme + "://" + host + rest).path == rest && UrlParse(scheme + "://" + host + rest).query == ""
  {
    var after := "//" + host + rest;
    assert scheme + "://" + host + rest == scheme + ":" + after;
    SplitSchemeOf(scheme, after);
    SplitAuthorityOf(host, rest);
    var c := SplitComponents(scheme + ":" + after);
    assert c.scheme == Some(scheme) && c.authority == Some(host);
    if ';' !in rest && '?' !in rest && '#' !in rest {
      assert SplitOnce(rest, '#') == (rest, None);
      assert SplitOnce(rest, '?') == (rest, None);
      assert c.path == rest && c.query == None;
    }
  }

  lemma Regroup(a: string, b: string, c: string, d: string, e: string, f: string, g: string)
    ensures a + (b + c + (d + e + f + g)) == (a + b) + c + d + (e + f + g)
  {
  }

  /** The host and the path are consecutive pieces of the URL: only the scheme and `//`
      precede the host, and only `;params`, the query and the fragment follow the path. */
  lemma UrlParsePieces(url: string) returns (head: string, tail: string)
    ensures url == head + UrlParse(url).netloc + UrlParse(url).path + tail
  {
    var s := SplitScheme(url);
    var a := SplitAuthority(s.1);
    var f := SplitOnce(a.1, '#');
    var q := SplitOnce(f.0, '?');
    var pp := PathAndParams(s.0.GetOr(""), q.0);
    var netloc := a.0.GetOr("");
    var slashes := if a.0.Some? then "//" else "";
    assert AuthorityPart(a.0) == slashes + netloc;
    head := SchemePart(s.0) + slashes;
    tail := Tagged(';', pp.1) + Tagged('?', q.1) + Tagged('#', f.1);
    assert UrlParse(url).netloc == netloc && UrlParse(url).path == pp.0;
    calc {
      url;
      SchemePart(s.0) + s.1;
      SchemePart(s.0) + (slashes + netloc + a.1);
      { assert a.1 == pp.0 + Tagged(';', pp.1) + Tagged('?', q.1) + Tagged('#', f.1); }
      SchemePart(s.0) + (slashes + netloc + (pp.0 + Tagged(';', pp.1) + Tagged('?', q.1) + Tagged('#', f.1)));
      { Regroup(SchemePart(s.0), slashes, netloc, pp.0, Tagged(';', pp.1), Tagged('?', q.1), Tagged('#', f.1)); }
      head + netloc + pp.0 + tail;
    }
  }
}
