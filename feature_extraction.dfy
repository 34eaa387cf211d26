/**
 * The phishing detector's feature vector: 30 numbers computed from a URL, 25 of them from
 * its text alone and 5 from three network probes (the age of the domain's registration,
 * a TLS handshake, and the links and forms of the fetched page). The probes are inputs
 * here: each is either a value or the failure that makes the extractor use its default.
 *
 * Positions are numbered 1 to 30 in the comments, as in the extractor; in Dafny,
 * position k is index k - 1 of the vector.
 */
module FeatureExtraction {
  import opened Wrappers
  import opened Text
  import opened UrlSplit

  const FeatureCount := 30
  const DomainAgeCap := 1000

  const SuspiciousWords: seq<string> :=
    ["secure", "account", "webscr", "login", "ebayisapi", "signin", "banking", "confirm"]
  const ShorteningServices: seq<string> := ["bit.ly", "goo.gl", "tinyurl.com", "t.co", "youtu.be"]
  const CommonTlds: seq<string> :=
    ["com", "net", "org", "gov", "edu", "mil", "int", "info", "biz", "co", "tv", "me", "io", "xyz"]
  const MarketingWords: seq<string> := ["free", "offer", "click", "win", "bargain", "deal"]

  /** A `<form>` of the fetched page: whether it holds an `<input type="password">`. */
  datatype Form = Form(hasPasswordInput: bool)

  /** What the page probe reads from the fetched HTML: the `href` of every `<a>` that has one,
      in document order, and the page's forms. */
  datatype Page = Page(hrefs: seq<string>, forms: seq<Form>)

  /** The outcome of the three network probes. `None` is a probe that raised or found nothing:
      the WHOIS lookup (age in days of the creation date) and the page fetch. `tlsHandshakeOk`
      is what a TLS handshake with the domain on port 443 would give; it is consulted only for
      `https` URLs, since no connection is attempted otherwise. */
  datatype Probes = Probes(domainAgeDays: Option<int>, tlsHandshakeOk: bool, page: Option<Page>)

  /** Python's `1 if b else 0`. */
  function Flag(b: bool): int { if b then 1 else 0 }

  predicate IsFlag(x: int) { x == 0 || x == 1 }

  /** Lower-case the URL and prefix `http://` unless it already starts with `http`. */
  function Normalize(url: string): (u: string)
    ensures IsLowerCase(u)
    ensures |u| >= |url|
  {
    var lower := ToLower(url);
    if StartsWith(lower, "http") then lower else "http://" + lower
  }

  /** The normalised URL starts with `http`; the prefix is added exactly when the lower-cased
      URL does not start with `http`. */
  lemma NormalizePrefix(url: string)
    ensures StartsWith(Normalize(url), "http")
    ensures Normalize(url) == ToLower(url) <==> StartsWith(ToLower(url), "http")
    ensures !StartsWith(ToLower(url), "http") ==> Normalize(url) == "http://" + ToLower(url)
  {
    var lower := ToLower(url);
    if !StartsWith(lower, "http") {
      assert |Normalize(url)| == |lower| + 7;
    }
  }

  /** Normalising twice is normalising once. */
  lemma NormalizeIdempotent(url: string)
    ensures Normalize(Normalize(url)) == Normalize(url)
  {
    NormalizePrefix(url);
    ToLowerOfLowerCase(Normalize(url));
  }

  /** `\d{1,3}` of length `n` at the start of `s`, followed (when more groups remain) by `.`
      and the remaining groups. */
  predicate DigitGroupThen(s: string, n: nat, groups: nat)
    requires 1 <= groups
    decreases groups, 0
  {
    && 1 <= n <= 3 && n <= |s|
    && (forall i :: 0 <= i < n ==> IsDigit(s[i]))
    && (groups == 1 || (n < |s| && s[n] == '.' && DottedDigits(s[n + 1..], groups - 1)))
  }

  /** `groups` runs of one to three digits separated by `.`, matched at the start of `s`. */
  predicate DottedDigits(s: string, groups: nat)
    requires 1 <= groups
    decreases groups, 1
  {
    DigitGroupThen(s, 1, groups) || DigitGroupThen(s, 2, groups) || DigitGroupThen(s, 3, groups)
  }

  /** `re.match(r'\d{1,3}\.\d{1,3}\.\d{1,3}\.\d{1,3}', domain)`: a dotted quad at the start. */
  predicate HasIpPrefix(domain: string)
    ensures HasIpPrefix(domain) ==> 0 < |domain| && IsDigit(domain[0]) && Count(domain, '.') >= 3
  {
    if DottedDigits(domain, 4) then DottedDigitsDots(domain, 4); true else false
  }

  /** One to three ASCII digits: what `\d{1,3}` matches. */
  predicate DigitRun(x: string) {
    1 <= |x| <= 3 && forall i :: 0 <= i < |x| ==> IsDigit(x[i])
  }

  lemma LastDigitGroup(x: string, rest: string)
    requires DigitRun(x)
    ensures DottedDigits(x + rest, 1)
  {
    assert DigitGroupThen(x + rest, |x|, 1);
  }

  lemma NextDigitGroup(x: string, tail: string, groups: nat)
    requires DigitRun(x) && 2 <= groups && DottedDigits(tail, groups - 1)
    ensures DottedDigits(x + "." + tail, groups)
  {
    var s := x + "." + tail;
    assert s[|x|] == '.' && s[|x| + 1..] == tail;
    assert DigitGroupThen(s, |x|, groups);
  }

  /** The pattern is anchored at the start only: any dotted quad matches, whatever follows. */
  lemma IpPrefixMatches(a: string, b: string, c: string, d: string, rest: string)
    requires DigitRun(a) && DigitRun(b) && DigitRun(c) && DigitRun(d)
    ensures HasIpPrefix(a + "." + b + "." + c + "." + d + rest)
  {
    var t3 := d + rest;
    var t2 := c + "." + t3;
    var t1 := b + "." + t2;
    LastDigitGroup(d, rest);
    NextDigitGroup(c, t3, 2);
    NextDigitGroup(b, t2, 3);
    NextDigitGroup(a, t1, 4);
    GroupsAssociate(a, b, c, d, rest, ".");
  }

  lemma GroupsAssociate<T>(a: seq<T>, b: seq<T>, c: seq<T>, d: seq<T>, rest: seq<T>, dot: seq<T>)
    ensures a + dot + b + dot + c + dot + d + rest == a + dot + (b + dot + (c + dot + (d + rest)))
  {
  }

  /** Nothing may precede the quad: a domain that starts with a non-digit, such as a name
      before a dotted quad, does not match. */
  lemma IpPrefixAnchored(name: string, rest: string)
    requires name != [] && !IsDigit(name[0])
    ensures !HasIpPrefix(name + rest)
  {
    assert (name + rest)[0] == name[0];
  }

  /** A domain that starts with a dotted quad holds at least three dots. */
  lemma {:induction false} DottedDigitsDots(s: string, groups: nat)
    requires 1 <= groups
    requires DottedDigits(s, groups)
    ensures Count(s, '.') >= groups - 1
    decreases groups
  {
    if groups > 1 {
      if DigitGroupThen(s, 1, groups) {
        DigitGroupDots(s, 1, groups);
      } else if DigitGroupThen(s, 2, groups) {
        DigitGroupDots(s, 2, groups);
      } else {
        DigitGroupDots(s, 3, groups);
      }
    }
  }

  lemma {:induction false} DigitGroupDots(s: string, n: nat, groups: nat)
    requires 1 < groups
    requires DigitGroupThen(s, n, groups)
    ensures Count(s, '.') >= groups - 1
    decreases groups, 0
  {
    DottedDigitsDots(s[n + 1..], groups - 1);
    assert s == s[..n] + ([s[n]] + s[n + 1..]);
    CountAppend(s[..n], [s[n]] + s[n + 1..], '.');
    CountAppend([s[n]], s[n + 1..], '.');
  }

  /** What the optional groups `(?:https?:\/\/)?(?:www\.)?` can consume between `s` and `c`. */
  predicate OptionalPrefixes(url: string, s: nat, c: nat) {
    s <= c <= |url| && url[s..c] in {"", "http://", "https://", "www.", "http://www.", "https://www."}
  }

  /** `[^.]+\.(?:com|...|xyz)` matched from `c`, the `.` at `e`. */
  predicate TldCoreAt(url: string, c: nat, e: nat) {
    && c < e < |url|
    && (forall k :: c <= k < e ==> url[k] != '.')
    && url[e] == '.'
    && StartsWithAny(url[e + 1..], CommonTlds)
  }

  /** The search as the pattern reads: some start `s`, the optional prefixes up to `c`, and
      the rest of the pattern from `c`. */
  predicate TldPatternSearch(url: string) {
    exists s, c, e :: 0 <= s <= c < e < |url| && OptionalPrefixes(url, s, c) && TldCoreAt(url, c, e)
  }

  /** A `.` at `i` that follows a character other than `.` and precedes a listed TLD. */
  predicate TldDotAt(url: string, i: nat) {
    1 <= i < |url| && url[i - 1] != '.' && url[i] == '.' && StartsWithAny(url[i + 1..], CommonTlds)
  }

  /** `re.search(r"(?:https?:\/\/)?(?:www\.)?[^.]+\.(?:com|net|...|xyz)", url)`. The optional
      prefixes never decide a match, and `[^.]+` may be a single character, so the search
      succeeds exactly when some `TldDotAt` position exists. */
  predicate HasCommonTld(url: string)
    ensures HasCommonTld(url) <==> TldPatternSearch(url)
  {
    if exists i :: 0 <= i < |url| && TldDotAt(url, i) then
      var i :| 0 <= i < |url| && TldDotAt(url, i);
      assert url[i - 1..i - 1] == "";
      assert OptionalPrefixes(url, i - 1, i - 1) && TldCoreAt(url, i - 1, i);
      true
    else
      assert forall c, e :: 0 <= c < e < |url| && TldCoreAt(url, c, e) ==> TldDotAt(url, e);
      false
  }

  /** Position 11: the WHOIS age in days, 0 when the lookup failed, capped at 1000. */
  function DomainAgeFeature(age: Option<int>): (r: int)
    ensures r <= DomainAgeCap
    ensures age.None? ==> r == 0
    ensures age.Some? && age.value <= DomainAgeCap ==> r == age.value
    ensures age.Some? && age.value >= DomainAgeCap ==> r == DomainAgeCap
  {
    var days := age.GetOr(0);
    if days < DomainAgeCap then days else DomainAgeCap
  }

  /** Position 13: 1 when the scheme is `https` and the handshake succeeded. */
  function ValidSslFeature(scheme: string, tlsHandshakeOk: bool): int
  {
    Flag(scheme == "https" && tlsHandshakeOk)
  }

  /** Position 15: `len(query.split('&')) if query else 0`. */
  function QueryParamCount(query: string): (n: nat)
    ensures n == if query == "" then 0 else Count(query, '&') + 1
  {
    if query == "" then 0 else SplitOnCount(query, '&'); |SplitOn(query, '&')|
  }

  /** A link is external when its `href` starts with `http` and does not contain the domain. */
  predicate IsExternal(href: string, domain: string) {
    StartsWith(href, "http") && !Contains(href, domain)
  }

  /** Position 22: the number of external links. */
  function ExternalLinkCount(hrefs: seq<string>, domain: string): (n: nat)
    ensures n <= |hrefs|
  {
    if hrefs == [] then 0 else (if IsExternal(hrefs[0], domain) then 1 else 0) + ExternalLinkCount(hrefs[1..], domain)
  }

  /** The external-link count adds up over the links, one per external link. */
  lemma {:induction false} ExternalLinkCountAppend(a: seq<string>, b: seq<string>, domain: string)
    ensures ExternalLinkCount(a + b, domain) == ExternalLinkCount(a, domain) + ExternalLinkCount(b, domain)
  {
    if a == [] {
      assert a + b == b;
    } else {
      assert (a + b)[1..] == a[1..] + b;
      ExternalLinkCountAppend(a[1..], b, domain);
    }
  }

  /** An empty domain is a substring of every `href`, so no link counts as external. */
  lemma {:induction false} EmptyDomainNoExternalLinks(hrefs: seq<string>)
    ensures ExternalLinkCount(hrefs, "") == 0
  {
    if hrefs != [] {
      assert StartsWith(hrefs[0][0..], "");
      EmptyDomainNoExternalLinks(hrefs[1..]);
    }
  }

  /** Position 24: some form holds a password input. */
  predicate HasLoginForm(forms: seq<Form>) {
    exists i :: 0 <= i < |forms| && forms[i].hasPasswordInput
  }

  // The section functions below state each section's entries as one list, so that the
  // vector and its positions can be reasoned about without the extractor's local state; the
  // `Append` methods further down build the same lists append by append, as the source does,
  // and are proved equal to them.

  /** Positions 1 to 8: lengths and counts over the URL and its domain. */
  function BasicFeatures(u: string, p: ParseResult): seq<int>
  {
    var domain := p.netloc;
    [ |u|,                           // 1. URL length
      |domain|,                      // 2. domain length
      Count(u, '.'),                 // 3. dot count
      Count(domain, '.'),            // 4. subdomain count
      Flag(HasIpPrefix(domain)),     // 5. has IP address
      Flag('@' in u),                // 6. contains @
      Flag(Contains(p.path, "//")),  // 7. contains // in path
      Flag('-' in domain) ]          // 8. contains - in domain
  }

  /** Positions 9 and 10: a suspicious word in the URL; a URL shortener in the domain. */
  function WordFeatures(u: string, domain: string): seq<int>
  {
    [Flag(ContainsAny(u, SuspiciousWords)), Flag(ContainsAny(domain, ShorteningServices))]
  }

  /** Positions 12 and 13: the scheme is `https`; the certificate was accepted. */
  function SslFeatures(scheme: string, tlsHandshakeOk: bool): seq<int>
  {
    [Flag(scheme == "https"), ValidSslFeature(scheme, tlsHandshakeOk)]
  }

  /** Positions 14 to 20: path length, query parameters, the counts of `?`, `=`, `%` and `#`,
      and the safe-browsing placeholder, which is always 0. */
  function StructureFeatures(u: string, p: ParseResult): seq<int>
  {
    [|p.path|, QueryParamCount(p.query), Count(u, '?'), Count(u, '='), Count(u, '%'), Count(u, '#'), 0]
  }

  /** Positions 21 to 24: links, external links, forms, login form; all 0 when the fetch failed. */
  function PageFeatures(page: Option<Page>, domain: string): seq<int>
  {
    match page
    case None => [0, 0, 0, 0]
    case Some(pg) => [|pg.hrefs|, ExternalLinkCount(pg.hrefs, domain), |pg.forms|, Flag(HasLoginForm(pg.forms))]
  }

  /** Positions 25 to 30: common top-level domain, digits, `https` in the domain, long domain,
      marketing words, three or more dots in the domain. */
  function MoreFeatures(u: string, domain: string): seq<int>
  {
    [ Flag(HasCommonTld(u)),
      CountDigits(u),
      Flag(Contains(domain, "https")),
      Flag(|domain| > 20),
      Flag(ContainsAny(u, MarketingWords)),
      Flag(Count(domain, '.') >= 3) ]
  }

  /** The feature vector of `url` under the given probe outcomes. */
  function FeatureVector(url: string, probes: Probes): (v: seq<int>)
    ensures |v| == FeatureCount
  {
    var u := Normalize(url);
    Features(u, UrlParse(u), probes)
  }

  /** The 30 features of the normalised URL `u`, parsed as `p`, section by section. */
  function Features(u: string, p: ParseResult, probes: Probes): (v: seq<int>)
    ensures |v| == FeatureCount
  {
    BasicFeatures(u, p)
    + WordFeatures(u, p.netloc)
    + [DomainAgeFeature(probes.domainAgeDays)]
    + SslFeatures(p.scheme, probes.tlsHandshakeOk)
    + StructureFeatures(u, p)
    + PageFeatures(probes.page, p.netloc)
    + MoreFeatures(u, p.netloc)
  }

  /** Where each feature sits in the vector. */
  lemma Layout(u: string, p: ParseResult, probes: Probes)
    ensures var v := Features(u, p, probes); var domain := p.netloc;
      && v[..8] == BasicFeatures(u, p)
      && v[8..10] == WordFeatures(u, domain)
      && v[10] == DomainAgeFeature(probes.domainAgeDays)
      && v[11..13] == SslFeatures(p.scheme, probes.tlsHandshakeOk)
      && v[13..20] == StructureFeatures(u, p)
      && v[20..24] == PageFeatures(probes.page, domain)
      && v[24..] == MoreFeatures(u, domain)
  {
  }

  /** The extractor. It grows the list section by section, as the source's comments divide it. */
  method ExtractFeatures(url: string, probes: Probes) returns (features: seq<int>)
    ensures features == FeatureVector(url, probes)
  {
    features := [];
    var u := Normalize(url);
    var parsed := UrlParse(u);
    var domain := parsed.netloc;
    features := AppendBasicFeatures(features, u, parsed);
    assert features == BasicFeatures(u, parsed);
    features := AppendWordFeatures(features, u, domain);
    features := AppendDomainAge(features, probes.domainAgeDays);
    features := AppendSslFeatures(features, parsed.scheme, probes.tlsHandshakeOk);
    features := AppendStructureFeatures(features, u, parsed);
    features := AppendPageFeatures(features, probes.page, domain);
    features := AppendMoreFeatures(features, u, parsed);
  }

  method AppendBasicFeatures(xs: seq<int>, u: string, parsed: ParseResult) returns (features: seq<int>)
    ensures features == xs + BasicFeatures(u, parsed)
  {
    var domain := parsed.netloc;
    features := xs;
    features := features + [|u|];
    features := features + [|domain|];
    features := features + [Count(u, '.')];
    SplitOnCount(domain, '.');
    features := features + [|SplitOn(domain, '.')| - 1];
    features := features + [Flag(HasIpPrefix(domain))];
    features := features + [Flag('@' in u)];
    features := features + [Flag(Contains(parsed.path, "//"))];
    features := features + [Flag('-' in domain)];
  }

  method AppendWordFeatures(xs: seq<int>, u: string, domain: string) returns (features: seq<int>)
    ensures features == xs + WordFeatures(u, domain)
  {
    features := xs + [Flag(ContainsAny(u, SuspiciousWords))];
    features := features + [Flag(ContainsAny(domain, ShorteningServices))];
  }

  /** The WHOIS age starts at 0 and is overwritten only when the lookup succeeds. */
  method AppendDomainAge(xs: seq<int>, domainAgeDays: Option<int>) returns (features: seq<int>)
    ensures features == xs + [DomainAgeFeature(domainAgeDays)]
  {
    var domainAge := 0;
    if domainAgeDays.Some? {
      domainAge := domainAgeDays.value;
    }
    features := xs + [if domainAge < DomainAgeCap then domainAge else DomainAgeCap];
  }

  /** The certificate flag starts at 0 and is set only after a handshake on an `https` URL. */
  method AppendSslFeatures(xs: seq<int>, scheme: string, tlsHandshakeOk: bool) returns (features: seq<int>)
    ensures features == xs + SslFeatures(scheme, tlsHandshakeOk)
  {
    features := xs + [Flag(scheme == "https")];
    var hasValidSsl := 0;
    if scheme == "https" {
      if tlsHandshakeOk {
        hasValidSsl := 1;
      }
    }
    features := features + [hasValidSsl];
  }

  method AppendStructureFeatures(xs: seq<int>, u: string, parsed: ParseResult) returns (features: seq<int>)
    ensures features == xs + StructureFeatures(u, parsed)
  {
    features := xs;
    features := features + [|parsed.path|];
    features := features + [if parsed.query != "" then |SplitOn(parsed.query, '&')| else 0];
    features := features + [Count(u, '?')];
    features := features + [Count(u, '=')];
    features := features + [Count(u, '%')];
    features := features + [Count(u, '#')];
    features := features + [0];
  }

  /** Four appends when the page was fetched, `extend([0, 0, 0, 0])` when it was not. */
  method AppendPageFeatures(xs: seq<int>, page: Option<Page>, domain: string) returns (features: seq<int>)
    ensures features == xs + PageFeatures(page, domain)
  {
    features := xs;
    match page {
      case Some(pg) =>
        features := features + [|pg.hrefs|];
        features := features + [ExternalLinkCount(pg.hrefs, domain)];
        features := features + [|pg.forms|];
        features := features + [Flag(HasLoginForm(pg.forms))];
      case None =>
        features := features + [0, 0, 0, 0];
    }
  }

  method AppendMoreFeatures(xs: seq<int>, u: string, parsed: ParseResult) returns (features: seq<int>)
    ensures features == xs + MoreFeatures(u, parsed.netloc)
  {
    var domain := parsed.netloc;
    features := xs;
    features := features + [Flag(HasCommonTld(u))];
    features := features + [CountDigits(u)];
    features := features + [Flag(Contains(domain, "https"))];
    features := features + [Flag(|domain| > 20)];
    features := features + [Flag(ContainsAny(u, MarketingWords))];
    features := features + [Flag(Count(parsed.netloc, '.') >= 3)];
  }

  /** Two consecutive pieces of a string hold no more of `c`, and are no longer, than it. */
  lemma InfixBounds(head: string, x: string, y: string, tail: string, c: char)
    ensures |x| + |y| <= |head + x + y + tail|
    ensures Count(x, c) + Count(y, c) <= Count(head + x + y + tail, c)
  {
    CountAppend(head + x + y, tail, c);
    CountAppend(head + x, y, c);
    CountAppend(head, x, c);
  }

  /** The domain and the path are disjoint pieces of the URL they were split from. */
  lemma DomainAndPathWithinUrl(u: string, c: char)
    ensures |UrlParse(u).netloc| + |UrlParse(u).path| <= |u|
    ensures Count(UrlParse(u).netloc, c) + Count(UrlParse(u).path, c) <= Count(u, c)
  {
    var head, tail := UrlParsePieces(u);
    InfixBounds(head, UrlParse(u).netloc, UrlParse(u).path, tail, c);
  }

  /** A failed fetch contributes exactly four zeros, at positions 21 to 24. */
  lemma FailedFetchZeros(u: string, p: ParseResult, probes: Probes)
    requires probes.page.None?
    ensures Features(u, p, probes)[20..24] == [0, 0, 0, 0]
  {
    Layout(u, p, probes);
  }

  /** Positions 5 to 10, 12, 13, 24, 25 and 27 to 30 are flags; position 20 is always 0. */
  lemma FlagPositions(u: string, p: ParseResult, probes: Probes)
    ensures var v := Features(u, p, probes);
      && IsFlag(v[4]) && IsFlag(v[5]) && IsFlag(v[6]) && IsFlag(v[7]) && IsFlag(v[8]) && IsFlag(v[9])
      && IsFlag(v[11]) && IsFlag(v[12]) && IsFlag(v[23]) && IsFlag(v[24])
      && IsFlag(v[26]) && IsFlag(v[27]) && IsFlag(v[28]) && IsFlag(v[29])
      && v[19] == 0
  {
    Layout(u, p, probes);
  }

  /** Position 4 is the number of `.` in the domain, which is one less than the number of pieces
      `split('.')` gives; position 30 is set exactly when it is at least 3, and position 28
      exactly when position 2, the domain length, exceeds 20. */
  lemma DomainPositions(u: string, p: ParseResult, probes: Probes)
    ensures var v := Features(u, p, probes);
      && v[1] == |p.netloc|
      && v[3] == Count(p.netloc, '.') == |SplitOn(p.netloc, '.')| - 1
      && (v[29] == 1 <==> v[3] >= 3)
      && (v[27] == 1 <==> v[1] > 20)
  {
    Layout(u, p, probes);
    SplitOnCount(p.netloc, '.');
  }

  /** A domain that starts with a dotted quad holds at least three dots, so position 5 set
      implies position 30 set. */
  lemma IpAddressMultipleSubdomains(u: string, p: ParseResult, probes: Probes)
    requires Features(u, p, probes)[4] == 1
    ensures Features(u, p, probes)[29] == 1
  {
    Layout(u, p, probes);
    DottedDigitsDots(p.netloc, 4);
  }

  /** Position 13 never exceeds position 12; for a scheme other than `https` it is 0 and the
      handshake outcome is never consulted. */
  lemma SslPositions(u: string, p: ParseResult, probes: Probes, tlsHandshakeOk: bool)
    ensures var v := Features(u, p, probes);
      && v[12] <= v[11]
      && (v[11] == 1 <==> p.scheme == "https")
      && (v[11] == 0 ==> v[12] == 0 && Features(u, p, probes.(tlsHandshakeOk := tlsHandshakeOk)) == v)
  {
    Layout(u, p, probes);
  }

  /** Position 11 is the age capped at 1000, and 0 when the WHOIS lookup failed. */
  lemma DomainAgePosition(u: string, p: ParseResult, probes: Probes)
    ensures Features(u, p, probes)[10] <= DomainAgeCap
    ensures probes.domainAgeDays.None? ==> Features(u, p, probes)[10] == 0
    ensures probes.domainAgeDays.Some? && probes.domainAgeDays.value <= DomainAgeCap ==>
              Features(u, p, probes)[10] == probes.domainAgeDays.value
    ensures probes.domainAgeDays.Some? && probes.domainAgeDays.value >= DomainAgeCap ==>
              Features(u, p, probes)[10] == DomainAgeCap
  {
    Layout(u, p, probes);
  }

  /** Position 15 is 0 for an empty query and one more than its number of `&` otherwise. */
  lemma QueryPosition(u: string, p: ParseResult, probes: Probes)
    ensures Features(u, p, probes)[14] == if p.query == "" then 0 else Count(p.query, '&') + 1
  {
    Layout(u, p, probes);
  }

  /** Position 22 never exceeds position 21. */
  lemma PagePositions(u: string, p: ParseResult, probes: Probes)
    ensures Features(u, p, probes)[21] <= Features(u, p, probes)[20]
  {
    Layout(u, p, probes);
  }

  /** Only positions 11, 13 and 21 to 24 depend on the probes. */
  lemma ProbeIndependence(u: string, p: ParseResult, probes: Probes, other: Probes)
    ensures forall k :: 0 <= k < FeatureCount && k != 10 && k != 12 && !(20 <= k < 24) ==>
              Features(u, p, probes)[k] == Features(u, p, other)[k]
  {
    Layout(u, p, probes);
    Layout(u, p, other);
  }

  /** Positions 2 and 14 (domain and path length) add up to at most position 1 (URL length),
      and position 4 (dots in the domain) is at most position 3 (dots in the URL). */
  lemma LengthBounds(u: string, probes: Probes)
    ensures var v := Features(u, UrlParse(u), probes);
      v[1] + v[13] <= v[0] && v[3] <= v[2]
  {
    DomainAndPathWithinUrl(u, '.');
    PiecesBounds(u, UrlParse(u), probes);
  }

  lemma PiecesBounds(u: string, p: ParseResult, probes: Probes)
    requires |p.netloc| + |p.path| <= |u|
    requires Count(p.netloc, '.') + Count(p.path, '.') <= Count(u, '.')
    ensures var v := Features(u, p, probes);
      v[1] + v[13] <= v[0] && v[3] <= v[2]
  {
    Layout(u, p, probes);
  }

  /** Extracting from an already normalised URL gives the same vector. */
  lemma NormalizeInvariance(url: string, probes: Probes)
    ensures FeatureVector(Normalize(url), probes) == FeatureVector(url, probes)
  {
    NormalizeIdempotent(url);
  }

  /** The names the reporting layer pairs with the vector: 18 of them, for positions 1 to 18. */
  function FeatureNames(): (names: seq<string>)
    ensures |names| == 18
  {
    [ "URL Length",
      "Domain Length",
      "Dot Count",
      "Subdomain Count",
      "Has IP Address",
      "Contains @ Symbol",
      "Contains // in Path",
      "Contains - in Domain",
      "Contains Suspicious Words",
      "Is URL Shortened",
      "Domain Age (days)",
      "Has HTTPS",
      "Valid SSL Certificate",
      "Path Length",
      "Query Parameter Count",
      "External Link Count",
      "Form Count",
      "Has Login Form" ]
  }
}
