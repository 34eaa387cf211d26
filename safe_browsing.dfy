/**
 * The reputation check: one `threatMatches:find` request to the Google Safe Browsing v4
 * service for a URL, and the decoding of its outcome into a verdict. The check fails open:
 * without an API key, on a status other than 200 and on any exception the URL is reported
 * safe with no threats. The HTTP exchange itself is a parameter, `respond`, that maps the
 * request to its outcome.
 */
module SafeBrowsing {
  import opened Wrappers

  const Endpoint := "https://safebrowsing.googleapis.com/v4/threatMatches:find"
  const ClientId := "phishing-url-detector"
  const ClientVersion := "1.0.0"
  const ThreatTypes: seq<string> :=
    ["MALWARE", "SOCIAL_ENGINEERING", "UNWANTED_SOFTWARE", "POTENTIALLY_HARMFUL_APPLICATION"]
  const PlatformTypes: seq<string> := ["ANY_PLATFORM"]
  const ThreatEntryTypes: seq<string> := ["URL"]
  /** What a threat field reads when the match does not carry it. */
  const Unknown := "Unknown"

  /** The `threatInfo` part of the request body; `threatEntries` lists the URLs asked about. */
  datatype ThreatInfo = ThreatInfo(
    threatTypes: seq<string>,
    platformTypes: seq<string>,
    threatEntryTypes: seq<string>,
    threatEntries: seq<string>)

  /** The POST request: endpoint, `key` query parameter and JSON body. */
  datatype Request = Request(
    endpoint: string,
    key: string,
    clientId: string,
    clientVersion: string,
    threatInfo: ThreatInfo)

  /** One element of the reply's `matches` list; `None` is a key the element does not have. */
  datatype Match = Match(threatType: Option<string>, platformType: Option<string>, threatEntryType: Option<string>)

  /** A decoded reply body: whether it has a `matches` key, and the list under it. */
  datatype Reply = Reply(matches: Option<seq<Match>>)

  /** How the request ends: an exception from the request itself, or a response with its
      status code and its body, `None` when decoding the body raised. */
  datatype HttpOutcome = Raised | Responded(status: int, body: Option<Reply>)

  datatype Threat = Threat(threatType: string, platformType: string, threatEntryType: string)

  /** The dictionary the check returns. */
  datatype SafetyResult = SafetyResult(isSafe: bool, threats: seq<Threat>)

  /** The fail-open answer. */
  const Safe := SafetyResult(true, [])

  /** The request sent for `url` under the API key `apiKey`. */
  function MakeRequest(apiKey: string, url: string): (r: Request)
    ensures r.key == apiKey && r.endpoint == Endpoint
    ensures r.threatInfo.threatEntries == [url]
  {
    Request(Endpoint, apiKey, ClientId, ClientVersion,
            ThreatInfo(ThreatTypes, PlatformTypes, ThreatEntryTypes, [url]))
  }

  /** A match becomes a threat, each missing field reading `Unknown`. */
  function ThreatOf(m: Match): (t: Threat)
    ensures m.threatType.Some? ==> t.threatType == m.threatType.value
    ensures m.threatType.None? ==> t.threatType == Unknown
    ensures m.platformType.Some? ==> t.platformType == m.platformType.value
    ensures m.platformType.None? ==> t.platformType == Unknown
    ensures m.threatEntryType.Some? ==> t.threatEntryType == m.threatEntryType.value
    ensures m.threatEntryType.None? ==> t.threatEntryType == Unknown
  {
    Threat(m.threatType.GetOr(Unknown), m.platformType.GetOr(Unknown), m.threatEntryType.GetOr(Unknown))
  }

  /** Whether the outcome is a decoded 200 reply that carries a `matches` key. */
  predicate Flagged(outcome: HttpOutcome) {
    outcome.Responded? && outcome.status == 200 && outcome.body.Some? && outcome.body.value.matches.Some?
  }

  /** The verdict for an outcome, given whether a key was configured: unsafe exactly when
      the service answered 200 with a `matches` key, with one threat per match, in order. */
  function Verdict(hasKey: bool, outcome: HttpOutcome): (r: SafetyResult)
    ensures r.isSafe <==> !(hasKey && Flagged(outcome))
    ensures r.isSafe ==> r == Safe
    ensures !r.isSafe ==> |r.threats| == |outcome.body.value.matches.value|
    ensures !r.isSafe ==> forall i :: 0 <= i < |r.threats| ==>
              r.threats[i] == ThreatOf(outcome.body.value.matches.value[i])
  {
    if hasKey && Flagged(outcome) then
      var ms := outcome.body.value.matches.value;
      SafetyResult(false, seq(|ms|, i requires 0 <= i < |ms| => ThreatOf(ms[i])))
    else
      Safe
  }

  /** The check: early return without a key, then one request; a non-200 status or an
      exception fails open, and a 200 reply is decoded match by match. */
  method CheckUrlSafety(apiKey: string, url: string, respond: Request -> HttpOutcome) returns (result: SafetyResult)
    ensures apiKey == "" ==> result == Safe
    ensures apiKey != "" ==> result == Verdict(true, respond(MakeRequest(apiKey, url)))
  {
    if apiKey == "" {
      return Safe;
    }
    var request := MakeRequest(apiKey, url);
    var outcome := respond(request);
    match outcome {
      case Raised =>
        return Safe;
      case Responded(status, body) =>
        if status != 200 {
          return Safe;
        }
        if body.None? {
          return Safe;
        }
        var data := body.value;
        var isSafe := data.matches.None?;
        var threats: seq<Threat> := [];
        if !isSafe && data.matches.Some? {
          var matches := data.matches.value;
          var i := 0;
          while i < |matches|
            invariant 0 <= i <= |matches|
            invariant |threats| == i
            invariant forall j :: 0 <= j < i ==> threats[j] == ThreatOf(matches[j])
          {
            threats := threats + [ThreatOf(matches[i])];
            i := i + 1;
          }
        }
        result := SafetyResult(isSafe, threats);
    }
  }

  /** Without a key the verdict is the same whatever the service would have answered. */
  lemma NoKeyIgnoresOutcome(a: HttpOutcome, b: HttpOutcome)
    ensures Verdict(false, a) == Verdict(false, b) == Safe
  {
  }

  /** The converse of "safe implies no threats" fails: a 200 reply whose `matches` list is
      empty is reported unsafe with no threats. */
  lemma EmptyMatchesUnsafe()
    ensures var r := Verdict(true, Responded(200, Some(Reply(Some([])))));
      !r.isSafe && r.threats == []
  {
  }
}
