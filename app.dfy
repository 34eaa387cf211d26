/**
 * The two analysis handlers: they extract the features of a URL, ask the classifier for a
 * label and a probability, ask the reputation service for a verdict, pair the feature names
 * with the vector, log the scan to the history and answer with a report. The classifier,
 * the network probes, the reputation service's reply and the clock are parameters.
 */
module App {
  import opened Wrappers
  import opened Text
  import opened UrlSplit
  import opened FeatureExtraction
  import opened SafeBrowsing
  import opened History

  /** The three risk bands, in increasing order. */
  datatype RiskLevel = Low | Medium | High {
    function Rank(): nat {
      match this
      case Low => 0
      case Medium => 1
      case High => 2
    }

    /** The text the handlers send. */
    function Label(): string {
      match this
      case Low => "Low"
      case Medium => "Medium"
      case High => "High"
    }
  }

  /** `get_risk_level`: below 0.2 is low, below 0.6 medium, anything else high. */
  function RiskLevelOf(probability: real): (r: RiskLevel)
    ensures r == Low <==> probability < 0.2
    ensures r == Medium <==> 0.2 <= probability < 0.6
    ensures r == High <==> 0.6 <= probability
  {
    if probability < 0.2 then Low
    else if probability < 0.6 then Medium
    else High
  }

  /** A higher probability never gives a lower band. */
  lemma RiskLevelMonotone(p: real, q: real)
    requires p <= q
    ensures RiskLevelOf(p).Rank() <= RiskLevelOf(q).Rank()
  {
  }

  /** The dictionary the loop over `enumerate(names)` builds: name `i` is bound to entry `i`
      of the vector while `i` is below the vector's length; a repeated name keeps its last
      binding. */
  function FeaturesDictOf(names: seq<string>, values: seq<int>): map<string, int>
    decreases |names|
  {
    if names == [] then map[]
    else
      var n := |names| - 1;
      var d := FeaturesDictOf(names[..n], values);
      if n < |values| then d[names[n] := values[n]] else d
  }

  /** The loop itself. */
  method FeaturesDict(names: seq<string>, values: seq<int>) returns (d: map<string, int>)
    ensures d == FeaturesDictOf(names, values)
  {
    d := map[];
    var i := 0;
    while i < |names|
      invariant 0 <= i <= |names|
      invariant d == FeaturesDictOf(names[..i], values)
    {
      assert names[..i + 1][..i] == names[..i];
      if i < |values| {
        d := d[names[i] := values[i]];
      }
      i := i + 1;
    }
    assert names[..i] == names;
  }

  function Min(a: int, b: int): int { if a < b then a else b }

  /** The keys are the names at the positions the vector covers. */
  lemma {:induction false} FeaturesDictKeys(names: seq<string>, values: seq<int>)
    ensures FeaturesDictOf(names, values).Keys == set i | 0 <= i < Min(|names|, |values|) :: names[i]
    decreases |names|
  {
    if names != [] {
      var n := |names| - 1;
      FeaturesDictKeys(names[..n], values);
      var m := Min(n, |values|);
      assert forall i :: 0 <= i < m ==> names[..n][i] == names[i];
      assert (set i | 0 <= i < m :: names[..n][i]) == (set i | 0 <= i < m :: names[i]);
      if n < |values| {
        assert (set i | 0 <= i < n + 1 :: names[i]) == (set i | 0 <= i < n :: names[i]) + {names[n]};
      }
    }
  }

  predicate Distinct(names: seq<string>) {
    forall i, j :: 0 <= i < j < |names| ==> names[i] != names[j]
  }

  /** With distinct names, each covered name is bound to the entry at its own position. */
  lemma {:induction false} FeaturesDictValues(names: seq<string>, values: seq<int>)
    requires Distinct(names)
    ensures forall i :: 0 <= i < Min(|names|, |values|) ==>
              names[i] in FeaturesDictOf(names, values) && FeaturesDictOf(names, values)[names[i]] == values[i]
    decreases |names|
  {
    if names != [] {
      var n := |names| - 1;
      FeaturesDictValues(names[..n], values);
      assert forall i :: 0 <= i < n ==> names[..n][i] == names[i];
    }
  }

  /** Distinct names give as many keys as positions covered. */
  lemma {:induction false} DistinctIndexSet(names: seq<string>, m: nat)
    requires Distinct(names) && m <= |names|
    ensures |set i | 0 <= i < m :: names[i]| == m
    decreases m
  {
    if m > 0 {
      DistinctIndexSet(names, m - 1);
      var smaller := set i | 0 <= i < m - 1 :: names[i];
      assert (set i | 0 <= i < m :: names[i]) == smaller + {names[m - 1]};
      assert names[m - 1] !in smaller;
    }
  }

  lemma FeaturesDictSize(names: seq<string>, values: seq<int>)
    requires Distinct(names)
    ensures |FeaturesDictOf(names, values)| == Min(|names|, |values|)
  {
    FeaturesDictKeys(names, values);
    DistinctIndexSet(names, Min(|names|, |values|));
    assert |FeaturesDictOf(names, values)| == |FeaturesDictOf(names, values).Keys|;
  }

  /** The eighteen feature names differ from one another. */
  lemma FeatureNamesDistinct()
    ensures Distinct(FeatureNames())
  {
  }

  /** The report's dictionary has 18 keys, one per name, each bound to the entry at the same
      position; positions 19 to 30 never appear. Since the names and the vector are paired by
      position, "External Link Count", "Form Count" and "Has Login Form" hold positions 16, 17
      and 18: the numbers of `?`, `=` and `%` in the URL. */
  lemma ReportFeaturesLabels(u: string, p: ParseResult, probes: Probes)
    ensures var d := FeaturesDictOf(FeatureNames(), Features(u, p, probes));
      && |d| == 18
      && (forall i :: 0 <= i < 18 ==> FeatureNames()[i] in d && d[FeatureNames()[i]] == Features(u, p, probes)[i])
      && "External Link Count" in d && d["External Link Count"] == Count(u, '?')
      && "Form Count" in d && d["Form Count"] == Count(u, '=')
      && "Has Login Form" in d && d["Has Login Form"] == Count(u, '%')
  {
    var v := Features(u, p, probes);
    FeatureNamesDistinct();
    FeaturesDictSize(FeatureNames(), v);
    FeaturesDictValues(FeatureNames(), v);
    Layout(u, p, probes);
    assert FeatureNames()[15] == "External Link Count";
    assert FeatureNames()[16] == "Form Count";
    assert FeatureNames()[17] == "Has Login Form";
  }

  /** The classifier: a label (`predict`) and the probability of the phishing class
      (`predict_proba(...)[0][1]`). */
  datatype Classifier = Classifier(predict: seq<int> -> int, phishingProbability: seq<int> -> real)

  /** The outside world a scan consults: the three probes, the reputation service under its
      API key, and the clock. */
  datatype Environment = Environment(
    probes: Probes,
    apiKey: string,
    respond: Request -> HttpOutcome,
    timestamp: string)

  /** The JSON report; `probability` is a percentage. */
  datatype Report = Report(
    url: string,
    isPhishing: bool,
    probability: real,
    features: map<string, int>,
    safeBrowsing: SafetyResult,
    riskLevel: string)

  /** A handler's answer: the report, or an error message with status 400. */
  datatype Response = Ok(report: Report) | BadRequest(error: string)
  {
    function Status(): int {
      if Ok? then 200 else 400
    }
  }

  /** What the reputation check answers for `url`: the verdict `CheckUrlSafety` is proved to
      return, as a function that the handlers' contracts can name. */
  function SafetyOf(url: string, env: Environment): SafetyResult
  {
    if env.apiKey == "" then Safe else Verdict(true, env.respond(MakeRequest(env.apiKey, url)))
  }

  /** The report for `url` given its feature vector `v` and its reputation verdict: the
      classifier's label and percentage on `v`, the band of the raw probability, and the
      named features. */
  predicate ReportOn(report: Report, url: string, model: Classifier, v: seq<int>, safety: SafetyResult) {
    var raw := model.phishingProbability(v);
    && report.url == url
    && (report.isPhishing <==> model.predict(v) != 0)
    && report.probability == raw * 100.0
    && report.riskLevel == RiskLevelOf(raw).Label()
    && report.features == FeaturesDictOf(FeatureNames(), v)
    && report.safeBrowsing == safety
  }

  /** The report both handlers send for `url`. */
  predicate Scored(report: Report, url: string, model: Classifier, env: Environment) {
    ReportOn(report, url, model, FeatureVector(url, env.probes), SafetyOf(url, env))
  }

  /** The report is determined by the URL, the classifier and the environment: the two
      handlers answer the same non-empty URL with the same report. */
  lemma ScoredUnique(r1: Report, r2: Report, url: string, model: Classifier, env: Environment)
    requires Scored(r1, url, model, env) && Scored(r2, url, model, env)
    ensures r1 == r2
  {
  }

  /** The entry a scan of `url` logs with the report it sends. */
  function ScanEntry(report: Report, url: string, model: Classifier, env: Environment): Entry
  {
    Entry(url, report.isPhishing, model.phishingProbability(FeatureVector(url, env.probes)),
          report.features, env.timestamp)
  }

  /** The steps both handlers share, on a URL they accept. */
  method ScoreUrl(history: HistoryManager, url: string, model: Classifier, env: Environment) returns (report: Report)
    modifies history
    ensures Scored(report, url, model, env)
    ensures history.store == Stored(Added(old(history.Entries()), ScanEntry(report, url, model, env)))
  {
    var features := ExtractFeatures(url, env.probes);
    var featureNames := FeatureNames();
    var prediction := model.predict(features);
    var probability := model.phishingProbability(features);
    var safeBrowsingResult := CheckUrlSafety(env.apiKey, url, env.respond);
    var featuresDict := FeaturesDict(featureNames, features);
    history.AddUrl(url, prediction != 0, probability, featuresDict, env.timestamp);
    report := Report(url, prediction != 0, probability * 100.0, featuresDict, safeBrowsingResult, RiskLevelOf(probability).Label());
  }

  /** The form handler: it takes the `url` field as it is, even when empty. */
  method Analyze(history: HistoryManager, url: string, model: Classifier, env: Environment) returns (response: Response)
    modifies history
    ensures response.Ok? && Scored(response.report, url, model, env)
    ensures history.Entries() == Added(old(history.Entries()), ScanEntry(response.report, url, model, env))
  {
    var report := ScoreUrl(history, url, model, env);
    response := Ok(report);
  }

  /** The JSON handler: a body without `url`, or with an empty one, is refused with status
      400 before anything is extracted or logged. */
  method ApiAnalyze(history: HistoryManager, body: Option<string>, model: Classifier, env: Environment)
    returns (response: Response)
    modifies history
    ensures response.Status() == 400 <==> body.GetOr("") == ""
    ensures body.GetOr("") == "" ==> response == BadRequest("URL is required") && history.store == old(history.store)
    ensures body.GetOr("") != "" ==> response.Ok? && Scored(response.report, body.value, model, env)
    ensures body.GetOr("") != "" ==>
              history.Entries() == Added(old(history.Entries()), ScanEntry(response.report, body.value, model, env))
  {
    var url := body.GetOr("");
    if url == "" {
      return BadRequest("URL is required");
    }
    var report := ScoreUrl(history, url, model, env);
    response := Ok(report);
  }
}
