# Phishing URL detector, modelled in Dafny

The detector scores a URL for phishing risk. It lower-cases the URL and prefixes `http://`
when needed, splits it with `urlparse`, and builds a vector of 30 numbers: lengths, character
counts, substring flags, three pattern tests, and the results of three network probes (the
WHOIS age of the domain, a TLS handshake, and the links and forms of the fetched page). A
classifier turns the vector into a label and a probability, which `get_risk_level` maps to a
Low, Medium or High band. A Google Safe Browsing lookup adds a reputation verdict that fails
open. The handlers pair the first 18 positions with the 18 feature names and log each scan
to a history of at most 100 entries, most recent first. Training cuts the data rows out of an
ARFF file, maps the label -1 to 0, and makes the name list as long as the importance list.

The model is split into one module per concern:

- `wrappers.dfy` (`Wrappers`): `Option`.
- `text.dfy` (`Text`): the pieces of Python's `str` the code uses (ASCII `lower()`, `in`,
  `count`, `find`, `split`, `strip`, `str(n)`) with their laws.
- `url_split.dfy` (`UrlSplit`): `urlparse` as the component split of section 3 of RFC 3986.
  The scheme follows the syntax of section 3.1. The authority runs from `//` to the first `/`,
  `?` or `#`. The `;params` of the last path segment are split off as `urlparse` does for the
  schemes that use them.
- `feature_extraction.dfy` (`FeatureExtraction`): the normalisation, the 30 features as
  section functions, and the extractor. The extractor is a method that grows the list
  section by section, in the order of the source's comments. It keeps `domain_age` and
  `has_valid_ssl` as locals overwritten on success.
- `safe_browsing.dfy` (`SafeBrowsing`): the request, the decoding of the outcome, and the
  loop that builds the threat list.
- `history.dfy` (`History`): the class `HistoryManager` over the file's content.
- `app.dfy` (`App`): the risk bands, the `features_dict` loop and the two analysis handlers.
- `training.dfy` (`Training`): the `@data` extraction loop, the label remap and the name
  reconciliation.

Python's `s[:n]`, `split`, `find` and `strip` are written out with Python's edge cases. A
negative `limit` in `get_history` drops entries from the end. `find` reports absence, and
`strip()` of a whitespace-only line is empty.

The repository disagrees with itself on the length of the vector. The docstring of
`extract_features` (feature_extraction.py:15) and the code below it give 30 entries. The
training script sets `n_features = 18` with the comment that this matches the extractor
(train_model.py:65). The model follows the extraction code: 30 entries, of which the handlers
name the first 18. The shortener test (feature_extraction.py:44) is modelled as the code
writes it, a substring test of each service against the domain.

## Model

| member | source | states |
|---|---|---|
| Text.ToLower | feature_extraction.py:20 | `lower()` keeps the length and lower-cases each ASCII letter, position by position |
| Text.ToLowerOfLowerCase | feature_extraction.py:20 | lower-casing a string without upper-case letters changes nothing |
| Text.CountDigits | feature_extraction.py:98 | `len(re.findall(r'[0-9]', url))` is 0 exactly when no character of the URL is a digit |
| Text.SplitOn | feature_extraction.py:32 | `s.split(c)` is never empty and no piece holds `c` |
| Text.SplitOnCount | feature_extraction.py:32 | `len(s.split(c))` is one more than the number of `c` in `s` |
| Text.JoinSplitOn | train_model.py:30 | splitting the text at `'\n'` loses nothing: joining the pieces with `'\n'` gives it back |
| Text.Strip | train_model.py:38 | `line.strip()` is no longer than the line and neither starts nor ends with whitespace |
| Text.StripContent | train_model.py:38 | `line.strip()` is the line without a leading and a trailing run of whitespace: some `i` has the result at `line[i:i + len(result)]` with only whitespace before and after |
| Text.StripEmpty | train_model.py:38 | `line.strip()` is empty exactly when the line is all whitespace |
| Text.DecimalRoundTrip | train_model.py:110 | `int(str(n)) == n` for the numbers in the padding names |
| Text.DecimalInjective | train_model.py:110 | different numbers give different decimal renderings |
| UrlSplit.SplitComponents | feature_extraction.py:25 | the `urlsplit` step: the authority holds no `/`, `?` or `#`, the path no `?` or `#`, the query no `#` |
| UrlSplit.RecomposeSplit | feature_extraction.py:25 | the components of the split recompose to the URL, so nothing is lost or reordered |
| UrlSplit.UrlParse | feature_extraction.py:25-26 | the netloc holds no `/`, `?` or `#`; the path holds no `?` or `#`; the query holds no `#`; the path is a prefix of the split's path (params removed) |
| UrlSplit.ParseHierarchical | feature_extraction.py:25-26 | `scheme://host rest` parses to that scheme and that host, and to path `rest` and an empty query when `rest` has no `;?#` |
| UrlSplit.UrlParsePieces | feature_extraction.py:25-26 | the netloc and the path are consecutive pieces of the URL |
| FeatureExtraction.Normalize | feature_extraction.py:20-22 | the normalised URL has no upper-case letter and is at least as long as the input |
| FeatureExtraction.NormalizePrefix | feature_extraction.py:20-22 | the normalised URL starts with `http`; `http://` is added exactly when the lower-cased URL does not start with `http` |
| FeatureExtraction.NormalizeIdempotent | feature_extraction.py:20-22 | normalising twice is normalising once |
| FeatureExtraction.HasIpPrefix | feature_extraction.py:33 | a domain matching `\d{1,3}\.\d{1,3}\.\d{1,3}\.\d{1,3}` at its start begins with a digit and holds at least three dots |
| FeatureExtraction.IpPrefixMatches | feature_extraction.py:33 | `re.match` anchors only the start: any four runs of 1-3 digits joined by `.` match, whatever text follows |
| FeatureExtraction.IpPrefixAnchored | feature_extraction.py:33 | a domain whose first character is not a digit, such as a name before a dotted quad, does not match |
| FeatureExtraction.DottedDigitsDots | feature_extraction.py:33 | a prefix of n dot-separated groups of 1-3 digits holds at least n-1 dots |
| FeatureExtraction.DomainAgeFeature | feature_extraction.py:46-55 | `min(domain_age, 1000)`: the age itself up to 1000, 1000 from there on, 0 when the lookup failed |
| FeatureExtraction.HasCommonTld | feature_extraction.py:97 | the test for a `.` after a non-dot character and before a listed TLD holds exactly when the pattern as written, optional `https?://` and `www.` included, matches from some start |
| FeatureExtraction.QueryParamCount | feature_extraction.py:72 | 0 for an empty query, otherwise one more than the number of `&` |
| FeatureExtraction.ExternalLinkCount | feature_extraction.py:90 | never more than the number of links |
| FeatureExtraction.ExternalLinkCountAppend | feature_extraction.py:90 | the count adds up over concatenated link lists |
| FeatureExtraction.EmptyDomainNoExternalLinks | feature_extraction.py:90 | with an empty domain no link is external, since `'' in href` always holds |
| FeatureExtraction.FeatureVector | feature_extraction.py:12-104 | exactly 30 entries whatever the probes give |
| FeatureExtraction.Features | feature_extraction.py:17-104 | the 30 entries of a normalised, parsed URL, section by section |
| FeatureExtraction.Layout | feature_extraction.py:29-102 | which positions each section occupies: 1-8, 9-10, 11, 12-13, 14-20, 21-24, 25-30 |
| FeatureExtraction.ExtractFeatures | feature_extraction.py:12-104 | the list grown by the extractor's appends is the feature vector of the URL under the probes |
| FeatureExtraction.AppendBasicFeatures | feature_extraction.py:29-36 | appends positions 1-8; `len(domain.split('.')) - 1` is the number of dots of the domain |
| FeatureExtraction.AppendWordFeatures | feature_extraction.py:38-44 | appends positions 9-10 |
| FeatureExtraction.AppendDomainAge | feature_extraction.py:46-55 | the local that starts at 0 and is overwritten on success gives the capped age |
| FeatureExtraction.AppendSslFeatures | feature_extraction.py:57-68 | the flag that starts at 0 and is set only after a handshake on `https` gives position 13 |
| FeatureExtraction.AppendStructureFeatures | feature_extraction.py:70-81 | appends positions 14-20; the inline `split('&')` count equals the query parameter count |
| FeatureExtraction.AppendPageFeatures | feature_extraction.py:83-94 | four appends on a fetched page, `extend([0, 0, 0, 0])` otherwise |
| FeatureExtraction.AppendMoreFeatures | feature_extraction.py:96-102 | appends positions 25-30 |
| FeatureExtraction.DomainAndPathWithinUrl | feature_extraction.py:25-26 | domain and path together are no longer than the URL and hold no more of any character |
| FeatureExtraction.FailedFetchZeros | feature_extraction.py:93-94 | a failed fetch gives exactly `[0, 0, 0, 0]` at positions 21-24 |
| FeatureExtraction.FlagPositions | feature_extraction.py:33-102 | positions 5-10, 12, 13, 24, 25 and 27-30 are 0 or 1; position 20 is 0 |
| FeatureExtraction.DomainPositions | feature_extraction.py:30-102 | position 4 is the dot count of the domain and `len(split('.')) - 1`; position 30 is 1 exactly when it is at least 3; position 28 is 1 exactly when position 2 exceeds 20 |
| FeatureExtraction.IpAddressMultipleSubdomains | feature_extraction.py:33-102 | a dotted-quad domain (position 5) always sets position 30 |
| FeatureExtraction.SslPositions | feature_extraction.py:57-68 | position 13 is at most position 12; position 12 is 1 exactly for `https`; otherwise 13 is 0 and the handshake outcome does not matter |
| FeatureExtraction.DomainAgePosition | feature_extraction.py:46-55 | position 11 is the age up to 1000, 1000 for older domains, and 0 when the lookup failed |
| FeatureExtraction.QueryPosition | feature_extraction.py:72 | position 15 is 0 for an empty query and one more than its `&` count otherwise |
| FeatureExtraction.PagePositions | feature_extraction.py:87-90 | position 22 (external links) is at most position 21 (links) |
| FeatureExtraction.ProbeIndependence | feature_extraction.py:46-94 | positions other than 11, 13 and 21-24 do not depend on the probes |
| FeatureExtraction.LengthBounds | feature_extraction.py:29-71 | domain length plus path length is at most the URL length; the domain's dots are at most the URL's dots |
| FeatureExtraction.NormalizeInvariance | feature_extraction.py:20-26 | a URL and its normalised form have the same vector |
| FeatureExtraction.FeatureNames | feature_extraction.py:107-128 | the name list has 18 entries |
| SafeBrowsing.MakeRequest | safe_browsing.py:19-35 | the request carries the key, goes to the endpoint and lists exactly one threat entry, the URL |
| SafeBrowsing.ThreatOf | safe_browsing.py:43-47 | each threat field is the match's field, or `Unknown` when the match lacks it |
| SafeBrowsing.Verdict | safe_browsing.py:15-58 | unsafe exactly when a key is set and a decoded 200 reply has `matches`; safe implies no threats; unsafe has one threat per match, in order |
| SafeBrowsing.CheckUrlSafety | safe_browsing.py:10-58 | without a key the result is safe with no threats; otherwise the early returns and the threat loop give the verdict of the service's outcome |
| SafeBrowsing.NoKeyIgnoresOutcome | safe_browsing.py:15-17 | without a key every outcome gives the same safe answer |
| SafeBrowsing.EmptyMatchesUnsafe | safe_browsing.py:38-47 | an empty `matches` list gives unsafe with no threats |
| History.Load | history_manager.py:21-25 | a missing or corrupt file reads as the empty history |
| History.Prefix | history_manager.py:52 | `s[:n]` has min(n, len) elements for n >= 0, all but the last -n for n < 0, and is a prefix |
| History.AddedShape | history_manager.py:37-40 | after an insertion the new entry is first, the length is min(old + 1, 100), and the rest is the old list's first min(old, 99) entries |
| History.AddedAllFromEmpty | history_manager.py:37-40 | adding entries to an empty history keeps the last min(n, 100) of them, most recent first |
| History.HundredAndFive | history_manager.py:37-40 | 105 insertions into an empty history leave 100, newest first, the first five dropped |
| History.HistoryManager.constructor | history_manager.py:7-16 | a missing file is created empty; an existing one is kept |
| History.HistoryManager.AddUrl | history_manager.py:18-44 | the stored list becomes the old history (empty if unreadable) with the entry in front, cut to 100 |
| History.HistoryManager.GetHistory | history_manager.py:46-54 | returns `history[:limit]` of the readable history, default limit 50, and writes nothing |
| History.HistoryManager.ClearHistory | history_manager.py:56-60 | the stored list becomes empty, so the next read gives `[]` |
| App.RiskLevelOf | app.py:123-130 | Low exactly below 0.2, Medium exactly on [0.2, 0.6), High exactly from 0.6 |
| App.RiskLevelMonotone | app.py:123-130 | a higher probability never gives a lower band |
| App.FeaturesDict | app.py:48-51 | the `enumerate` loop builds the positional pairing of names and values |
| App.FeaturesDictKeys | app.py:48-51 | the keys are the names at the positions the vector covers |
| App.FeaturesDictValues | app.py:48-51 | with distinct names, name i is bound to entry i |
| App.FeaturesDictSize | app.py:48-51 | with distinct names there are min(#names, #values) keys |
| App.FeatureNamesDistinct | feature_extraction.py:109-128 | the 18 names are pairwise distinct |
| App.ReportFeaturesLabels | app.py:103-106 | the report has 18 features bound to positions 1-18; the names External Link Count, Form Count and Has Login Form hold the counts of `?`, `=` and `%` |
| App.ScoreUrl | app.py:36-64 | the report is `Scored`: the classifier's label and `probability * 100` on the vector, the band text of the raw probability, the features paired with the names, and the reputation verdict; the history gains one entry with the URL, label, raw probability and features |
| App.ScoredUnique | app.py:56-64 | the scored report is determined by the URL, the classifier and the environment |
| App.Analyze | app.py:32-66 | the form handler answers every URL with the `Scored` report and logs its entry |
| App.ApiAnalyze | app.py:82-121 | a missing or empty URL gives status 400 and leaves the history unchanged; any other URL gets the `Scored` report and one new history entry |
| Training.HeaderIsLowerPrefix | train_model.py:35 | the character-by-character header test is `line.lower().startswith('@data')` |
| Training.FirstHeader | train_model.py:34-37 | the first line starting with `@data` in any case, or none |
| Training.Rows | train_model.py:38-39 | the kept lines are data rows: not headers, not blank |
| Training.RowsCount | train_model.py:38-39 | as many lines are kept as there are data rows, so with `RowsSubsequence` the kept lines are exactly the data rows in order |
| Training.RowsMember | train_model.py:38-39 | every data row is among the kept lines |
| Training.DataLines | train_model.py:34-39 | the flag loop gives the non-blank, non-header lines after the first header |
| Training.ExtractDataLines | train_model.py:30-39 | the same over `text.split('\n')` |
| Training.NoHeaderNoRows | train_model.py:31-39 | without a header nothing is extracted |
| Training.RowsSubsequence | train_model.py:34-39 | the kept lines are a subsequence of the lines |
| Training.DataSectionShape | train_model.py:34-39 | the extracted lines are a subsequence of the input; none is a header, even a later `@data` line; each has non-whitespace content; every data row after the first header is extracted |
| Training.DataSectionComplete | train_model.py:34-39 | every line after the first header that is neither a header nor blank is extracted |
| Training.RemapLabels | train_model.py:47 | -1 becomes 0 in the last column; every other value and the shape stay |
| Training.RemapLabelsBinary | train_model.py:45-47 | labels in {-1, 1} become labels in {0, 1} |
| Training.PaddingNamesDistinct | train_model.py:110 | different positions get different `Feature i` names |
| Training.ReconcileNames | train_model.py:106-110 | the names get the importance count's length: a prefix when cut, the originals followed by `Feature i` for each missing i when extended |

## Left out

- Network probes. WHOIS, `datetime.now()`, the socket and TLS handshake, `requests.get` and
  the HTML parser are not modelled. Their outcomes are inputs (`Probes`): an optional age in
  days, a handshake flag, and an optional page of hrefs and forms.
- Partial page fetch. The page probe yields all four values or none. An exception inside
  the page block after one to three appends would make the real list longer than 30.
- Negative domain age. A creation date in the future gives a negative age, which the model
  keeps as the source does.
- `urlsplit` edge cases. The removal of tab, CR and LF, the stripping of leading C0 control
  characters and spaces, and the `ValueError` for malformed IPv6 brackets are not modelled.
- Non-ASCII text. `lower()` is modelled on ASCII letters only, and `\d` in the IP pattern
  matches ASCII digits only. Python's Unicode `lower()` can change the length.
- Regular expressions. They are written as the string predicates they amount to:
  `HasIpPrefix`, `HasCommonTld`, and a substring test for marketing words.
- Machine learning and data handling. scikit-learn, joblib, pandas' CSV parsing of the
  joined lines, the synthetic dataset, the importance sort and the plot are not modelled.
  The classifier is a pair of functions, and the label table is given already parsed as
  integers.
- Floating point. Probabilities are mathematical reals, so `probability * 100` is exact.
- History storage. JSON file I/O and the lock are not modelled; each method runs to
  completion, which is what the lock guarantees. The timestamp is a parameter. A file holding
  JSON that is not a list is not modelled.
- Web plumbing. Flask routing, templates, the `/history`, `/clear_history` and `/about`
  routes are not modelled (the first two call `GetHistory` and `ClearHistory`). Neither are
  the duplicate `/` route and the `streamlit` import. A form without a `url` field is not
  modelled: the handler runs, and its first statement, `request.form['url']`, raises the
  error that Flask answers with 400. A request without a JSON object body is not modelled
  either.
- Reputation service. The HTTP exchange is the `respond` parameter. Replies whose `matches` is
  not a list of objects with string fields are outside the model. For example, `"matches": {}`
  gives unsafe with no threats, and a field holding `null` or a number is copied as it is.
  The `None` body stands only for a body that `response.json()` cannot decode, which raises
  and fails open. The warning prints are not modelled.
- `static/js/main.js`. The browser script only redraws the bands for display.
