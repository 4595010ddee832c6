/** The two `convert` endpoints. `app/api/convert.tsx` validates the request,
    loads the subscription and converts it; `app/api/convert/route.tsx` does the
    same and filters the records by name first. Fetching and YAML parsing are
    outside the model: their outcome is a parameter. */
module Handlers {
  import opened Wrappers
  import opened Text
  import opened Proxies
  import opened NameFilter
  import opened Surge
  import opened SurgeOutput
  import Seqs

  /** Why loading the subscription failed: the HTTP fetch, or the YAML parse. */
  datatype LoadError = FetchFailed(message: string) | ParseFailed(message: string)

  /** The error responses of the handlers. */
  datatype Failure = MissingUrl | Unfetchable(message: string) | Unparsable(message: string) | NoProxies

  /** A successful response body: the (filtered) records serialised back to YAML
      under `proxies`, or the Surge text. */
  datatype Output = ClashYaml(proxies: seq<Proxy>) | SurgeText(body: string)

  /** The HTTP status of an error: 500 for a document that does not parse, 400 for
      every other error. */
  function Status(f: Failure): (code: nat)
    ensures code == 400 || code == 500
    ensures code == 500 <==> f.Unparsable?
  {
    match f
    case MissingUrl => 400
    case Unfetchable(_) => 400
    case Unparsable(_) => 500
    case NoProxies => 400
  }

  /** The text of an error response. */
  function Message(f: Failure): string
  {
    match f
    case MissingUrl => "Missing parameter: url"
    case Unfetchable(m) => "Unable to get url, error: " + m
    case Unparsable(m) => "Unable parse config, error: " + m
    case NoProxies => "No proxies in this config"
  }

  /** The first and eighth characters of each error text, which differ between
      the kinds of error. */
  function Mark(f: Failure): (char, char)
  {
    match f
    case MissingUrl => ('M', ' ')
    case Unfetchable(_) => ('U', 't')
    case Unparsable(_) => ('U', 'p')
    case NoProxies => ('N', 'i')
  }

  lemma {:induction false} MessageMark(f: Failure)
    ensures |Message(f)| > 7 && Message(f)[0] == Mark(f).0 && Message(f)[7] == Mark(f).1
  {
  }

  /** Distinct errors answer with distinct texts: the text alone tells which
      check failed, and for a load error, with which message. */
  lemma {:induction false} MessageDeterminesFailure(f: Failure, g: Failure)
    requires Message(f) == Message(g)
    ensures f == g
  {
    MessageMark(f);
    MessageMark(g);
    if f.Unfetchable? && g.Unfetchable? {
      var prefix := "Unable to get url, error: ";
      assert Message(f)[|prefix|..] == f.message;
      assert Message(g)[|prefix|..] == g.message;
    } else if f.Unparsable? && g.Unparsable? {
      var prefix := "Unable parse config, error: ";
      assert Message(f)[|prefix|..] == f.message;
      assert Message(g)[|prefix|..] == g.message;
    }
  }

  /** Only the exact target `surge` selects the Surge output. */
  predicate IsSurge(target: Option<string>)
  {
    target == Some("surge")
  }

  /** A failed fetch answers with the transport's message, a failed parse with the
      parser's; only the latter is a server error. */
  function LoadFailure(e: LoadError): (f: Failure)
    ensures e.FetchFailed? ==> f == Unfetchable(e.message) && Status(f) == 400
    ensures e.ParseFailed? ==> f == Unparsable(e.message) && Status(f) == 500
  {
    match e
    case FetchFailed(m) => Unfetchable(m)
    case ParseFailed(m) => Unparsable(m)
  }

  /** The `convert.tsx` handler: the URL must be present and non-empty, the
      subscription must load and carry a `proxies` key; then the records are passed
      through unchanged, or translated when the target is `surge`. */
  function Convert(url: Option<string>, loaded: Result<Config, LoadError>, target: Option<string>): (r: Result<Output, Failure>)
    ensures r.Failure? <==> !NonEmpty(url) || loaded.Failure? || loaded.value.proxies.None?
    ensures r == Failure(MissingUrl) <==> !NonEmpty(url)
    ensures r == Failure(NoProxies) <==> NonEmpty(url) && loaded.Success? && loaded.value.proxies.None?
    ensures NonEmpty(url) && loaded.Failure? ==> r == Failure(LoadFailure(loaded.error))
    ensures r.Success? && !IsSurge(target) ==> r.value == ClashYaml(loaded.value.proxies.value)
    ensures r.Success? && IsSurge(target) ==> r.value == SurgeText(SurgeBody(loaded.value.proxies.value))
  {
    if !NonEmpty(url) then Failure(MissingUrl)
    else if loaded.Failure? then Failure(LoadFailure(loaded.error))
    else if loaded.value.proxies.None? then Failure(NoProxies)
    else if IsSurge(target) then Success(SurgeText(SurgeBody(loaded.value.proxies.value)))
    else Success(ClashYaml(loaded.value.proxies.value))
  }

  /** A loaded document with its `proxies` replaced by the records the name filter keeps. */
  function Narrow(loaded: Result<Config, LoadError>, rule: FilterRule, matches: Matcher): Result<Config, LoadError>
  {
    if loaded.Success? && loaded.value.proxies.Some?
    then Success(Config(Some(Filtered(loaded.value.proxies.value, rule, matches))))
    else loaded
  }

  /** The `route.tsx` handler. It answers exactly what `convert.tsx` answers for
      the same document with `proxies` narrowed by the name filter. */
  method HandleRoute(url: Option<string>, loaded: Result<Config, LoadError>, target: Option<string>,
                     rule: FilterRule, matches: Matcher)
    returns (r: Result<Output, Failure>)
    ensures r == Convert(url, Narrow(loaded, rule, matches), target)
  {
    if !NonEmpty(url) {
      return Failure(MissingUrl);
    }
    if loaded.Failure? {
      return Failure(LoadFailure(loaded.error));
    }
    var configData := loaded.value;
    if configData.proxies.None? {
      return Failure(NoProxies);
    }
    var filteredProxies := FilterProxies(configData.proxies.value, rule, matches);
    configData := configData.(proxies := Some(filteredProxies));
    if IsSurge(target) {
      return Success(SurgeText(SurgeBody(configData.proxies.value)));
    } else {
      return Success(ClashYaml(configData.proxies.value));
    }
  }

  /** The name filter neither causes nor hides an error: the route fails exactly
      when `convert.tsx` fails on the unfiltered document, with the same error. A
      filter that keeps nothing is a success with nothing in it. */
  lemma {:induction false} RouteFailsAsConvert(url: Option<string>, loaded: Result<Config, LoadError>,
                                               target: Option<string>, rule: FilterRule, matches: Matcher)
    ensures Convert(url, Narrow(loaded, rule, matches), target).Failure? <==> Convert(url, loaded, target).Failure?
    ensures Convert(url, loaded, target).Failure? ==>
      Convert(url, Narrow(loaded, rule, matches), target) == Convert(url, loaded, target)
  {
  }

  /** With neither `include` nor `exclude` (absent or empty) and every record
      named, the route answers exactly what `convert.tsx` answers. */
  lemma {:induction false} RouteWithoutRuleIsConvert(url: Option<string>, loaded: Result<Config, LoadError>,
                                                     target: Option<string>, rule: FilterRule, matches: Matcher)
    requires !NonEmpty(rule.includePattern) && !NonEmpty(rule.excludePattern)
    requires loaded.Success? && loaded.value.proxies.Some? ==>
      forall p :: p in loaded.value.proxies.value ==> NonEmpty(p.name)
    ensures Convert(url, Narrow(loaded, rule, matches), target) == Convert(url, loaded, target)
  {
    if loaded.Success? && loaded.value.proxies.Some? {
      NoRuleKeepsNamed(loaded.value.proxies.value, rule, matches);
      assert Narrow(loaded, rule, matches) == loaded;
    }
  }

  /** For a target other than `surge` the route returns a sub-list of the records:
      same order, nothing added, nothing rewritten. */
  lemma {:induction false} RoutePassThroughKeepsOrder(url: Option<string>, loaded: Result<Config, LoadError>,
                                                      target: Option<string>, rule: FilterRule, matches: Matcher)
    requires !IsSurge(target)
    requires Convert(url, Narrow(loaded, rule, matches), target).Success?
    ensures Seqs.IsSubseq(Convert(url, Narrow(loaded, rule, matches), target).value.proxies,
                          loaded.value.proxies.value)
  {
    Seqs.FilterIsSubseq(loaded.value.proxies.value, (q: Proxy) => Keep(q, rule, matches));
  }

  /** Every line of a Surge answer from the route comes from a record the name
      filter kept, and every kept record that Surge can express contributes its line. */
  lemma {:induction false} RouteSurgeLines(url: Option<string>, loaded: Result<Config, LoadError>,
                                           rule: FilterRule, matches: Matcher, l: string)
    requires Convert(url, Narrow(loaded, rule, matches), Some("surge")).Success?
    ensures l in SurgeLines(Filtered(loaded.value.proxies.value, rule, matches)) <==>
      exists p :: p in loaded.value.proxies.value && Keep(p, rule, matches) && SurgeLine(p) == Some(l)
  {
    var ps := loaded.value.proxies.value;
    SurgeLinesMembers(Filtered(ps, rule, matches), l);
    forall p
      ensures p in Filtered(ps, rule, matches) <==> p in ps && Keep(p, rule, matches)
    {
      Seqs.FilterMembership(ps, (q: Proxy) => Keep(q, rule, matches), p);
    }
  }
}
