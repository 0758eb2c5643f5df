/** The Azure Advisor scanner: lists the subscription's Advisor
    recommendations and turns each into a flat result of strings. */
module Advisor {
  import opened Wrappers
  import opened Azqr
  import opened Paging

  datatype ShortDescription = ShortDescription(problem: Option<string>, solution: Option<string>)

  /** The optional fields of an Advisor recommendation that the scanner
      copies. */
  datatype RecommendationProperties = RecommendationProperties(
    impactedValue: Option<string>,
    category: Option<string>,
    shortDescription: Option<ShortDescription>,
    impactedField: Option<string>,
    potentialBenefits: Option<string>,
    risk: Option<string>,
    learnMoreLink: Option<string>)

  /** `armadvisor.ResourceRecommendationBase`. */
  datatype ResourceRecommendationBase = ResourceRecommendationBase(
    properties: Option<RecommendationProperties>)

  /** `AdvisorResult`: every field is a plain string. */
  datatype AdvisorResult = AdvisorResult(
    subscriptionId: string,
    subscriptionName: string,
    name: string,
    resultType: string,
    category: string,
    description: string,
    potentialBenefits: string,
    risk: string,
    learnMoreLink: string)

  /** `armadvisor.RecommendationsClient`: the pages that `NewListPager`
      yields. */
  datatype RecommendationsClient = RecommendationsClient(list: seq<PageResult<ResourceRecommendationBase>>)

  /** The outcome of the SDK's client constructor for a configuration. */
  type ClientFactory = ScannerConfig -> Result<RecommendationsClient, Error>

  /** `azqr.ShouldSkipError`, which is not part of this model. */
  type SkipClassifier = Error -> bool

  /** What `Scan` ends with: its results, or the error it terminates the
      process with (`log.Fatal`). */
  datatype ScanOutcome = Completed(results: seq<AdvisorResult>) | Terminated(error: Error)

  /** The problem statement, present only when both the short description
      and its problem are. */
  predicate HasProblem(p: RecommendationProperties) {
    p.shortDescription.Some? && p.shortDescription.value.problem.Some?
  }

  /** One recommendation as a result: starts from the subscription stamp and
      fills each field whose source is present. */
  function ToAdvisorResult(config: ScannerConfig, rec: ResourceRecommendationBase): (ar: AdvisorResult)
    requires rec.properties.Some?
    ensures ar.subscriptionId == config.subscriptionId
    ensures ar.subscriptionName == config.subscriptionName
    ensures var p := rec.properties.value;
      && ar.name == p.impactedValue.GetOr("")
      && ar.category == p.category.GetOr("")
      && ar.resultType == p.impactedField.GetOr("")
      && ar.potentialBenefits == p.potentialBenefits.GetOr("")
      && ar.risk == p.risk.GetOr("")
      && ar.learnMoreLink == p.learnMoreLink.GetOr("")
      && (HasProblem(p) ==> ar.description == p.shortDescription.value.problem.value)
      && (!HasProblem(p) ==> ar.description == "")
  {
    var p := rec.properties.value;
    var ar := AdvisorResult(config.subscriptionId, config.subscriptionName, "", "", "", "", "", "", "");
    var ar := if p.impactedValue.Some? then ar.(name := p.impactedValue.value) else ar;
    var ar := if p.category.Some? then ar.(category := p.category.value) else ar;
    var ar := if HasProblem(p) then ar.(description := p.shortDescription.value.problem.value) else ar;
    var ar := if p.impactedField.Some? then ar.(resultType := p.impactedField.value) else ar;
    var ar := if p.potentialBenefits.Some? then ar.(potentialBenefits := p.potentialBenefits.value) else ar;
    var ar := if p.risk.Some? then ar.(risk := p.risk.value) else ar;
    var ar := if p.learnMoreLink.Some? then ar.(learnMoreLink := p.learnMoreLink.value) else ar;
    ar
  }

  predicate AllHaveProperties(recs: seq<ResourceRecommendationBase>) {
    forall x :: x in recs ==> x.properties.Some?
  }

  /** The results for a listing, one per recommendation and in the same
      order. */
  function ToAdvisorResults(config: ScannerConfig, recs: seq<ResourceRecommendationBase>): (rs: seq<AdvisorResult>)
    requires AllHaveProperties(recs)
    ensures |rs| == |recs|
    ensures forall i :: 0 <= i < |recs| ==> rs[i] == ToAdvisorResult(config, recs[i])
  {
    if |recs| == 0 then []
    else ToAdvisorResults(config, recs[..|recs| - 1]) + [ToAdvisorResult(config, recs[|recs| - 1])]
  }

  /** The listing can be read: when it succeeds, every recommendation has
      its properties (they are dereferenced). */
  predicate Readable(pages: seq<PageResult<ResourceRecommendationBase>>) {
    Drain(pages).Success? ==> AllHaveProperties(Drain(pages).value)
  }

  /** What `ListRecommendations` returns for the pages of a listing. */
  function Listed(config: ScannerConfig, pages: seq<PageResult<ResourceRecommendationBase>>): (r: Result<seq<AdvisorResult>, Error>)
    requires Readable(pages)
    ensures r.Failure? <==> Drain(pages).Failure?
    ensures r.Failure? ==> r.error == Drain(pages).error
    ensures r.Success? ==>
      && |r.value| == |Drain(pages).value|
      && forall i :: 0 <= i < |r.value| ==> r.value[i] == ToAdvisorResult(config, Drain(pages).value[i])
  {
    match Drain(pages)
    case Failure(e) => Failure(e)
    case Success(recs) => Success(ToAdvisorResults(config, recs))
  }

  class AdvisorScanner {
    var config: Option<ScannerConfig>
    var client: Option<RecommendationsClient>

    /** A scanner before `Init`: no configuration and no client. */
    constructor ()
      ensures config.None? && client.None?
    {
      config := None;
      client := None;
    }

    /** `Init` stores the configuration and the constructed client; it fails
        exactly when the client constructor fails. */
    method Init(config: ScannerConfig, newClient: ClientFactory) returns (err: Option<Error>)
      modifies this
      ensures this.config == Some(config)
      ensures newClient(config).Success? ==>
        client == Some(newClient(config).value) && err == None
      ensures newClient(config).Failure? ==>
        client == None && err == Some(newClient(config).error)
    {
      this.config := Some(config);
      match newClient(config) {
        case Success(c) =>
          client := Some(c);
          err := None;
        case Failure(e) =>
          client := None;
          err := Some(e);
      }
    }

    /** `ListRecommendations`: a page error is returned with no partial
        results; otherwise one result per fetched recommendation, in page
        order, stamped with the configured subscription. */
    method ListRecommendations() returns (r: Result<seq<AdvisorResult>, Error>)
      requires config.Some? && client.Some? && Readable(client.value.list)
      ensures var listing := Drain(client.value.list);
        && (listing.Failure? ==> r == Failure(listing.error))
        && (listing.Success? ==>
              && r.Success?
              && |r.value| == |listing.value|
              && forall i :: 0 <= i < |r.value| ==> r.value[i] == ToAdvisorResult(config.value, listing.value[i]))
    {
      var pages := client.value.list;
      var recommendations: seq<ResourceRecommendationBase> := [];
      var i := 0;
      while i < |pages|
        invariant 0 <= i <= |pages|
        invariant Drain(pages[..i]) == Success(recommendations)
      {
        assert pages[..i + 1][..i] == pages[..i];
        match pages[i] {
          case PageError(e) =>
            DrainFailurePersists(pages, i + 1);
            return Failure(e);
          case Page(values) =>
            recommendations := recommendations + values;
        }
        i := i + 1;
      }
      assert pages[..i] == pages;

      var returnRecommendations: seq<AdvisorResult> := [];
      for j := 0 to |recommendations|
        invariant |returnRecommendations| == j
        invariant forall k :: 0 <= k < j ==>
          returnRecommendations[k] == ToAdvisorResult(config.value, recommendations[k])
      {
        var ar := ToAdvisorResult(config.value, recommendations[j]);
        returnRecommendations := returnRecommendations + [ar];
      }
      return Success(returnRecommendations);
    }

    /** `Scan`: when `scan` is off, nothing is initialised and the result is
        empty. Otherwise a failed `Init` terminates; a listing error the
        classifier calls skippable gives no results, any other terminates. */
    method Scan(scan: bool, config: ScannerConfig, newClient: ClientFactory, shouldSkip: SkipClassifier)
      returns (out: ScanOutcome)
      requires scan && newClient(config).Success? ==> Readable(newClient(config).value.list)
      modifies this
      ensures !scan ==> out == Completed([]) && this.config == old(this.config) && client == old(client)
      ensures scan ==> this.config == Some(config)
      ensures scan && newClient(config).Failure? ==>
        client == None && out == Terminated(newClient(config).error)
      ensures scan && newClient(config).Success? ==> client == Some(newClient(config).value)
      ensures scan && newClient(config).Success? ==>
        var pages := newClient(config).value.list;
        match Listed(config, pages)
        case Success(results) => out == Completed(results)
        case Failure(e) => out == if shouldSkip(e) then Completed([]) else Terminated(e)
    {
      var advisorResults: seq<AdvisorResult> := [];
      if scan {
        var err := Init(config, newClient);
        if err.Some? {
          return Terminated(err.value);
        }
        var rec := ListRecommendations();
        var listed: seq<AdvisorResult>;
        if rec.Failure? {
          if shouldSkip(rec.error) {
            listed := [];
          } else {
            return Terminated(rec.error);
          }
        } else {
          listed := rec.value;
        }
        advisorResults := advisorResults + listed;
      }
      return Completed(advisorResults);
    }
  }
}
