/** The Network Security Group scanner: lists every security group of the
    subscription and emits one result per group, taking each group's
    resource group from its own id. */
module Nsg {
  import opened Wrappers
  import opened Azqr
  import opened Paging

  /** `armnetwork.SecurityGroupsClient`: the pages that `NewListAllPager`
      yields for the subscription. */
  datatype SecurityGroupsClient = SecurityGroupsClient(listAll: seq<PageResult<ArmResource>>)

  /** The outcome of the SDK's client constructor for a configuration. */
  type ClientFactory = ScannerConfig -> Result<SecurityGroupsClient, Error>

  /** `azqr.GetResourceGroupFromResourceID`, which is not part of this model. */
  type ResourceGroupOf = string -> string

  class NSGScanner {
    var config: Option<ScannerConfig>
    var client: Option<SecurityGroupsClient>

    /** A scanner before `Init`: no configuration and no client. */
    constructor ()
      ensures config.None? && client.None?
    {
      config := None;
      client := None;
    }

    /** `Init` stores the configuration and the constructed client; it fails
        exactly when the client constructor fails. */
    method Init(config: ScannerConfig, newClient: ClientFactory) returns (err: Option<Error>)
      modifies this
      ensures this.config == Some(config)
      ensures newClient(config).Success? ==>
        client == Some(newClient(config).value) && err == None
      ensures newClient(config).Failure? ==>
        client == None && err == Some(newClient(config).error)
    {
      this.config := Some(config);
      match newClient(config) {
        case Success(c) =>
          client := Some(c);
          err := None;
        case Failure(e) =>
          client := None;
          err := Some(e);
      }
    }

    /** The pages the client yields for the whole subscription. */
    function Pages(): seq<PageResult<ArmResource>>
      reads this
      requires client.Some?
    {
      client.value.listAll
    }

    /** `list`: drains the subscription-wide pager; the first page error
        aborts the listing with no partial result. */
    method List() returns (r: Result<seq<ArmResource>, Error>)
      requires config.Some? && client.Some?
      ensures r == Drain(Pages())
    {
      var pages := client.value.listAll;
      var svcs: seq<ArmResource> := [];
      var i := 0;
      while i < |pages|
        invariant 0 <= i <= |pages|
        invariant Drain(pages[..i]) == Success(svcs)
      {
        assert pages[..i + 1][..i] == pages[..i];
        match pages[i] {
          case PageError(e) =>
            DrainFailurePersists(pages, i + 1);
            return Failure(e);
          case Page(values) =>
            svcs := svcs + values;
        }
        i := i + 1;
      }
      assert pages[..i] == pages;
      return Success(svcs);
    }

    /** `Scan`: a listing error is returned as is with no results; otherwise
        one result per listed security group, in listing order, stamped with
        the configured subscription and the resource group named in the
        group's own id. */
    method Scan(scanContext: ScanContext, evaluate: Evaluator, resourceGroupOf: ResourceGroupOf)
      returns (r: Result<seq<ServiceResult>, Error>)
      requires config.Some? && client.Some?
      requires Drain(Pages()).Success? ==>
        forall x :: x in Drain(Pages()).value ==> Stampable(x) && x.id.Some?
      ensures var listing := Drain(Pages());
        && (listing.Failure? ==> r == Failure(listing.error))
        && (listing.Success? ==>
              && r.Success?
              && |r.value| == |listing.value|
              && forall i :: 0 <= i < |r.value| ==>
                   IsRowFor(r.value[i], config.value, resourceGroupOf(listing.value[i].id.value),
                            listing.value[i], evaluate(listing.value[i], scanContext)))
    {
      var svcs := List();
      if svcs.Failure? {
        return Failure(svcs.error);
      }
      var results: seq<ServiceResult> := [];
      for i := 0 to |svcs.value|
        invariant |results| == i
        invariant forall j :: 0 <= j < i ==>
          IsRowFor(results[j], config.value, resourceGroupOf(svcs.value[j].id.value),
                   svcs.value[j], evaluate(svcs.value[j], scanContext))
      {
        var w := svcs.value[i];
        assert Stampable(w) && w.id.Some?;
        var rr := evaluate(w, scanContext);
        results := results + [ServiceResult(
          config.value.subscriptionId, config.value.subscriptionName, resourceGroupOf(w.id.value),
          w.name.value, w.resourceType.value, w.location.value, rr)];
      }
      return Success(results);
    }

    /** The resource type this scanner claims. */
    static function ResourceTypes(): (types: seq<string>)
      ensures types == ["Microsoft.Network/networkSecurityGroups"]
    {
      ["Microsoft.Network/networkSecurityGroups"]
    }
  }
}
