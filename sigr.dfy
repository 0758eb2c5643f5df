/** The SignalR scanner: lists the SignalR services of a resource group and
    emits one result per service. */
module Sigr {
  import opened Wrappers
  import opened Azqr
  import opened Paging

  /** `armsignalr.Client`: the pages that
      `NewListByResourceGroupPager(resourceGroupName)` yields. */
  datatype SignalRClient = SignalRClient(
    listByResourceGroup: string -> seq<PageResult<ArmResource>>)

  /** The outcome of the SDK's client constructor for a configuration. */
  type ClientFactory = ScannerConfig -> Result<SignalRClient, Error>

  class SignalRScanner {
    var config: Option<ScannerConfig>
    var signalrClient: Option<SignalRClient>

    /** A scanner before `Init`: no configuration and no client. */
    constructor ()
      ensures config.None? && signalrClient.None?
    {
      config := None;
      signalrClient := None;
    }

    /** `Init` stores the configuration and the constructed client; it fails
        exactly when the client constructor fails. */
    method Init(config: ScannerConfig, newClient: ClientFactory) returns (err: Option<Error>)
      modifies this
      ensures this.config == Some(config)
      ensures newClient(config).Success? ==>
        signalrClient == Some(newClient(config).value) && err == None
      ensures newClient(config).Failure? ==>
        signalrClient == None && err == Some(newClient(config).error)
    {
      this.config := Some(config);
      match newClient(config) {
        case Success(c) =>
          signalrClient := Some(c);
          err := None;
        case Failure(e) =>
          signalrClient := None;
          err := Some(e);
      }
    }

    /** The pages the client yields for a resource group. */
    function Pages(resourceGroupName: string): seq<PageResult<ArmResource>>
      reads this
      requires signalrClient.Some?
    {
      signalrClient.value.listByResourceGroup(resourceGroupName)
    }

    /** `listSignalR`: drains the pager; the first page error aborts the
        listing with no partial result. */
    method ListSignalR(resourceGroupName: string) returns (r: Result<seq<ArmResource>, Error>)
      requires config.Some? && signalrClient.Some?
      ensures r == Drain(Pages(resourceGroupName))
    {
      var pages := signalrClient.value.listByResourceGroup(resourceGroupName);
      var signalrs: seq<ArmResource> := [];
      var i := 0;
      while i < |pages|
        invariant 0 <= i <= |pages|
        invariant Drain(pages[..i]) == Success(signalrs)
      {
        assert pages[..i + 1][..i] == pages[..i];
        match pages[i] {
          case PageError(e) =>
            DrainFailurePersists(pages, i + 1);
            return Failure(e);
          case Page(values) =>
            signalrs := signalrs + values;
        }
        i := i + 1;
      }
      assert pages[..i] == pages;
      return Success(signalrs);
    }

    /** `Scan`: a listing error is returned as is with no results; otherwise
        one result per listed SignalR service, in listing order, stamped with
        the configured subscription and the given resource group. */
    method Scan(resourceGroupName: string, scanContext: ScanContext, evaluate: Evaluator)
      returns (r: Result<seq<ServiceResult>, Error>)
      requires config.Some? && signalrClient.Some?
      requires Drain(Pages(resourceGroupName)).Success? ==>
        forall x :: x in Drain(Pages(resourceGroupName)).value ==> Stampable(x)
      ensures var listing := Drain(Pages(resourceGroupName));
        && (listing.Failure? ==> r == Failure(listing.error))
        && (listing.Success? ==>
              && r.Success?
              && |r.value| == |listing.value|
              && forall i :: 0 <= i < |r.value| ==>
                   IsRowFor(r.value[i], config.value, resourceGroupName, listing.value[i],
                            evaluate(listing.value[i], scanContext)))
    {
      var signalr := ListSignalR(resourceGroupName);
      if signalr.Failure? {
        return Failure(signalr.error);
      }
      var results: seq<ServiceResult> := [];
      for i := 0 to |signalr.value|
        invariant |results| == i
        invariant forall j :: 0 <= j < i ==>
          IsRowFor(results[j], config.value, resourceGroupName, signalr.value[j],
                   evaluate(signalr.value[j], scanContext))
      {
        var service := signalr.value[i];
        assert Stampable(service);
        var rr := evaluate(service, scanContext);
        results := results + [ServiceResult(
          config.value.subscriptionId, config.value.subscriptionName, resourceGroupName,
          service.name.value, service.resourceType.value, service.location.value, rr)];
      }
      return Success(results);
    }

    /** The resource type this scanner claims. */
    static function ResourceTypes(): (types: seq<string>)
      ensures types == ["Microsoft.SignalRService/SignalR"]
    {
      ["Microsoft.SignalRService/SignalR"]
    }
  }
}
