/** The Virtual Machine Scale Sets scanner: lists the scale sets of a
    resource group and emits one result per scale set. */
module Vmss {
  import opened Wrappers
  import opened Azqr
  import opened Paging

  /** `armcompute.VirtualMachineScaleSetsClient`: the pages that
      `NewListPager(resourceGroupName)` yields. */
  datatype VirtualMachineScaleSetsClient = VirtualMachineScaleSetsClient(
    list: string -> seq<PageResult<ArmResource>>)

  /** The outcome of the SDK's client constructor for a configuration. */
  type ClientFactory = ScannerConfig -> Result<VirtualMachineScaleSetsClient, Error>

  class VirtualMachineScaleSetScanner {
    var config: Option<ScannerConfig>
    var client: Option<VirtualMachineScaleSetsClient>

    /** A scanner before `Init`: no configuration and no client. */
    constructor ()
      ensures config.None? && client.None?
    {
      config := None;
      client := None;
    }

    /** `Init` stores the configuration and the constructed client; it fails
        exactly when the client constructor fails. */
    method Init(config: ScannerConfig, newClient: ClientFactory) returns (err: Option<Error>)
      modifies this
      ensures this.config == Some(config)
      ensures newClient(config).Success? ==>
        client == Some(newClient(config).value) && err == None
      ensures newClient(config).Failure? ==>
        client == None && err == Some(newClient(config).error)
    {
      this.config := Some(config);
      match newClient(config) {
        case Success(c) =>
          client := Some(c);
          err := None;
        case Failure(e) =>
          client := None;
          err := Some(e);
      }
    }

    /** The pages the client yields for a resource group. */
    function Pages(resourceGroupName: string): seq<PageResult<ArmResource>>
      reads this
      requires client.Some?
    {
      client.value.list(resourceGroupName)
    }

    /** `list`: drains the pager; the first page error aborts the listing
        with no partial result. */
    method List(resourceGroupName: string) returns (r: Result<seq<ArmResource>, Error>)
      requires config.Some? && client.Some?
      ensures r == Drain(Pages(resourceGroupName))
    {
      var pages := client.value.list(resourceGroupName);
      var vmss: seq<ArmResource> := [];
      var i := 0;
      while i < |pages|
        invariant 0 <= i <= |pages|
        invariant Drain(pages[..i]) == Success(vmss)
      {
        assert pages[..i + 1][..i] == pages[..i];
        match pages[i] {
          case PageError(e) =>
            DrainFailurePersists(pages, i + 1);
            return Failure(e);
          case Page(values) =>
            vmss := vmss + values;
        }
        i := i + 1;
      }
      assert pages[..i] == pages;
      return Success(vmss);
    }

    /** `Scan`: a listing error is returned as is with no results; otherwise
        one result per listed scale set, in listing order, stamped with
        the configured subscription and the given resource group. */
    method Scan(resourceGroupName: string, scanContext: ScanContext, evaluate: Evaluator)
      returns (r: Result<seq<ServiceResult>, Error>)
      requires config.Some? && client.Some?
      requires Drain(Pages(resourceGroupName)).Success? ==>
        forall x :: x in Drain(Pages(resourceGroupName)).value ==> Stampable(x)
      ensures var listing := Drain(Pages(resourceGroupName));
        && (listing.Failure? ==> r == Failure(listing.error))
        && (listing.Success? ==>
              && r.Success?
              && |r.value| == |listing.value|
              && forall i :: 0 <= i < |r.value| ==>
                   IsRowFor(r.value[i], config.value, resourceGroupName, listing.value[i],
                            evaluate(listing.value[i], scanContext)))
    {
      var vmss := List(resourceGroupName);
      if vmss.Failure? {
        return Failure(vmss.error);
      }
      var results: seq<ServiceResult> := [];
      for i := 0 to |vmss.value|
        invariant |results| == i
        invariant forall j :: 0 <= j < i ==>
          IsRowFor(results[j], config.value, resourceGroupName, vmss.value[j],
                   evaluate(vmss.value[j], scanContext))
      {
        var w := vmss.value[i];
        assert Stampable(w);
        var rr := evaluate(w, scanContext);
        results := results + [ServiceResult(
          config.value.subscriptionId, config.value.subscriptionName, resourceGroupName,
          w.name.value, w.resourceType.value, w.location.value, rr)];
      }
      return Success(results);
    }

    /** The resource type this scanner claims. */
    static function ResourceTypes(): (types: seq<string>)
      ensures types == ["Microsoft.Compute/virtualMachineScaleSets"]
    {
      ["Microsoft.Compute/virtualMachineScaleSets"]
    }
  }
}
