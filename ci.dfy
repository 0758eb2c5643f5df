/** The Container Instances scanner: lists the container groups of a
    resource group and emits one result per group. */
module Ci {
  import opened Wrappers
  import opened Azqr
  import opened Paging

  /** `armcontainerinstance.ContainerGroupsClient`: the pages that
      `NewListByResourceGroupPager(resourceGroupName)` yields. */
  datatype ContainerGroupsClient = ContainerGroupsClient(
    listByResourceGroup: string -> seq<PageResult<ArmResource>>)

  /** The outcome of the SDK's client constructor for a configuration. */
  type ClientFactory = ScannerConfig -> Result<ContainerGroupsClient, Error>

  class ContainerInstanceScanner {
    var config: Option<ScannerConfig>
    var instancesClient: Option<ContainerGroupsClient>

    /** A scanner before `Init`: no configuration and no client. */
    constructor ()
      ensures config.None? && instancesClient.None?
    {
      config := None;
      instancesClient := None;
    }

    /** `Init` stores the configuration and the constructed client; it fails
        exactly when the client constructor fails. */
    method Init(config: ScannerConfig, newClient: ClientFactory) returns (err: Option<Error>)
      modifies this
      ensures this.config == Some(config)
      ensures newClient(config).Success? ==>
        instancesClient == Some(newClient(config).value) && err == None
      ensures newClient(config).Failure? ==>
        instancesClient == None && err == Some(newClient(config).error)
    {
      this.config := Some(config);
      match newClient(config) {
        case Success(c) =>
          instancesClient := Some(c);
          err := None;
        case Failure(e) =>
          instancesClient := None;
          err := Some(e);
      }
    }

    /** The pages the client yields for a resource group. */
    function Pages(resourceGroupName: string): seq<PageResult<ArmResource>>
      reads this
      requires instancesClient.Some?
    {
      instancesClient.value.listByResourceGroup(resourceGroupName)
    }

    /** `listInstances`: drains the pager; the first page error aborts the
        listing with no partial result. */
    method ListInstances(resourceGroupName: string) returns (r: Result<seq<ArmResource>, Error>)
      requires config.Some? && instancesClient.Some?
      ensures r == Drain(Pages(resourceGroupName))
    {
      var pages := instancesClient.value.listByResourceGroup(resourceGroupName);
      var apps: seq<ArmResource> := [];
      var i := 0;
      while i < |pages|
        invariant 0 <= i <= |pages|
        invariant Drain(pages[..i]) == Success(apps)
      {
        assert pages[..i + 1][..i] == pages[..i];
        match pages[i] {
          case PageError(e) =>
            DrainFailurePersists(pages, i + 1);
            return Failure(e);
          case Page(values) =>
            apps := apps + values;
        }
        i := i + 1;
      }
      assert pages[..i] == pages;
      return Success(apps);
    }

    /** `Scan`: a listing error is returned as is with no results; otherwise
        one result per listed container group, in listing order, stamped with
        the configured subscription and the given resource group. */
    method Scan(resourceGroupName: string, scanContext: ScanContext, evaluate: Evaluator)
      returns (r: Result<seq<ServiceResult>, Error>)
      requires config.Some? && instancesClient.Some?
      requires Drain(Pages(resourceGroupName)).Success? ==>
        forall x :: x in Drain(Pages(resourceGroupName)).value ==> Stampable(x)
      ensures var listing := Drain(Pages(resourceGroupName));
        && (listing.Failure? ==> r == Failure(listing.error))
        && (listing.Success? ==>
              && r.Success?
              && |r.value| == |listing.value|
              && forall i :: 0 <= i < |r.value| ==>
                   IsRowFor(r.value[i], config.value, resourceGroupName, listing.value[i],
                            evaluate(listing.value[i], scanContext)))
    {
      var instances := ListInstances(resourceGroupName);
      if instances.Failure? {
        return Failure(instances.error);
      }
      var results: seq<ServiceResult> := [];
      for i := 0 to |instances.value|
        invariant |results| == i
        invariant forall j :: 0 <= j < i ==>
          IsRowFor(results[j], config.value, resourceGroupName, instances.value[j],
                   evaluate(instances.value[j], scanContext))
      {
        var instance := instances.value[i];
        assert Stampable(instance);
        var rr := evaluate(instance, scanContext);
        results := results + [ServiceResult(
          config.value.subscriptionId, config.value.subscriptionName, resourceGroupName,
          instance.name.value, instance.resourceType.value, instance.location.value, rr)];
      }
      return Success(results);
    }

    /** The resource type this scanner claims. */
    static function ResourceTypes(): (types: seq<string>)
      ensures types == ["Microsoft.ContainerInstance/containerGroups"]
    {
      ["Microsoft.ContainerInstance/containerGroups"]
    }
  }
}
