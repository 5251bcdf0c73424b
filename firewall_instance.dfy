/**
  The `aviatrix_firewall_instance` resource: a firewall instance launched in a
  FireNet VPC. Its adapter validates the zone against the VPC's cloud type,
  creates the instance, refreshes the attributes from the controller's record
  under per-field merge rules (Read) and deletes the instance by VPC and
  instance ID.
*/
module FirewallInstanceResource {
  import opened Wrappers
  import opened Remote

  /** A cloud type code as `GetVpcCloudTypeById` reports it. */
  type CloudType = int

  /** `goaviatrix.AZURE`; the model depends only on its being one fixed code. */
  const AZURE: CloudType := 8

  /** How the controller names the Azure vendor, and its "no zone" placeholder. */
  const AzureArm := "Azure ARM"
  const AvailabilitySet := "AvailabilitySet"

  /** `goaviatrix.FirewallInstance`, the request and reply record of the client. */
  datatype FirewallInstance = FirewallInstance(
    vpcId: string,
    gwName: string,
    firewallName: string,
    firewallImage: string,
    firewallImageVersion: string,
    firewallSize: string,
    egressSubnet: string,
    managementSubnet: string,
    keyName: string,
    iamRole: string,
    bootstrapBucketName: string,
    username: string,
    password: string,
    instanceId: string,
    availabilityZone: string,
    cloudVendor: string,
    lanInterface: string,
    managementInterface: string,
    egressInterface: string,
    managementPublicIp: string)

  /** The Go zero value of the record: what a struct literal leaves in the fields it does not name. */
  const Blank := FirewallInstance("", "", "", "", "", "", "", "", "", "", "", "", "", "", "", "", "", "", "", "")

  /** The resource's attributes as `d.Get` returns them (an unset string is ""). */
  datatype Attributes = Attributes(
    vpcId: string,
    firenetGwName: string,
    firewallName: string,
    firewallImage: string,
    firewallSize: string,
    egressSubnet: string,
    managementSubnet: string,
    firewallImageVersion: string,
    keyName: string,
    iamRole: string,
    bootstrapBucketName: string,
    username: string,
    password: string,
    zone: string,
    instanceId: string,
    lanInterface: string,
    managementInterface: string,
    egressInterface: string,
    publicIp: string)

  /** Which `return fmt.Errorf(...)` of the adapter was taken. */
  datatype Error =
    | VpcNotFound
    | CloudTypeUnavailable
    | ZoneOnlyForAzure
    | InstanceInfoNotFound
    | CreateFailed
    | LookupFailed
    | DeleteFailed

  /** What a Read leaves behind: its error, the Id and the attributes. */
  datatype ReadResult = ReadResult(err: Option<Error>, id: string, attrs: Attributes)

  /** A subnet with the zone encoded into it, as Create sends it when a zone is given. */
  function ZoneSubnet(subnet: string, zone: string): string {
    subnet + "~~" + zone + "~~"
  }

  /** The subnet a zone-encoded subnet was made from, if it carries that zone. */
  function SubnetOfZoneSubnet(s: string, zone: string): (r: Option<string>)
    ensures r.Some? ==> ZoneSubnet(r.value, zone) == s
  {
    var suffix := "~~" + zone + "~~";
    if |s| >= |suffix| && s[|s| - |suffix|..] == suffix then
      assert s == s[..|s| - |suffix|] + suffix;
      Some(s[..|s| - |suffix|])
    else None
  }

  /** Given the zone, the encoding loses nothing: the subnet can be recovered from it. */
  lemma SubnetOfZoneSubnetRoundTrip(subnet: string, zone: string)
    ensures SubnetOfZoneSubnet(ZoneSubnet(subnet, zone), zone) == Some(subnet)
  {
    var s := ZoneSubnet(subnet, zone);
    var suffix := "~~" + zone + "~~";
    assert s == subnet + suffix;
    assert s[|s| - |suffix|..] == suffix;
    assert s[..|s| - |suffix|] == subnet;
  }

  /** The request carries the attributes Create copies into it, and nothing else but the subnets. */
  predicate CarriesConfiguration(req: FirewallInstance, a: Attributes) {
    && req.vpcId == a.vpcId && req.gwName == a.firenetGwName
    && req.firewallName == a.firewallName && req.firewallImage == a.firewallImage
    && req.firewallImageVersion == a.firewallImageVersion && req.firewallSize == a.firewallSize
    && req.keyName == a.keyName && req.iamRole == a.iamRole
    && req.bootstrapBucketName == a.bootstrapBucketName
    && req.username == a.username && req.password == a.password
    && req.instanceId == "" && req.availabilityZone == "" && req.cloudVendor == ""
    && req.lanInterface == "" && req.managementInterface == "" && req.egressInterface == ""
    && req.managementPublicIp == ""
  }

  /**
    The first half of `resourceAviatrixFirewallInstanceCreate`: given the reply
    of the cloud-type lookup of the VPC, either the error Create returns before
    it calls the client's create, or the request it sends.
  */
  function CreateRequest(a: Attributes, cloudType: Result<CloudType, ClientError>): (r: Result<FirewallInstance, Error>)
    ensures cloudType == Failure(ErrNotFound) ==> r == Failure(VpcNotFound)
    ensures cloudType == Failure(ErrOther) ==> r == Failure(CloudTypeUnavailable)
    ensures cloudType.Success? ==> (r.Failure? <==> a.zone != "" && cloudType.value != AZURE)
    ensures cloudType.Success? && r.Failure? ==> r.error == ZoneOnlyForAzure
    ensures r.Success? ==> CarriesConfiguration(r.value, a)
    ensures r.Success? && a.zone == "" ==>
      r.value.egressSubnet == a.egressSubnet && r.value.managementSubnet == a.managementSubnet
    ensures r.Success? && a.zone != "" ==>
      && r.value.egressSubnet == a.egressSubnet + "~~" + a.zone + "~~"
      && r.value.managementSubnet == a.managementSubnet + "~~" + a.zone + "~~"
  {
    var req := Blank.(
      vpcId := a.vpcId, gwName := a.firenetGwName, firewallName := a.firewallName,
      firewallImage := a.firewallImage, firewallImageVersion := a.firewallImageVersion,
      firewallSize := a.firewallSize, egressSubnet := a.egressSubnet,
      managementSubnet := a.managementSubnet, keyName := a.keyName, iamRole := a.iamRole,
      bootstrapBucketName := a.bootstrapBucketName, username := a.username, password := a.password);
    match cloudType
    case Failure(ErrNotFound) => Failure(VpcNotFound)
    case Failure(ErrOther) => Failure(CloudTypeUnavailable)
    case Success(cloud) =>
      if a.zone != "" && cloud != AZURE then Failure(ZoneOnlyForAzure)
      else if a.zone != "" then
        Success(req.(egressSubnet := ZoneSubnet(req.egressSubnet, a.zone),
                     managementSubnet := ZoneSubnet(req.managementSubnet, a.zone)))
      else Success(req)
  }

  /** The controller reports an Azure availability zone that Read may turn into `zone`. */
  predicate ReportsAzureZone(fI: FirewallInstance) {
    fI.availabilityZone != AvailabilitySet && fI.availabilityZone != "" && fI.cloudVendor == AzureArm
  }

  /**
    The attribute updates of Read once the controller returned `fI`: the
    identifying and computed attributes are always overwritten, the zone and
    the optional attributes follow their own rules, the password is never read back.
  */
  function Refresh(prior: Attributes, isImport: bool, fI: FirewallInstance): (a: Attributes)
    ensures a.vpcId == fI.vpcId && a.firenetGwName == fI.gwName && a.firewallName == fI.firewallName
    ensures a.firewallImage == fI.firewallImage && a.firewallSize == fI.firewallSize
    ensures a.instanceId == fI.instanceId
    ensures a.egressSubnet == fI.egressSubnet && a.managementSubnet == fI.managementSubnet
    ensures a.lanInterface == fI.lanInterface && a.managementInterface == fI.managementInterface
    ensures a.egressInterface == fI.egressInterface && a.publicIp == fI.managementPublicIp
    ensures (prior.zone != "" || isImport) && ReportsAzureZone(fI) ==> a.zone == "az-" + fI.availabilityZone
    ensures !((prior.zone != "" || isImport) && ReportsAzureZone(fI)) ==> a.zone == prior.zone
    ensures a.firewallImageVersion == (if fI.firewallImageVersion != "" then fI.firewallImageVersion else prior.firewallImageVersion)
    ensures a.iamRole == (if fI.iamRole != "" then fI.iamRole else prior.iamRole)
    ensures a.bootstrapBucketName == (if fI.bootstrapBucketName != "" then fI.bootstrapBucketName else prior.bootstrapBucketName)
    ensures a.username == (if fI.username != "" then fI.username else prior.username)
    ensures a.keyName == (if prior.keyName != "" then fI.keyName else "")
    ensures a.password == prior.password
  {
    prior.(
      vpcId := fI.vpcId, firenetGwName := fI.gwName, firewallName := fI.firewallName,
      firewallImage := fI.firewallImage, firewallSize := fI.firewallSize,
      instanceId := fI.instanceId, egressSubnet := fI.egressSubnet,
      managementSubnet := fI.managementSubnet,
      zone := ZoneAfterRead(prior.zone, isImport, fI),
      lanInterface := fI.lanInterface, managementInterface := fI.managementInterface,
      egressInterface := fI.egressInterface, publicIp := fI.managementPublicIp,
      firewallImageVersion := RemoteIfSet(prior.firewallImageVersion, fI.firewallImageVersion),
      keyName := RemoteIfPriorSet(prior.keyName, fI.keyName),
      iamRole := RemoteIfSet(prior.iamRole, fI.iamRole),
      bootstrapBucketName := RemoteIfSet(prior.bootstrapBucketName, fI.bootstrapBucketName),
      username := RemoteIfSet(prior.username, fI.username))
  }

  /** The zone after Read: the controller's Azure zone, if the zone is tracked or this is an import. */
  function ZoneAfterRead(prior: string, isImport: bool, fI: FirewallInstance): string {
    if (prior != "" || isImport) && ReportsAzureZone(fI) then "az-" + fI.availabilityZone else prior
  }

  /** An optional attribute Read overwrites only with a non-empty remote value. */
  function RemoteIfSet(prior: string, remote: string): string {
    if remote != "" then remote else prior
  }

  /** An optional attribute Read overwrites only when the state already has a value for it. */
  function RemoteIfPriorSet(prior: string, remote: string): string {
    if prior != "" then remote else prior
  }

  /**
    `resourceAviatrixFirewallInstanceRead` as a function of the Id, the
    attributes and the client's lookup by instance ID. An empty `instance_id`
    marks an import: it is set to the Id before the lookup, which then uses the Id.
  */
  function ReadSpec(id: string, a: Attributes, get: string -> Result<FirewallInstance, ClientError>): (r: ReadResult)
    ensures var key := if a.instanceId == "" then id else a.instanceId;
      && (get(key) == Failure(ErrNotFound) ==> r == ReadResult(None, "", a.(instanceId := key)))
      && (get(key) == Failure(ErrOther) ==> r == ReadResult(Some(LookupFailed), id, a.(instanceId := key)))
      && (get(key).Success? ==>
            r == ReadResult(None, id, Refresh(a.(instanceId := key), a.instanceId == "", get(key).value)))
    ensures a.instanceId != "" && r.err.Some? ==> r.attrs == a
    ensures r.err.None? || r.err == Some(LookupFailed)
  {
    var isImport := a.instanceId == "";
    var before := if isImport then a.(instanceId := id) else a;
    match get(before.instanceId)
    case Failure(ErrNotFound) => ReadResult(None, "", before)
    case Failure(ErrOther) => ReadResult(Some(LookupFailed), id, before)
    case Success(fI) => ReadResult(None, id, Refresh(before, isImport, fI))
  }

  /** The controller reports back the configuration it was given. */
  predicate Echoes(fI: FirewallInstance, a: Attributes) {
    && fI.vpcId == a.vpcId && fI.gwName == a.firenetGwName && fI.firewallName == a.firewallName
    && fI.firewallImage == a.firewallImage && fI.firewallSize == a.firewallSize
    && fI.egressSubnet == a.egressSubnet && fI.managementSubnet == a.managementSubnet
    && fI.firewallImageVersion == a.firewallImageVersion && fI.keyName == a.keyName
    && fI.iamRole == a.iamRole && fI.bootstrapBucketName == a.bootstrapBucketName
    && fI.username == a.username
    && (ReportsAzureZone(fI) ==> a.zone == "az-" + fI.availabilityZone)
  }

  /** Two attribute sets agree on everything a configuration can set. */
  predicate SameConfiguration(x: Attributes, y: Attributes) {
    && x.vpcId == y.vpcId && x.firenetGwName == y.firenetGwName && x.firewallName == y.firewallName
    && x.firewallImage == y.firewallImage && x.firewallSize == y.firewallSize
    && x.egressSubnet == y.egressSubnet && x.managementSubnet == y.managementSubnet
    && x.firewallImageVersion == y.firewallImageVersion && x.keyName == y.keyName
    && x.iamRole == y.iamRole && x.bootstrapBucketName == y.bootstrapBucketName
    && x.username == y.username && x.password == y.password && x.zone == y.zone
  }

  /**
    Create followed by Read: Create sets the Id to the new instance ID, and the
    Read that follows finds `instance_id` still empty, so it runs as an import
    keyed by that ID. If the controller echoes the configuration, Read keeps it.
  */
  lemma ReadAfterCreate(a: Attributes, instanceId: string, get: string -> Result<FirewallInstance, ClientError>)
    requires a.instanceId == ""
    requires get(instanceId).Success? && Echoes(get(instanceId).value, a)
    ensures var r := ReadSpec(instanceId, a, get);
      && r.err.None? && r.id == instanceId
      && SameConfiguration(r.attrs, a) && r.attrs.instanceId == get(instanceId).value.instanceId
  {
  }

  /**
    A second Read against the same controller changes nothing once the first
    one found the instance, provided the controller answers with the ID it was asked for.
  */
  lemma ReadIsIdempotent(id: string, a: Attributes, get: string -> Result<FirewallInstance, ClientError>)
    requires forall k :: get(k).Success? ==> get(k).value.instanceId == k
    ensures var r := ReadSpec(id, a, get);
      r.err.None? && r.id != "" ==> ReadSpec(r.id, r.attrs, get) == r
  {
  }

  /** `schema.ResourceData` of one firewall instance: its Id and its attributes. */
  class ResourceData {
    var id: string
    var attrs: Attributes

    constructor (id: string, attrs: Attributes)
      ensures this.id == id && this.attrs == attrs
    {
      this.id := id;
      this.attrs := attrs;
    }

    /**
      `resourceAviatrixFirewallInstanceCreate`: looks up the VPC's cloud type,
      validates the zone, sends the request (returned as `request`; None means
      the create call was never made), sets the Id and then runs Read.
    */
    method Create(getVpcCloudType: string -> Result<CloudType, ClientError>,
                  createInstance: FirewallInstance -> Result<string, ClientError>,
                  getInstance: string -> Result<FirewallInstance, ClientError>)
      returns (err: Option<Error>, request: Option<FirewallInstance>)
      modifies this
      ensures var planned := CreateRequest(old(attrs), getVpcCloudType(old(attrs.vpcId)));
        && (planned.Failure? ==>
              err == Some(planned.error) && request.None? && id == old(id) && attrs == old(attrs))
        && (planned.Success? ==> request == Some(planned.value))
        && (planned.Success? && createInstance(planned.value) == Failure(ErrNotFound) ==>
              err == Some(InstanceInfoNotFound) && id == old(id) && attrs == old(attrs))
        && (planned.Success? && createInstance(planned.value) == Failure(ErrOther) ==>
              err == Some(CreateFailed) && id == old(id) && attrs == old(attrs))
        && (planned.Success? && createInstance(planned.value).Success? ==>
              ReadResult(err, id, attrs) == ReadSpec(createInstance(planned.value).value, old(attrs), getInstance))
    {
      var firewallInstance := Blank.(
        vpcId := attrs.vpcId, gwName := attrs.firenetGwName, firewallName := attrs.firewallName,
        firewallImage := attrs.firewallImage, firewallImageVersion := attrs.firewallImageVersion,
        firewallSize := attrs.firewallSize, egressSubnet := attrs.egressSubnet,
        managementSubnet := attrs.managementSubnet, keyName := attrs.keyName, iamRole := attrs.iamRole,
        bootstrapBucketName := attrs.bootstrapBucketName, username := attrs.username,
        password := attrs.password);

      var cloudType := getVpcCloudType(firewallInstance.vpcId);
      if cloudType.Failure? {
        if cloudType.error == ErrNotFound {
          return Some(VpcNotFound), None;
        }
        return Some(CloudTypeUnavailable), None;
      }
      var zone := attrs.zone;
      if zone != "" && cloudType.value != AZURE {
        return Some(ZoneOnlyForAzure), None;
      }
      if zone != "" {
        firewallInstance := firewallInstance.(egressSubnet := firewallInstance.egressSubnet + "~~" + zone + "~~");
        firewallInstance := firewallInstance.(managementSubnet := firewallInstance.managementSubnet + "~~" + zone + "~~");
      }

      request := Some(firewallInstance);
      var instanceId := createInstance(firewallInstance);
      if instanceId.Failure? {
        if instanceId.error == ErrNotFound {
          return Some(InstanceInfoNotFound), request;
        }
        return Some(CreateFailed), request;
      }

      id := instanceId.value;
      err := Read(getInstance);
    }

    /** `resourceAviatrixFirewallInstanceRead`, one `d.Set` at a time. */
    method Read(getInstance: string -> Result<FirewallInstance, ClientError>) returns (err: Option<Error>)
      modifies this
      ensures ReadResult(err, id, attrs) == ReadSpec(old(id), old(attrs), getInstance)
    {
      var isImport := false;
      if attrs.instanceId == "" {
        var importId := id;
        attrs := attrs.(instanceId := importId);
        id := importId;
        isImport := true;
      }

      var reply := getInstance(attrs.instanceId);
      if reply.Failure? {
        if reply.error == ErrNotFound {
          id := "";
          return None;
        }
        return Some(LookupFailed);
      }
      var fI := reply.value;
      SetReported(isImport, fI);
      MergeOptional(fI);
      err := None;
    }

    /** The first `d.Set` block of Read: what the controller reports, and the zone. */
    method SetReported(isImport: bool, fI: FirewallInstance)
      modifies this
      ensures attrs == old(attrs).(
        vpcId := fI.vpcId, firenetGwName := fI.gwName, firewallName := fI.firewallName,
        firewallImage := fI.firewallImage, firewallSize := fI.firewallSize,
        instanceId := fI.instanceId, egressSubnet := fI.egressSubnet,
        managementSubnet := fI.managementSubnet, zone := ZoneAfterRead(old(attrs.zone), isImport, fI),
        lanInterface := fI.lanInterface, managementInterface := fI.managementInterface,
        egressInterface := fI.egressInterface, publicIp := fI.managementPublicIp)
      ensures id == old(id)
    {
      attrs := attrs.(vpcId := fI.vpcId);
      attrs := attrs.(firenetGwName := fI.gwName);
      attrs := attrs.(firewallName := fI.firewallName);
      attrs := attrs.(firewallImage := fI.firewallImage);
      attrs := attrs.(firewallSize := fI.firewallSize);
      attrs := attrs.(instanceId := fI.instanceId);
      attrs := attrs.(egressSubnet := fI.egressSubnet);
      attrs := attrs.(managementSubnet := fI.managementSubnet);

      if (attrs.zone != "" || isImport) && ReportsAzureZone(fI) {
        attrs := attrs.(zone := "az-" + fI.availabilityZone);
      }

      attrs := attrs.(lanInterface := fI.lanInterface);
      attrs := attrs.(managementInterface := fI.managementInterface);
      attrs := attrs.(egressInterface := fI.egressInterface);
      attrs := attrs.(publicIp := fI.managementPublicIp);
    }

    /** The second `d.Set` block of Read: the optional attributes, each under its own condition. */
    method MergeOptional(fI: FirewallInstance)
      modifies this
      ensures attrs == old(attrs).(
        firewallImageVersion := RemoteIfSet(old(attrs.firewallImageVersion), fI.firewallImageVersion),
        keyName := RemoteIfPriorSet(old(attrs.keyName), fI.keyName),
        iamRole := RemoteIfSet(old(attrs.iamRole), fI.iamRole),
        bootstrapBucketName := RemoteIfSet(old(attrs.bootstrapBucketName), fI.bootstrapBucketName),
        username := RemoteIfSet(old(attrs.username), fI.username))
      ensures id == old(id)
    {
      if fI.firewallImageVersion != "" {
        attrs := attrs.(firewallImageVersion := fI.firewallImageVersion);
      }
      if attrs.keyName != "" {
        attrs := attrs.(keyName := fI.keyName);
      }
      if fI.iamRole != "" {
        attrs := attrs.(iamRole := fI.iamRole);
      }
      if fI.bootstrapBucketName != "" {
        attrs := attrs.(bootstrapBucketName := fI.bootstrapBucketName);
      }
      if fI.username != "" {
        attrs := attrs.(username := fI.username);
      }
    }

    /** `resourceAviatrixFirewallInstanceDelete`: deletes by the VPC and instance IDs of the state. */
    method Delete(deleteInstance: FirewallInstance -> Option<ClientError>)
      returns (err: Option<Error>, request: FirewallInstance)
      ensures request == Blank.(vpcId := attrs.vpcId, instanceId := attrs.instanceId)
      ensures err.None? <==> deleteInstance(request).None?
      ensures err.Some? ==> err == Some(DeleteFailed)
    {
      request := Blank.(vpcId := attrs.vpcId, instanceId := attrs.instanceId);
      var failure := deleteInstance(request);
      err := if failure.Some? then Some(DeleteFailed) else None;
    }
  }
}
