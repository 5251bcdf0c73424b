/**
  The `aviatrix_device_transit_gateway_attachment` resource: a VPN attachment
  between a device and a transit gateway. Its adapter turns the resource's
  attributes into the client's request record (Marshal), creates the attachment
  under its connection name, refreshes the attributes from the controller's
  record (Read) and deletes the attachment by connection name.
*/
module AttachmentResource {
  import opened Wrappers
  import opened Remote
  import opened Strconv

  /** Schema defaults of the optional IPsec attributes. */
  const DefaultPhase1Authentication := "SHA-256"
  const DefaultPhase1DhGroups: GoInt := 14
  const DefaultPhase1Encryption := "AES-256-CBC"
  const DefaultPhase2Authentication := "HMAC-SHA-256"
  const DefaultPhase2DhGroups: GoInt := 14
  const DefaultPhase2Encryption := "AES-256-CBC"
  const DefaultEnableGlobalAccelerator := false

  /** The only routing protocol the adapter ever asks for. */
  const RoutingProtocolBgp := "bgp"

  /** The resource's attributes as `d.Get` returns them (an unset string is ""). */
  datatype Attributes = Attributes(
    deviceName: string,
    transitGatewayName: string,
    connectionName: string,
    transitGatewayBgpAsn: GoInt,
    deviceBgpAsn: GoInt,
    phase1Authentication: string,
    phase1DhGroups: GoInt,
    phase1Encryption: string,
    phase2Authentication: string,
    phase2DhGroups: GoInt,
    phase2Encryption: string,
    enableGlobalAccelerator: bool,
    preSharedKey: string,
    localTunnelIp: string,
    remoteTunnelIp: string)

  /** A configuration: the required attributes, and each optional one only if it is set. */
  datatype Config = Config(
    deviceName: string,
    transitGatewayName: string,
    connectionName: string,
    transitGatewayBgpAsn: GoInt,
    deviceBgpAsn: GoInt,
    phase1Authentication: Option<string>,
    phase1DhGroups: Option<GoInt>,
    phase1Encryption: Option<string>,
    phase2Authentication: Option<string>,
    phase2DhGroups: Option<GoInt>,
    phase2Encryption: Option<string>,
    enableGlobalAccelerator: Option<bool>,
    preSharedKey: Option<string>,
    localTunnelIp: Option<string>,
    remoteTunnelIp: Option<string>)

  /** `goaviatrix.DeviceTransitGatewayAttachment`: every field is text. */
  datatype DeviceTransitGatewayAttachment = DeviceTransitGatewayAttachment(
    deviceName: string,
    transitGatewayName: string,
    connectionName: string,
    routingProtocol: string,
    transitGatewayBgpAsn: string,
    deviceBgpAsn: string,
    phase1Authentication: string,
    phase1DhGroups: string,
    phase1Encryption: string,
    phase2Authentication: string,
    phase2DhGroups: string,
    phase2Encryption: string,
    enableGlobalAccelerator: string,
    preSharedKey: string,
    localTunnelIp: string,
    remoteTunnelIp: string)

  /** The attributes Read assigns unconditionally, one constructor each. */
  datatype Field =
    | DeviceName | TransitGatewayName | ConnectionName
    | TransitGatewayBgpAsn | DeviceBgpAsn
    | Phase1Authentication | Phase1DhGroups | Phase1Encryption
    | Phase2Authentication | Phase2DhGroups | Phase2Encryption
    | EnableGlobalAccelerator

  datatype Value = Text(text: string) | Number(number: GoInt) | Flag(flag: bool)

  /** Which `return fmt.Errorf(...)` of the adapter was taken. */
  datatype Error =
    | CreateFailed
    | LookupFailed
    | ConversionFailed(field: Field)
    | DeleteFailed

  /** What a Read leaves behind: its error, the Id and the attributes. */
  datatype ReadResult = ReadResult(err: Option<Error>, id: string, attrs: Attributes)

  /** The attributes a configuration stands for once the schema defaults are applied. */
  function WithDefaults(c: Config): (a: Attributes)
    ensures a.deviceName == c.deviceName && a.transitGatewayName == c.transitGatewayName
    ensures a.connectionName == c.connectionName
    ensures a.transitGatewayBgpAsn == c.transitGatewayBgpAsn && a.deviceBgpAsn == c.deviceBgpAsn
    ensures c.phase1Authentication.None? ==> a.phase1Authentication == "SHA-256"
    ensures c.phase1DhGroups.None? ==> a.phase1DhGroups == 14
    ensures c.phase1Encryption.None? ==> a.phase1Encryption == "AES-256-CBC"
    ensures c.phase2Authentication.None? ==> a.phase2Authentication == "HMAC-SHA-256"
    ensures c.phase2DhGroups.None? ==> a.phase2DhGroups == 14
    ensures c.phase2Encryption.None? ==> a.phase2Encryption == "AES-256-CBC"
    ensures c.enableGlobalAccelerator.None? ==> !a.enableGlobalAccelerator
    ensures c.preSharedKey.None? ==> a.preSharedKey == ""
    ensures c.localTunnelIp.None? ==> a.localTunnelIp == ""
    ensures c.remoteTunnelIp.None? ==> a.remoteTunnelIp == ""
    ensures c.phase1Authentication.Some? ==> a.phase1Authentication == c.phase1Authentication.value
    ensures c.phase1DhGroups.Some? ==> a.phase1DhGroups == c.phase1DhGroups.value
    ensures c.phase1Encryption.Some? ==> a.phase1Encryption == c.phase1Encryption.value
    ensures c.phase2Authentication.Some? ==> a.phase2Authentication == c.phase2Authentication.value
    ensures c.phase2DhGroups.Some? ==> a.phase2DhGroups == c.phase2DhGroups.value
    ensures c.phase2Encryption.Some? ==> a.phase2Encryption == c.phase2Encryption.value
    ensures c.enableGlobalAccelerator.Some? ==> a.enableGlobalAccelerator == c.enableGlobalAccelerator.value
    ensures c.preSharedKey.Some? ==> a.preSharedKey == c.preSharedKey.value
    ensures c.localTunnelIp.Some? ==> a.localTunnelIp == c.localTunnelIp.value
    ensures c.remoteTunnelIp.Some? ==> a.remoteTunnelIp == c.remoteTunnelIp.value
  {
    Attributes(
      c.deviceName, c.transitGatewayName, c.connectionName,
      c.transitGatewayBgpAsn, c.deviceBgpAsn,
      GetOr(c.phase1Authentication, DefaultPhase1Authentication),
      GetOr(c.phase1DhGroups, DefaultPhase1DhGroups),
      GetOr(c.phase1Encryption, DefaultPhase1Encryption),
      GetOr(c.phase2Authentication, DefaultPhase2Authentication),
      GetOr(c.phase2DhGroups, DefaultPhase2DhGroups),
      GetOr(c.phase2Encryption, DefaultPhase2Encryption),
      GetOr(c.enableGlobalAccelerator, DefaultEnableGlobalAccelerator),
      GetOr(c.preSharedKey, ""),
      GetOr(c.localTunnelIp, ""),
      GetOr(c.remoteTunnelIp, ""))
  }

  function GetOr<T>(o: Option<T>, default: T): T {
    if o.Some? then o.value else default
  }

  /**
    `marshalDeviceTransitGatewayAttachmentInput`: strings are copied, the
    numbers and the flag are rendered as text that parses back to them, and the
    routing protocol is always BGP.
  */
  function Marshal(a: Attributes): (r: DeviceTransitGatewayAttachment)
    ensures r.routingProtocol == "bgp"
    ensures r.deviceName == a.deviceName && r.transitGatewayName == a.transitGatewayName
    ensures r.connectionName == a.connectionName
    ensures r.phase1Authentication == a.phase1Authentication && r.phase1Encryption == a.phase1Encryption
    ensures r.phase2Authentication == a.phase2Authentication && r.phase2Encryption == a.phase2Encryption
    ensures r.preSharedKey == a.preSharedKey
    ensures r.localTunnelIp == a.localTunnelIp && r.remoteTunnelIp == a.remoteTunnelIp
    ensures r.transitGatewayBgpAsn == Itoa(a.transitGatewayBgpAsn) && r.deviceBgpAsn == Itoa(a.deviceBgpAsn)
    ensures r.phase1DhGroups == Itoa(a.phase1DhGroups) && r.phase2DhGroups == Itoa(a.phase2DhGroups)
    ensures Atoi(r.transitGatewayBgpAsn) == Success(a.transitGatewayBgpAsn)
    ensures Atoi(r.deviceBgpAsn) == Success(a.deviceBgpAsn)
    ensures Atoi(r.phase1DhGroups) == Success(a.phase1DhGroups)
    ensures Atoi(r.phase2DhGroups) == Success(a.phase2DhGroups)
    ensures r.enableGlobalAccelerator == (if a.enableGlobalAccelerator then "true" else "false")
  {
    AtoiOfItoa(a.transitGatewayBgpAsn);
    AtoiOfItoa(a.deviceBgpAsn);
    AtoiOfItoa(a.phase1DhGroups);
    AtoiOfItoa(a.phase2DhGroups);
    DeviceTransitGatewayAttachment(
      a.deviceName, a.transitGatewayName, a.connectionName, RoutingProtocolBgp,
      Itoa(a.transitGatewayBgpAsn), Itoa(a.deviceBgpAsn),
      a.phase1Authentication, Itoa(a.phase1DhGroups), a.phase1Encryption,
      a.phase2Authentication, Itoa(a.phase2DhGroups), a.phase2Encryption,
      FormatBool(a.enableGlobalAccelerator),
      a.preSharedKey, a.localTunnelIp, a.remoteTunnelIp)
  }

  /** Where a field stands in Read's sequence of assignments. */
  function Rank(f: Field): nat {
    match f
    case DeviceName => 0
    case TransitGatewayName => 1
    case ConnectionName => 2
    case TransitGatewayBgpAsn => 3
    case DeviceBgpAsn => 4
    case Phase1Authentication => 5
    case Phase1DhGroups => 6
    case Phase1Encryption => 7
    case Phase2Authentication => 8
    case Phase2DhGroups => 9
    case Phase2Encryption => 10
    case EnableGlobalAccelerator => 11
  }

  /** The value `d.Get` returns for a field. */
  function Stored(a: Attributes, f: Field): Value {
    match f
    case DeviceName => Text(a.deviceName)
    case TransitGatewayName => Text(a.transitGatewayName)
    case ConnectionName => Text(a.connectionName)
    case TransitGatewayBgpAsn => Number(a.transitGatewayBgpAsn)
    case DeviceBgpAsn => Number(a.deviceBgpAsn)
    case Phase1Authentication => Text(a.phase1Authentication)
    case Phase1DhGroups => Number(a.phase1DhGroups)
    case Phase1Encryption => Text(a.phase1Encryption)
    case Phase2Authentication => Text(a.phase2Authentication)
    case Phase2DhGroups => Number(a.phase2DhGroups)
    case Phase2Encryption => Text(a.phase2Encryption)
    case EnableGlobalAccelerator => Flag(a.enableGlobalAccelerator)
  }

  function ParsedNumber(r: Result<GoInt, NumError>): Option<Value> {
    if r.Success? then Some(Number(r.value)) else None
  }

  /** The typed value a remote record holds for a field, or None when its text does not parse. */
  function Decoded(rec: DeviceTransitGatewayAttachment, f: Field): Option<Value> {
    match f
    case DeviceName => Some(Text(rec.deviceName))
    case TransitGatewayName => Some(Text(rec.transitGatewayName))
    case ConnectionName => Some(Text(rec.connectionName))
    case TransitGatewayBgpAsn => ParsedNumber(Atoi(rec.transitGatewayBgpAsn))
    case DeviceBgpAsn => ParsedNumber(Atoi(rec.deviceBgpAsn))
    case Phase1Authentication => Some(Text(rec.phase1Authentication))
    case Phase1DhGroups => ParsedNumber(Atoi(rec.phase1DhGroups))
    case Phase1Encryption => Some(Text(rec.phase1Encryption))
    case Phase2Authentication => Some(Text(rec.phase2Authentication))
    case Phase2DhGroups => ParsedNumber(Atoi(rec.phase2DhGroups))
    case Phase2Encryption => Some(Text(rec.phase2Encryption))
    case EnableGlobalAccelerator =>
      var b := ParseBool(rec.enableGlobalAccelerator);
      if b.Success? then Some(Flag(b.value)) else None
  }

  /** A tunnel IP after Read: replaced on import or when it was already set, kept otherwise. */
  function TunnelIp(prior: string, isImport: bool, remote: string): string {
    if isImport || prior != "" then remote else prior
  }

  /**
    The part of Read that runs once the controller returned `rec`: the
    assignments in source order, stopping at the first text that does not parse.
  */
  function Apply(id: string, a: Attributes, isImport: bool, rec: DeviceTransitGatewayAttachment): (r: ReadResult)
    ensures r.err.None? ==> r.id == rec.connectionName && r.attrs.connectionName == rec.connectionName
    ensures r.err.Some? ==> r.err.value.ConversionFailed? && r.id == id
    ensures r.attrs.preSharedKey == a.preSharedKey
    ensures r.err.None? ==> r.attrs.localTunnelIp == TunnelIp(a.localTunnelIp, isImport, rec.localTunnelIp)
    ensures r.err.None? ==> r.attrs.remoteTunnelIp == TunnelIp(a.remoteTunnelIp, isImport, rec.remoteTunnelIp)
    ensures r.err.Some? ==> r.attrs.localTunnelIp == a.localTunnelIp && r.attrs.remoteTunnelIp == a.remoteTunnelIp
  {
    var a1 := a.(deviceName := rec.deviceName, transitGatewayName := rec.transitGatewayName,
                 connectionName := rec.connectionName);
    match Atoi(rec.transitGatewayBgpAsn)
    case Failure(_) => ReadResult(Some(ConversionFailed(TransitGatewayBgpAsn)), id, a1)
    case Success(transitGatewayBgpAsn) =>
      var a2 := a1.(transitGatewayBgpAsn := transitGatewayBgpAsn);
      match Atoi(rec.deviceBgpAsn)
      case Failure(_) => ReadResult(Some(ConversionFailed(DeviceBgpAsn)), id, a2)
      case Success(deviceBgpAsn) =>
        var a3 := a2.(deviceBgpAsn := deviceBgpAsn, phase1Authentication := rec.phase1Authentication);
        match Atoi(rec.phase1DhGroups)
        case Failure(_) => ReadResult(Some(ConversionFailed(Phase1DhGroups)), id, a3)
        case Success(phase1DhGroups) =>
          var a4 := a3.(phase1DhGroups := phase1DhGroups, phase1Encryption := rec.phase1Encryption,
                        phase2Authentication := rec.phase2Authentication);
          match Atoi(rec.phase2DhGroups)
          case Failure(_) => ReadResult(Some(ConversionFailed(Phase2DhGroups)), id, a4)
          case Success(phase2DhGroups) =>
            var a5 := a4.(phase2DhGroups := phase2DhGroups, phase2Encryption := rec.phase2Encryption);
            match ParseBool(rec.enableGlobalAccelerator)
            case Failure(_) => ReadResult(Some(ConversionFailed(EnableGlobalAccelerator)), id, a5)
            case Success(enableGlobalAccelerator) =>
              var a6 := a5.(enableGlobalAccelerator := enableGlobalAccelerator,
                            localTunnelIp := TunnelIp(a5.localTunnelIp, isImport, rec.localTunnelIp),
                            remoteTunnelIp := TunnelIp(a5.remoteTunnelIp, isImport, rec.remoteTunnelIp));
              ReadResult(None, rec.connectionName, a6)
  }

  /**
    `resourceAviatrixDeviceTransitGatewayAttachmentRead` as a function of the Id,
    the attributes and the client's lookup: an empty `connection_name` marks an
    import, which looks the attachment up by the Id.
  */
  function ReadSpec(id: string, a: Attributes, get: string -> Result<DeviceTransitGatewayAttachment, ClientError>): (r: ReadResult)
    ensures var key := if a.connectionName == "" then id else a.connectionName;
      && (get(key) == Failure(ErrNotFound) ==> r == ReadResult(None, "", a))
      && (get(key) == Failure(ErrOther) ==> r == ReadResult(Some(LookupFailed), id, a))
      && (get(key).Success? ==> r == Apply(id, a, a.connectionName == "", get(key).value))
    ensures r.err.None? ==> r.id == "" || r.id == r.attrs.connectionName
  {
    var isImport := a.connectionName == "";
    var key := if isImport then id else a.connectionName;
    match get(key)
    case Failure(ErrNotFound) => ReadResult(None, "", a)
    case Failure(ErrOther) => ReadResult(Some(LookupFailed), id, a)
    case Success(rec) => Apply(id, a, isImport, rec)
  }

  /**
    A conversion failure at field `f` means `f` is the first field whose text
    does not parse, and every field before it holds its new value.
  */
  lemma ApplyStopsAtFirstFailure(id: string, a: Attributes, isImport: bool, rec: DeviceTransitGatewayAttachment, f: Field)
    requires Apply(id, a, isImport, rec).err == Some(ConversionFailed(f))
    ensures Decoded(rec, f).None?
    ensures forall g :: Rank(g) < Rank(f) ==> Decoded(rec, g) == Some(Stored(Apply(id, a, isImport, rec).attrs, g))
  {
    // One case per conversion of Apply, in the order Read performs them.
    if Atoi(rec.transitGatewayBgpAsn).Failure? {
    } else if Atoi(rec.deviceBgpAsn).Failure? {
    } else if Atoi(rec.phase1DhGroups).Failure? {
    } else if Atoi(rec.phase2DhGroups).Failure? {
    } else {
    }
  }

  /**
    After a conversion failure at field `f`, `f` and every later field still
    hold their old values (as do the tunnel IPs, the pre-shared key and the Id,
    by Apply's own contract).
  */
  lemma ApplyKeepsTheRest(id: string, a: Attributes, isImport: bool, rec: DeviceTransitGatewayAttachment, f: Field)
    requires Apply(id, a, isImport, rec).err == Some(ConversionFailed(f))
    ensures forall g :: Rank(g) >= Rank(f) ==> Stored(Apply(id, a, isImport, rec).attrs, g) == Stored(a, g)
  {
    // One case per conversion of Apply, in the order Read performs them.
    if Atoi(rec.transitGatewayBgpAsn).Failure? {
    } else if Atoi(rec.deviceBgpAsn).Failure? {
    } else if Atoi(rec.phase1DhGroups).Failure? {
    } else if Atoi(rec.phase2DhGroups).Failure? {
    } else {
    }
  }

  /** Read succeeds exactly when every field parses, and then every field holds the remote value. */
  lemma ApplyWritesEveryField(id: string, a: Attributes, isImport: bool, rec: DeviceTransitGatewayAttachment)
    ensures var r := Apply(id, a, isImport, rec);
      && (r.err.None? <==> forall g :: Decoded(rec, g).Some?)
      && (r.err.None? ==> forall g :: Decoded(rec, g) == Some(Stored(r.attrs, g)))
  {
    var r := Apply(id, a, isImport, rec);
    if r.err.Some? {
      ApplyStopsAtFirstFailure(id, a, isImport, rec, r.err.value.field);
    } else {
      forall g ensures Decoded(rec, g) == Some(Stored(r.attrs, g)) {
      }
    }
  }


  /**
    Reading back a just-marshalled record reproduces the attributes exactly,
    whether or not the call is an import, and leaves the Id at the connection name.
  */
  lemma ApplyOfMarshal(id: string, a: Attributes, isImport: bool)
    ensures Apply(id, a, isImport, Marshal(a)) == ReadResult(None, a.connectionName, a)
  {
  }

  /**
    Create followed by Read: after Create has set the Id to the connection name,
    a controller that returns the record it was sent gives back the attributes.
  */
  lemma ReadAfterCreate(a: Attributes, get: string -> Result<DeviceTransitGatewayAttachment, ClientError>)
    requires get(a.connectionName) == Success(Marshal(a))
    ensures ReadSpec(a.connectionName, a, get) == ReadResult(None, a.connectionName, a)
  {
    ApplyOfMarshal(a.connectionName, a, a.connectionName == "");
  }

  /**
    A second Read against the same controller changes nothing, provided the
    controller answers with the connection name it was asked for.
  */
  lemma ReadIsIdempotent(id: string, a: Attributes, get: string -> Result<DeviceTransitGatewayAttachment, ClientError>)
    requires forall k :: get(k).Success? ==> get(k).value.connectionName == k
    ensures var r := ReadSpec(id, a, get);
      r.err.None? && r.id != "" ==> ReadSpec(r.id, r.attrs, get) == r
  {
  }

  /** `schema.ResourceData` of one attachment: its Id and its attributes. */
  class ResourceData {
    var id: string
    var attrs: Attributes

    constructor (id: string, attrs: Attributes)
      ensures this.id == id && this.attrs == attrs
    {
      this.id := id;
      this.attrs := attrs;
    }

    /**
      `resourceAviatrixDeviceTransitGatewayAttachmentCreate`: sends the
      marshalled attributes; on success the Id becomes the connection name.
    */
    method Create(createAttachment: DeviceTransitGatewayAttachment -> Option<ClientError>)
      returns (err: Option<Error>, request: DeviceTransitGatewayAttachment)
      modifies this
      ensures request == Marshal(old(attrs)) && attrs == old(attrs)
      ensures createAttachment(request).None? ==> err.None? && id == old(attrs).connectionName
      ensures createAttachment(request).Some? ==> err == Some(CreateFailed) && id == old(id)
    {
      request := Marshal(attrs);
      var failure := createAttachment(request);
      if failure.Some? {
        return Some(CreateFailed), request;
      }
      id := request.connectionName;
      err := None;
    }

    /** `resourceAviatrixDeviceTransitGatewayAttachmentRead`, one `d.Set` at a time. */
    method Read(getAttachment: string -> Result<DeviceTransitGatewayAttachment, ClientError>)
      returns (err: Option<Error>)
      modifies this
      ensures ReadResult(err, id, attrs) == ReadSpec(old(id), old(attrs), getAttachment)
    {
      var connectionName := attrs.connectionName;
      var isImport := false;
      if connectionName == "" {
        isImport := true;
        var importId := id;
        id := importId;
        connectionName := importId;
      }

      var reply := getAttachment(connectionName);
      if reply == Failure(ErrNotFound) {
        id := "";
        return None;
      }
      if reply.Failure? {
        return Some(LookupFailed);
      }
      var rec := reply.value;

      attrs := attrs.(deviceName := rec.deviceName);
      attrs := attrs.(transitGatewayName := rec.transitGatewayName);
      attrs := attrs.(connectionName := rec.connectionName);

      var transitGatewayBgpAsn := Atoi(rec.transitGatewayBgpAsn);
      if transitGatewayBgpAsn.Failure? {
        return Some(ConversionFailed(TransitGatewayBgpAsn));
      }
      attrs := attrs.(transitGatewayBgpAsn := transitGatewayBgpAsn.value);

      var deviceBgpAsn := Atoi(rec.deviceBgpAsn);
      if deviceBgpAsn.Failure? {
        return Some(ConversionFailed(DeviceBgpAsn));
      }
      attrs := attrs.(deviceBgpAsn := deviceBgpAsn.value);

      attrs := attrs.(phase1Authentication := rec.phase1Authentication);

      var phase1DhGroups := Atoi(rec.phase1DhGroups);
      if phase1DhGroups.Failure? {
        return Some(ConversionFailed(Phase1DhGroups));
      }
      attrs := attrs.(phase1DhGroups := phase1DhGroups.value);

      attrs := attrs.(phase1Encryption := rec.phase1Encryption);
      attrs := attrs.(phase2Authentication := rec.phase2Authentication);

      var phase2DhGroups := Atoi(rec.phase2DhGroups);
      if phase2DhGroups.Failure? {
        return Some(ConversionFailed(Phase2DhGroups));
      }
      attrs := attrs.(phase2DhGroups := phase2DhGroups.value);

      attrs := attrs.(phase2Encryption := rec.phase2Encryption);

      var enableGlobalAccelerator := ParseBool(rec.enableGlobalAccelerator);
      if enableGlobalAccelerator.Failure? {
        return Some(ConversionFailed(EnableGlobalAccelerator));
      }
      attrs := attrs.(enableGlobalAccelerator := enableGlobalAccelerator.value);

      if isImport || attrs.localTunnelIp != "" {
        attrs := attrs.(localTunnelIp := rec.localTunnelIp);
      }
      if isImport || attrs.remoteTunnelIp != "" {
        attrs := attrs.(remoteTunnelIp := rec.remoteTunnelIp);
      }

      id := rec.connectionName;
      err := None;
    }

    /** `resourceAviatrixDeviceTransitGatewayAttachmentDelete`: deletes by the `connection_name` attribute. */
    method Delete(deleteAttachment: string -> Option<ClientError>)
      returns (err: Option<Error>, connectionName: string)
      ensures connectionName == attrs.connectionName
      ensures err.None? <==> deleteAttachment(connectionName).None?
      ensures err.Some? ==> err == Some(DeleteFailed)
    {
      connectionName := attrs.connectionName;
      var failure := deleteAttachment(connectionName);
      err := if failure.Some? then Some(DeleteFailed) else None;
    }
  }
}
