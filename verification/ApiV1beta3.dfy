/** The v1beta3 (hub) cluster spec: optional values are zero values, sources are tagged unions. */
module V1beta3 {
  import opened Common
  import opened ApiShared

  datatype Identifier = Identifier(id: string, name: string)

  datatype WorkspaceSource = WorkspaceSource(kind: SourceType, reference: Identifier, provisionName: string)

  datatype DHCPServer = DHCPServer(name: string, cidr: string, dnsServer: string, snat: SnatPolicy)

  datatype NetworkSource = NetworkSource(kind: SourceType, reference: Identifier, dhcpServer: DHCPServer)

  datatype ResourceGroupSource = ResourceGroupSource(kind: SourceType, reference: Identifier)

  datatype ConnectionSource = ConnectionSource(kind: SourceType, reference: Identifier, provisionName: string)

  datatype TransitGatewaySource = TransitGatewaySource(kind: SourceType, reference: Identifier, provisionName: string,
                                                       globalRouting: Routing, vpcConnection: ConnectionSource,
                                                       powerVSConnection: ConnectionSource)

  datatype VPCSource = VPCSource(kind: SourceType, region: string, reference: Identifier, provisionName: string)

  datatype SubnetSource = SubnetSource(kind: SourceType, zone: string, reference: Identifier, provisionName: string)

  datatype Remote = Remote(cidrSubnetName: string, address: string, remoteType: string, securityGroupName: string)

  datatype Prototype = Prototype(icmpCode: Option<int>, icmpType: Option<int>, portRange: PortRange,
                                 protocol: string, remotes: Slice<Remote>)

  datatype Rule = Rule(destination: Prototype, direction: Direction, securityGroupID: string, source: Prototype)

  datatype SecurityGroupProvision = SecurityGroupProvision(name: string, rules: Slice<Rule>, tags: Slice<string>)

  datatype SecurityGroupSource = SecurityGroupSource(kind: SourceType, reference: Identifier,
                                                     provision: SecurityGroupProvision)

  datatype Listener = Listener(defaultPoolName: string, port: int, protocol: string, selector: LabelSelector)

  datatype HealthMonitor = HealthMonitor(delay: int, retries: int, port: int, timeout: int, kind: string, urlPath: string)

  datatype BackendPool = BackendPool(name: string, algorithm: string, healthMonitor: HealthMonitor, protocol: string)

  datatype LoadBalancerProvision = LoadBalancerProvision(name: string, kind: BalancerType, listeners: Slice<Listener>,
                                                         pools: Slice<BackendPool>, securityGroups: Slice<Identifier>,
                                                         subnets: Slice<Identifier>)

  datatype LoadBalancerSource = LoadBalancerSource(kind: SourceType, reference: Identifier,
                                                   provision: LoadBalancerProvision)

  datatype COSSource = COSSource(kind: SourceType, bucketName: string, bucketRegion: string, reference: Identifier,
                                 provisionName: string)

  datatype ClusterSpec = ClusterSpec(
    endpoint: APIEndpoint,
    topology: Topology,
    workspace: WorkspaceSource,
    network: NetworkSource,
    zone: string,
    resourceGroup: ResourceGroupSource,
    transitGateway: TransitGatewaySource,
    vpc: VPCSource,
    vpcSubnets: Slice<SubnetSource>,
    loadBalancers: Slice<LoadBalancerSource>,
    vpcSecurityGroups: Slice<SecurityGroupSource>,
    cosInstance: COSSource,
    ignitionVersion: string)

  // The zero values that the converters start from.
  const NO_ID := Identifier("", "")
  const NO_WORKSPACE := WorkspaceSource(NoType, NO_ID, "")
  const NO_DHCP := DHCPServer("", "", "", NoSnat)
  const NO_NETWORK := NetworkSource(NoType, NO_ID, NO_DHCP)
  const NO_GROUP := ResourceGroupSource(NoType, NO_ID)
  const NO_CONNECTION := ConnectionSource(NoType, NO_ID, "")
  const NO_GATEWAY := TransitGatewaySource(NoType, NO_ID, "", NoRouting, NO_CONNECTION, NO_CONNECTION)
  const NO_VPC := VPCSource(NoType, "", NO_ID, "")
  const NO_SUBNET := SubnetSource(NoType, "", NO_ID, "")
  const NO_PROTOTYPE := Prototype(None, None, PortRange(0, 0), "", None)
  const NO_SG_PROVISION := SecurityGroupProvision("", None, None)
  const NO_SECURITY_GROUP := SecurityGroupSource(NoType, NO_ID, NO_SG_PROVISION)
  const NO_LB_PROVISION := LoadBalancerProvision("", NoBalancerType, None, None, None, None)
  const NO_LOAD_BALANCER := LoadBalancerSource(NoType, NO_ID, NO_LB_PROVISION)
  const NO_COS := COSSource(NoType, "", "", NO_ID, "")
}
