/** The v1beta2 cluster spec: optional values are pointers, sources are told apart by which
    pointers are set. */
module V1beta2 {
  import opened Common
  import opened ApiShared

  datatype ResourceRef = ResourceRef(id: Option<string>, name: Option<string>, regEx: Option<string>)

  datatype DHCPServer = DHCPServer(cidr: Option<string>, dnsServer: Option<string>, name: Option<string>,
                                   id: Option<string>, snat: Option<bool>)

  datatype TransitGateway = TransitGateway(name: Option<string>, id: Option<string>, globalRouting: Option<bool>)

  datatype VPCRef = VPCRef(id: Option<string>, name: Option<string>, region: Option<string>)

  datatype CosInstance = CosInstance(name: string, bucketName: string, bucketRegion: string)

  datatype Subnet = Subnet(ipv4CidrBlock: Option<string>, name: Option<string>, id: Option<string>, zone: Option<string>)

  datatype Remote = Remote(cidrSubnetName: Option<string>, address: Option<string>, remoteType: string,
                           securityGroupName: Option<string>)

  datatype Prototype = Prototype(icmpCode: Option<int>, icmpType: Option<int>, portRange: Option<PortRange>,
                                 protocol: string, remotes: Slice<Remote>)

  datatype Rule = Rule(destination: Option<Prototype>, direction: Direction, securityGroupID: Option<string>,
                       source: Option<Prototype>)

  datatype SecurityGroup = SecurityGroup(id: Option<string>, name: Option<string>, rules: Slice<Option<Rule>>,
                                         tags: Slice<Option<string>>)

  datatype Listener = Listener(defaultPoolName: Option<string>, port: int, protocol: Option<string>,
                               selector: LabelSelector)

  datatype HealthMonitor = HealthMonitor(delay: int, retries: int, port: Option<int>, timeout: int,
                                         kind: string, urlPath: Option<string>)

  datatype BackendPool = BackendPool(name: Option<string>, algorithm: string, healthMonitor: HealthMonitor,
                                     protocol: string)

  datatype VPCResource = VPCResource(id: Option<string>, name: Option<string>)

  datatype LoadBalancer = LoadBalancer(name: string, id: Option<string>, isPublic: Option<bool>,
                                       listeners: Slice<Listener>, pools: Slice<BackendPool>,
                                       securityGroups: Slice<VPCResource>, subnets: Slice<VPCResource>)

  datatype ClusterSpec = ClusterSpec(
    serviceInstanceID: string,
    network: ResourceRef,
    dhcpServer: Option<DHCPServer>,
    endpoint: APIEndpoint,
    serviceInstance: Option<ResourceRef>,
    zone: Option<string>,
    resourceGroup: Option<ResourceRef>,
    vpc: Option<VPCRef>,
    vpcSubnets: Slice<Subnet>,
    vpcSecurityGroups: Slice<SecurityGroup>,
    transitGateway: Option<TransitGateway>,
    loadBalancers: Slice<LoadBalancer>,
    cosInstance: Option<CosInstance>,
    ignitionVersion: Option<string>)

  const NO_REF := ResourceRef(None, None, None)
}
