/** Values that both API versions copy unchanged, and the enumerations the converters branch on.
    An enumeration is a Go string type, so every one of them also admits the empty string and
    values outside the declared constants. */
module ApiShared {
  import opened Common

  datatype SourceType = NoType | Reference | Provision | OtherType(text: string)

  datatype Direction = Inbound | Outbound | OtherDirection(text: string)

  datatype Routing = NoRouting | Local | Global | OtherRouting(text: string)

  datatype SnatPolicy = NoSnat | Enabled | Disabled | OtherSnat(text: string)

  datatype BalancerType = NoBalancerType | Public | Private | OtherBalancerType(text: string)

  datatype Topology = NoTopology | VirtualIP | LoadBalancerTopology | OtherTopology(text: string)

  datatype APIEndpoint = APIEndpoint(host: string, port: int)

  datatype PortRange = PortRange(maximumPort: int, minimumPort: int)

  datatype Requirement = Requirement(key: string, operator: string, values: Slice<string>)

  datatype LabelSelector = LabelSelector(matchLabels: Option<map<string, string>>, matchExpressions: Slice<Requirement>)
}
