/** The whole-object conversion of a cluster: the spec converters plus the mapping between the hub's
    explicit topology and the v1beta2 create-infra annotation.

    Object metadata is copied by assignment, so source and destination share one annotation map:
    deleting or setting the annotation on the destination changes the source as well. The
    conversion-data annotation, which ConvertFrom writes and removes again, is not modelled. */
module ClusterObject {
  import opened Common
  import opened ApiShared
  import opened ConversionSpec
  import ConvertUp
  import ConvertDown
  import HubLaws
  import V2 = V1beta2
  import V3 = V1beta3

  const CREATE_INFRA := "powervs.cluster.x-k8s.io/create-infra"

  type Annotations = Option<map<string, string>>

  // ---- The mapping on values ----

  function TopologyUp(a: Annotations): Topology {
    if a.None? || CREATE_INFRA !in a.value then NoTopology
    else if a.value[CREATE_INFRA] == "true" then LoadBalancerTopology
    else VirtualIP
  }

  function NilIfEmpty(m: map<string, string>): Annotations {
    if m == map[] then None else Some(m)
  }

  function AnnotationsUp(a: Annotations): Annotations {
    if a.None? then None else NilIfEmpty(a.value - {CREATE_INFRA})
  }

  /** What the shared map holds after ConvertFrom, where there is one. */
  function MapDown(m: map<string, string>, t: Topology): map<string, string> {
    match t
    case LoadBalancerTopology => m[CREATE_INFRA := "true"]
    case VirtualIP => m - {CREATE_INFRA}
    case _ => m
  }

  function AnnotationsDown(a: Annotations, t: Topology): Annotations {
    NilIfEmpty(MapDown(if a.Some? then a.value else map[], t))
  }

  // ---- Objects that share their annotation map ----

  class AnnotationMap {
    var entries: map<string, string>

    constructor (m: map<string, string>)
      ensures entries == m
    {
      entries := m;
    }
  }

  ghost function View(a: AnnotationMap?): Annotations
    reads a
  {
    if a == null then None else Some(a.entries)
  }

  class SpokeCluster {
    var annotations: AnnotationMap?
    var spec: V2.ClusterSpec

    constructor (a: AnnotationMap?, s: V2.ClusterSpec)
      ensures annotations == a && spec == s
    {
      annotations, spec := a, s;
    }
  }

  class HubCluster {
    var annotations: AnnotationMap?
    var spec: V3.ClusterSpec

    constructor (a: AnnotationMap?, s: V3.ClusterSpec)
      ensures annotations == a && spec == s
    {
      annotations, spec := a, s;
    }
  }

  /** v1beta2 to hub. The source's own annotation map loses the create-infra entry too. */
  method ConvertTo(src: SpokeCluster) returns (dst: HubCluster)
    modifies src.annotations
    ensures fresh(dst)
    ensures dst.spec == Up(src.spec).(topology := TopologyUp(old(View(src.annotations))))
    ensures View(dst.annotations) == AnnotationsUp(old(View(src.annotations)))
    ensures dst.annotations == null || dst.annotations == src.annotations
    ensures src.annotations != null ==> src.annotations.entries == old(src.annotations.entries) - {CREATE_INFRA}
  {
    var spec := ConvertUp.ConvertClusterSpec(src.spec);
    dst := new HubCluster(src.annotations, spec);
    if src.annotations != null && CREATE_INFRA in src.annotations.entries {
      if src.annotations.entries[CREATE_INFRA] == "true" {
        dst.spec := dst.spec.(topology := LoadBalancerTopology);
      } else {
        dst.spec := dst.spec.(topology := VirtualIP);
      }
    }
    if dst.annotations != null {
      dst.annotations.entries := dst.annotations.entries - {CREATE_INFRA};
      if |dst.annotations.entries| == 0 {
        dst.annotations := null;
      }
    }
  }

  /** The topology is written into the annotation map, which is made when there is none. */
  method RecordTopology(dst: SpokeCluster, t: Topology)
    modifies dst`annotations, dst.annotations
    ensures View(dst.annotations) == AnnotationsDown(old(View(dst.annotations)), t)
    ensures old(dst.annotations) != null ==> old(dst.annotations).entries == MapDown(old(dst.annotations.entries), t)
  {
    match t {
      case LoadBalancerTopology =>
        if dst.annotations == null {
          dst.annotations := new AnnotationMap(map[]);
        }
        dst.annotations.entries := dst.annotations.entries[CREATE_INFRA := "true"];
      case VirtualIP =>
        if dst.annotations != null {
          dst.annotations.entries := dst.annotations.entries - {CREATE_INFRA};
        }
      case _ =>
    }
    if dst.annotations != null && |dst.annotations.entries| == 0 {
      dst.annotations := null;
    }
  }

  /** Hub to v1beta2. A hub that has an annotation map gets the create-infra entry written into it. */
  method ConvertFrom(src: HubCluster) returns (dst: SpokeCluster)
    modifies src.annotations
    ensures fresh(dst)
    ensures dst.spec == Down(src.spec)
    ensures View(dst.annotations) == AnnotationsDown(old(View(src.annotations)), src.spec.topology)
    ensures src.annotations != null ==>
              src.annotations.entries == MapDown(old(src.annotations.entries), src.spec.topology)
  {
    var spec := ConvertDown.ConvertClusterSpec(src.spec);
    dst := new SpokeCluster(src.annotations, spec);
    RecordTopology(dst, src.spec.topology);
  }

  // ---- Laws ----

  /** The topology of an up-converted object: LoadBalancer exactly when the annotation says "true",
      VirtualIP exactly when it says anything else, and none without it. */
  lemma TopologyExactly(a: Annotations)
    ensures TopologyUp(a) == LoadBalancerTopology <==> a.Some? && CREATE_INFRA in a.value && a.value[CREATE_INFRA] == "true"
    ensures TopologyUp(a) == VirtualIP <==> a.Some? && CREATE_INFRA in a.value && a.value[CREATE_INFRA] != "true"
    ensures TopologyUp(a) == NoTopology <==> a.None? || CREATE_INFRA !in a.value
    ensures CREATE_INFRA == "powervs.cluster.x-k8s.io/create-infra"
  {
  }

  /** Only the create-infra annotation is touched by either conversion, and an empty map becomes nil. */
  lemma AnnotationsExactly(a: Annotations, t: Topology)
    ensures AnnotationsUp(a) != Some(map[]) && AnnotationsDown(a, t) != Some(map[])
    ensures EntriesOf(AnnotationsUp(a)) == EntriesOf(a) - {CREATE_INFRA}
    ensures EntriesOf(AnnotationsDown(a, t)) - {CREATE_INFRA} == EntriesOf(a) - {CREATE_INFRA}
    ensures t == LoadBalancerTopology ==> CREATE_INFRA in EntriesOf(AnnotationsDown(a, t)) && EntriesOf(AnnotationsDown(a, t))[CREATE_INFRA] == "true"
    ensures t == VirtualIP ==> CREATE_INFRA !in EntriesOf(AnnotationsDown(a, t))
    ensures t != LoadBalancerTopology && t != VirtualIP ==> EntriesOf(AnnotationsDown(a, t)) == EntriesOf(a)
  {
  }

  function EntriesOf(a: Annotations): map<string, string> { if a.Some? then a.value else map[] }

  /** A hub object made by ConvertTo never carries the annotation, and after a trip down and up it is
      in LoadBalancer topology exactly when it was before; any other topology comes back unset. */
  lemma TopologySafety(a: Annotations)
    ensures var h, t := AnnotationsUp(a), TopologyUp(a);
            && (h.Some? ==> CREATE_INFRA !in h.value)
            && (TopologyUp(AnnotationsDown(h, t)) == LoadBalancerTopology <==> t == LoadBalancerTopology)
            && (t != LoadBalancerTopology ==> TopologyUp(AnnotationsDown(h, t)) == NoTopology)
            && AnnotationsUp(AnnotationsDown(h, t)) == h
  {
    var h, t := AnnotationsUp(a), TopologyUp(a);
    var m := if h.Some? then h.value else map[];
    assert CREATE_INFRA !in m;
    assert m[CREATE_INFRA := "true"] - {CREATE_INFRA} == m;
    assert m - {CREATE_INFRA} == m;
  }

  lemma AnnotationTrip(a: Annotations, t: Topology)
    ensures AnnotationsUp(AnnotationsDown(a, t)) == a && TopologyUp(AnnotationsDown(a, t)) == t
            <==> t in {NoTopology, LoadBalancerTopology} && a != Some(map[]) && (a.Some? ==> CREATE_INFRA !in a.value)
  {
    var m := if a.Some? then a.value else map[];
    assert m[CREATE_INFRA := "true"] - {CREATE_INFRA} == m - {CREATE_INFRA};
    assert (m - {CREATE_INFRA}) - {CREATE_INFRA} == m - {CREATE_INFRA};
    assert CREATE_INFRA !in m ==> m - {CREATE_INFRA} == m;
  }

  lemma TopologyIgnored(s: V3.ClusterSpec)
    ensures Down(s) == Down(s.(topology := NoTopology))
  {}

  /** The exact set of hub objects that a v1beta2 client can read and write back unchanged. */
  lemma HubObjectRoundTrip(s: V3.ClusterSpec, a: Annotations)
    requires HubLaws.SpecValid(s)
    ensures var back := AnnotationsDown(a, s.topology);
            Up(Down(s)).(topology := TopologyUp(back)) == s && AnnotationsUp(back) == a
            <==> HubLaws.Expressible(s.(topology := NoTopology))
                 && s.topology in {NoTopology, LoadBalancerTopology}
                 && a != Some(map[]) && (a.Some? ==> CREATE_INFRA !in a.value)
  {
    var plain := s.(topology := NoTopology);
    TopologyIgnored(s);
    HubLaws.HubRoundTrip(plain);
    AnnotationTrip(a, s.topology);
    assert Up(Down(s)).topology == NoTopology;
  }
}
