/** The machine and image spec converters. v1beta2 stores the workspace twice, as a bare ID and as
    a reference; the hub stores it once. */
module MachineImage {
  import opened Common
  import V2 = V1beta2
  import V3 = V1beta3
  import opened ConversionSpec

  datatype ImageKind = NoImage | ImportImage | ReferenceImage | OtherImage(text: string)

  datatype MachineImage = MachineImage(kind: ImageKind, reference: V3.Identifier, importName: string)

  datatype IntOrString = IntValue(n: int) | StringValue(s: string)

  /** The fields copied unchanged by the generated converter. */
  datatype Shape = Shape(sshKey: string, systemType: string, processorType: string, processors: IntOrString, memoryGiB: int)

  datatype MachineV3 = MachineV3(workspace: V3.Identifier, network: V3.Identifier, image: MachineImage, shape: Shape,
                                 providerID: string)

  datatype MachineV2 = MachineV2(serviceInstanceID: string, serviceInstance: Option<V2.ResourceRef>,
                                 image: Option<V2.ResourceRef>, imageRef: Option<string>, network: V2.ResourceRef,
                                 shape: Shape, providerID: Option<string>)

  datatype ImageV3 = ImageV3(clusterName: string, workspace: V3.Identifier, bucket: string, objectName: string,
                             region: string, storageType: string, deletePolicy: string)

  datatype ImageV2 = ImageV2(clusterName: string, serviceInstanceID: string, serviceInstance: Option<V2.ResourceRef>,
                             bucket: Option<string>, objectName: Option<string>, region: Option<string>,
                             storageType: string, deletePolicy: string)

  // ---- Workspace, shared by both ----

  function WorkspaceIdUp(si: Option<V2.ResourceRef>, id: string): V3.Identifier {
    if si.Some? then IdentifierUp(si.value.id, si.value.name) else V3.Identifier(id, "")
  }

  function WorkspaceRefDown(w: V3.Identifier): Option<V2.ResourceRef> {
    if w == V3.NO_ID then None else Some(RefDown(w))
  }

  method ConvertWorkspaceUp(si: Option<V2.ResourceRef>, id: string) returns (out: V3.Identifier)
    ensures out == WorkspaceIdUp(si, id)
  {
    out := V3.NO_ID;
    if si.Some? {
      if si.value.id.Some? { out := out.(id := si.value.id.value); }
      if si.value.name.Some? { out := out.(name := si.value.name.value); }
    } else if id != "" {
      out := out.(id := id);
    }
  }

  method ConvertWorkspaceDown(w: V3.Identifier) returns (si: Option<V2.ResourceRef>, id: string)
    ensures si == WorkspaceRefDown(w) && id == w.id
  {
    si, id := None, "";
    if w.id != "" || w.name != "" {
      var r := V2.NO_REF;
      if w.id != "" {
        r := r.(id := Some(w.id));
        id := w.id;
      }
      if w.name != "" { r := r.(name := Some(w.name)); }
      si := Some(r);
    }
  }

  // ---- Machine ----

  function MachineImageUp(image: Option<V2.ResourceRef>, imageRef: Option<string>): MachineImage {
    if Has(imageRef) then MachineImage(ImportImage, V3.NO_ID, imageRef.value)
    else if image.Some? then MachineImage(ReferenceImage, IdentifierUp(image.value.id, image.value.name), "")
    else MachineImage(NoImage, V3.NO_ID, "")
  }

  function MachineUp(m: MachineV2): MachineV3 {
    MachineV3(WorkspaceIdUp(m.serviceInstance, m.serviceInstanceID), IdentifierUp(m.network.id, m.network.name),
              MachineImageUp(m.image, m.imageRef), m.shape, Deref(m.providerID))
  }

  function MachineDown(m: MachineV3): MachineV2 {
    MachineV2(m.workspace.id, WorkspaceRefDown(m.workspace),
              if m.image.kind == ReferenceImage then Some(RefDown(m.image.reference)) else None,
              if m.image.kind == ImportImage then Ptr(m.image.importName) else None,
              RefDown(m.network), m.shape, Some(m.providerID))
  }

  method ConvertMachineUp(m: MachineV2) returns (out: MachineV3)
    ensures out == MachineUp(m)
  {
    out := MachineV3(V3.NO_ID, IdentifierUp(m.network.id, m.network.name), MachineImage(NoImage, V3.NO_ID, ""), m.shape,
                     Deref(m.providerID));
    if m.imageRef.Some? && m.imageRef.value != "" {
      out := out.(image := out.image.(kind := ImportImage, importName := m.imageRef.value));
    } else if m.image.Some? {
      out := out.(image := out.image.(kind := ReferenceImage));
      if m.image.value.id.Some? {
        out := out.(image := out.image.(reference := out.image.reference.(id := m.image.value.id.value)));
      }
      if m.image.value.name.Some? {
        out := out.(image := out.image.(reference := out.image.reference.(name := m.image.value.name.value)));
      }
    }
    var w := ConvertWorkspaceUp(m.serviceInstance, m.serviceInstanceID);
    out := out.(workspace := w);
  }

  method ConvertMachineDown(m: MachineV3) returns (out: MachineV2)
    ensures out == MachineDown(m)
  {
    out := MachineV2("", None, None, None, RefDown(m.network), m.shape, Some(m.providerID));
    match m.image.kind {
      case ImportImage =>
        if m.image.importName != "" { out := out.(imageRef := Some(m.image.importName)); }
      case ReferenceImage =>
        var r := V2.NO_REF;
        if m.image.reference.id != "" { r := r.(id := Some(m.image.reference.id)); }
        if m.image.reference.name != "" { r := r.(name := Some(m.image.reference.name)); }
        out := out.(image := Some(r));
      case _ =>
    }
    var si, id := ConvertWorkspaceDown(m.workspace);
    out := out.(serviceInstance := si, serviceInstanceID := id);
  }

  /** The members of the image union agree with its tag. */
  predicate ImageUnionValid(i: MachineImage) {
    match i.kind
    case NoImage => i.reference == V3.NO_ID && i.importName == ""
    case ImportImage => i.reference == V3.NO_ID && i.importName != ""
    case ReferenceImage => i.importName == ""
    case OtherImage(_) => false
  }

  /** No annotation is needed for a machine: the plain trip is the identity exactly on valid unions. */
  lemma MachineRoundTrip(m: MachineV3)
    ensures MachineUp(MachineDown(m)) == m <==> ImageUnionValid(m.image)
  {}

  /** And for every v1beta2 machine the hub machine it produces survives a trip. */
  lemma MachineStable(m: MachineV2)
    ensures MachineUp(MachineDown(MachineUp(m))) == MachineUp(m)
  {
    MachineRoundTrip(MachineUp(m));
  }

  /** On every v1beta2 machine: an import name wins over an image reference, which counts only without one;
      the workspace comes from the reference when there is one, else from the bare ID. */
  lemma MachineUpFields(m: MachineV2)
    ensures var h := MachineUp(m);
            && (h.image.kind == ImportImage <==> Has(m.imageRef))
            && (h.image.kind == ReferenceImage <==> !Has(m.imageRef) && m.image.Some?)
            && (h.image.kind == NoImage <==> !Has(m.imageRef) && m.image.None?)
            && (h.image.kind == ImportImage ==> Some(h.image.importName) == m.imageRef && h.image.reference == V3.NO_ID)
            && (h.image.kind == ReferenceImage ==>
                h.image.importName == "" && h.image.reference.id == Deref(m.image.value.id) && h.image.reference.name == Deref(m.image.value.name))
            && (m.serviceInstance.Some? ==>
                h.workspace.id == Deref(m.serviceInstance.value.id) && h.workspace.name == Deref(m.serviceInstance.value.name))
            && (m.serviceInstance.None? ==> h.workspace.id == m.serviceInstanceID && h.workspace.name == "")
            && h.network.id == Deref(m.network.id) && h.network.name == Deref(m.network.name)
            && h.shape == m.shape && h.providerID == Deref(m.providerID)
  {}

  /** On every hub machine: the workspace ID is stored twice, and the tag alone decides which image field is
      set. */
  lemma MachineDownFields(h: MachineV3)
    ensures var m := MachineDown(h);
            && m.serviceInstanceID == h.workspace.id
            && (m.serviceInstance.None? <==> h.workspace.id == "" && h.workspace.name == "")
            && (m.serviceInstance.Some? ==>
                Deref(m.serviceInstance.value.id) == h.workspace.id && Deref(m.serviceInstance.value.name) == h.workspace.name
                && m.serviceInstance.value.id != Some("") && m.serviceInstance.value.name != Some(""))
            && (m.imageRef.Some? <==> h.image.kind == ImportImage && h.image.importName != "")
            && (m.imageRef.Some? ==> m.imageRef.value == h.image.importName)
            && (m.image.Some? <==> h.image.kind == ReferenceImage)
            && (m.image.Some? ==> Deref(m.image.value.id) == h.image.reference.id && Deref(m.image.value.name) == h.image.reference.name)
            && Deref(m.network.id) == h.network.id && Deref(m.network.name) == h.network.name
            && m.shape == h.shape && m.providerID == Some(h.providerID)
  {}

  // ---- Image ----

  function ImageUp(i: ImageV2): ImageV3 {
    ImageV3(i.clusterName, WorkspaceIdUp(i.serviceInstance, i.serviceInstanceID), Deref(i.bucket), Deref(i.objectName),
            Deref(i.region), i.storageType, i.deletePolicy)
  }

  function ImageDown(i: ImageV3): ImageV2 {
    ImageV2(i.clusterName, i.workspace.id, WorkspaceRefDown(i.workspace), Ptr(i.bucket), Ptr(i.objectName), Ptr(i.region),
            i.storageType, i.deletePolicy)
  }

  method ConvertImageUp(i: ImageV2) returns (out: ImageV3)
    ensures out == ImageUp(i)
  {
    out := ImageV3(i.clusterName, V3.NO_ID, Deref(i.bucket), Deref(i.objectName), Deref(i.region), i.storageType, i.deletePolicy);
    var w := ConvertWorkspaceUp(i.serviceInstance, i.serviceInstanceID);
    out := out.(workspace := w);
  }

  method ConvertImageDown(i: ImageV3) returns (out: ImageV2)
    ensures out == ImageDown(i)
  {
    out := ImageV2(i.clusterName, "", None, Some(i.bucket), Some(i.objectName), Some(i.region), i.storageType, i.deletePolicy);
    if i.bucket == "" { out := out.(bucket := None); }
    if i.objectName == "" { out := out.(objectName := None); }
    if i.region == "" { out := out.(region := None); }
    var si, id := ConvertWorkspaceDown(i.workspace);
    out := out.(serviceInstance := si, serviceInstanceID := id);
  }

  /** On every v1beta2 image: the workspace comes from the reference when there is one, else from the bare
      ID, and every other field from its namesake. */
  lemma ImageUpFields(i: ImageV2)
    ensures var h := ImageUp(i);
            && (i.serviceInstance.Some? ==>
                h.workspace.id == Deref(i.serviceInstance.value.id) && h.workspace.name == Deref(i.serviceInstance.value.name))
            && (i.serviceInstance.None? ==> h.workspace.id == i.serviceInstanceID && h.workspace.name == "")
            && h.clusterName == i.clusterName && h.bucket == Deref(i.bucket) && h.objectName == Deref(i.objectName)
            && h.region == Deref(i.region) && h.storageType == i.storageType && h.deletePolicy == i.deletePolicy
  {}

  /** On every hub image: the workspace ID is stored twice, empty strings become nil. */
  lemma ImageDownFields(h: ImageV3)
    ensures var i := ImageDown(h);
            && i.serviceInstanceID == h.workspace.id
            && (i.serviceInstance.None? <==> h.workspace.id == "" && h.workspace.name == "")
            && (i.serviceInstance.Some? ==>
                Deref(i.serviceInstance.value.id) == h.workspace.id && Deref(i.serviceInstance.value.name) == h.workspace.name)
            && (i.bucket.None? <==> h.bucket == "") && (i.objectName.None? <==> h.objectName == "") && (i.region.None? <==> h.region == "")
            && Deref(i.bucket) == h.bucket && Deref(i.objectName) == h.objectName && Deref(i.region) == h.region
            && i.clusterName == h.clusterName && i.storageType == h.storageType && i.deletePolicy == h.deletePolicy
  {}

  /** Every hub image spec survives, with or without an ID, a name or both. */
  lemma ImageRoundTrip(i: ImageV3)
    ensures ImageUp(ImageDown(i)) == i
  {}
}
