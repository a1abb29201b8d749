/**
 * The schema rules: one function per `validate*` procedure, each a chain
 * of early returns over an immutable node. `None` is success; `Some(d)` is
 * the single diagnostic of the first violation met.
 */
module Rules {
  import opened Optional
  import opened YamlNode
  import opened StrConv
  import opened Helpers
  import opened Schema

  /** Errorf on a node that is present. */
  function Reject(n: Node, msg: string): Option<Diag> {
    Some(Errorf(Some(n), msg))
  }

  /** The regular expression `^[a-z0-9_]+$`: one class character, then the rest of the match. */
  function MatchesSnakeCase(s: string): (b: bool)
    ensures b <==> SnakeCaseName(s)
  {
    |s| > 0 && IsSnakeChar(s[0]) && (|s| == 1 || MatchesSnakeCase(s[1..]))
  }

  /** strings.HasPrefix */
  predicate HasPrefix(s: string, prefix: string) {
    |prefix| <= |s| && s[..|prefix|] == prefix
  }

  /** The image test of validateContainer: the registry prefix and a ':' anywhere. */
  function ImageAccepted(image: string): (b: bool)
    ensures b <==> ImageReference(image)
  {
    HasPrefix(image, ImagePrefix) && ':' in image
  }

  /** The port test shared by containerPort and httpGet.port. */
  function PortAccepted(s: string): (b: bool)
    ensures b <==> PortNumber(s)
  {
    var p := Atoi(s);
    !(p.None? || p.value <= 0 || p.value >= 65536)
  }

  /**
   * A `for ... range` loop over `xs` whose body returns the first error:
   * the outcome of the first element from position `from` on that `check`
   * rejects, or None when it accepts them all.
   */
  function FirstFailure<T>(xs: seq<T>, check: T --> Option<Diag>, from: nat): (r: Option<Diag>)
    requires from <= |xs| && forall i | 0 <= i < |xs| :: check.requires(xs[i])
    ensures r.None? <==> forall i | from <= i < |xs| :: check(xs[i]).None?
    decreases |xs| - from
  {
    if from == |xs| then None
    else
      var first := check(xs[from]);
      if first.Some? then first else FirstFailure(xs, check, from + 1)
  }

  /**
   * The same loop over a fixed list of field names of one mapping, as in
   * `for _, sec := range []string{"requests", "limits"}`.
   */
  function FirstFailingName(node: Node, names: seq<string>, check: (Node, string) --> Option<Diag>, from: nat): (r: Option<Diag>)
    requires from <= |names| && forall i | 0 <= i < |names| :: check.requires(node, names[i])
    ensures r.None? <==> forall i | from <= i < |names| :: check(node, names[i]).None?
    decreases |names| - from
  {
    if from == |names| then None
    else
      var first := check(node, names[from]);
      if first.Some? then first else FirstFailingName(node, names, check, from + 1)
  }

  function ValidateTopLevel(root: Node): (r: Option<Diag>)
    requires WellFormed(root)
    ensures r.None? <==> PodConforms(root)
  {
    if root.kind != Mapping then Reject(root, "root must be a mapping")
    else match RequireField(root, "apiVersion")
      case Err(d) => Some(d)
      case Ok(apiVersion) =>
        if apiVersion.kind != Scalar || apiVersion.value != "v1" then
          Reject(apiVersion, "apiVersion has unsupported value '" + apiVersion.value + "'")
        else match RequireField(root, "kind")
          case Err(d) => Some(d)
          case Ok(kind) =>
            if kind.kind != Scalar || kind.value != "Pod" then
              Reject(kind, "kind has unsupported value '" + kind.value + "'")
            else match RequireField(root, "metadata")
              case Err(d) => Some(d)
              case Ok(metadata) =>
                var m := ValidateMetadata(metadata);
                if m.Some? then m
                else match RequireField(root, "spec")
                  case Err(d) => Some(d)
                  case Ok(spec) => ValidateSpec(spec)
  }

  function ValidateMetadata(node: Node): (r: Option<Diag>)
    requires WellFormed(node)
    ensures r.None? <==> MetadataConforms(node)
  {
    if node.kind != Mapping then Reject(node, "metadata must be object")
    else match RequireField(node, "name")
      case Err(d) => Some(d)
      case Ok(nameNode) =>
        if nameNode.kind != Scalar then Reject(nameNode, "metadata.name must be string")
        else None
  }

  function ValidateSpec(node: Node): (r: Option<Diag>)
    requires WellFormed(node)
    ensures r.None? <==> SpecConforms(node)
  {
    if node.kind != Mapping then Reject(node, "spec must be object")
    else
      var os := match MappingValue(node, "os")
        case Some(osNode) => ValidatePodOS(osNode)
        case None => None;
      if os.Some? then os
      else match RequireField(node, "containers")
        case Err(d) => Some(d)
        case Ok(containers) =>
          if containers.kind != Sequence then Reject(containers, "spec.containers must be array")
          else ValidateContainers(containers)
  }

  /** The loop over `spec.containers`. */
  function ValidateContainers(containers: Node): (r: Option<Diag>)
    requires WellFormed(containers)
    ensures r.None? <==> (ElementsWellFormed(containers) &&
      forall i | 0 <= i < |containers.content| :: ContainerConforms(containers.content[i]))
  {
    ChildrenWellFormed(containers);
    FirstFailure(containers.content, ValidateContainer, 0)
  }

  function ValidatePodOS(node: Node): (r: Option<Diag>)
    requires WellFormed(node)
    ensures r.None? <==> PodOSConforms(node)
  {
    if node.kind != Mapping then Reject(node, "spec.os must be object")
    else match RequireField(node, "name")
      case Err(d) => Some(d)
      case Ok(nameNode) =>
        if nameNode.kind != Scalar then Reject(nameNode, "spec.os.name must be string")
        else if nameNode.value != "linux" && nameNode.value != "windows" then
          Reject(nameNode, "spec.os.name has unsupported value '" + nameNode.value + "'")
        else None
  }

  function ValidateContainer(node: Node): (r: Option<Diag>)
    requires WellFormed(node)
    ensures r.None? <==> ContainerConforms(node)
  {
    if node.kind != Mapping then Reject(node, "container must be object")
    else match RequireField(node, "name")
      case Err(d) => Some(d)
      case Ok(nameNode) =>
        if nameNode.kind != Scalar then Reject(nameNode, "containers.name must be string")
        else if !MatchesSnakeCase(nameNode.value) || nameNode.value == "" then
          Reject(nameNode, "containers.name has invalid format '" + nameNode.value + "'")
        else match RequireField(node, "image")
          case Err(d) => Some(d)
          case Ok(imageNode) =>
            if imageNode.kind != Scalar then Reject(imageNode, "containers.image must be string")
            else if !ImageAccepted(imageNode.value) then
              Reject(imageNode, "containers.image has invalid format '" + imageNode.value + "'")
            else
              var ports := ValidatePortsIn(node);
              if ports.Some? then ports
              else
                var probes := ValidateProbesIn(node);
                if probes.Some? then probes
                else match RequireField(node, "resources")
                  case Err(d) => Some(d)
                  case Ok(resNode) => ValidateResources(resNode)
  }

  /** The optional `ports` list of a container, each item checked in order. */
  function ValidatePortsIn(node: Node): (r: Option<Diag>)
    requires WellFormed(node)
    ensures r.None? <==> (Has(node, "ports") ==>
      Get(node, "ports").kind == Sequence
      && ElementsWellFormed(Get(node, "ports"))
      && forall i | 0 <= i < |Get(node, "ports").content| :: PortConforms(Get(node, "ports").content[i]))
  {
    match MappingValue(node, "ports")
    case None => None
    case Some(ports) =>
      if ports.kind != Sequence then Reject(ports, "containers.ports must be array")
      else
        ChildrenWellFormed(ports);
        FirstFailure(ports.content, ValidatePort, 0)
  }

  /** readinessProbe, then livenessProbe, each checked when present. */
  function ValidateProbesIn(node: Node): (r: Option<Diag>)
    requires WellFormed(node)
    ensures r.None? <==>
      (Has(node, "readinessProbe") ==> ProbeConforms(Get(node, "readinessProbe"))) &&
      (Has(node, "livenessProbe") ==> ProbeConforms(Get(node, "livenessProbe")))
  {
    assert ProbeNames[0] == "readinessProbe" && ProbeNames[1] == "livenessProbe";
    FirstFailingName(node, ProbeNames, ValidateProbeIn, 0)
  }

  /** One optional probe of a container, checked when present. */
  function ValidateProbeIn(node: Node, name: string): (r: Option<Diag>)
    requires WellFormed(node)
    ensures r.None? <==> (Has(node, name) ==> ProbeConforms(Get(node, name)))
  {
    match MappingValue(node, name)
    case None => None
    case Some(probe) => ValidateProbe(probe)
  }

  function ValidatePort(node: Node): (r: Option<Diag>)
    requires WellFormed(node)
    ensures r.None? <==> PortConforms(node)
  {
    if node.kind != Mapping then Reject(node, "port item must be object")
    else match RequireField(node, "containerPort")
      case Err(d) => Some(d)
      case Ok(portNode) =>
        if portNode.kind != Scalar then Reject(portNode, "containerPort must be int")
        else if !PortAccepted(portNode.value) then Reject(portNode, "containerPort value out of range")
        else match MappingValue(node, "protocol")
          case None => None
          case Some(proto) =>
            if proto.kind != Scalar then Reject(proto, "protocol must be string")
            else if proto.value != "TCP" && proto.value != "UDP" then
              Reject(proto, "protocol has unsupported value '" + proto.value + "'")
            else None
  }

  function ValidateProbe(node: Node): (r: Option<Diag>)
    requires WellFormed(node)
    ensures r.None? <==> ProbeConforms(node)
  {
    if node.kind != Mapping then Reject(node, "probe must be object")
    else match RequireField(node, "httpGet")
      case Err(d) => Some(d)
      case Ok(getNode) => ValidateHTTPGet(getNode)
  }

  function ValidateHTTPGet(node: Node): (r: Option<Diag>)
    requires WellFormed(node)
    ensures r.None? <==> HTTPGetConforms(node)
  {
    if node.kind != Mapping then Reject(node, "httpGet must be object")
    else match RequireField(node, "path")
      case Err(d) => Some(d)
      case Ok(pathNode) =>
        if pathNode.kind != Scalar then Reject(pathNode, "path must be string")
        else
          assert HasPrefix(pathNode.value, "/") <==> |pathNode.value| > 0 && pathNode.value[0] == '/';
          if !HasPrefix(pathNode.value, "/") then
          Reject(pathNode, "path has invalid format '" + pathNode.value + "'")
        else match RequireField(node, "port")
          case Err(d) => Some(d)
          case Ok(portNode) =>
            if portNode.kind != Scalar then Reject(portNode, "port must be int")
            else if !PortAccepted(portNode.value) then Reject(portNode, "port value out of range")
            else None
  }

  function ValidateResources(node: Node): (r: Option<Diag>)
    requires WellFormed(node)
    ensures r.None? <==> ResourcesConforms(node)
  {
    if node.kind != Mapping then Reject(node, "resources must be object")
    else
      assert ResourceSections[0] == "requests" && ResourceSections[1] == "limits";
      FirstFailingName(node, ResourceSections, ValidateSectionIn, 0)
  }

  /** One optional section (`requests` or `limits`), checked when present. */
  function ValidateSectionIn(node: Node, sec: string): (r: Option<Diag>)
    requires WellFormed(node)
    ensures r.None? <==> (Has(node, sec) ==> SectionConforms(Get(node, sec)))
  {
    match MappingValue(node, sec)
    case None => None
    case Some(secNode) => ValidateSection(sec, secNode)
  }

  function ValidateSection(sec: string, secNode: Node): (r: Option<Diag>)
    requires WellFormed(secNode)
    ensures r.None? <==> SectionConforms(secNode)
  {
    if secNode.kind != Mapping then Reject(secNode, "resources." + sec + " must be object")
    else
      var cpu := match MappingValue(secNode, "cpu")
        case None => None
        case Some(cpuNode) => ValidateCpu(sec, cpuNode);
      if cpu.Some? then cpu
      else match MappingValue(secNode, "memory")
        case None => None
        case Some(memNode) => ValidateMemory(sec, memNode)
  }

  function ValidateCpu(sec: string, cpu: Node): (r: Option<Diag>)
    ensures r.None? <==> cpu.kind == Scalar && Atoi(cpu.value).Some?
  {
    if cpu.kind != Scalar then Reject(cpu, "resources." + sec + ".cpu must be int")
    else if Atoi(cpu.value).None? then Reject(cpu, "resources." + sec + ".cpu must be int")
    else None
  }

  function ValidateMemory(sec: string, mem: Node): (r: Option<Diag>)
    ensures r.None? <==> mem.kind == Scalar && MemoryQuantity(mem.value)
  {
    if mem.kind != Scalar then Reject(mem, "resources." + sec + ".memory must be string")
    else
      var m := mem.value;
      var bad := "resources." + sec + ".memory has invalid format '" + m + "'";
      if |m| < 3 then Reject(mem, bad)
      else
        var suf := m[|m| - 2..];
        if suf != "Ki" && suf != "Mi" && suf != "Gi" then Reject(mem, bad)
        else if Atoi(m[..|m| - 2]).None? then Reject(mem, bad)
        else None
  }
}
