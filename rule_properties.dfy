/**
 * What the rules report, beyond what they accept: which violation wins
 * when there are several, the exact message and the line it is anchored
 * at.
 */
module RuleProperties {
  import opened Optional
  import opened YamlNode
  import opened StrConv
  import opened Helpers
  import opened Schema
  import opened Rules

  /**
   * The messages are built by concatenation and then used as a format
   * string; they reach the output unchanged only when the quoted value has
   * no `%`.
   */
  predicate NoVerbs(s: string) {
    '%' !in s
  }

  // ---- Top level: the order apiVersion, kind, metadata, spec ----

  lemma RootMustBeMapping(root: Node)
    requires WellFormed(root) && root.kind != Mapping
    ensures ValidateTopLevel(root) == Some(Diag(NodeLine(root), "root must be a mapping"))
  {
  }

  predicate ApiVersionOk(root: Node)
    requires WellFormed(root)
  {
    Has(root, "apiVersion") && ScalarIn(Get(root, "apiVersion"), {"v1"})
  }

  predicate KindOk(root: Node)
    requires WellFormed(root)
  {
    Has(root, "kind") && ScalarIn(Get(root, "kind"), {"Pod"})
  }

  /** A missing apiVersion is reported whatever else is wrong. */
  lemma MissingApiVersionReported(root: Node)
    requires WellFormed(root) && root.kind == Mapping && !Has(root, "apiVersion")
    ensures ValidateTopLevel(root) == Some(Diag(NodeLine(root), "apiVersion" + " is required"))
  {
  }

  /** A wrong apiVersion is reported, quoting it, whatever else is wrong. */
  lemma BadApiVersionReported(root: Node)
    requires WellFormed(root) && root.kind == Mapping && Has(root, "apiVersion")
    requires !ScalarIn(Get(root, "apiVersion"), {"v1"}) && NoVerbs(Get(root, "apiVersion").value)
    ensures ValidateTopLevel(root) == Some(Diag(NodeLine(Get(root, "apiVersion")),
      "apiVersion has unsupported value '" + Get(root, "apiVersion").value + "'"))
  {
    assert RequireField(root, "apiVersion") == Ok(Get(root, "apiVersion"));
  }

  lemma MissingKindReported(root: Node)
    requires WellFormed(root) && root.kind == Mapping && ApiVersionOk(root) && !Has(root, "kind")
    ensures ValidateTopLevel(root) == Some(Diag(NodeLine(root), "kind" + " is required"))
  {
    assert RequireField(root, "apiVersion") == Ok(Get(root, "apiVersion"));
    assert Get(root, "apiVersion").kind == Scalar && Get(root, "apiVersion").value == "v1";
  }

  lemma BadKindReported(root: Node)
    requires WellFormed(root) && root.kind == Mapping && ApiVersionOk(root) && Has(root, "kind")
    requires !ScalarIn(Get(root, "kind"), {"Pod"}) && NoVerbs(Get(root, "kind").value)
    ensures ValidateTopLevel(root) == Some(Diag(NodeLine(Get(root, "kind")),
      "kind has unsupported value '" + Get(root, "kind").value + "'"))
  {
    assert RequireField(root, "apiVersion") == Ok(Get(root, "apiVersion"));
    assert Get(root, "apiVersion").kind == Scalar && Get(root, "apiVersion").value == "v1";
    assert RequireField(root, "kind") == Ok(Get(root, "kind"));
  }

  lemma MissingMetadataReported(root: Node)
    requires WellFormed(root) && root.kind == Mapping && ApiVersionOk(root) && KindOk(root)
    requires !Has(root, "metadata")
    ensures ValidateTopLevel(root) == Some(Diag(NodeLine(root), "metadata" + " is required"))
  {
    assert RequireField(root, "apiVersion") == Ok(Get(root, "apiVersion"));
    assert Get(root, "apiVersion").kind == Scalar && Get(root, "apiVersion").value == "v1";
    assert RequireField(root, "kind") == Ok(Get(root, "kind"));
    assert Get(root, "kind").kind == Scalar && Get(root, "kind").value == "Pod";
  }

  /** A bad metadata section masks everything about the spec. */
  lemma BadMetadataReported(root: Node)
    requires WellFormed(root) && root.kind == Mapping && ApiVersionOk(root) && KindOk(root)
    requires Has(root, "metadata") && ValidateMetadata(Get(root, "metadata")).Some?
    ensures ValidateTopLevel(root) == ValidateMetadata(Get(root, "metadata"))
  {
    assert RequireField(root, "apiVersion") == Ok(Get(root, "apiVersion"));
    assert Get(root, "apiVersion").kind == Scalar && Get(root, "apiVersion").value == "v1";
    assert RequireField(root, "kind") == Ok(Get(root, "kind"));
    assert Get(root, "kind").kind == Scalar && Get(root, "kind").value == "Pod";
    assert RequireField(root, "metadata") == Ok(Get(root, "metadata"));
  }

  lemma MissingSpecReported(root: Node)
    requires WellFormed(root) && root.kind == Mapping && ApiVersionOk(root) && KindOk(root)
    requires Has(root, "metadata") && MetadataConforms(Get(root, "metadata"))
    requires !Has(root, "spec")
    ensures ValidateTopLevel(root) == Some(Diag(NodeLine(root), "spec" + " is required"))
  {
    assert RequireField(root, "apiVersion") == Ok(Get(root, "apiVersion"));
    assert Get(root, "apiVersion").kind == Scalar && Get(root, "apiVersion").value == "v1";
    assert RequireField(root, "kind") == Ok(Get(root, "kind"));
    assert Get(root, "kind").kind == Scalar && Get(root, "kind").value == "Pod";
    assert RequireField(root, "metadata") == Ok(Get(root, "metadata"));
  }

  /** Once the first three fields pass, the spec alone decides. */
  lemma SpecCheckedLast(root: Node)
    requires WellFormed(root) && root.kind == Mapping && ApiVersionOk(root) && KindOk(root)
    requires Has(root, "metadata") && MetadataConforms(Get(root, "metadata"))
    requires Has(root, "spec")
    ensures ValidateTopLevel(root) == ValidateSpec(Get(root, "spec"))
  {
    assert RequireField(root, "apiVersion") == Ok(Get(root, "apiVersion"));
    assert Get(root, "apiVersion").kind == Scalar && Get(root, "apiVersion").value == "v1";
    assert RequireField(root, "kind") == Ok(Get(root, "kind"));
    assert Get(root, "kind").kind == Scalar && Get(root, "kind").value == "Pod";
    assert RequireField(root, "metadata") == Ok(Get(root, "metadata"));
    assert RequireField(root, "spec") == Ok(Get(root, "spec"));
  }

  // ---- Fail-fast over sequences ----

  /** The loop reports the first element that fails, in sequence order. */
  lemma {:induction false} FirstFailureAt<T>(xs: seq<T>, check: T --> Option<Diag>, from: nat, i: nat)
    requires forall k | 0 <= k < |xs| :: check.requires(xs[k])
    requires from <= i < |xs| && check(xs[i]).Some?
    requires forall j | from <= j < i :: check(xs[j]).None?
    ensures FirstFailure(xs, check, from) == check(xs[i])
    decreases i - from
  {
    if from < i {
      FirstFailureAt(xs, check, from + 1, i);
    }
  }

  /** Whatever fails, the loop's report is the outcome of some element. */
  lemma {:induction false} FirstFailureIsAnOutcome<T>(xs: seq<T>, check: T --> Option<Diag>, from: nat)
    requires from <= |xs| && forall k | 0 <= k < |xs| :: check.requires(xs[k])
    requires FirstFailure(xs, check, from).Some?
    ensures exists i | from <= i < |xs| ::
      (FirstFailure(xs, check, from) == check(xs[i]) && forall j | from <= j < i :: check(xs[j]).None?)
    decreases |xs| - from
  {
    if check(xs[from]).None? {
      FirstFailureIsAnOutcome(xs, check, from + 1);
    }
  }

  /**
   * With the os section absent or valid, a spec whose containers are a
   * sequence reports the first container that fails.
   */
  lemma SpecReportsFirstFailingContainer(node: Node, i: nat)
    requires WellFormed(node) && node.kind == Mapping
    requires Has(node, "os") ==> PodOSConforms(Get(node, "os"))
    requires Has(node, "containers") && Get(node, "containers").kind == Sequence
    requires i < |Get(node, "containers").content|
    requires ElementsWellFormed(Get(node, "containers"))
    requires ValidateContainer(Get(node, "containers").content[i]).Some?
    requires forall j | 0 <= j < i :: ValidateContainer(Get(node, "containers").content[j]).None?
    ensures ValidateSpec(node) == ValidateContainer(Get(node, "containers").content[i])
  {
    var containers := Get(node, "containers");
    assert RequireField(node, "containers") == Ok(containers);
    FirstFailureAt(containers.content, ValidateContainer, 0, i);
  }

  /** An os section that fails masks everything about the containers. */
  lemma OSCheckedBeforeContainers(node: Node)
    requires WellFormed(node) && node.kind == Mapping
    requires Has(node, "os") && ValidatePodOS(Get(node, "os")).Some?
    ensures ValidateSpec(node) == ValidatePodOS(Get(node, "os"))
  {
  }

  lemma OSNameReported(node: Node)
    requires WellFormed(node) && node.kind == Mapping && Has(node, "name")
    requires Get(node, "name").kind == Scalar && !ScalarIn(Get(node, "name"), {"linux", "windows"})
    requires NoVerbs(Get(node, "name").value)
    ensures ValidatePodOS(node) == Some(Diag(NodeLine(Get(node, "name")),
      "spec.os.name has unsupported value '" + Get(node, "name").value + "'"))
  {
  }

  // ---- Containers ----

  lemma ContainerNameReported(node: Node)
    requires WellFormed(node) && node.kind == Mapping && Has(node, "name")
    requires Get(node, "name").kind == Scalar && !SnakeCaseName(Get(node, "name").value)
    requires NoVerbs(Get(node, "name").value)
    ensures ValidateContainer(node) == Some(Diag(NodeLine(Get(node, "name")),
      "containers.name has invalid format '" + Get(node, "name").value + "'"))
  {
  }

  lemma ImageReported(node: Node)
    requires WellFormed(node) && node.kind == Mapping
    requires Has(node, "name") && Get(node, "name").kind == Scalar && SnakeCaseName(Get(node, "name").value)
    requires Has(node, "image") && Get(node, "image").kind == Scalar && !ImageReference(Get(node, "image").value)
    requires NoVerbs(Get(node, "image").value)
    ensures ValidateContainer(node) == Some(Diag(NodeLine(Get(node, "image")),
      "containers.image has invalid format '" + Get(node, "image").value + "'"))
  {
  }

  /** A valid name and image; the optional sections come next. */
  predicate ContainerHeadConforms(node: Node)
    requires WellFormed(node)
  {
    node.kind == Mapping
    && Has(node, "name") && Get(node, "name").kind == Scalar && SnakeCaseName(Get(node, "name").value)
    && Has(node, "image") && Get(node, "image").kind == Scalar && ImageReference(Get(node, "image").value)
  }

  /** ports, then readinessProbe, then livenessProbe, then resources. */
  lemma ContainerSectionOrder(node: Node)
    requires WellFormed(node) && ContainerHeadConforms(node)
    ensures ValidatePortsIn(node).Some? ==> ValidateContainer(node) == ValidatePortsIn(node)
    ensures ValidatePortsIn(node).None? && Has(node, "readinessProbe") && ValidateProbe(Get(node, "readinessProbe")).Some? ==>
      ValidateContainer(node) == ValidateProbe(Get(node, "readinessProbe"))
    ensures ValidatePortsIn(node).None? && ValidateProbesIn(node).Some? ==>
      ValidateContainer(node) == ValidateProbesIn(node)
    ensures ValidatePortsIn(node).None? && ValidateProbesIn(node).None? ==>
      ValidateContainer(node) ==
        if Has(node, "resources") then ValidateResources(Get(node, "resources"))
        else Some(Diag(NodeLine(node), "resources" + " is required"))
  {
    assert RequireField(node, "name") == Ok(Get(node, "name"));
    assert RequireField(node, "image") == Ok(Get(node, "image"));
  }

  /** readinessProbe is checked before livenessProbe; each only when present. */
  lemma ProbesInOrder(node: Node)
    requires WellFormed(node)
    ensures Has(node, "readinessProbe") && ValidateProbe(Get(node, "readinessProbe")).Some? ==>
      ValidateProbesIn(node) == ValidateProbe(Get(node, "readinessProbe"))
    ensures (Has(node, "readinessProbe") ==> ProbeConforms(Get(node, "readinessProbe"))) ==>
      ValidateProbesIn(node) ==
        if Has(node, "livenessProbe") then ValidateProbe(Get(node, "livenessProbe")) else None
  {
    var names := ProbeNames;
    assert names[0] == "readinessProbe" && names[1] == "livenessProbe" && |names| == 2;
    var ready := ValidateProbeIn(node, "readinessProbe");
    var live := ValidateProbeIn(node, "livenessProbe");
    assert FirstFailingName(node, names, ValidateProbeIn, 2) == None;
    assert FirstFailingName(node, names, ValidateProbeIn, 1) == live;
    assert ValidateProbesIn(node) == if ready.Some? then ready else live;
  }

  // ---- Ports ----

  /** A bad number and an out-of-range one give the same message. */
  lemma ContainerPortReported(node: Node)
    requires WellFormed(node) && node.kind == Mapping && Has(node, "containerPort")
    requires Get(node, "containerPort").kind == Scalar && !PortNumber(Get(node, "containerPort").value)
    ensures ValidatePort(node) == Some(Diag(NodeLine(Get(node, "containerPort")), "containerPort value out of range"))
  {
  }

  lemma HTTPGetPortReported(node: Node)
    requires WellFormed(node) && node.kind == Mapping
    requires Has(node, "path") && Get(node, "path").kind == Scalar && HasPrefix(Get(node, "path").value, "/")
    requires Has(node, "port") && Get(node, "port").kind == Scalar && !PortNumber(Get(node, "port").value)
    ensures ValidateHTTPGet(node) == Some(Diag(NodeLine(Get(node, "port")), "port value out of range"))
  {
  }

  lemma PortAcceptedExamples()
    ensures PortNumber("80") && PortNumber("+80") && PortNumber("65535") && PortNumber("0080")
  {
    assert DigitsValue("8") == 8;
    assert DigitsValue("80") == 80;
    assert Atoi("80") == Some(80);
    assert "+80"[1..] == "80";
    assert Atoi("+80") == Some(80);
    DigitsOf6553();
    assert "65535"[..4] == "6553";
    assert DigitsValue("65535") == 65535;
    assert Atoi("65535") == Some(65535);
    assert DigitsValue("0") == 0;
    assert DigitsValue("00") == 0;
    assert DigitsValue("008") == 8;
    assert "0080"[..3] == "008" && "008"[..2] == "00";
    assert DigitsValue("0080") == 80;
    assert Atoi("0080") == Some(80);
  }

  lemma PortRejectedExamples()
    ensures !PortNumber("0") && !PortNumber("65536") && !PortNumber("-1") && !PortNumber("")
  {
    DigitsOf6553();
    assert "65536"[..4] == "6553";
    assert DigitsValue("65536") == 65536;
    assert Atoi("65536") == Some(65536);
    assert DigitsValue("0") == 0;
    assert Atoi("0") == Some(0);
    assert "-1"[1..] == "1";
    assert Atoi("-1") == Some(-1);
  }

  lemma DigitsOf6553()
    ensures DigitsValue("6553") == 6553
  {
    assert DigitsValue("6") == 6;
    assert DigitsValue("65") == 65;
    assert DigitsValue("655") == 655;
    assert "6553"[..3] == "655" && "655"[..2] == "65" && "65"[..1] == "6";
  }

  /** No blanks, no base prefix, no digit separators. */
  lemma PortSyntaxExamples()
    ensures !PortNumber(" 80") && !PortNumber("80 ") && !PortNumber("0x50") && !PortNumber("8_0") && !PortNumber("8O")
  {
    assert !IsDigit(" 80"[0]) && !IsSign(" 80"[0]);
    assert !IsDigit("80 "[2]);
    assert !IsDigit("0x50"[1]);
    assert !IsDigit("8_0"[1]);
    assert !IsDigit("8O"[1]);
  }

  // ---- Resources ----

  /** A memory quantity is never shorter than three characters: the length test only rejects what the others would. */
  lemma MemoryQuantityAtLeastThree(m: string)
    requires MemoryQuantity(m)
    ensures |m| >= 3
  {
  }

  lemma MemoryAcceptedExamples()
    ensures MemoryQuantity("128Mi") && MemoryQuantity("1Gi") && MemoryQuantity("-5Mi") && MemoryQuantity("+0Ki")
  {
    assert "128Mi"[..3] == "128";
    assert DigitsValue("1") == 1;
    assert DigitsValue("12") == 12;
    assert DigitsValue("128") == 128;
    assert Atoi("128") == Some(128);
    assert "1Gi"[..1] == "1";
    assert Atoi("1") == Some(1);
    assert "-5Mi"[..2] == "-5";
    assert Atoi("-5") == Some(-5);
    assert "+0Ki"[..2] == "+0";
    assert Atoi("+0") == Some(0);
  }

  lemma MemoryRejectedExamples()
    ensures !MemoryQuantity("100") && !MemoryQuantity("10Xi") && !MemoryQuantity("Mi") && !MemoryQuantity("1.5Gi")
    ensures !MemoryQuantity("128M") && !MemoryQuantity("5 Mi")
  {
    assert "1.5Gi"[..3] == "1.5" && !IsDigit("1.5"[1]);
    assert "5 Mi"[..2] == "5 ";
  }

  lemma MemoryReported(sec: string, mem: Node)
    requires mem.kind == Scalar && !MemoryQuantity(mem.value) && NoVerbs(mem.value)
    ensures ValidateMemory(sec, mem) == Some(Diag(NodeLine(mem),
      "resources." + sec + ".memory has invalid format '" + mem.value + "'"))
  {
  }

  /** Within a section, cpu is checked before memory; each only when present. */
  lemma SectionFieldOrder(sec: string, n: Node)
    requires WellFormed(n) && n.kind == Mapping
    ensures Has(n, "cpu") && ValidateCpu(sec, Get(n, "cpu")).Some? ==>
      ValidateSection(sec, n) == ValidateCpu(sec, Get(n, "cpu"))
    ensures (Has(n, "cpu") ==> ValidateCpu(sec, Get(n, "cpu")).None?) ==>
      ValidateSection(sec, n) == if Has(n, "memory") then ValidateMemory(sec, Get(n, "memory")) else None
  {
  }

  /**
   * A bad `resources.limits.memory`, behind a valid or absent `requests` and
   * a valid or absent cpu, is what the resources report, naming the section.
   */
  lemma LimitsMemoryReported(node: Node)
    requires WellFormed(node) && node.kind == Mapping
    requires Has(node, "requests") ==> SectionConforms(Get(node, "requests"))
    requires Has(node, "limits") && WellFormed(Get(node, "limits")) && Get(node, "limits").kind == Mapping
    requires var limits := Get(node, "limits");
      (Has(limits, "cpu") ==> ValidateCpu("limits", Get(limits, "cpu")).None?)
      && Has(limits, "memory") && Get(limits, "memory").kind == Scalar
      && !MemoryQuantity(Get(limits, "memory").value) && NoVerbs(Get(limits, "memory").value)
    ensures var mem := Get(Get(node, "limits"), "memory");
      ValidateResources(node) ==
        Some(Diag(NodeLine(mem), "resources." + "limits" + ".memory has invalid format '" + mem.value + "'"))
  {
    var limits := Get(node, "limits");
    ChildrenWellFormed(node);
    SectionsInOrder(node);
    SectionFieldOrder("limits", limits);
    MemoryReported("limits", Get(limits, "memory"));
  }

  /** requests is checked before limits; each only when present. */
  lemma SectionsInOrder(node: Node)
    requires WellFormed(node) && node.kind == Mapping
    ensures Has(node, "requests") && ValidateSection("requests", Get(node, "requests")).Some? ==>
      ValidateResources(node) == ValidateSection("requests", Get(node, "requests"))
    ensures (Has(node, "requests") ==> SectionConforms(Get(node, "requests"))) ==>
      ValidateResources(node) ==
        if Has(node, "limits") then ValidateSection("limits", Get(node, "limits")) else None
  {
    var secs := ResourceSections;
    assert secs[0] == "requests" && secs[1] == "limits" && |secs| == 2;
    var requests := ValidateSectionIn(node, "requests");
    var limits := ValidateSectionIn(node, "limits");
    assert FirstFailingName(node, secs, ValidateSectionIn, 2) == None;
    assert FirstFailingName(node, secs, ValidateSectionIn, 1) == limits;
    assert ValidateResources(node) == if requests.Some? then requests else limits;
  }
}
