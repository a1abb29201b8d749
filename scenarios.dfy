/**
 * Whole manifests, built as the parser would build them, with the outcome
 * the validator gives each:
 *
 *   apiVersion: v1                 # line 1
 *   kind: <kind>                   # line 2
 *   metadata:
 *     name: web                    # line 4
 *   spec:
 *     containers:                  # line 6
 *       - name: <name>             # line 7
 *         image: <image>           # line 8
 *         resources: {}            # line 9
 */
module Scenarios {
  import opened Optional
  import opened YamlNode
  import opened Helpers
  import opened Schema
  import opened Rules
  import opened StrConv

  function ScalarAt(value: string, line: int): Node {
    Node(Scalar, value, line, [])
  }

  function Map(line: int, pairs: seq<Node>): Node {
    Node(Mapping, "", line, pairs)
  }

  function Container(name: string, image: string): Node {
    Map(7, [ScalarAt("name", 7), ScalarAt(name, 7),
            ScalarAt("image", 8), ScalarAt(image, 8),
            ScalarAt("resources", 9), Map(9, [])])
  }

  function Metadata(): Node {
    Map(4, [ScalarAt("name", 4), ScalarAt("web", 4)])
  }

  function Spec(name: string, image: string): Node {
    Map(6, [ScalarAt("containers", 6), Node(Sequence, "", 7, [Container(name, image)])])
  }

  function Pod(kind: string, name: string, image: string): Node {
    Map(1, [ScalarAt("apiVersion", 1), ScalarAt("v1", 1),
            ScalarAt("kind", 2), ScalarAt(kind, 2),
            ScalarAt("metadata", 3), Metadata(),
            ScalarAt("spec", 5), Spec(name, image)])
  }

  lemma ContainerKeys(name: string, image: string)
    ensures WellFormed(Container(name, image))
    ensures Has(Container(name, image), "name") && Get(Container(name, image), "name") == ScalarAt(name, 7)
    ensures Has(Container(name, image), "image") && Get(Container(name, image), "image") == ScalarAt(image, 8)
    ensures Has(Container(name, image), "resources") && Get(Container(name, image), "resources") == Map(9, [])
  {
    var c := Container(name, image);
    assert FirstKeyAt(c.content, "name", 0);
    assert FirstKeyAt(c.content, "image", 2);
    assert FirstKeyAt(c.content, "resources", 4);
  }

  lemma ContainerWithoutOptional(name: string, image: string)
    ensures WellFormed(Container(name, image))
    ensures !Has(Container(name, image), "ports")
    ensures !Has(Container(name, image), "readinessProbe") && !Has(Container(name, image), "livenessProbe")
  {
  }

  /** A container with a valid name and image, empty resources and nothing optional conforms. */
  lemma BareContainerConforms(c: Node)
    requires WellFormed(c) && c.kind == Mapping
    requires Has(c, "name") && Get(c, "name").kind == Scalar && SnakeCaseName(Get(c, "name").value)
    requires Has(c, "image") && Get(c, "image").kind == Scalar && ImageReference(Get(c, "image").value)
    requires Has(c, "resources") && Get(c, "resources") == Map(9, [])
    requires !Has(c, "ports") && !Has(c, "readinessProbe") && !Has(c, "livenessProbe")
    ensures ContainerConforms(c)
  {
  }

  lemma ContainerAccepted(name: string, image: string)
    requires SnakeCaseName(name) && ImageReference(image)
    ensures WellFormed(Container(name, image)) && ContainerConforms(Container(name, image))
  {
    ContainerKeys(name, image);
    ContainerWithoutOptional(name, image);
    BareContainerConforms(Container(name, image));
  }

  /** A spec without os whose containers are exactly one conforming container conforms. */
  lemma SingleContainerSpecConforms(spec: Node, c: Node)
    requires WellFormed(spec) && spec.kind == Mapping && !Has(spec, "os") && Has(spec, "containers")
    requires Get(spec, "containers") == Node(Sequence, "", 7, [c])
    requires WellFormed(c) && ContainerConforms(c)
    ensures SpecConforms(spec)
  {
  }

  lemma SpecKeys(name: string, image: string)
    ensures WellFormed(Spec(name, image)) && Has(Spec(name, image), "containers") && !Has(Spec(name, image), "os")
    ensures Get(Spec(name, image), "containers") == Node(Sequence, "", 7, [Container(name, image)])
  {
    ContainerKeys(name, image);
    assert FirstKeyAt(Spec(name, image).content, "containers", 0);
  }

  lemma SpecAccepted(name: string, image: string)
    requires SnakeCaseName(name) && ImageReference(image)
    ensures WellFormed(Spec(name, image)) && SpecConforms(Spec(name, image))
  {
    SpecKeys(name, image);
    ContainerAccepted(name, image);
    SingleContainerSpecConforms(Spec(name, image), Container(name, image));
  }

  lemma MetadataAccepted()
    ensures WellFormed(Metadata()) && MetadataConforms(Metadata())
  {
    assert FirstKeyAt(Metadata().content, "name", 0);
  }

  lemma PodWellFormed(kind: string, name: string, image: string)
    ensures WellFormed(Pod(kind, name, image))
  {
    SpecKeys(name, image);
    MetadataAccepted();
  }

  lemma PodKeys(kind: string, name: string, image: string)
    ensures WellFormed(Pod(kind, name, image))
    ensures Has(Pod(kind, name, image), "apiVersion") && Get(Pod(kind, name, image), "apiVersion") == ScalarAt("v1", 1)
    ensures Has(Pod(kind, name, image), "kind") && Get(Pod(kind, name, image), "kind") == ScalarAt(kind, 2)
  {
    PodWellFormed(kind, name, image);
    var pod := Pod(kind, name, image);
    assert FirstKeyAt(pod.content, "apiVersion", 0);
    assert FirstKeyAt(pod.content, "kind", 2);
  }

  lemma PodSections(kind: string, name: string, image: string)
    ensures WellFormed(Pod(kind, name, image))
    ensures Has(Pod(kind, name, image), "metadata") && Get(Pod(kind, name, image), "metadata") == Metadata()
    ensures Has(Pod(kind, name, image), "spec") && Get(Pod(kind, name, image), "spec") == Spec(name, image)
  {
    PodWellFormed(kind, name, image);
    var pod := Pod(kind, name, image);
    assert FirstKeyAt(pod.content, "metadata", 4);
    assert FirstKeyAt(pod.content, "spec", 6);
  }

  /** A root whose four fields are as shown conforms. */
  lemma PodOfParts(root: Node, metadata: Node, spec: Node)
    requires WellFormed(root) && root.kind == Mapping
    requires Has(root, "apiVersion") && Get(root, "apiVersion") == ScalarAt("v1", 1)
    requires Has(root, "kind") && Get(root, "kind") == ScalarAt("Pod", 2)
    requires Has(root, "metadata") && Get(root, "metadata") == metadata && MetadataConforms(metadata)
    requires Has(root, "spec") && Get(root, "spec") == spec && SpecConforms(spec)
    ensures PodConforms(root)
  {
  }

  /** The smallest pods the validator accepts: one container with a valid name, a valid image and resources. */
  lemma MinimalPodAccepted(name: string, image: string)
    requires SnakeCaseName(name) && ImageReference(image)
    ensures WellFormed(Pod("Pod", name, image)) && ValidateTopLevel(Pod("Pod", name, image)) == None
  {
    PodKeys("Pod", name, image);
    PodSections("Pod", name, image);
    MetadataAccepted();
    SpecAccepted(name, image);
    PodOfParts(Pod("Pod", name, image), Metadata(), Spec(name, image));
  }

  /**
   * Any other kind is refused at the kind's line, quoting it; the rest of the
   * document is never looked at. A kind holding '%' is excluded: Go would read
   * it as a formatting verb.
   */
  lemma OtherKindRefused(kind: string, name: string, image: string)
    requires kind != "Pod" && '%' !in kind
    ensures WellFormed(Pod(kind, name, image))
    ensures ValidateTopLevel(Pod(kind, name, image)) ==
      Some(Diag(2, "kind has unsupported value '" + kind + "'"))
  {
    PodKeys(kind, name, image);
    var pod := Pod(kind, name, image);
    assert RequireField(pod, "apiVersion") == Ok(ScalarAt("v1", 1));
    assert RequireField(pod, "kind") == Ok(ScalarAt(kind, 2));
  }

  /** What the user sees for it: the file name and the kind's line, then the message. */
  lemma OtherKindRendered(kind: string, name: string, image: string)
    requires kind != "Pod" && '%' !in kind
    ensures WellFormed(Pod(kind, name, image))
    ensures ValidateTopLevel(Pod(kind, name, image)).Some?
    ensures Render("pod.yaml", ValidateTopLevel(Pod(kind, name, image)).value) ==
      "pod.yaml" + ":" + "2" + " " + ("kind has unsupported value '" + kind + "'") + "\n"
  {
    OtherKindRefused(kind, name, image);
    assert Decimal(2) == "2";
  }

  /** A Deployment sent where a Pod was expected. */
  lemma DeploymentRefused()
    ensures WellFormed(Pod("Deployment", "web", "registry.bigbrother.io/web:1.0"))
    ensures ValidateTopLevel(Pod("Deployment", "web", "registry.bigbrother.io/web:1.0")) ==
      Some(Diag(2, "kind has unsupported value '" + "Deployment" + "'"))
  {
    OtherKindRefused("Deployment", "web", "registry.bigbrother.io/web:1.0");
  }

  /** The same header with no spec at all. */
  function PodWithoutSpec(): Node {
    Map(1, [ScalarAt("apiVersion", 1), ScalarAt("v1", 1),
            ScalarAt("kind", 2), ScalarAt("Pod", 2),
            ScalarAt("metadata", 3), Metadata()])
  }

  lemma PodWithoutSpecKeys()
    ensures WellFormed(PodWithoutSpec())
    ensures Has(PodWithoutSpec(), "apiVersion") && Get(PodWithoutSpec(), "apiVersion") == ScalarAt("v1", 1)
    ensures Has(PodWithoutSpec(), "kind") && Get(PodWithoutSpec(), "kind") == ScalarAt("Pod", 2)
    ensures Has(PodWithoutSpec(), "metadata") && Get(PodWithoutSpec(), "metadata") == Metadata()
  {
    MetadataAccepted();
    var pod := PodWithoutSpec();
    assert FirstKeyAt(pod.content, "apiVersion", 0);
    assert FirstKeyAt(pod.content, "kind", 2);
    assert FirstKeyAt(pod.content, "metadata", 4);
  }

  lemma PodWithoutSpecLacksSpec()
    ensures WellFormed(PodWithoutSpec()) && !Has(PodWithoutSpec(), "spec")
  {
    MetadataAccepted();
  }

  /** A missing spec is reported at the line of the root mapping, the parent of the absent key. */
  lemma MissingSpecRefused()
    ensures WellFormed(PodWithoutSpec())
    ensures ValidateTopLevel(PodWithoutSpec()) == Some(Diag(1, "spec" + " is required"))
  {
    PodWithoutSpecKeys();
    PodWithoutSpecLacksSpec();
    MetadataAccepted();
    var pod := PodWithoutSpec();
    assert RequireField(pod, "apiVersion") == Ok(ScalarAt("v1", 1));
    assert RequireField(pod, "kind") == Ok(ScalarAt("Pod", 2));
    assert RequireField(pod, "metadata") == Ok(Metadata());
  }
}
