/**
 * The Pod manifest schema stated declaratively: which trees the validator
 * is meant to accept, with no order of checks and no messages. The rules
 * are proved to accept exactly these trees.
 */
module Schema {
  import opened Optional
  import opened YamlNode
  import opened StrConv
  import opened Helpers

  const ImagePrefix: string := "registry.bigbrother.io/"

  /** The optional sections, in the order the rules visit them. */
  const ProbeNames: seq<string> := ["readinessProbe", "livenessProbe"]
  const ResourceSections: seq<string> := ["requests", "limits"]

  predicate Has(n: Node, key: string)
    requires EvenMapping(n)
  {
    MappingValue(n, key).Some?
  }

  function Get(n: Node, key: string): Node
    requires EvenMapping(n) && Has(n, key)
  {
    MappingValue(n, key).value
  }

  /** True of every child of a well-formed tree; lets the predicates below reach grandchildren. */
  predicate ElementsWellFormed(n: Node) {
    forall i | 0 <= i < |n.content| :: WellFormed(n.content[i])
  }

  predicate IsSnakeChar(c: char) {
    'a' <= c <= 'z' || '0' <= c <= '9' || c == '_'
  }

  /** A non-empty word of lower-case letters, digits and underscores. */
  predicate SnakeCaseName(s: string) {
    |s| > 0 && forall i | 0 <= i < |s| :: IsSnakeChar(s[i])
  }

  /** The registry prefix, then a repository and tag holding a ':' separator. */
  predicate ImageReference(s: string) {
    |ImagePrefix| <= |s| && s[..|ImagePrefix|] == ImagePrefix && ':' in s[|ImagePrefix|..]
  }

  predicate PortNumber(s: string) {
    Atoi(s).Some? && 0 < Atoi(s).value < 65536
  }

  /** An integer followed by one of the binary units Ki, Mi, Gi. */
  predicate MemoryQuantity(m: string) {
    |m| >= 2 && m[|m| - 2..] in {"Ki", "Mi", "Gi"} && Atoi(m[..|m| - 2]).Some?
  }

  predicate ScalarIn(n: Node, allowed: set<string>) {
    n.kind == Scalar && n.value in allowed
  }

  predicate PodConforms(root: Node)
    requires WellFormed(root)
  {
    root.kind == Mapping
    && Has(root, "apiVersion") && ScalarIn(Get(root, "apiVersion"), {"v1"})
    && Has(root, "kind") && ScalarIn(Get(root, "kind"), {"Pod"})
    && Has(root, "metadata") && MetadataConforms(Get(root, "metadata"))
    && Has(root, "spec") && SpecConforms(Get(root, "spec"))
  }

  /** Any scalar name, the empty one and null included. */
  predicate MetadataConforms(n: Node)
    requires WellFormed(n)
  {
    n.kind == Mapping && Has(n, "name") && Get(n, "name").kind == Scalar
  }

  predicate SpecConforms(n: Node)
    requires WellFormed(n)
  {
    n.kind == Mapping
    && (Has(n, "os") ==> PodOSConforms(Get(n, "os")))
    && Has(n, "containers") && Get(n, "containers").kind == Sequence
    && ElementsWellFormed(Get(n, "containers"))
    && forall i | 0 <= i < |Get(n, "containers").content| :: ContainerConforms(Get(n, "containers").content[i])
  }

  predicate PodOSConforms(n: Node)
    requires WellFormed(n)
  {
    n.kind == Mapping && Has(n, "name") && ScalarIn(Get(n, "name"), {"linux", "windows"})
  }

  predicate ContainerConforms(n: Node)
    requires WellFormed(n)
  {
    n.kind == Mapping
    && Has(n, "name") && Get(n, "name").kind == Scalar && SnakeCaseName(Get(n, "name").value)
    && Has(n, "image") && Get(n, "image").kind == Scalar && ImageReference(Get(n, "image").value)
    && (Has(n, "ports") ==>
          Get(n, "ports").kind == Sequence
          && ElementsWellFormed(Get(n, "ports"))
          && forall i | 0 <= i < |Get(n, "ports").content| :: PortConforms(Get(n, "ports").content[i]))
    && (Has(n, "readinessProbe") ==> ProbeConforms(Get(n, "readinessProbe")))
    && (Has(n, "livenessProbe") ==> ProbeConforms(Get(n, "livenessProbe")))
    && Has(n, "resources") && ResourcesConforms(Get(n, "resources"))
  }

  predicate PortConforms(n: Node)
    requires WellFormed(n)
  {
    n.kind == Mapping
    && Has(n, "containerPort") && Get(n, "containerPort").kind == Scalar && PortNumber(Get(n, "containerPort").value)
    && (Has(n, "protocol") ==> ScalarIn(Get(n, "protocol"), {"TCP", "UDP"}))
  }

  predicate ProbeConforms(n: Node)
    requires WellFormed(n)
  {
    n.kind == Mapping && Has(n, "httpGet") && HTTPGetConforms(Get(n, "httpGet"))
  }

  predicate HTTPGetConforms(n: Node)
    requires WellFormed(n)
  {
    n.kind == Mapping
    && Has(n, "path") && Get(n, "path").kind == Scalar && |Get(n, "path").value| > 0 && Get(n, "path").value[0] == '/'
    && Has(n, "port") && Get(n, "port").kind == Scalar && PortNumber(Get(n, "port").value)
  }

  predicate ResourcesConforms(n: Node)
    requires WellFormed(n)
  {
    n.kind == Mapping
    && (Has(n, "requests") ==> SectionConforms(Get(n, "requests")))
    && (Has(n, "limits") ==> SectionConforms(Get(n, "limits")))
  }

  /** One of `requests` or `limits`: an integer cpu and a memory quantity, each optional. */
  predicate SectionConforms(n: Node)
    requires WellFormed(n)
  {
    n.kind == Mapping
    && (Has(n, "cpu") ==> Get(n, "cpu").kind == Scalar && Atoi(Get(n, "cpu").value).Some?)
    && (Has(n, "memory") ==> Get(n, "memory").kind == Scalar && MemoryQuantity(Get(n, "memory").value))
  }
}
