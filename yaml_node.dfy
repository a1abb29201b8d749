/**
 * The part of a parsed YAML node that the validator reads: its kind, its
 * scalar text, its 1-based source line (0 when unknown) and its children.
 * A mapping's children alternate key, value, key, value, ...
 */
module YamlNode {

  /** `Other` stands for the document and alias kinds, which no rule accepts. */
  datatype Kind = Mapping | Sequence | Scalar | Other

  datatype Node = Node(kind: Kind, value: string, line: int, content: seq<Node>)

  /** A mapping holds whole key/value pairs. */
  predicate EvenMapping(n: Node) {
    n.kind == Mapping ==> |n.content| % 2 == 0
  }

  /** Every mapping in the tree holds whole key/value pairs, as the parser guarantees. */
  predicate WellFormed(n: Node) {
    EvenMapping(n) && forall c | c in n.content :: WellFormed(c)
  }

  lemma ChildrenWellFormed(n: Node)
    requires WellFormed(n)
    ensures forall i | 0 <= i < |n.content| :: WellFormed(n.content[i])
  {
  }
}
