/**
 * Lookup helpers and the diagnostic reporter of the validator: the linear
 * key search over a mapping, the anchor used to place a "missing field"
 * error, `requireField`, and `Errorf` (its returned failure value plus the
 * line it writes to standard error).
 */
module Helpers {
  import opened Optional
  import opened YamlNode
  import opened StrConv

  /**
   * One validation failure: the message the returned error carries and the
   * line the report is anchored at (0: no line).
   */
  datatype Diag = Diag(anchorLine: nat, msg: string)

  /** A node found, or the failure reported for it. */
  datatype Result<+T> = Ok(value: T) | Err(diag: Diag)

  /** The line a report on `n` shows: its source line when that is positive, else none. */
  function NodeLine(n: Node): nat {
    if n.line > 0 then n.line else 0
  }

  /** Errorf: the failure value carries exactly `msg`; the anchor only decides the line shown. */
  function Errorf(anchor: Option<Node>, msg: string): (d: Diag)
    ensures d.msg == msg
    ensures d.anchorLine > 0 <==> anchor.Some? && anchor.value.line > 0
    ensures d.anchorLine > 0 ==> d.anchorLine == anchor.value.line
  {
    Diag(if anchor.Some? then NodeLine(anchor.value) else 0, msg)
  }

  /** The line Errorf writes to standard error for `d`, the source being named `filename`. */
  function Render(filename: string, d: Diag): (out: string)
    ensures |out| == |filename| + |d.msg| + 2 + (if d.anchorLine > 0 then 1 + |Decimal(d.anchorLine)| else 0)
    ensures out[..|filename|] == filename
    ensures out[|filename|] == ':' <==> d.anchorLine > 0
    ensures out[|out| - |d.msg| - 2..] == " " + d.msg + "\n"
  {
    if d.anchorLine > 0 then filename + ":" + Decimal(d.anchorLine) + " " + d.msg + "\n"
    else filename + " " + d.msg + "\n"
  }

  /** The number between the ':' and the blank of an anchored report reads back as its line. */
  lemma RenderShowsLine(filename: string, d: Diag)
    requires 0 < d.anchorLine <= MaxInt64
    ensures var out := Render(filename, d);
      Atoi(out[|filename| + 1..|out| - |d.msg| - 2]) == Some(d.anchorLine)
  {
    var digits := Decimal(d.anchorLine);
    var out := Render(filename, d);
    assert out == (filename + ":") + digits + (" " + d.msg + "\n");
    MiddleOf(filename + ":", digits, " " + d.msg + "\n");
    AtoiDecimal(d.anchorLine);
  }

  lemma MiddleOf(a: string, b: string, c: string)
    ensures (a + b + c)[|a|..|a + b + c| - |c|] == b
  {
  }

  /** `i` is the first even (key) position of `content` whose text is `key`. */
  predicate FirstKeyAt(content: seq<Node>, key: string, i: int) {
    0 <= i < |content| && i % 2 == 0 && content[i].value == key &&
    forall j | 0 <= j < i && j % 2 == 0 :: content[j].value != key
  }

  /** The key search from even position `from` on, stepping over the values. */
  function KeyIndexFrom(content: seq<Node>, key: string, from: nat): (r: Option<nat>)
    requires from % 2 == 0
    ensures r.Some? ==> from <= r.value < |content| && r.value % 2 == 0 && content[r.value].value == key
    ensures r.Some? ==> forall j | from <= j < r.value && j % 2 == 0 :: content[j].value != key
    ensures r.None? <==> forall j | from <= j < |content| && j % 2 == 0 :: content[j].value != key
    decreases |content| - from
  {
    if from >= |content| then None
    else if content[from].value == key then Some(from)
    else KeyIndexFrom(content, key, from + 2)
  }

  /** The position of the first key of `content` whose text is `key`. */
  function KeyIndex(content: seq<Node>, key: string): (r: Option<nat>)
    ensures r.Some? ==> FirstKeyAt(content, key, r.value)
    ensures r.None? <==> forall j | 0 <= j < |content| && j % 2 == 0 :: content[j].value != key
    ensures forall i | FirstKeyAt(content, key, i) :: r == Some(i)
  {
    KeyIndexFrom(content, key, 0)
  }

  /** findMappingNode as a value: the node paired with the first key `key`, if any. */
  function MappingValue(parent: Node, key: string): (r: Option<Node>)
    requires EvenMapping(parent)
    ensures parent.kind != Mapping ==> r.None?
    ensures r.None? <==> (parent.kind != Mapping ||
      forall j | 0 <= j < |parent.content| && j % 2 == 0 :: parent.content[j].value != key)
    ensures forall i | parent.kind == Mapping && FirstKeyAt(parent.content, key, i) ::
      i + 1 < |parent.content| && r == Some(parent.content[i + 1])
    ensures r.Some? ==> r.value in parent.content
  {
    if parent.kind != Mapping then None
    else match KeyIndex(parent.content, key)
      case None => None
      case Some(i) => Some(parent.content[i + 1])
  }

  /** findMappingNode: the linear search of helpers.go, stepping two entries at a time. */
  method FindMappingNode(parent: Node, key: string) returns (r: Option<Node>)
    requires EvenMapping(parent)
    ensures r == MappingValue(parent, key)
  {
    if parent.kind != Mapping {
      return None;
    }
    var i := 0;
    while i < |parent.content|
      invariant 0 <= i <= |parent.content| && i % 2 == 0
      invariant forall j | 0 <= j < i && j % 2 == 0 :: parent.content[j].value != key
    {
      if parent.content[i].value == key {
        assert FirstKeyAt(parent.content, key, i);
        return Some(parent.content[i + 1]);
      }
      i := i + 2;
    }
    return None;
  }

  /**
   * findKeyNode as a value: the first key node `key` when present, the
   * mapping itself when it lacks the key, nothing for a non-mapping.
   */
  function KeyAnchor(parent: Node, key: string): (r: Option<Node>)
    ensures parent.kind != Mapping ==> r.None?
    ensures parent.kind == Mapping && (forall j | 0 <= j < |parent.content| && j % 2 == 0 :: parent.content[j].value != key)
      ==> r == Some(parent)
    ensures forall i | parent.kind == Mapping && FirstKeyAt(parent.content, key, i) :: r == Some(parent.content[i])
  {
    if parent.kind != Mapping then None
    else match KeyIndex(parent.content, key)
      case None => Some(parent)
      case Some(i) => Some(parent.content[i])
  }

  /** findKeyNode: the same search, returning the key node or the parent. */
  method FindKeyNode(parent: Node, key: string) returns (r: Option<Node>)
    ensures r == KeyAnchor(parent, key)
  {
    if parent.kind != Mapping {
      return None;
    }
    var i := 0;
    while i < |parent.content|
      invariant i % 2 == 0
      invariant forall j | 0 <= j < i && j < |parent.content| && j % 2 == 0 :: parent.content[j].value != key
      decreases |parent.content| - i
    {
      if parent.content[i].value == key {
        assert FirstKeyAt(parent.content, key, i);
        return Some(parent.content[i]);
      }
      i := i + 2;
    }
    return Some(parent);
  }

  /**
   * requireField: the value of `field` when the mapping has it; otherwise the
   * failure "<field> is required", placed where findKeyNode points.
   */
  function RequireField(parent: Node, field: string): (r: Result<Node>)
    requires EvenMapping(parent)
    ensures r.Ok? <==> MappingValue(parent, field).Some?
    ensures r.Ok? ==> MappingValue(parent, field) == Some(r.value)
    ensures r.Err? ==> r.diag.msg == field + " is required"
    ensures r.Err? ==> r.diag.anchorLine == if parent.kind == Mapping then NodeLine(parent) else 0
  {
    match MappingValue(parent, field)
    case Some(node) => Ok(node)
    case None => Err(Errorf(KeyAnchor(parent, field), field + " is required"))
  }

  /**
   * The search compares key positions only: two mappings whose keys read the
   * same find the same position, whatever their values are.
   */
  lemma {:induction false} KeyIndexReadsOnlyKeys(a: seq<Node>, b: seq<Node>, key: string, from: nat)
    requires from % 2 == 0 && |a| == |b|
    requires forall j | 0 <= j < |a| && j % 2 == 0 :: a[j].value == b[j].value
    ensures KeyIndexFrom(a, key, from) == KeyIndexFrom(b, key, from)
    decreases |a| - from
  {
    if from < |a| && a[from].value != key {
      KeyIndexReadsOnlyKeys(a, b, key, from + 2);
    }
  }

  /** Value positions are never compared with the key. */
  lemma MappingValueReadsOnlyKeys(p: Node, q: Node, key: string)
    requires EvenMapping(p) && p.kind == q.kind && |p.content| == |q.content|
    requires forall j | 0 <= j < |p.content| && j % 2 == 0 :: p.content[j].value == q.content[j].value
    ensures MappingValue(p, key).Some? <==> MappingValue(q, key).Some?
    ensures forall i | p.kind == Mapping && FirstKeyAt(p.content, key, i) ::
      MappingValue(p, key) == Some(p.content[i + 1]) && MappingValue(q, key) == Some(q.content[i + 1])
  {
    KeyIndexReadsOnlyKeys(p.content, q.content, key, 0);
  }
}
