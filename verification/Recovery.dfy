/** Recovery journal vocabulary: the state graph, JSON documents, and the worklist validator of their shape. */
module Recovery {
  import opened Common

  const MAX_JSON_BYTES := 65_536
  const MAX_JSON_DEPTH := 64
  const MAX_JSON_NODES := 16_384

  // ----- journal states -----

  datatype RecoveryState = Planned | Applying | Committed | RollingBack | RolledBack | Failed {
    predicate IsTerminal() {
      Committed? || RolledBack? || Failed?
    }

    predicate Allows(next: RecoveryState) {
      match this
      case Planned => next.Applying? || next.RollingBack? || next.Failed?
      case Applying => next.Committed? || next.RollingBack? || next.Failed?
      case RollingBack => next.RolledBack? || next.Failed?
      case Failed => next.RollingBack?
      case Committed => false
      case RolledBack => false
    }
  }

  // ----- what the environment may answer -----

  /** A repository write is seen to land, lands although the caller gets an error, or does not land. */
  datatype Reply = Seen | Lost | Refused

  /** How much of an effect is in place when it stops. */
  datatype Progress = Untouched | Halfway | Finished

  // ----- documents -----

  /** An object lists its members in key order: keys[i] names values[i]. */
  datatype Json =
    | Null
    | Bool(flag: bool)
    | Number(number: int)
    | Text(text: string)
    | Array(items: seq<Json>)
    | Object(keys: seq<string>, values: seq<Json>)

  function Children(v: Json): (children: seq<Json>)
    ensures forall i :: 0 <= i < |children| ==> children[i] < v
  {
    match v
    case Array(items) => items
    case Object(_, values) => values
    case _ => []
  }

  function NodeCount(v: Json): (n: nat)
    ensures n >= 1
    decreases v
  {
    1 + NodeCounts(Children(v), v)
  }

  function NodeCounts(vs: seq<Json>, ghost above: Json): nat
    requires forall i :: 0 <= i < |vs| ==> vs[i] < above
    decreases above, |vs|
  {
    if vs == [] then 0 else NodeCounts(vs[..|vs| - 1], above) + NodeCount(vs[|vs| - 1])
  }

  /** Every node lies at most `room` levels below this one. */
  predicate FitsDepth(v: Json, room: int)
    decreases v
  {
    room >= 0 && forall i :: 0 <= i < |Children(v)| ==> FitsDepth(Children(v)[i], room - 1)
  }

  datatype ValidationError = JsonTooLarge | JsonTooDeep | JsonTooComplex

  datatype Pending = Pending(value: Json, depth: nat)

  function PendingNodes(work: seq<Pending>): nat {
    if work == [] then 0 else PendingNodes(work[..|work| - 1]) + NodeCount(work[|work| - 1].value)
  }

  predicate PendingFits(work: seq<Pending>) {
    forall i :: 0 <= i < |work| ==> FitsDepth(work[i].value, MAX_JSON_DEPTH - work[i].depth)
  }

  function Pushed(work: seq<Pending>, vs: seq<Json>, depth: nat): seq<Pending> {
    work + seq(|vs|, i requires 0 <= i < |vs| => Pending(vs[i], depth))
  }

  lemma {:induction false} PushedNodes(work: seq<Pending>, vs: seq<Json>, above: Json, depth: nat)
    requires forall i :: 0 <= i < |vs| ==> vs[i] < above
    ensures PendingNodes(Pushed(work, vs, depth)) == PendingNodes(work) + NodeCounts(vs, above)
    decreases |vs|
  {
    var p := Pushed(work, vs, depth);
    if vs == [] {
      assert p == work;
    } else {
      assert p[..|p| - 1] == Pushed(work, vs[..|vs| - 1], depth);
      PushedNodes(work, vs[..|vs| - 1], above, depth);
    }
  }

  lemma PushedFits(work: seq<Pending>, v: Json, depth: nat)
    requires depth <= MAX_JSON_DEPTH
    ensures PendingFits(Pushed(work, Children(v), depth + 1))
            <==> PendingFits(work) && FitsDepth(v, MAX_JSON_DEPTH - depth)
  {
    var p, c := Pushed(work, Children(v), depth + 1), Children(v);
    if PendingFits(p) {
      forall i | 0 <= i < |work| ensures FitsDepth(work[i].value, MAX_JSON_DEPTH - work[i].depth) {
        assert p[i] == work[i];
      }
      forall i | 0 <= i < |c| ensures FitsDepth(c[i], MAX_JSON_DEPTH - depth - 1) {
        assert p[|work| + i] == Pending(c[i], depth + 1);
      }
    }
  }

  /** The stack after its top entry is replaced by that entry's children. */
  function Expanded(work: seq<Pending>): seq<Pending>
    requires work != []
  {
    var top := work[|work| - 1];
    Pushed(work[..|work| - 1], Children(top.value), top.depth + 1)
  }

  lemma PendingSplit(work: seq<Pending>)
    requires work != []
    ensures PendingFits(work) <==>
            PendingFits(work[..|work| - 1]) &&
            FitsDepth(work[|work| - 1].value, MAX_JSON_DEPTH - work[|work| - 1].depth)
  {
    assert work == work[..|work| - 1] + [work[|work| - 1]];
  }

  /** Expanding the top entry accounts for one node. */
  lemma ExpandedCount(work: seq<Pending>)
    requires work != []
    ensures PendingNodes(Expanded(work)) == PendingNodes(work) - 1
  {
    var rest, top := work[..|work| - 1], work[|work| - 1];
    PushedNodes(rest, Children(top.value), top.value, top.depth + 1);
  }

  /** Expanding the top entry loses no depth violation but the entry's own. */
  lemma ExpandedFits(work: seq<Pending>)
    requires work != []
    ensures work[|work| - 1].depth > MAX_JSON_DEPTH ==> !PendingFits(work)
    ensures work[|work| - 1].depth <= MAX_JSON_DEPTH ==> (PendingFits(Expanded(work)) <==> PendingFits(work))
  {
    PendingSplit(work);
    var top := work[|work| - 1];
    if top.depth <= MAX_JSON_DEPTH {
      PushedFits(work[..|work| - 1], top.value, top.depth);
    }
  }

  /** Walk a document with an explicit stack. Apart from the encoded size, it accepts exactly the trees that have at
      most MAX_JSON_NODES nodes and no node deeper than MAX_JSON_DEPTH; each refusal is justified by its own limit. */
  method ValidateJson(value: Json, encodedBytes: nat) returns (refusal: Option<ValidationError>)
    ensures refusal == Some(JsonTooLarge) <==> encodedBytes > MAX_JSON_BYTES
    ensures encodedBytes <= MAX_JSON_BYTES ==>
              (refusal.None? <==> NodeCount(value) <= MAX_JSON_NODES && FitsDepth(value, MAX_JSON_DEPTH))
    ensures refusal == Some(JsonTooComplex) ==> NodeCount(value) > MAX_JSON_NODES
    ensures refusal == Some(JsonTooDeep) ==> !FitsDepth(value, MAX_JSON_DEPTH)
  {
    if encodedBytes > MAX_JSON_BYTES {
      return Some(JsonTooLarge);
    }
    var nodes := 0;
    var work := [Pending(value, 0)];
    assert work[..0] == [] && work[0] == Pending(value, 0);
    while work != []
      invariant nodes + PendingNodes(work) == NodeCount(value)
      invariant PendingFits(work) <==> FitsDepth(value, MAX_JSON_DEPTH)
      invariant nodes <= MAX_JSON_NODES
      decreases PendingNodes(work)
    {
      ExpandedCount(work);
      ExpandedFits(work);
      var top := work[|work| - 1];
      nodes := nodes + 1;
      if nodes > MAX_JSON_NODES {
        return Some(JsonTooComplex);
      }
      if top.depth > MAX_JSON_DEPTH {
        return Some(JsonTooDeep);
      }
      work := Expanded(work);
    }
    return None;
  }
}
