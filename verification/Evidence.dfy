/** The evidence graph: one node a competency, kept up to date item by item. */
module Evidence {
  import opened Common
  import opened Events

  datatype EvidenceState = Unknown | Insufficient | Claimed | Demonstrated | Verified | Contradicted

  datatype Item = Item(id: Id, turnId: Id, state: EvidenceState, confidence: real, quote: Option<string>,
                       source: string, runId: Option<Id>, active: bool)

  datatype Node = Node(competency: string, state: EvidenceState, confidence: Option<real>, items: seq<Item>)

  /** Nodes in the order in which they were added. */
  type Graph = seq<Node>

  const SEMANTIC := "semantic_judge:"

  function Rank(state: EvidenceState): nat {
    match state
    case Unknown => 0
    case Insufficient => 1
    case Claimed => 2
    case Demonstrated => 3
    case Verified => 4
    case Contradicted => 5
  }

  predicate Semantic(source: string) {
    SEMANTIC <= source
  }

  // ---- the meaning of a node ----

  /** The highest-ranked state among the active items, unknown if there is none. */
  function Strongest(items: seq<Item>): EvidenceState {
    if |items| == 0 then Unknown
    else
      var last := items[|items| - 1];
      var before := Strongest(items[..|items| - 1]);
      if last.active && Rank(last.state) >= Rank(before) then last.state else before
  }

  /** Independent reading of Strongest: it bounds every active item and is reached by one, unless it is unknown. */
  lemma {:induction false} StrongestIsMaximum(items: seq<Item>)
    ensures forall i :: 0 <= i < |items| && items[i].active ==> Rank(items[i].state) <= Rank(Strongest(items))
    ensures Strongest(items) != Unknown ==>
              exists i :: 0 <= i < |items| && items[i].active && items[i].state == Strongest(items)
  {
    if |items| > 0 {
      var n := |items| - 1;
      StrongestIsMaximum(items[..n]);
      assert forall i :: 0 <= i < n ==> items[..n][i] == items[i];
      if Strongest(items) != Unknown && Strongest(items) == Strongest(items[..n]) {
        var i :| 0 <= i < n && items[..n][i].active && items[..n][i].state == Strongest(items);
        assert items[i].active;
      }
    }
  }

  /** The confidence is none, or that of some active item in the given state. */
  ghost predicate Supported(items: seq<Item>, state: EvidenceState, confidence: Option<real>) {
    confidence.Some? ==>
      exists i :: 0 <= i < |items| && items[i].active && items[i].state == state && items[i].confidence == confidence.value
  }

  ghost predicate NodeOk(n: Node) {
    n.state == Strongest(n.items) && Supported(n.items, n.state, n.confidence)
  }

  ghost predicate GraphOk(g: Graph) {
    && (forall i :: 0 <= i < |g| ==> NodeOk(g[i]))
    && (forall i, j :: 0 <= i < j < |g| ==> g[i].competency != g[j].competency)
  }

  // ---- what the operations do to one node ----

  function ClaimNode(n: Node, item: Item): Node {
    var m := n.(items := n.items + [item]);
    if Rank(n.state) < Rank(Claimed) then m.(state := Claimed, confidence := None) else m
  }

  /** A contradiction is never overwritten by a later observation. */
  function ObserveNode(n: Node, item: Item): Node {
    var m := n.(items := n.items + [item]);
    if n.state == Contradicted then m
    else if item.state == Contradicted || Rank(item.state) >= Rank(n.state)
    then m.(state := item.state, confidence := Some(item.confidence))
    else m
  }

  predicate Backing(item: Item, state: EvidenceState) {
    item.active && item.state == state
  }

  /** The highest confidence among the active items in the given state. */
  function BestConfidence(items: seq<Item>, state: EvidenceState): Option<real> {
    if |items| == 0 then None
    else
      var last := items[|items| - 1];
      var before := BestConfidence(items[..|items| - 1], state);
      if Backing(last, state) && (before.None? || last.confidence > before.value) then Some(last.confidence) else before
  }

  function RecomputeNode(n: Node): Node {
    var state := Strongest(n.items);
    n.(state := state,
       confidence := if state == Claimed || state == Unknown then None else BestConfidence(n.items, state))
  }

  predicate Superseded(item: Item, turn: Id) {
    item.active && item.turnId == turn && Semantic(item.source)
  }

  function Retire(item: Item, turn: Id): Item {
    if Superseded(item, turn) then item.(active := false) else item
  }

  function RetireAll(items: seq<Item>, turn: Id): (r: seq<Item>)
    ensures |r| == |items|
    ensures forall i :: 0 <= i < |items| ==> r[i] == Retire(items[i], turn)
  {
    seq(|items|, i requires 0 <= i < |items| => Retire(items[i], turn))
  }

  predicate Affected(n: Node, turn: Id) {
    exists i :: 0 <= i < |n.items| && Superseded(n.items[i], turn)
  }

  function SupersedeNode(n: Node, turn: Id): Node {
    if Affected(n, turn) then RecomputeNode(n.(items := RetireAll(n.items, turn))) else n
  }

  lemma StrongestSnoc(items: seq<Item>, item: Item)
    ensures Strongest(items + [item])
         == if item.active && Rank(item.state) >= Rank(Strongest(items)) then item.state else Strongest(items)
  {
    assert (items + [item])[..|items|] == items;
  }

  lemma SupportedGrows(items: seq<Item>, item: Item, state: EvidenceState, confidence: Option<real>)
    requires Supported(items, state, confidence)
    ensures Supported(items + [item], state, confidence)
  {
    if confidence.Some? {
      var i :| 0 <= i < |items| && items[i].active && items[i].state == state && items[i].confidence == confidence.value;
      assert (items + [item])[i] == items[i];
    }
  }

  lemma ClaimKeepsOk(n: Node, item: Item)
    requires NodeOk(n) && item.active && item.state == Claimed
    ensures NodeOk(ClaimNode(n, item))
  {
    StrongestSnoc(n.items, item);
    SupportedGrows(n.items, item, n.state, n.confidence);
  }

  lemma ObserveKeepsOk(n: Node, item: Item)
    requires NodeOk(n) && item.active
    ensures NodeOk(ObserveNode(n, item))
  {
    StrongestSnoc(n.items, item);
    SupportedGrows(n.items, item, n.state, n.confidence);
    assert (n.items + [item])[|n.items|] == item;
  }

  lemma {:induction false} BestConfidenceIsBacked(items: seq<Item>, state: EvidenceState)
    ensures BestConfidence(items, state).Some? ==> Supported(items, state, BestConfidence(items, state))
    ensures BestConfidence(items, state).None? <==> forall i :: 0 <= i < |items| ==> !Backing(items[i], state)
    ensures forall i :: 0 <= i < |items| && Backing(items[i], state) ==>
              BestConfidence(items, state).Some? && items[i].confidence <= BestConfidence(items, state).value
  {
    if |items| > 0 {
      var n := |items| - 1;
      BestConfidenceIsBacked(items[..n], state);
      assert items == items[..n] + [items[n]];
      SupportedWhen(items, n, state);
      if BestConfidence(items[..n], state).Some? {
        SupportedGrows(items[..n], items[n], state, BestConfidence(items[..n], state));
      }
    }
  }

  lemma SupportedWhen(items: seq<Item>, i: nat, state: EvidenceState)
    requires i < |items|
    ensures Backing(items[i], state) ==> Supported(items, state, Some(items[i].confidence))
  {
  }

  lemma RecomputeKeepsOk(n: Node)
    ensures NodeOk(RecomputeNode(n))
  {
    BestConfidenceIsBacked(n.items, Strongest(n.items));
  }

  lemma SupersedeKeepsOk(n: Node, turn: Id)
    requires NodeOk(n)
    ensures NodeOk(SupersedeNode(n, turn))
  {
    RecomputeKeepsOk(n.(items := RetireAll(n.items, turn)));
  }

  // ---- the graph ----

  /** Index of the competency's node, or the length of the graph. */
  function IndexOf(g: Graph, c: string): (i: nat)
    ensures i <= |g| && (i < |g| ==> g[i].competency == c)
    ensures forall j :: 0 <= j < i ==> g[j].competency != c
  {
    if |g| == 0 then 0
    else if g[0].competency == c then 0
    else
      assert forall j :: 1 <= j < 1 + IndexOf(g[1..], c) ==> g[j] == g[1..][j - 1];
      1 + IndexOf(g[1..], c)
  }

  function NodeFor(g: Graph, c: string): Node {
    if IndexOf(g, c) < |g| then g[IndexOf(g, c)] else Node(c, Unknown, None, [])
  }

  /** The graph with the competency's node replaced, or added at the end. */
  function SetNode(g: Graph, c: string, n: Node): Graph {
    if IndexOf(g, c) < |g| then g[IndexOf(g, c) := n] else g + [n]
  }

  function Claim(g: Graph, c: string, item: Item): Graph {
    SetNode(g, c, ClaimNode(NodeFor(g, c), item))
  }

  function Observe(g: Graph, c: string, item: Item): Graph {
    SetNode(g, c, ObserveNode(NodeFor(g, c), item))
  }

  function Recompute(g: Graph, c: string): Graph {
    SetNode(g, c, RecomputeNode(NodeFor(g, c)))
  }

  function Supersede(g: Graph, turn: Id): (r: Graph)
    ensures |r| == |g|
    ensures forall i :: 0 <= i < |g| ==> r[i] == SupersedeNode(g[i], turn)
  {
    seq(|g|, i requires 0 <= i < |g| => SupersedeNode(g[i], turn))
  }

  function Initial(competencies: seq<string>): Graph {
    seq(|competencies|, i requires 0 <= i < |competencies| => Node(competencies[i], Unknown, None, []))
  }

  lemma SetKeepsOk(g: Graph, c: string, n: Node)
    requires GraphOk(g) && NodeOk(n) && n.competency == c
    ensures GraphOk(SetNode(g, c, n))
  {
    hide NodeOk;
  }

  lemma NodeForOk(g: Graph, c: string)
    requires GraphOk(g)
    ensures NodeOk(NodeFor(g, c)) && NodeFor(g, c).competency == c
  {
  }

  // ---- every run ----

  datatype GraphOp =
    | ClaimOp(c: string, item: Item)
    | ObserveOp(c: string, item: Item)
    | RecomputeOp(c: string)
    | SupersedeOp(turn: Id)

  /** New items start out active, and a claim is a claim. */
  predicate Legal(op: GraphOp) {
    match op
    case ClaimOp(_, item) => item.active && item.state == Claimed
    case ObserveOp(_, item) => item.active
    case _ => true
  }

  function Step(g: Graph, op: GraphOp): Graph {
    match op
    case ClaimOp(c, item) => Claim(g, c, item)
    case ObserveOp(c, item) => Observe(g, c, item)
    case RecomputeOp(c) => Recompute(g, c)
    case SupersedeOp(turn) => Supersede(g, turn)
  }

  function Run(g: Graph, ops: seq<GraphOp>): Graph {
    if |ops| == 0 then g else Step(Run(g, ops[..|ops| - 1]), ops[|ops| - 1])
  }

  lemma StepKeepsOk(g: Graph, op: GraphOp)
    requires GraphOk(g) && Legal(op)
    ensures GraphOk(Step(g, op))
  {
    hide NodeOk;
    match op
    case ClaimOp(c, item) =>
      NodeForOk(g, c);
      ClaimKeepsOk(NodeFor(g, c), item);
      SetKeepsOk(g, c, ClaimNode(NodeFor(g, c), item));
    case ObserveOp(c, item) =>
      NodeForOk(g, c);
      ObserveKeepsOk(NodeFor(g, c), item);
      SetKeepsOk(g, c, ObserveNode(NodeFor(g, c), item));
    case RecomputeOp(c) =>
      NodeForOk(g, c);
      RecomputeKeepsOk(NodeFor(g, c));
      SetKeepsOk(g, c, RecomputeNode(NodeFor(g, c)));
    case SupersedeOp(turn) =>
      forall i | 0 <= i < |g|
        ensures NodeOk(SupersedeNode(g[i], turn)) && SupersedeNode(g[i], turn).competency == g[i].competency
      {
        SupersedeKeepsOk(g[i], turn);
      }
  }

  /**
   Incremental upkeep is recomputation: after any sequence of claims, observations and supersessions every
   node's state is the one recomputing it from its active items would give, and its confidence is none or
   that of an active item in that state.
   */
  lemma {:induction false} IncrementalIsRecomputed(g: Graph, ops: seq<GraphOp>)
    requires GraphOk(g) && forall op <- ops :: Legal(op)
    ensures GraphOk(Run(g, ops))
    ensures forall i :: 0 <= i < |Run(g, ops)| ==>
              && Run(g, ops)[i].state == RecomputeNode(Run(g, ops)[i]).state
              && Supported(Run(g, ops)[i].items, Run(g, ops)[i].state, Run(g, ops)[i].confidence)
  {
    if |ops| > 0 {
      var n := |ops| - 1;
      IncrementalIsRecomputed(g, ops[..n]);
      StepKeepsOk(Run(g, ops[..n]), ops[n]);
    }
  }

  lemma InitialOk(competencies: seq<string>)
    requires forall i, j :: 0 <= i < j < |competencies| ==> competencies[i] != competencies[j]
    ensures GraphOk(Initial(competencies))
  {
  }

  // ---- the items of a graph ----

  function Items(g: Graph): set<Item> {
    set i, j | 0 <= i < |g| && 0 <= j < |g[i].items| :: g[i].items[j]
  }

  lemma SetAddsItem(g: Graph, c: string, n: Node, item: Item)
    requires n.items == NodeFor(g, c).items + [item]
    ensures Items(SetNode(g, c, n)) == Items(g) + {item}
  {
    var k := IndexOf(g, c);
    var t := SetNode(g, c, n);
    forall x | x in Items(g) + {item}
      ensures x in Items(t)
    {
      if x in Items(g) {
        var i, j :| 0 <= i < |g| && 0 <= j < |g[i].items| && g[i].items[j] == x;
        assert t[i].items[j] == x;
      } else {
        assert t[k].items[|NodeFor(g, c).items|] == item;
      }
    }
    forall x | x in Items(t)
      ensures x in Items(g) + {item}
    {
      var i, j :| 0 <= i < |t| && 0 <= j < |t[i].items| && t[i].items[j] == x;
      if i != k || j < |NodeFor(g, c).items| {
        assert i < |g| && g[i].items[j] == x;
      }
    }
  }

  lemma ClaimAddsItem(g: Graph, c: string, item: Item)
    ensures Items(Claim(g, c, item)) == Items(g) + {item}
  {
    SetAddsItem(g, c, ClaimNode(NodeFor(g, c), item), item);
  }

  lemma ObserveAddsItem(g: Graph, c: string, item: Item)
    ensures Items(Observe(g, c, item)) == Items(g) + {item}
  {
    SetAddsItem(g, c, ObserveNode(NodeFor(g, c), item), item);
  }

  /** Superseding a turn retires exactly its active semantic items and touches no other. */
  lemma SupersedeRetires(g: Graph, turn: Id)
    ensures Items(Supersede(g, turn)) == set item <- Items(g) :: Retire(item, turn)
    ensures forall item <- Items(Supersede(g, turn)) :: !Superseded(item, turn)
  {
    var t := Supersede(g, turn);
    forall i | 0 <= i < |g|
      ensures t[i].items == RetireAll(g[i].items, turn)
    {
      assert t[i].items == RetireAll(g[i].items, turn);
    }
    forall x | x in Items(g)
      ensures Retire(x, turn) in Items(t)
    {
      var i, j :| 0 <= i < |g| && 0 <= j < |g[i].items| && g[i].items[j] == x;
      assert t[i].items[j] == Retire(x, turn);
    }
    forall y | y in Items(t)
      ensures y in set item <- Items(g) :: Retire(item, turn)
    {
      var i, j :| 0 <= i < |t| && 0 <= j < |t[i].items| && t[i].items[j] == y;
      assert g[i].items[j] in Items(g);
    }
  }

  // ---- the object ----

  class EvidenceGraph {
    var nodes: Graph

    constructor (nodes: Graph)
      ensures this.nodes == nodes
    {
      this.nodes := nodes;
    }

    method FindNode(c: string) returns (k: nat)
      ensures k == IndexOf(nodes, c)
    {
      k := 0;
      while k < |nodes| && nodes[k].competency != c
        invariant k <= |nodes|
        invariant forall j :: 0 <= j < k ==> nodes[j].competency != c
      {
        k := k + 1;
      }
    }

    method RecordClaim(c: string, item: Item)
      requires item.active && item.state == Claimed
      modifies this
      ensures nodes == Claim(old(nodes), c, item)
    {
      var k := FindNode(c);
      if k == |nodes| {
        nodes := nodes + [Node(c, Unknown, None, [])];
      }
      var node := nodes[k];
      node := node.(items := node.items + [item]);
      if Rank(node.state) < Rank(Claimed) {
        node := node.(state := Claimed);
        node := node.(confidence := None);
      }
      nodes := nodes[k := node];
    }

    method ApplyObservation(c: string, item: Item)
      modifies this
      ensures nodes == Observe(old(nodes), c, item)
    {
      var k := FindNode(c);
      if k == |nodes| {
        nodes := nodes + [Node(c, Unknown, None, [])];
      }
      var node := nodes[k];
      node := node.(items := node.items + [item]);
      nodes := nodes[k := node];
      if node.state == Contradicted {
        return;
      }
      if item.state == Contradicted {
        nodes := nodes[k := node.(state := Contradicted, confidence := Some(item.confidence))];
        return;
      }
      if Rank(item.state) >= Rank(node.state) {
        nodes := nodes[k := node.(state := item.state, confidence := Some(item.confidence))];
      }
    }

    /** Two passes over the items: the strongest state first, then the best confidence in it. */
    static method Recomputed(node: Node) returns (r: Node)
      ensures r == RecomputeNode(node)
    {
      var items := node.items;
      var state := Unknown;
      for i := 0 to |items|
        invariant state == Strongest(items[..i])
      {
        assert items[..i + 1][..i] == items[..i];
        if items[i].active && Rank(items[i].state) >= Rank(state) {
          state := items[i].state;
        }
      }
      var best: Option<real> := None;
      for i := 0 to |items|
        invariant best == BestConfidence(items[..i], state)
      {
        assert items[..i + 1][..i] == items[..i];
        if Backing(items[i], state) && (best.None? || items[i].confidence > best.value) {
          best := Some(items[i].confidence);
        }
      }
      assert items[..|items|] == items;
      r := node.(state := state);
      r := r.(confidence := if state == Claimed || state == Unknown then None else best);
    }

    method SupersedeSemanticEvidenceForTurn(turn: Id) returns (superseded: seq<Item>)
      modifies this
      ensures nodes == Supersede(old(nodes), turn)
      ensures superseded == Retired(old(nodes), turn)
    {
      ghost var before := nodes;
      superseded := [];
      assert before[..0] == [];
      for k := 0 to |nodes|
        invariant |nodes| == |before|
        invariant forall i :: 0 <= i < k ==> nodes[i] == SupersedeNode(before[i], turn)
        invariant forall i :: k <= i < |nodes| ==> nodes[i] == before[i]
        invariant superseded == Retired(before[..k], turn)
      {
        assert before[..k + 1][..k] == before[..k];
        var node := nodes[k];
        var items, affected, mine := node.items, false, [];
        for j := 0 to |node.items|
          invariant |items| == |node.items|
          invariant forall i :: 0 <= i < j ==> items[i] == Retire(node.items[i], turn)
          invariant forall i :: j <= i < |items| ==> items[i] == node.items[i]
          invariant affected <==> exists i :: 0 <= i < j && Superseded(node.items[i], turn)
          invariant mine == RetiredItems(node.items[..j], turn)
        {
          assert node.items[..j + 1][..j] == node.items[..j];
          var item := items[j];
          if item.active && item.turnId == turn && SEMANTIC <= item.source {
            item := item.(active := false);
            items := items[j := item];
            mine := mine + [item];
            affected := true;
          }
        }
        assert node.items[..|node.items|] == node.items;
        superseded := superseded + mine;
        if affected {
          assert items == RetireAll(node.items, turn);
          node := Recomputed(node.(items := items));
        }
        nodes := nodes[k := node];
      }
      assert before[..|nodes|] == before;
    }
  }

  /** The items a supersession retires, in order, as it leaves them. */
  function RetiredItems(items: seq<Item>, turn: Id): seq<Item> {
    if |items| == 0 then []
    else
      var n := |items| - 1;
      RetiredItems(items[..n], turn) + if Superseded(items[n], turn) then [Retire(items[n], turn)] else []
  }

  function Retired(g: Graph, turn: Id): seq<Item> {
    if |g| == 0 then [] else Retired(g[..|g| - 1], turn) + RetiredItems(g[|g| - 1].items, turn)
  }
}
