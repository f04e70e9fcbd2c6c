/**
 * The assembly loop of the RPC geometry builder: descend to the first
 * filtered node, build one roll per visited node, append it to the geometry
 * and move to the next sibling until the walk is exhausted. Any fault while
 * building a roll aborts the whole build: no partial geometry is returned.
 */
module GeometryBuilder {
  import opened Wrappers
  import opened RollConstruction

  /**
   * The filtered view over the detector description, reduced to the
   * sequence of nodes that pass the filter, in walk order, and a cursor
   * (-1 while at the root).
   */
  class FilteredView {
    const nodes: seq<Node>
    var cursor: int

    ghost predicate Valid()
      reads this
    {
      -1 <= cursor < |nodes|
    }

    constructor (nodes: seq<Node>)
      ensures this.nodes == nodes && cursor == -1 && Valid()
    {
      this.nodes := nodes;
      cursor := -1;
    }

    /** Moves from the root to the first filtered node, if there is one. */
    method FirstChild() returns (found: bool)
      requires Valid() && cursor == -1
      modifies this
      ensures Valid()
      ensures found <==> |nodes| > 0
      ensures cursor == if found then 0 else -1
    {
      found := |nodes| > 0;
      if found {
        cursor := 0;
      }
    }

    /** Moves to the next filtered sibling, if there is one; stays put otherwise. */
    method NextSibling() returns (found: bool)
      requires Valid() && 0 <= cursor
      modifies this
      ensures Valid()
      ensures found <==> old(cursor) + 1 < |nodes|
      ensures cursor == if found then old(cursor) + 1 else old(cursor)
    {
      found := cursor + 1 < |nodes|;
      if found {
        cursor := cursor + 1;
      }
    }

    function Current(): (n: Node)
      reads this
      requires Valid() && 0 <= cursor
      ensures n == nodes[cursor]
    {
      nodes[cursor]
    }
  }

  /** The RPC geometry: an append-only list of rolls, with no duplicate-id check. */
  class RPCGeometry {
    var rolls: seq<Roll>

    constructor ()
      ensures rolls == []
    {
      rolls := [];
    }

    method Add(r: Roll)
      modifies this
      ensures rolls == old(rolls) + [r]
    {
      rolls := rolls + [r];
    }
  }

  /**
   * What walking the given nodes in order produces: one roll appended per
   * node, or the fault of the first node whose roll cannot be built.
   */
  function Assemble(nodes: seq<Node>, numbering: Numbering): (r: Result<seq<Roll>, BuildError>)
    ensures r.Success? ==> |r.value| == |nodes|
  {
    if |nodes| == 0 then Success([])
    else match Assemble(nodes[..|nodes| - 1], numbering)
      case Failure(e) => Failure(e)
      case Success(built) =>
        match NodeRoll(nodes[|nodes| - 1], numbering)
        case Failure(e) => Failure(e)
        case Success(roll) => Success(built + [roll])
  }

  /** The walk yields a geometry exactly when every node's roll can be built. */
  lemma {:induction false} AssembleSucceeds(nodes: seq<Node>, numbering: Numbering)
    ensures Assemble(nodes, numbering).Success?
        <==> forall k :: 0 <= k < |nodes| ==> NodeRoll(nodes[k], numbering).Success?
  {
    if |nodes| > 0 {
      var front := nodes[..|nodes| - 1];
      AssembleSucceeds(front, numbering);
      assert forall k :: 0 <= k < |front| ==> front[k] == nodes[k];
    }
  }

  /** The k-th roll of the geometry is the roll of the k-th visited node. */
  lemma {:induction false} AssembleAt(nodes: seq<Node>, numbering: Numbering)
    requires Assemble(nodes, numbering).Success?
    ensures forall k :: 0 <= k < |nodes| ==>
      NodeRoll(nodes[k], numbering).Success? &&
      Assemble(nodes, numbering).value[k] == NodeRoll(nodes[k], numbering).value
  {
    if |nodes| > 0 {
      var front := nodes[..|nodes| - 1];
      var last := nodes[|nodes| - 1];
      AssembleAt(front, numbering);
      var built := Assemble(front, numbering).value;
      assert Assemble(nodes, numbering).value == built + [NodeRoll(last, numbering).value];
      forall k | 0 <= k < |nodes|
        ensures NodeRoll(nodes[k], numbering).Success?
        ensures Assemble(nodes, numbering).value[k] == NodeRoll(nodes[k], numbering).value
      {
        if k < |front| {
          assert front[k] == nodes[k];
        }
      }
    }
  }

  /** A failed build reports the fault of the first node whose roll cannot be built. */
  lemma {:induction false} AssembleFailsAtFirstFault(nodes: seq<Node>, numbering: Numbering, k: nat)
    requires k < |nodes| && NodeRoll(nodes[k], numbering).Failure?
    requires forall j :: 0 <= j < k ==> NodeRoll(nodes[j], numbering).Success?
    ensures Assemble(nodes, numbering) == Failure(NodeRoll(nodes[k], numbering).error)
  {
    var front := nodes[..|nodes| - 1];
    if k < |nodes| - 1 {
      assert forall j :: 0 <= j < |front| ==> front[j] == nodes[j];
      AssembleFailsAtFirstFault(front, numbering, k);
    } else {
      AssembleSucceeds(front, numbering);
      assert forall j :: 0 <= j < |front| ==> front[j] == nodes[j];
    }
  }

  /**
   * The ids of the rolls are pairwise distinct exactly when the numbering
   * gives the visited nodes' paths pairwise distinct ids: the geometry
   * itself neither checks nor repairs duplicates.
   */
  lemma DistinctIdsIffDistinctNumbers(nodes: seq<Node>, numbering: Numbering)
    requires Assemble(nodes, numbering).Success?
    ensures var rolls := Assemble(nodes, numbering).value;
      (forall i, j :: 0 <= i < j < |nodes| ==> rolls[i].id != rolls[j].id)
      <==> (forall i, j :: 0 <= i < j < |nodes| ==>
              DetId(numbering, nodes[i].path) != DetId(numbering, nodes[j].path))
  {
    AssembleAt(nodes, numbering);
  }

  /**
   * The loop of the builder over the filtered view: one roll per visited
   * node, appended in visit order; the first fault aborts with no geometry.
   */
  method BuildGeometry(fview: FilteredView, numbering: Numbering) returns (r: Result<RPCGeometry, BuildError>)
    requires fview.Valid() && fview.cursor == -1
    modifies fview
    ensures Assemble(fview.nodes, numbering).Success? <==> r.Success?
    ensures r.Success? ==> fresh(r.value) && r.value.rolls == Assemble(fview.nodes, numbering).value
    ensures r.Failure? ==> r.error == Assemble(fview.nodes, numbering).error
    ensures r.Success? ==> fview.cursor == |fview.nodes| - 1
    ensures r.Failure? ==>
      0 <= fview.cursor < |fview.nodes| && NodeRoll(fview.nodes[fview.cursor], numbering).Failure?
  {
    var geometry := new RPCGeometry();
    ghost var nodes := fview.nodes;
    var doSubDets := fview.FirstChild();
    while doSubDets
      invariant fview.Valid() && fview.nodes == nodes
      invariant fresh(geometry)
      invariant doSubDets ==> 0 <= fview.cursor && Assemble(nodes[..fview.cursor], numbering) == Success(geometry.rolls)
      invariant !doSubDets ==> Assemble(nodes, numbering) == Success(geometry.rolls)
      invariant !doSubDets ==> fview.cursor == |nodes| - 1
      decreases |nodes| - fview.cursor + (if doSubDets then 1 else 0)
    {
      ghost var k := fview.cursor;
      var node := fview.Current();
      var detid := numbering.toUnitNumber(numbering.toBaseNumber(node.path));
      var nStrips, fetched := FetchStrips(node.specifics);
      var dpar := node.params;
      if !ParamsReadable(dpar) {
        AssembleFailsAt(nodes, numbering, k);
        return Failure(ParameterOutOfRange(node.name, |dpar|));
      }
      if fetched.None? {
        AssembleFailsAt(nodes, numbering, k);
        return Failure(MissingStripCount(node.name));
      }
      AssembleExtend(nodes, numbering, k);
      geometry.Add(RollOf(node, detid, fetched.value));
      doSubDets := fview.NextSibling();
      if !doSubDets {
        assert nodes[..k + 1] == nodes;
      }
    }
    return Success(geometry);
  }

  /** Building one more node appends its roll to those already built. */
  lemma AssembleExtend(nodes: seq<Node>, numbering: Numbering, k: nat)
    requires k < |nodes| && Assemble(nodes[..k], numbering).Success?
    requires NodeRoll(nodes[k], numbering).Success?
    ensures Assemble(nodes[..k + 1], numbering)
         == Success(Assemble(nodes[..k], numbering).value + [NodeRoll(nodes[k], numbering).value])
  {
    assert nodes[..k + 1][..k] == nodes[..k];
    assert nodes[..k + 1][k] == nodes[k];
  }

  /**
   * Once the prefix up to node k has been built, a fault at node k is the
   * fault of the whole walk.
   */
  lemma AssembleFailsAt(nodes: seq<Node>, numbering: Numbering, k: nat)
    requires k < |nodes| && Assemble(nodes[..k], numbering).Success?
    requires NodeRoll(nodes[k], numbering).Failure?
    ensures Assemble(nodes, numbering) == Failure(NodeRoll(nodes[k], numbering).error)
  {
    AssembleSucceeds(nodes[..k], numbering);
    assert forall j :: 0 <= j < k ==> nodes[..k][j] == nodes[j];
    AssembleFailsAtFirstFault(nodes, numbering, k);
  }

  /**
   * The builder's entry point: the filtered walk over the compact view,
   * all or nothing.
   */
  method Build(cview: seq<Node>, numbering: Numbering) returns (r: Result<RPCGeometry, BuildError>)
    ensures r.Success? <==> forall k :: 0 <= k < |cview| ==> NodeRoll(cview[k], numbering).Success?
    ensures r.Success? ==> fresh(r.value) && |r.value.rolls| == |cview|
    ensures r.Success? ==> forall k :: 0 <= k < |cview| ==> r.value.rolls[k] == NodeRoll(cview[k], numbering).value
    ensures r.Failure? ==> Assemble(cview, numbering) == Failure(r.error)
  {
    var fview := new FilteredView(cview);
    r := BuildGeometry(fview, numbering);
    AssembleSucceeds(cview, numbering);
    if r.Success? {
      AssembleAt(cview, numbering);
    }
  }
}
