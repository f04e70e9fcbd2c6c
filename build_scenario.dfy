/**
 * A two-node walk: a 3-parameter Barrel solid at z = +150 mm with 32 strips,
 * then a 9-parameter Endcap solid at z = -150 mm.
 */
module BuildScenario {
  import opened Wrappers
  import opened RollConstruction
  import opened GeometryBuilder

  const NoRotation: Matrix3 := Matrix3(UnitX, UnitY, UnitZ)

  function BarrelNode(): Node
  {
    Node("RPCBarrelGap", [200.0, 400.0, 10.0], Vec3(0.0, 0.0, 150.0), NoRotation,
         [map[], map[NStripsKey := 32.0]], [PathStep("MuonBarrel", 1)])
  }

  function EndcapNode(specifics: seq<SpecificsTable>): Node
  {
    Node("RPCEndcapGap", [60.0, 0.0, 0.0, 0.0, 50.0, 0.0, 0.0, 0.0, 80.0], Vec3(0.0, 0.0, -150.0),
         NoRotation, specifics, [PathStep("MuonEndcap", 2)])
  }

  /**
   * With a strip count on the Endcap node the walk yields two rolls: the
   * Barrel one with bounds 20 x 40 x 1 cm and pars [20, 40, 32], the Endcap
   * one with bounds (5, 8, 6) cm, pars [5, 8, 6, 16] and newY not reversed.
   */
  lemma TwoRollWalk(numbering: Numbering)
    ensures var r := Assemble([BarrelNode(), EndcapNode([map[NStripsKey := 16.0]])], numbering);
      && r.Success? && |r.value| == 2
      && r.value[0].specs.shape == Barrel
      && r.value[0].bounds == Rectangular(20.0, 40.0, 1.0)
      && r.value[0].specs.pars == [20.0, 40.0, 32.0]
      && r.value[1].specs.shape == Endcap
      && r.value[1].bounds == Trapezoidal(5.0, 8.0, 6.0, 0.04)
      && r.value[1].specs.pars == [5.0, 8.0, 6.0, 16.0]
      && r.value[1].axes == RotateAxes(UnitX, UnitZ, UnitY)
  {
    var walk := [BarrelNode(), EndcapNode([map[NStripsKey := 16.0]])];
    assert LastFetch(walk[0].specifics) == Some(32.0);
    assert LastFetch(walk[1].specifics) == Some(16.0);
    AssembleSucceeds(walk, numbering);
    AssembleAt(walk, numbering);
  }

  /**
   * Without a strip count on the Endcap node the strip value of its pars is
   * never fetched, and the build is aborted rather than defaulted to 0.
   */
  lemma MissingStripsAbort(numbering: Numbering)
    ensures Assemble([BarrelNode(), EndcapNode([map[]])], numbering)
         == Failure(MissingStripCount("RPCEndcapGap"))
  {
    var walk := [BarrelNode(), EndcapNode([map[]])];
    assert LastFetch(walk[0].specifics) == Some(32.0);
    LastFetchNone(walk[1].specifics);
    AssembleFailsAtFirstFault(walk, numbering, 1);
  }
}
