/**
 * Clients of the engine that follow three shots through it. They show what
 * the contracts let a caller conclude, including two behaviours of the code:
 * a joining shot is recorded under its neighbour's shot id, and a fault
 * after the scene add leaves a shot both indexed and parked.
 */
module Scenarios {
  import opened Wrappers
  import opened Records
  import opened ClusterCatalog
  import opened Engine

  function FirstShot(v0: Vector): Entry
  {
    SceneEntry("s0", v0, "k0", "scene_aaaaaaaa", 1.0, "t0")
  }

  function SecondShot(v1: Vector): Entry
  {
    SceneEntry("s1", v1, "k1", "s0", 0.9, "t1")
  }

  /**
   * A shot that started group "scene_aaaaaaaa" and a shot that joined it as
   * its nearest neighbour are listed in two different groups.
   */
  lemma TwoShotCatalog(v0: Vector, v1: Vector)
    ensures Catalog([FirstShot(v0), SecondShot(v1)]) ==
      [Group(Some("scene_aaaaaaaa"), [ShotView("s0", "k0", Some(1.0), "t0")]),
       Group(Some("s0"), [ShotView("s1", "k1", Some(0.9), "t1")])]
  {
    var e0, e1 := FirstShot(v0), SecondShot(v1);
    assert GroupKey(e0.meta) == Some("scene_aaaaaaaa");
    assert GroupKey(e1.meta) == Some("s0");
    CatalogAppendNewKey([], e0);
    assert [] + [e0] == [e0];
    CatalogAppendNewKey([e0], e1);
    assert [e0] + [e1] == [e0, e1];
  }

  /**
   * Three shots with default thresholds: the first starts a group, the second
   * (similarity 0.9 to the first) joins, the third (similarity 0.3) is parked;
   * then the third is moved into a brand-new group.
   */
  method ThreeShots(v0: Vector, v1: Vector, v2: Vector)
  {
    var engine := new ClusteringEngine();

    var a0 := engine.AssignToCluster(v0, [], "k0", "s0", "aaaaaaaa", "t0", None, NoFault);
    assert NewClusterPrefix + "aaaaaaaa" == "scene_aaaaaaaa";
    assert a0 == Assignment(SceneCluster, "scene_aaaaaaaa", 1.0, "s0");

    assert engine.sceneIndex[0].id == "s0";
    assert Decide(Some(Neighbour("s0", 0.1)), DefaultSceneThreshold, DefaultNoiseThreshold) == Join("s0", 0.9);
    var a1 := engine.AssignToCluster(v1, [], "k1", "s1", "bbbbbbbb", "t1", Some(Neighbour("s0", 0.1)), NoFault);
    assert a1 == Assignment(SceneCluster, "s0", 0.9, "s1");

    assert engine.sceneIndex[1].id == "s1";
    assert Decide(Some(Neighbour("s1", 0.7)), DefaultSceneThreshold, DefaultNoiseThreshold) == Park(0.3);
    var a2 := engine.AssignToCluster(v2, [], "k2", "s2", "cccccccc", "t2", Some(Neighbour("s1", 0.7)), NoFault);
    assert a2 == Assignment(NoiseCluster, NoiseBucketId, 0.3, "s2");

    // The joining shot is grouped under the neighbour's shot id "s0", not
    // beside the neighbour in group "scene_aaaaaaaa".
    ghost var scenes := [FirstShot(v0), SecondShot(v1)];
    assert engine.sceneIndex == scenes;
    var clusters := engine.GetAllClusters();
    assert clusters == Catalog(scenes);
    TwoShotCatalog(v0, v1);
    assert clusters == [Group(Some("scene_aaaaaaaa"), [ShotView("s0", "k0", Some(1.0), "t0")]),
                        Group(Some("s0"), [ShotView("s1", "k1", Some(0.9), "t1")])];

    var noise := engine.GetNoiseBucket();
    assert noise == [NoiseItem("s2", "k2", v2, [], "t2")];

    var moved := engine.MoveShotToCluster("s2", "G2", "t3");
    assert moved == Success(MoveReceipt("s2", "G2"));
    noise := engine.GetNoiseBucket();
    assert noise == [];
    assert |engine.sceneIndex| == 3 && engine.sceneIndex[2].meta.clusterId == Some("G2");
  }

  /**
   * A fault in the add of the first face, after the scene add succeeded: the
   * shot is reported as noise yet stays indexed. A later move adds the same
   * id again; the model keeps both entries, and what the underlying store
   * does with a repeated id is not modelled.
   */
  method LateFault(v: Vector, face: Vector)
  {
    var engine := new ClusteringEngine(DefaultSceneThreshold, DefaultNoiseThreshold);
    var a := engine.AssignToCluster(v, [face], "k", "s", "dddddddd", "t", None, CharacterAddFault(0));
    assert NewClusterPrefix + "dddddddd" == "scene_dddddddd";
    assert a == FaultResult("s");
    assert engine.sceneIndex == [SceneEntry("s", v, "k", "scene_dddddddd", 1.0, "t")];
    assert engine.charIndex == [];
    assert engine.noise == [NoiseItem("s", "k", v, [face], "t")];

    var moved := engine.MoveShotToCluster("s", "G", "t2");
    assert moved.Success?;
    assert |engine.sceneIndex| == 2 && engine.sceneIndex[0].id == engine.sceneIndex[1].id == "s";
    assert |engine.charIndex| == 1 && engine.charIndex[0].meta.sceneClusterId == Some("G");
  }
}
