/**
 * The online clustering engine: a scene index, a character index and an
 * in-memory noise bucket, with the three-way assignment of a new shot, the
 * move of a parked shot into a chosen group, and the read views.
 *
 * The nearest-neighbour search, the clock and the id generator are not part
 * of the model: their answers are parameters of the operations. A fault of
 * the index is a parameter too, naming the call that raises it.
 */
module Engine {
  import opened Wrappers
  import opened Records
  import opened ClusterCatalog

  const DefaultSceneThreshold: real := 0.85
  const DefaultNoiseThreshold: real := 0.5
  /** The cluster id reported for a parked shot. */
  const NoiseBucketId: string := "noise_bucket"
  /** Prefix of a minted cluster id; eight characters of a fresh UUID follow it. */
  const NewClusterPrefix: string := "scene_"
  /** The view name that selects the scene index; any other name selects the character index. */
  const SceneView: string := "scene"

  datatype ClusterType = SceneCluster | NoiseCluster

  /** The decision reported for one shot. */
  datatype Assignment = Assignment(clusterType: ClusterType, clusterId: string, similarity: real, shotId: string)

  /** The answer of a one-nearest-neighbour query: the best entry's id and its cosine distance. */
  datatype Neighbour = Neighbour(id: string, distance: real)

  /**
   * Where the index raises, if anywhere: in the query, in the scene add, or
   * in the add of the character vector at the given position.
   */
  datatype Fault = NoFault | QueryFault | SceneAddFault | CharacterAddFault(index: nat)

  /** The branch the threshold policy takes. */
  datatype Decision = Join(neighbourId: string, similarity: real) | Park(similarity: real) | Start

  datatype MoveReceipt = MoveReceipt(shotId: string, targetClusterId: string)
  datatype MoveError = NotFound(shotId: string)

  /** A cosine-space index reports distance = 1 - similarity. */
  function Similarity(distance: real): (s: real)
    ensures distance == 1.0 - s
  {
    1.0 - distance
  }

  /**
   * What the nearest-neighbour query may answer for an index: nothing exactly
   * when the index is empty, and otherwise the id of one of its entries.
   */
  predicate IsNearest(nearest: Option<Neighbour>, index: seq<Entry>)
  {
    && (nearest.None? <==> index == [])
    && (nearest.Some? ==> exists j :: 0 <= j < |index| && index[j].id == nearest.value.id)
  }

  /**
   * The threshold policy: join the neighbour at or above the scene threshold
   * (considered first), park below the noise threshold, otherwise start a group;
   * with no neighbour, start a group.
   */
  function Decide(nearest: Option<Neighbour>, sceneThreshold: real, noiseThreshold: real): (d: Decision)
    ensures d.Join? <==> nearest.Some? && Similarity(nearest.value.distance) >= sceneThreshold
    ensures d.Park? <==>
      && nearest.Some?
      && Similarity(nearest.value.distance) < sceneThreshold
      && Similarity(nearest.value.distance) < noiseThreshold
    ensures d.Start? <==>
      || nearest.None?
      || noiseThreshold <= Similarity(nearest.value.distance) < sceneThreshold
    ensures d.Join? ==> d.neighbourId == nearest.value.id && d.similarity == Similarity(nearest.value.distance)
    ensures d.Park? ==> d.similarity == Similarity(nearest.value.distance)
  {
    match nearest
    case None => Start
    case Some(n) =>
      var sim := Similarity(n.distance);
      if sim >= sceneThreshold then Join(n.id, sim)
      else if sim < noiseThreshold then Park(sim)
      else Start
  }

  /**
   * The group id and similarity recorded for a shot that is indexed: the
   * neighbour's entry id with the computed similarity, or the minted id with 1.0.
   */
  function Placement(d: Decision, clusterSuffix: string): (string, real)
    requires !d.Park?
  {
    match d
    case Join(id, sim) => (id, sim)
    case Start => (NewClusterPrefix + clusterSuffix, 1.0)
  }

  /** How many of a shot's count character adds succeed before the fault. */
  function CharactersAdded(count: nat, fault: Fault): (n: nat)
    ensures n <= count
    ensures n < count <==> fault.CharacterAddFault? && fault.index < count
  {
    if fault.CharacterAddFault? && fault.index < count then fault.index else count
  }

  /** The result reported when the index raised. */
  function FaultResult(shotId: string): (r: Assignment)
    ensures r.clusterType == NoiseCluster && r.clusterId == NoiseBucketId
    ensures r.similarity == 0.0 && r.shotId == shotId
  {
    Assignment(NoiseCluster, NoiseBucketId, 0.0, shotId)
  }

  /** The position of the first noise item with this shot id. */
  function FirstIndexOf(items: seq<NoiseItem>, shotId: string): (r: Option<nat>)
    ensures r.Some? ==>
      && r.value < |items| && items[r.value].shotId == shotId
      && forall j :: 0 <= j < r.value ==> items[j].shotId != shotId
    ensures r.None? ==> forall j :: 0 <= j < |items| ==> items[j].shotId != shotId
  {
    if items == [] then None
    else if items[0].shotId == shotId then Some(0)
    else
      match FirstIndexOf(items[1..], shotId)
      case None => None
      case Some(i) => Some(i + 1)
  }

  /** A character entry belongs to this scene entry: same shot, same group. */
  predicate ParentOf(scene: Entry, ch: Entry)
  {
    ch.meta.shotId == Some(scene.id) && ch.meta.sceneClusterId == scene.meta.clusterId
  }

  /** The scene index holds an entry for this shot under this group. */
  predicate HasSceneEntry(scenes: seq<Entry>, shotId: string, clusterId: string)
  {
    exists s :: 0 <= s < |scenes| && scenes[s].id == shotId && scenes[s].meta.clusterId == Some(clusterId)
  }

  /** Some scene entry is the parent of this character entry. */
  predicate HasParent(scenes: seq<Entry>, ch: Entry)
  {
    exists s :: 0 <= s < |scenes| && ParentOf(scenes[s], ch)
  }

  /** Every character entry carries the group of a scene entry of its own shot. */
  ghost predicate ParentsIndexed(scenes: seq<Entry>, chars: seq<Entry>)
  {
    forall c :: 0 <= c < |chars| ==> HasParent(scenes, chars[c])
  }

  /** Appending scene entries keeps every character entry's parent. */
  lemma ParentsIndexedGrowScenes(scenes: seq<Entry>, chars: seq<Entry>, more: seq<Entry>)
    requires ParentsIndexed(scenes, chars)
    ensures ParentsIndexed(scenes + more, chars)
  {
    forall c | 0 <= c < |chars| ensures HasParent(scenes + more, chars[c]) {
      var s :| 0 <= s < |scenes| && ParentOf(scenes[s], chars[c]);
      assert (scenes + more)[s] == scenes[s];
    }
  }

  /** Appending the character entries of a shot whose scene entry is indexed keeps the invariant. */
  lemma ParentsIndexedGrowChars(scenes: seq<Entry>, chars: seq<Entry>, shotId: string,
                                vs: seq<Vector>, clusterId: string, keyframe: string, now: string, n: nat)
    requires ParentsIndexed(scenes, chars)
    requires HasSceneEntry(scenes, shotId, clusterId)
    requires n <= |vs|
    ensures ParentsIndexed(scenes, chars + CharacterEntries(shotId, vs, clusterId, keyframe, now)[..n])
  {
    var added := CharacterEntries(shotId, vs, clusterId, keyframe, now)[..n];
    var all := chars + added;
    var s :| 0 <= s < |scenes| && scenes[s].id == shotId && scenes[s].meta.clusterId == Some(clusterId);
    forall c | 0 <= c < |all| ensures HasParent(scenes, all[c]) {
      if c < |chars| {
        assert all[c] == chars[c];
      } else {
        assert all[c] == added[c - |chars|];
        assert ParentOf(scenes[s], all[c]);
      }
    }
  }

  /**
   * A shot that starts a group under a minted id that no entry carries yet
   * forms a group of its own, holding only itself, at the end of the catalog.
   */
  lemma StartedGroupHoldsOnlyTheShot(scenes: seq<Entry>, shotId: string, v: Vector, keyframe: string,
                                     clusterSuffix: string, now: string)
    requires !Occurs(scenes, Some(NewClusterPrefix + clusterSuffix))
    ensures var e := SceneEntry(shotId, v, keyframe, NewClusterPrefix + clusterSuffix, 1.0, now);
      Catalog(scenes + [e]) ==
        Catalog(scenes) + [Group(Some(NewClusterPrefix + clusterSuffix), [ShotView(shotId, keyframe, Some(1.0), now)])]
  {
    var e := SceneEntry(shotId, v, keyframe, NewClusterPrefix + clusterSuffix, 1.0, now);
    assert GroupKey(e.meta) == Some(NewClusterPrefix + clusterSuffix);
    CatalogAppendNewKey(scenes, e);
  }

  /**
   * The join branch records the neighbour's entry id as the group id. Unless
   * the neighbour itself is grouped under its own id, the joining shot does
   * not land in the neighbour's group but in the group keyed by the
   * neighbour's shot id; when no entry is grouped under that id yet, it opens
   * that group, holding only itself.
   */
  lemma JoinGroupsUnderNeighbourId(scenes: seq<Entry>, n: nat, shotId: string, v: Vector,
                                   keyframe: string, similarity: real, now: string)
    requires n < |scenes| && scenes[n].id != ""
    requires GroupKey(scenes[n].meta) != Some(scenes[n].id)
    ensures var e := SceneEntry(shotId, v, keyframe, scenes[n].id, similarity, now);
      var c := Catalog(scenes + [e]);
      && GroupKey(e.meta) == Some(scenes[n].id)
      && GroupKey(e.meta) != GroupKey(scenes[n].meta)
      && KeyIndex(c, Some(scenes[n].id)).Some?
      && View(e) in c[KeyIndex(c, Some(scenes[n].id)).value].shots
    ensures var e := SceneEntry(shotId, v, keyframe, scenes[n].id, similarity, now);
      !Occurs(scenes, Some(scenes[n].id)) ==>
        Catalog(scenes + [e]) == Catalog(scenes) + [Group(Some(scenes[n].id), [View(e)])]
  {
    var e := SceneEntry(shotId, v, keyframe, scenes[n].id, similarity, now);
    var es := scenes + [e];
    assert es[|scenes|] == e;
    CatalogCoversEntry(es, |scenes|);
    if !Occurs(scenes, Some(scenes[n].id)) {
      CatalogAppendNewKey(scenes, e);
    }
  }

  /**
   * After a move to a non-empty target, the scene view lists the moved shot
   * in the target's group. (An empty target id is false for the grouping's
   * `or`, so such a shot is grouped under no id.)
   */
  lemma MovedShotListedUnderTarget(scenes: seq<Entry>, shotId: string, item: NoiseItem,
                                   target: string, now: string)
    requires target != ""
    ensures var es := scenes + [MovedEntry(shotId, item, target, now)];
      && KeyIndex(Catalog(es), Some(target)).Some?
      && ShotView(shotId, item.keyframe, Some(1.0), now) in Catalog(es)[KeyIndex(Catalog(es), Some(target)).value].shots
  {
    var es := scenes + [MovedEntry(shotId, item, target, now)];
    assert GroupKey(es[|scenes|].meta) == Some(target);
    CatalogCoversEntry(es, |scenes|);
  }

  /**
   * In the character view, a face added after the existing character entries
   * is grouped under the group id its shot was resolved to, whatever that id is.
   */
  lemma FaceGroupedUnderShotGroup(chars: seq<Entry>, shotId: string, vs: seq<Vector>, clusterId: string,
                                  keyframe: string, now: string, j: nat)
    requires j < |vs|
    ensures var faces := CharacterEntries(shotId, vs, clusterId, keyframe, now);
      var c := Catalog(chars + faces);
      && GroupKey(faces[j].meta) == Some(clusterId)
      && KeyIndex(c, Some(clusterId)).Some?
      && View(faces[j]) in c[KeyIndex(c, Some(clusterId)).value].shots
  {
    var faces := CharacterEntries(shotId, vs, clusterId, keyframe, now);
    assert (chars + faces)[|chars| + j] == faces[j];
    CatalogCoversEntry(chars + faces, |chars| + j);
  }

  class ClusteringEngine {
    const sceneThreshold: real
    const noiseThreshold: real
    var sceneIndex: seq<Entry>
    var charIndex: seq<Entry>
    var noise: seq<NoiseItem>

    ghost predicate Valid()
      reads this
    {
      ParentsIndexed(sceneIndex, charIndex)
    }

    /**
     * A new engine over empty indices with an empty noise bucket; the
     * thresholds default to 0.85 and 0.5.
     */
    constructor (sceneThreshold: real := DefaultSceneThreshold, noiseThreshold: real := DefaultNoiseThreshold)
      ensures Valid()
      ensures this.sceneThreshold == sceneThreshold && this.noiseThreshold == noiseThreshold
      ensures sceneIndex == [] && charIndex == [] && noise == []
    {
      this.sceneThreshold := sceneThreshold;
      this.noiseThreshold := noiseThreshold;
      sceneIndex := [];
      charIndex := [];
      noise := [];
    }

    /**
     * Tag every face vector of a shot with the shot's group: one character
     * entry per vector, in list order. A fault at the k-th add leaves the
     * first k entries in place and is reported by `raised`.
     */
    method AssignCharacterCluster(shotId: string, vs: seq<Vector>, sceneClusterId: string,
                                  keyframe: string, now: string, fault: Fault)
      returns (raised: bool)
      requires Valid()
      requires HasSceneEntry(sceneIndex, shotId, sceneClusterId)
      modifies this`charIndex
      ensures Valid()
      ensures var n := CharactersAdded(|vs|, fault);
        && charIndex == old(charIndex) + CharacterEntries(shotId, vs, sceneClusterId, keyframe, now)[..n]
        && raised == (n < |vs|)
    {
      ghost var all := CharacterEntries(shotId, vs, sceneClusterId, keyframe, now);
      var i := 0;
      while i < |vs|
        invariant i <= CharactersAdded(|vs|, fault)
        invariant charIndex == old(charIndex) + all[..i]
        invariant Valid()
      {
        if fault == CharacterAddFault(i) {
          return true;
        }
        assert all[..i + 1] == all[..i] + [all[i]];
        ParentsIndexedGrowChars(sceneIndex, old(charIndex), shotId, vs, sceneClusterId, keyframe, now, i + 1);
        charIndex := charIndex + [CharacterEntry(shotId, vs[i], i, sceneClusterId, keyframe, now)];
        i := i + 1;
      }
      return false;
    }

    /** The fallback of the assignment: park the shot, report noise with similarity 0.0. */
    method ParkAfterFault(item: NoiseItem) returns (r: Assignment)
      modifies this`noise
      ensures noise == old(noise) + [item]
      ensures r == FaultResult(item.shotId)
    {
      noise := noise + [item];
      r := FaultResult(item.shotId);
    }

    /**
     * Index a shot under a resolved group: its scene entry, then its
     * character entries; a fault in either add falls back to parking it.
     */
    method Place(item: NoiseItem, clusterId: string, similarity: real, fault: Fault)
      returns (r: Assignment)
      requires Valid()
      modifies this
      ensures Valid()
      ensures fault == SceneAddFault ==>
        && sceneIndex == old(sceneIndex) && charIndex == old(charIndex)
        && noise == old(noise) + [item]
        && r == FaultResult(item.shotId)
      ensures fault != SceneAddFault ==>
        var n := CharactersAdded(|item.characterVectors|, fault);
        && sceneIndex == old(sceneIndex) + [SceneEntry(item.shotId, item.sceneVector, item.keyframe, clusterId, similarity, item.timestamp)]
        && charIndex == old(charIndex) + CharacterEntries(item.shotId, item.characterVectors, clusterId, item.keyframe, item.timestamp)[..n]
        && if n < |item.characterVectors|
           then noise == old(noise) + [item] && r == FaultResult(item.shotId)
           else noise == old(noise) && r == Assignment(SceneCluster, clusterId, similarity, item.shotId)
    {
      if fault == SceneAddFault {
        r := ParkAfterFault(item);
        return;
      }
      var entry := SceneEntry(item.shotId, item.sceneVector, item.keyframe, clusterId, similarity, item.timestamp);
      ParentsIndexedGrowScenes(sceneIndex, charIndex, [entry]);
      sceneIndex := sceneIndex + [entry];
      assert sceneIndex[|sceneIndex| - 1] == entry;
      var raised := false;
      if |item.characterVectors| > 0 {
        raised := AssignCharacterCluster(item.shotId, item.characterVectors, clusterId, item.keyframe, item.timestamp, fault);
      } else {
        assert CharacterEntries(item.shotId, item.characterVectors, clusterId, item.keyframe, item.timestamp)[..0] == [];
      }
      if raised {
        r := ParkAfterFault(item);
        return;
      }
      r := Assignment(SceneCluster, clusterId, similarity, item.shotId);
    }

    /**
     * Decide the fate of a new shot: join the nearest neighbour, park the
     * shot as noise, or start a new group; any fault of the index parks it.
     */
    method AssignToCluster(sceneVector: Vector, characterVectors: seq<Vector>, keyframe: string,
                           shotId: string, clusterSuffix: string, now: string,
                           nearest: Option<Neighbour>, fault: Fault)
      returns (r: Assignment)
      requires Valid()
      requires |clusterSuffix| == 8
      requires IsNearest(nearest, sceneIndex)
      modifies this
      ensures Valid()
      ensures r.shotId == shotId
      // every shot ends up indexed, parked, or (after a late fault) both
      ensures || noise == old(noise) + [NoiseItem(shotId, keyframe, sceneVector, characterVectors, now)]
              || (|sceneIndex| == |old(sceneIndex)| + 1 && sceneIndex[|sceneIndex| - 1].id == shotId)
      // a fault in the query or in the scene add parks the shot and indexes nothing
      ensures fault == QueryFault || (fault == SceneAddFault && !Decide(nearest, sceneThreshold, noiseThreshold).Park?) ==>
        && sceneIndex == old(sceneIndex) && charIndex == old(charIndex)
        && noise == old(noise) + [NoiseItem(shotId, keyframe, sceneVector, characterVectors, now)]
        && r == FaultResult(shotId)
      // noise branch: parked with its vectors, neither index changes
      ensures fault != QueryFault && Decide(nearest, sceneThreshold, noiseThreshold).Park? ==>
        && sceneIndex == old(sceneIndex) && charIndex == old(charIndex)
        && noise == old(noise) + [NoiseItem(shotId, keyframe, sceneVector, characterVectors, now)]
        && r == Assignment(NoiseCluster, NoiseBucketId, Decide(nearest, sceneThreshold, noiseThreshold).similarity, shotId)
      // join and new-group branches: one scene entry, the character entries, and a fallback if a character add raised
      ensures fault != QueryFault && fault != SceneAddFault && !Decide(nearest, sceneThreshold, noiseThreshold).Park? ==>
        var (clusterId, similarity) := Placement(Decide(nearest, sceneThreshold, noiseThreshold), clusterSuffix);
        var n := CharactersAdded(|characterVectors|, fault);
        && sceneIndex == old(sceneIndex) + [SceneEntry(shotId, sceneVector, keyframe, clusterId, similarity, now)]
        && charIndex == old(charIndex) + CharacterEntries(shotId, characterVectors, clusterId, keyframe, now)[..n]
        && if n < |characterVectors|
           then noise == old(noise) + [NoiseItem(shotId, keyframe, sceneVector, characterVectors, now)] && r == FaultResult(shotId)
           else noise == old(noise) && r == Assignment(SceneCluster, clusterId, similarity, shotId)
    {
      var item := NoiseItem(shotId, keyframe, sceneVector, characterVectors, now);
      if fault == QueryFault {
        r := ParkAfterFault(item);
        return;
      }
      if nearest.Some? {
        var similarity := Similarity(nearest.value.distance);
        if similarity >= sceneThreshold {
          r := Place(item, nearest.value.id, similarity, fault);
          return;
        } else if similarity < noiseThreshold {
          noise := noise + [item];
          r := Assignment(NoiseCluster, NoiseBucketId, similarity, shotId);
          return;
        }
      }
      var newClusterId := NewClusterPrefix + clusterSuffix;
      r := Place(item, newClusterId, 1.0, fault);
    }

    /** The catalog of the scene index, or of the character index for any other view name. */
    method GetAllClusters(viewType: string := SceneView) returns (c: seq<Group>)
      ensures c == Catalog(if viewType == SceneView then sceneIndex else charIndex)
    {
      var all := if viewType == SceneView then sceneIndex else charIndex;
      c := [];
      var idx := 0;
      while idx < |all|
        invariant 0 <= idx <= |all|
        invariant c == Catalog(all[..idx])
      {
        var entry := all[idx];
        var key := GroupKey(entry.meta);
        ghost var expected := Insert(c, entry);
        var slot := KeyIndex(c, key);
        if slot.None? {
          c := c + [Group(key, [])];
          slot := Some(|c| - 1);
          assert c[slot.value].shots + [View(entry)] == [View(entry)];
        }
        c := c[slot.value := Group(key, c[slot.value].shots + [View(entry)])];
        assert c == expected;
        assert all[..idx + 1][..idx] == all[..idx];
        idx := idx + 1;
      }
      assert all[..|all|] == all;
    }

    /** The noise bucket as it stands. */
    method GetNoiseBucket() returns (items: seq<NoiseItem>)
      ensures items == noise
    {
      items := noise;
    }

    /**
     * The linear scan of the move: remove the first noise item with this
     * shot id, if any, and return it.
     */
    method TakeFromNoise(shotId: string) returns (found: Option<NoiseItem>)
      modifies this`noise
      ensures FirstIndexOf(old(noise), shotId).None? ==> found == None && noise == old(noise)
      ensures FirstIndexOf(old(noise), shotId).Some? ==>
        var i := FirstIndexOf(old(noise), shotId).value;
        && found == Some(old(noise)[i])
        && noise == old(noise)[..i] + old(noise)[i + 1..]
        && multiset(noise) + multiset{old(noise)[i]} == multiset(old(noise))
    {
      found := None;
      var idx := 0;
      while idx < |noise|
        invariant 0 <= idx <= |noise|
        invariant noise == old(noise)
        invariant forall j :: 0 <= j < idx ==> noise[j].shotId != shotId
      {
        if noise[idx].shotId == shotId {
          found := Some(noise[idx]);
          assert noise == noise[..idx] + [noise[idx]] + noise[idx + 1..];
          noise := noise[..idx] + noise[idx + 1..];
          return;
        }
        idx := idx + 1;
      }
    }

    /**
     * Move a parked shot into a caller-chosen group (its existence is not
     * checked): remove the first noise item with that id, index its scene
     * vector under the target and tag its faces with the target.
     */
    method MoveShotToCluster(shotId: string, targetClusterId: string, now: string)
      returns (r: Result<MoveReceipt, MoveError>)
      requires Valid()
      modifies this
      ensures Valid()
      ensures FirstIndexOf(old(noise), shotId).None? ==>
        && r == Failure(NotFound(shotId))
        && noise == old(noise) && sceneIndex == old(sceneIndex) && charIndex == old(charIndex)
      ensures FirstIndexOf(old(noise), shotId).Some? ==>
        var i := FirstIndexOf(old(noise), shotId).value;
        var item := old(noise)[i];
        && r == Success(MoveReceipt(shotId, targetClusterId))
        && noise == old(noise)[..i] + old(noise)[i + 1..]
        && multiset(noise) + multiset{item} == multiset(old(noise))
        && sceneIndex == old(sceneIndex) + [MovedEntry(shotId, item, targetClusterId, now)]
        && charIndex == old(charIndex) + CharacterEntries(shotId, item.characterVectors, targetClusterId, item.keyframe, now)
    {
      var found := TakeFromNoise(shotId);
      if found.None? {
        return Failure(NotFound(shotId));
      }
      var item := found.value;
      var entry := MovedEntry(shotId, item, targetClusterId, now);
      ParentsIndexedGrowScenes(sceneIndex, charIndex, [entry]);
      sceneIndex := sceneIndex + [entry];
      assert sceneIndex[|sceneIndex| - 1] == entry;
      ghost var faces := CharacterEntries(shotId, item.characterVectors, targetClusterId, item.keyframe, now);
      assert faces[..|faces|] == faces;
      if |item.characterVectors| > 0 {
        var raised := AssignCharacterCluster(shotId, item.characterVectors, targetClusterId, item.keyframe, now, NoFault);
      }
      r := Success(MoveReceipt(shotId, targetClusterId));
    }
  }
}
