/**
 * The records the clustering engine stores: index entries (a vector with an id
 * and a metadata record) and noise items, and the ids it derives for
 * character entries.
 */
module Records {
  import opened Wrappers
  import Cosine

  type Vector = Cosine.Vector

  /**
   * The metadata record stored beside a vector. A field is None where the
   * record written by the engine does not carry that key: scene entries carry
   * clusterId and similarity, character entries carry sceneClusterId, shotId
   * and characterIndex, and only an entry made by a move sets movedFromNoise.
   */
  datatype Meta = Meta(
    clusterId: Option<string>,
    sceneClusterId: Option<string>,
    shotId: Option<string>,
    keyframe: string,
    similarity: Option<real>,
    characterIndex: Option<nat>,
    movedFromNoise: bool,
    timestamp: string)

  /** One vector of an index with its id and metadata. */
  datatype Entry = Entry(id: string, vector: Vector, meta: Meta)

  /** A shot held outside both indices; it keeps its own vectors for a later move. */
  datatype NoiseItem = NoiseItem(
    shotId: string,
    keyframe: string,
    sceneVector: Vector,
    characterVectors: seq<Vector>,
    timestamp: string)

  /** The scene entry written for a shot that joins or starts a group. */
  function SceneEntry(shotId: string, v: Vector, keyframe: string, clusterId: string,
                      similarity: real, now: string): (e: Entry)
    ensures e.id == shotId && e.vector == v
    ensures e.meta.clusterId == Some(clusterId) && e.meta.similarity == Some(similarity)
    ensures e.meta.keyframe == keyframe && e.meta.timestamp == now
    ensures e.meta.sceneClusterId == None && e.meta.shotId == None && e.meta.characterIndex == None
    ensures !e.meta.movedFromNoise
  {
    Entry(shotId, v, Meta(Some(clusterId), None, None, keyframe, Some(similarity), None, false, now))
  }

  /** The scene entry written when a noise item is moved into a group. */
  function MovedEntry(shotId: string, item: NoiseItem, target: string, now: string): (e: Entry)
    ensures e.id == shotId && e.vector == item.sceneVector
    ensures e.meta.clusterId == Some(target) && e.meta.similarity == Some(1.0)
    ensures e.meta.keyframe == item.keyframe && e.meta.timestamp == now
    ensures e.meta.sceneClusterId == None && e.meta.shotId == None && e.meta.characterIndex == None
    ensures e.meta.movedFromNoise
  {
    Entry(shotId, item.sceneVector,
          Meta(Some(target), None, None, item.keyframe, Some(1.0), None, true, now))
  }

  /** The decimal digit for d. */
  function DigitChar(d: nat): char
    requires d < 10
  {
    (48 + d) as char
  }

  /** The decimal numeral of n, as Python's str() writes a non-negative int. */
  function Decimal(n: nat): (s: string)
    ensures |s| >= 1
    ensures |s| == 1 <==> n < 10
    ensures forall i :: 0 <= i < |s| ==> '0' <= s[i] <= '9'
  {
    if n < 10 then [DigitChar(n)] else Decimal(n / 10) + [DigitChar(n % 10)]
  }

  /** The number a string of decimal digits denotes (the inverse of Decimal). */
  function NumeralValue(s: string): nat
    requires forall i :: 0 <= i < |s| ==> '0' <= s[i] <= '9'
  {
    if s == [] then 0 else NumeralValue(s[..|s| - 1]) * 10 + (s[|s| - 1] as int - 48)
  }

  /** Reading the numeral of n back gives n. */
  lemma {:induction false} DecimalRoundTrip(n: nat)
    ensures NumeralValue(Decimal(n)) == n
  {
    if n >= 10 {
      var s := Decimal(n);
      assert s[..|s| - 1] == Decimal(n / 10);
      DecimalRoundTrip(n / 10);
    }
  }

  /** Different numbers have different numerals. */
  lemma DecimalInjective(a: nat, b: nat)
    requires Decimal(a) == Decimal(b)
    ensures a == b
  {
    DecimalRoundTrip(a);
    DecimalRoundTrip(b);
  }

  /** The id of the index-th character vector of a shot. */
  function CharId(shotId: string, index: nat): (id: string)
    ensures |id| > |shotId| + 6
    ensures id[..|shotId|] == shotId && id[|shotId|..|shotId| + 6] == "_char_"
    ensures id[|shotId| + 6..] == Decimal(index)
  {
    shotId + "_char_" + Decimal(index)
  }

  /** Within one shot, character ids are distinct. */
  lemma CharIdInjective(shotId: string, i: nat, j: nat)
    requires CharId(shotId, i) == CharId(shotId, j)
    ensures i == j
  {
    DecimalInjective(i, j);
  }

  /** The character entry for the index-th face vector of a shot. */
  function CharacterEntry(shotId: string, v: Vector, index: nat, sceneClusterId: string,
                          keyframe: string, now: string): (e: Entry)
    ensures e.id == CharId(shotId, index) && e.vector == v
    ensures e.meta.shotId == Some(shotId) && e.meta.sceneClusterId == Some(sceneClusterId)
    ensures e.meta.characterIndex == Some(index) && e.meta.keyframe == keyframe && e.meta.timestamp == now
    ensures e.meta.clusterId == None && e.meta.similarity == None && !e.meta.movedFromNoise
  {
    Entry(CharId(shotId, index), v,
          Meta(None, Some(sceneClusterId), Some(shotId), keyframe, None, Some(index), false, now))
  }

  /**
   * The character entries written for all face vectors of a shot, in list
   * order, each tagged with the owning shot and the shot's resolved group.
   */
  function CharacterEntries(shotId: string, vs: seq<Vector>, sceneClusterId: string,
                            keyframe: string, now: string): (es: seq<Entry>)
    ensures |es| == |vs|
    ensures forall i :: 0 <= i < |es| ==>
      && es[i].id == CharId(shotId, i)
      && es[i].vector == vs[i]
      && es[i].meta.shotId == Some(shotId)
      && es[i].meta.sceneClusterId == Some(sceneClusterId)
      && es[i].meta.characterIndex == Some(i)
      && es[i].meta.clusterId == None
  {
    seq(|vs|, i requires 0 <= i < |vs| => CharacterEntry(shotId, vs[i], i, sceneClusterId, keyframe, now))
  }

  /** No two character entries of one shot share an id. */
  lemma CharacterIdsDistinct(shotId: string, vs: seq<Vector>, sceneClusterId: string,
                             keyframe: string, now: string)
    ensures var es := CharacterEntries(shotId, vs, sceneClusterId, keyframe, now);
      forall i, j :: 0 <= i < |es| && 0 <= j < |es| && i != j ==> es[i].id != es[j].id
  {
    var es := CharacterEntries(shotId, vs, sceneClusterId, keyframe, now);
    forall i, j | 0 <= i < |es| && 0 <= j < |es| && es[i].id == es[j].id
      ensures i == j
    {
      CharIdInjective(shotId, i, j);
    }
  }
}
