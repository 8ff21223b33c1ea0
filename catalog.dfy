/**
 * The read view of the engine: the groups rebuilt from the entries of one
 * index by grouping them on their stored group id. Groups come in order of
 * first appearance (the insertion order of the dictionary the engine builds),
 * and members within a group come in index order.
 */
module ClusterCatalog {
  import opened Wrappers
  import opened Records

  /**
   * The grouping key of an entry: its cluster id, or, when that is missing or
   * empty (an empty string is false for the engine's `or`), its scene cluster id.
   */
  function GroupKey(m: Meta): (k: Option<string>)
    ensures k == m.clusterId || k == m.sceneClusterId
    ensures m.clusterId.Some? && m.clusterId.value != "" ==> k == m.clusterId
    ensures k != m.clusterId ==> m.clusterId == None || m.clusterId == Some("")
    ensures m.clusterId == None || m.clusterId == Some("") ==> k == m.sceneClusterId
  {
    if m.clusterId.Some? && m.clusterId.value != "" then m.clusterId else m.sceneClusterId
  }

  /** What the catalog shows of one member. */
  datatype ShotView = ShotView(id: string, keyframe: string, similarity: Option<real>, timestamp: string)

  function View(e: Entry): (v: ShotView)
    ensures v.id == e.id && v.keyframe == e.meta.keyframe
    ensures v.similarity == e.meta.similarity && v.timestamp == e.meta.timestamp
  {
    ShotView(e.id, e.meta.keyframe, e.meta.similarity, e.meta.timestamp)
  }

  /** One group of the catalog: its key and its members. */
  datatype Group = Group(clusterId: Option<string>, shots: seq<ShotView>)

  predicate HasKey(c: seq<Group>, k: Option<string>)
  {
    exists i :: 0 <= i < |c| && c[i].clusterId == k
  }

  /** Some entry of es is grouped under k. */
  predicate Occurs(es: seq<Entry>, k: Option<string>)
  {
    exists j :: 0 <= j < |es| && GroupKey(es[j].meta) == k
  }

  predicate DistinctKeys(c: seq<Group>)
  {
    forall i, j :: 0 <= i < j < |c| ==> c[i].clusterId != c[j].clusterId
  }

  /** Total number of members over all groups. */
  function MemberCount(c: seq<Group>): nat
  {
    if c == [] then 0 else MemberCount(c[..|c| - 1]) + |c[|c| - 1].shots|
  }

  /** The position of the group keyed k, if there is one (the dictionary lookup). */
  function KeyIndex(c: seq<Group>, k: Option<string>): (r: Option<nat>)
    ensures r.Some? ==> r.value < |c| && c[r.value].clusterId == k
    ensures r.None? <==> !HasKey(c, k)
  {
    if c == [] then None
    else if c[0].clusterId == k then Some(0)
    else
      match KeyIndex(c[1..], k)
      case None =>
        assert forall i :: 1 <= i < |c| ==> c[i] == c[1..][i - 1];
        None
      case Some(i) => Some(i + 1)
  }

  /** The lookup finds the first group with the key. */
  lemma {:induction false} KeyIndexFirst(c: seq<Group>, k: Option<string>)
    ensures KeyIndex(c, k).Some? ==> forall j :: 0 <= j < KeyIndex(c, k).value ==> c[j].clusterId != k
  {
    if c != [] && c[0].clusterId != k {
      KeyIndexFirst(c[1..], k);
    }
  }

  /** One step of the grouping loop: append e's view to its group, creating the group if new. */
  function Insert(c: seq<Group>, e: Entry): seq<Group>
  {
    var k := GroupKey(e.meta);
    match KeyIndex(c, k)
    case Some(i) => c[i := Group(k, c[i].shots + [View(e)])]
    case None => c + [Group(k, [View(e)])]
  }

  /**
   * One grouping step keeps every existing group's key and changes no group
   * with another key; e's view becomes the last member of the group with its
   * key, which is a new group at the end exactly when the key was absent.
   */
  lemma InsertPlacesEntry(c: seq<Group>, e: Entry)
    ensures var r := Insert(c, e);
      && |r| == (if HasKey(c, GroupKey(e.meta)) then |c| else |c| + 1)
      && (forall i :: 0 <= i < |c| ==> r[i].clusterId == c[i].clusterId)
      && (forall i :: 0 <= i < |c| && c[i].clusterId != GroupKey(e.meta) ==> r[i] == c[i])
      && KeyIndex(r, GroupKey(e.meta)).Some?
      && var i := KeyIndex(r, GroupKey(e.meta)).value;
         r[i].shots == (if i < |c| then c[i].shots else []) + [View(e)]
  {
    var k := GroupKey(e.meta);
    var r := Insert(c, e);
    KeyIndexFirst(c, k);
    KeyIndexFirst(r, k);
    match KeyIndex(c, k)
    case Some(i) =>
      assert r[i].clusterId == k;
    case None =>
      assert forall j :: 0 <= j < |c| ==> r[j] == c[j];
      assert r[|c|].clusterId == k;
  }

  /**
   * The catalog of an index: every entry lands in exactly one group, no key
   * is repeated, and the keys present are exactly those the entries carry.
   */
  function Catalog(es: seq<Entry>): (c: seq<Group>)
    ensures DistinctKeys(c)
    ensures MemberCount(c) == |es|
    ensures forall k :: HasKey(c, k) <==> Occurs(es, k)
  {
    if es == [] then []
    else
      var prefix, e := es[..|es| - 1], es[|es| - 1];
      var c := Catalog(prefix);
      InsertKeeps(c, e);
      OccursSnoc(prefix, e);
      assert prefix + [e] == es;
      Insert(c, e)
  }

  lemma MemberCountAppend(c: seq<Group>, g: Group)
    ensures MemberCount(c + [g]) == MemberCount(c) + |g.shots|
  {
    assert (c + [g])[..|c|] == c;
  }

  lemma {:induction false} MemberCountUpdate(c: seq<Group>, i: nat, g: Group)
    requires i < |c|
    ensures MemberCount(c[i := g]) == MemberCount(c) - |c[i].shots| + |g.shots|
  {
    if i < |c| - 1 {
      assert c[i := g][..|c| - 1] == c[..|c| - 1][i := g];
      MemberCountUpdate(c[..|c| - 1], i, g);
    } else {
      assert c[i := g][..|c| - 1] == c[..|c| - 1];
    }
  }

  /** Insert keeps keys distinct, adds one member, and adds exactly e's key. */
  lemma InsertKeeps(c: seq<Group>, e: Entry)
    requires DistinctKeys(c)
    ensures DistinctKeys(Insert(c, e))
    ensures MemberCount(Insert(c, e)) == MemberCount(c) + 1
    ensures forall k :: HasKey(Insert(c, e), k) <==> HasKey(c, k) || k == GroupKey(e.meta)
  {
    var k := GroupKey(e.meta);
    match KeyIndex(c, k)
    case Some(i) => InsertIntoExisting(c, e, i);
    case None => InsertNew(c, e);
  }

  lemma InsertIntoExisting(c: seq<Group>, e: Entry, i: nat)
    requires DistinctKeys(c)
    requires i < |c| && c[i].clusterId == GroupKey(e.meta)
    ensures var c' := c[i := Group(GroupKey(e.meta), c[i].shots + [View(e)])];
      && DistinctKeys(c')
      && MemberCount(c') == MemberCount(c) + 1
      && forall k :: HasKey(c', k) <==> HasKey(c, k)
  {
    var g := Group(GroupKey(e.meta), c[i].shots + [View(e)]);
    var c' := c[i := g];
    MemberCountUpdate(c, i, g);
    assert forall j :: 0 <= j < |c| ==> c'[j].clusterId == c[j].clusterId;
  }

  lemma InsertNew(c: seq<Group>, e: Entry)
    requires DistinctKeys(c)
    requires !HasKey(c, GroupKey(e.meta))
    ensures var c' := c + [Group(GroupKey(e.meta), [View(e)])];
      && DistinctKeys(c')
      && MemberCount(c') == MemberCount(c) + 1
      && forall k :: HasKey(c', k) <==> HasKey(c, k) || k == GroupKey(e.meta)
  {
    var k := GroupKey(e.meta);
    var c' := c + [Group(k, [View(e)])];
    MemberCountAppend(c, Group(k, [View(e)]));
    assert forall j :: 0 <= j < |c| ==> c'[j] == c[j];
    assert c'[|c|].clusterId == k;
  }

  lemma OccursSnoc(es: seq<Entry>, e: Entry)
    ensures forall k :: Occurs(es + [e], k) <==> Occurs(es, k) || k == GroupKey(e.meta)
  {
    var es' := es + [e];
    forall k | Occurs(es, k) ensures Occurs(es', k) {
      var j :| 0 <= j < |es| && GroupKey(es[j].meta) == k;
      assert es'[j] == es[j];
    }
    assert es'[|es|] == e;
  }

  /**
   * Reference definition of a group's members: the views of the entries
   * grouped under k, in index order.
   */
  function Members(es: seq<Entry>, k: Option<string>): seq<ShotView>
  {
    if es == [] then []
    else
      var e := es[|es| - 1];
      Members(es[..|es| - 1], k) + (if GroupKey(e.meta) == k then [View(e)] else [])
  }

  lemma {:induction false} MembersAbsent(es: seq<Entry>, k: Option<string>)
    requires !Occurs(es, k)
    ensures Members(es, k) == []
  {
    if es != [] {
      var prefix := es[..|es| - 1];
      assert !Occurs(prefix, k) by {
        forall j | 0 <= j < |prefix| ensures GroupKey(prefix[j].meta) != k {
          assert prefix[j] == es[j];
        }
      }
      MembersAbsent(prefix, k);
      assert GroupKey(es[|es| - 1].meta) != k;
    }
  }

  /** The i-th group of the catalog holds exactly the entries carrying its key, in index order. */
  lemma {:induction false} CatalogGroupIsMembers(es: seq<Entry>, i: nat)
    requires i < |Catalog(es)|
    ensures Catalog(es)[i].shots == Members(es, Catalog(es)[i].clusterId)
  {
    var prefix, e := es[..|es| - 1], es[|es| - 1];
    var k := GroupKey(e.meta);
    var before := Catalog(prefix);
    var c := Catalog(es);
    assert c == Insert(before, e);
    var k' := c[i].clusterId;
    assert Members(es, k') == Members(prefix, k') + (if k == k' then [View(e)] else []);
    match KeyIndex(before, k)
    case Some(i0) =>
      CatalogGroupIsMembers(prefix, i);
      if i != i0 {
        assert c[i] == before[i];
      }
    case None =>
      if i < |before| {
        CatalogGroupIsMembers(prefix, i);
        assert c[i] == before[i];
      } else {
        MembersAbsent(prefix, k);
      }
  }

  lemma {:induction false} OwnKeyMember(es: seq<Entry>, j: nat)
    requires j < |es|
    ensures View(es[j]) in Members(es, GroupKey(es[j].meta))
  {
    var prefix := es[..|es| - 1];
    if j < |es| - 1 {
      assert prefix[j] == es[j];
      OwnKeyMember(prefix, j);
    }
  }

  lemma {:induction false} MemberOrigin(es: seq<Entry>, k: Option<string>, a: nat)
    requires a < |Members(es, k)|
    ensures exists j :: 0 <= j < |es| && GroupKey(es[j].meta) == k && View(es[j]) == Members(es, k)[a]
  {
    var prefix, e := es[..|es| - 1], es[|es| - 1];
    if a < |Members(prefix, k)| {
      MemberOrigin(prefix, k, a);
      var j :| 0 <= j < |prefix| && GroupKey(prefix[j].meta) == k && View(prefix[j]) == Members(prefix, k)[a];
      assert es[j] == prefix[j];
    } else {
      assert GroupKey(es[|es| - 1].meta) == k;
    }
  }

  /**
   * Every entry of the index appears in the group keyed by its group id; as
   * keys are distinct, that group is the only one with this key.
   */
  lemma CatalogCoversEntry(es: seq<Entry>, j: nat)
    requires j < |es|
    ensures KeyIndex(Catalog(es), GroupKey(es[j].meta)).Some?
    ensures View(es[j]) in Catalog(es)[KeyIndex(Catalog(es), GroupKey(es[j].meta)).value].shots
  {
    var c, k := Catalog(es), GroupKey(es[j].meta);
    assert Occurs(es, k);
    var i := KeyIndex(c, k).value;
    OwnKeyMember(es, j);
    CatalogGroupIsMembers(es, i);
  }

  /** When the index holds no id twice, no id appears under two groups. */
  lemma CatalogIdsInOneGroup(es: seq<Entry>)
    requires forall j, j' :: 0 <= j < |es| && 0 <= j' < |es| && j != j' ==> es[j].id != es[j'].id
    ensures var c := Catalog(es);
      forall i, i', a, b ::
        (0 <= i < |c| && 0 <= i' < |c| && 0 <= a < |c[i].shots| && 0 <= b < |c[i'].shots|
         && c[i].shots[a].id == c[i'].shots[b].id) ==> i == i'
  {
    var c := Catalog(es);
    forall i, i', a, b | 0 <= i < |c| && 0 <= i' < |c| && 0 <= a < |c[i].shots| && 0 <= b < |c[i'].shots|
        && c[i].shots[a].id == c[i'].shots[b].id
      ensures i == i'
    {
      CatalogGroupIsMembers(es, i);
      CatalogGroupIsMembers(es, i');
      MemberOrigin(es, c[i].clusterId, a);
      MemberOrigin(es, c[i'].clusterId, b);
      var j :| 0 <= j < |es| && GroupKey(es[j].meta) == c[i].clusterId && View(es[j]) == c[i].shots[a];
      var j' :| 0 <= j' < |es| && GroupKey(es[j'].meta) == c[i'].clusterId && View(es[j']) == c[i'].shots[b];
      assert es[j].id == es[j'].id;
    }
  }

  /** An entry whose key is new to the index opens a group of its own at the end. */
  lemma CatalogAppendNewKey(es: seq<Entry>, e: Entry)
    requires !Occurs(es, GroupKey(e.meta))
    ensures Catalog(es + [e]) == Catalog(es) + [Group(GroupKey(e.meta), [View(e)])]
  {
    assert (es + [e])[..|es|] == es;
  }

  /** An entry whose key is already present joins the end of that group; no other group changes. */
  lemma CatalogAppendExistingKey(es: seq<Entry>, e: Entry)
    requires Occurs(es, GroupKey(e.meta))
    ensures var c, k := Catalog(es), GroupKey(e.meta);
      KeyIndex(c, k).Some? &&
      var i := KeyIndex(c, k).value;
      Catalog(es + [e]) == c[i := Group(k, c[i].shots + [View(e)])]
  {
    assert (es + [e])[..|es|] == es;
  }
}
