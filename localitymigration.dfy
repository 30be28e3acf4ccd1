/** The community removal of migrations/locality/main.go (`removeCommunities`), which
    communitydrop/main.go repeats inline in its `main`: localities whose English public
    name contains "community" are dropped, and their children are moved up to the
    community's own parent. The output order comes from iterating a Go map, so the
    model lets it be any order and states the result as a multiset. */
module LocalityMigration {
  import opened Strings

  /** A name in the three languages of the data set. */
  datatype LocalizedName = LocalizedName(en: string, ru: string, uk: string)

  /** `locality`, without `Meta.OsmID`, `Lng` and `Lat`. */
  datatype Locality = Locality(
    id: int, uuid: string, createdAt: string, updatedAt: string, googleMapsPlaceID: string,
    kind: string, name: LocalizedName, publicName: LocalizedName, postCode: seq<string>,
    katottg: string, koatuu: string, parentID: int)

  predicate IsCommunity(l: Locality) {
    Contains(l.publicName.en, "community")
  }

  /** `ls[j]` is a community and no later community has its id: the entry that wins
      in `communityID`. */
  predicate LastCommunityAt(ls: seq<Locality>, j: int)
    requires 0 <= j < |ls|
  {
    IsCommunity(ls[j]) && forall k :: j < k < |ls| && IsCommunity(ls[k]) ==> ls[k].id != ls[j].id
  }

  /** `p` is `communityID` after the localities `ls`: it holds exactly the communities'
      ids, each mapped to the parent of the last community with that id. */
  ghost predicate CommunityMap(ls: seq<Locality>, p: map<int, int>) {
    && (forall id :: id in p <==> exists j :: 0 <= j < |ls| && IsCommunity(ls[j]) && ls[j].id == id)
    && (forall id :: id in p ==>
          exists j :: 0 <= j < |ls| && LastCommunityAt(ls, j) && ls[j].id == id && p[id] == ls[j].parentID)
  }

  /** The communities' ids, each mapped to its parent (a later duplicate id wins). */
  function CommunityParents(ls: seq<Locality>): (p: map<int, int>)
    ensures CommunityMap(ls, p)
  {
    if ls == [] then map[]
    else
      var q := CommunityParents(ls[..|ls| - 1]);
      var l := ls[|ls| - 1];
      CommunityMapSnoc(ls, q);
      if IsCommunity(l) then q[l.id := l.parentID] else q
  }

  /** One more locality: a community overrides its id's entry, anything else leaves the map. */
  lemma CommunityMapSnoc(ls: seq<Locality>, q: map<int, int>)
    requires ls != [] && CommunityMap(ls[..|ls| - 1], q)
    ensures var l := ls[|ls| - 1];
            CommunityMap(ls, if IsCommunity(l) then q[l.id := l.parentID] else q)
  {
    var init := ls[..|ls| - 1];
    var l := ls[|ls| - 1];
    assert forall j :: 0 <= j < |init| ==> init[j] == ls[j];
    var p := if IsCommunity(l) then q[l.id := l.parentID] else q;
    forall id | id in p
      ensures exists j :: 0 <= j < |ls| && LastCommunityAt(ls, j) && ls[j].id == id && p[id] == ls[j].parentID
    {
      if IsCommunity(l) && id == l.id {
        assert LastCommunityAt(ls, |ls| - 1);
      } else {
        var j :| 0 <= j < |init| && LastCommunityAt(init, j) && init[j].id == id && q[id] == init[j].parentID;
        assert LastCommunityAt(ls, j);
      }
    }
  }

  /** A locality under a community moves to the community's parent; others keep theirs. */
  function Reparent(parents: map<int, int>, l: Locality): (r: Locality)
    ensures r == l.(parentID := r.parentID)
    ensures r.parentID == if l.parentID in parents then parents[l.parentID] else l.parentID
  {
    if l.parentID in parents then l.(parentID := parents[l.parentID]) else l
  }

  /** The non-community localities, in input order. */
  function NonCommunities(ls: seq<Locality>): (r: seq<Locality>)
    ensures forall x :: x in r <==> x in ls && !IsCommunity(x)
    ensures forall x :: multiset(r)[x] == if IsCommunity(x) then 0 else multiset(ls)[x]
  {
    if ls == [] then []
    else
      var init := ls[..|ls| - 1];
      assert ls == init + [ls[|ls| - 1]];
      NonCommunities(init) + if IsCommunity(ls[|ls| - 1]) then [] else [ls[|ls| - 1]]
  }

  /** Each locality of `xs` re-parented. */
  function ReparentEach(parents: map<int, int>, xs: seq<Locality>): (r: seq<Locality>)
    ensures |r| == |xs| && forall j :: 0 <= j < |xs| ==> r[j] == Reparent(parents, xs[j])
  {
    if xs == [] then [] else ReparentEach(parents, xs[..|xs| - 1]) + [Reparent(parents, xs[|xs| - 1])]
  }

  /** The reference result: every non-community locality, re-parented, in input order. */
  function Reparented(ls: seq<Locality>): seq<Locality> {
    ReparentEach(CommunityParents(ls), NonCommunities(ls))
  }

  /** The non-community localities of `ls` whose parent is in `keys`, re-parented. */
  function Selected(ls: seq<Locality>, parents: map<int, int>, keys: set<int>): seq<Locality> {
    if ls == [] then []
    else
      var l := ls[|ls| - 1];
      Selected(ls[..|ls| - 1], parents, keys) +
        if !IsCommunity(l) && l.parentID in keys then [Reparent(parents, l)] else []
  }

  /** The bucket `localityMap[k]` after the first loop: the non-community localities
      with parent `k`, in input order. */
  function Bucket(ls: seq<Locality>, k: int): (r: seq<Locality>)
    ensures forall j :: 0 <= j < |r| ==> r[j].parentID == k && !IsCommunity(r[j])
  {
    if ls == [] then []
    else
      var l := ls[|ls| - 1];
      Bucket(ls[..|ls| - 1], k) + if !IsCommunity(l) && l.parentID == k then [l] else []
  }

  /** The parents of the non-community localities: the keys of `localityMap`. */
  function ParentKeys(ls: seq<Locality>): set<int> {
    if ls == [] then {}
    else
      var l := ls[|ls| - 1];
      ParentKeys(ls[..|ls| - 1]) + if !IsCommunity(l) then {l.parentID} else {}
  }

  /** Every locality of a sequence given the parent `p`. */
  function WithParent(xs: seq<Locality>, p: int): (r: seq<Locality>)
    ensures |r| == |xs| && forall j :: 0 <= j < |xs| ==> r[j] == xs[j].(parentID := p)
  {
    seq(|xs|, j requires 0 <= j < |xs| => xs[j].(parentID := p))
  }

  /** The bucket of `k` after the second loop. */
  function Moved(ls: seq<Locality>, parents: map<int, int>, k: int): seq<Locality> {
    if k in parents then WithParent(Bucket(ls, k), parents[k]) else Bucket(ls, k)
  }

  /** The buckets concatenated in the order `ks`. */
  function Concat(buckets: map<int, seq<Locality>>, ks: seq<int>): seq<Locality>
    requires forall j :: 0 <= j < |ks| ==> ks[j] in buckets
  {
    if ks == [] then [] else Concat(buckets, ks[..|ks| - 1]) + buckets[ks[|ks| - 1]]
  }

  /** The keys a visiting order lists. */
  function KeySet(ks: seq<int>): (r: set<int>)
    ensures forall k :: k in r <==> exists j :: 0 <= j < |ks| && ks[j] == k
  {
    if ks == [] then {} else KeySet(ks[..|ks| - 1]) + {ks[|ks| - 1]}
  }

  predicate Distinct(ks: seq<int>) {
    forall i, j :: 0 <= i < j < |ks| ==> ks[i] != ks[j]
  }

  /** What the first loop keeps after the localities `ls`: the communities' parents, and
      one bucket per parent of a non-community locality, holding those localities. */
  predicate BucketInv(ls: seq<Locality>, localityMap: map<int, seq<Locality>>, communityID: map<int, int>) {
    && communityID == CommunityParents(ls)
    && localityMap.Keys == ParentKeys(ls)
    && forall k :: k in localityMap ==> localityMap[k] == Bucket(ls, k)
  }

  /** One iteration of the first loop, on the locality `l`. */
  method AddLocality(ghost ls: seq<Locality>, l: Locality, localityMap: map<int, seq<Locality>>, communityID: map<int, int>)
    returns (localityMap': map<int, seq<Locality>>, communityID': map<int, int>)
    requires BucketInv(ls, localityMap, communityID)
    ensures BucketInv(ls + [l], localityMap', communityID')
  {
    assert (ls + [l])[..|ls|] == ls;
    if IsCommunity(l) {
      localityMap', communityID' := localityMap, communityID[l.id := l.parentID];
    } else {
      var bucket := if l.parentID in localityMap then localityMap[l.parentID] else [];
      if l.parentID !in localityMap {
        BucketAbsent(ls, l.parentID);
      }
      localityMap', communityID' := localityMap[l.parentID := bucket + [l]], communityID;
    }
  }

  /** The first loop of `removeCommunities`: communities go to `communityID`, every
      other locality is appended to the bucket of its parent. */
  method BucketLocalities(localities: seq<Locality>) returns (localityMap: map<int, seq<Locality>>, communityID: map<int, int>)
    ensures communityID == CommunityParents(localities)
    ensures localityMap.Keys == ParentKeys(localities)
    ensures forall k :: k in localityMap ==> localityMap[k] == Bucket(localities, k)
  {
    localityMap, communityID := map[], map[];
    var i := 0;
    while i < |localities|
      invariant 0 <= i <= |localities|
      invariant BucketInv(localities[..i], localityMap, communityID)
    {
      assert localities[..i + 1] == localities[..i] + [localities[i]];
      localityMap, communityID := AddLocality(localities[..i], localities[i], localityMap, communityID);
      i := i + 1;
    }
    assert localities[..i] == localities;
  }

  /** `for loc := range v { v[loc].ParentID = parent }` */
  method SetParent(v: seq<Locality>, parent: int) returns (w: seq<Locality>)
    ensures w == WithParent(v, parent)
  {
    w := v;
    var loc := 0;
    while loc < |w|
      invariant 0 <= loc <= |w| == |v|
      invariant forall j :: 0 <= j < loc ==> w[j] == v[j].(parentID := parent)
      invariant forall j :: loc <= j < |w| ==> w[j] == v[j]
    {
      w := w[loc := w[loc].(parentID := parent)];
      loc := loc + 1;
    }
  }

  /** The second loop: the bucket of each community, in map order, moves to the
      community's parent. */
  method MoveBuckets(ghost ls: seq<Locality>, buckets: map<int, seq<Locality>>, communityID: map<int, int>)
    returns (localityMap: map<int, seq<Locality>>)
    requires forall k :: k in buckets ==> buckets[k] == Bucket(ls, k)
    ensures localityMap.Keys == buckets.Keys
    ensures forall k :: k in localityMap ==> localityMap[k] == Moved(ls, communityID, k)
  {
    localityMap := buckets;
    var todo := communityID.Keys;
    while todo != {}
      invariant todo <= communityID.Keys && localityMap.Keys == buckets.Keys
      invariant forall k :: k in localityMap ==>
                  localityMap[k] == if k in communityID && k !in todo then Moved(ls, communityID, k) else Bucket(ls, k)
      decreases |todo|
    {
      NonEmpty(todo);
      var com :| com in todo;
      var parent := communityID[com];
      if com in localityMap {
        var v := SetParent(localityMap[com], parent);
        localityMap := localityMap[com := v];
      }
      todo := todo - {com};
    }
  }

  /** What the last loop keeps: the keys visited so far, each once, are the keys not
      left in `rest`, and `ll` is their buckets in visiting order. */
  predicate ConcatInv(localityMap: map<int, seq<Locality>>, rest: set<int>, visited: seq<int>, ll: seq<Locality>) {
    && rest <= localityMap.Keys
    && (forall j :: 0 <= j < |visited| ==> visited[j] in localityMap && visited[j] !in rest)
    && KeySet(visited) == localityMap.Keys - rest
    && Distinct(visited)
    && ll == Concat(localityMap, visited)
  }

  /** One iteration of the last loop: a key still to visit, in map order, and its bucket. */
  method VisitNext(localityMap: map<int, seq<Locality>>, rest: set<int>, ghost visited: seq<int>, ll: seq<Locality>)
    returns (rest': set<int>, ghost visited': seq<int>, ll': seq<Locality>)
    requires rest != {} && ConcatInv(localityMap, rest, visited, ll)
    ensures ConcatInv(localityMap, rest', visited', ll') && rest' < rest
  {
    NonEmpty(rest);
    var k :| k in rest;
    VisitStep(localityMap, visited, k);
    ll' := ll + localityMap[k];
    visited' := visited + [k];
    rest' := rest - {k};
    forall j | 0 <= j < |visited'| ensures visited'[j] in localityMap && visited'[j] !in rest' {
      if j < |visited| { assert visited'[j] == visited[j]; }
    }
  }

  /** The last loop: the buckets appended in map order, `visited` recording that order. */
  method ConcatBuckets(localityMap: map<int, seq<Locality>>) returns (ll: seq<Locality>, ghost visited: seq<int>)
    ensures Distinct(visited) && KeySet(visited) == localityMap.Keys
    ensures forall j :: 0 <= j < |visited| ==> visited[j] in localityMap
    ensures ll == Concat(localityMap, visited)
  {
    ll, visited := [], [];
    var rest := localityMap.Keys;
    while rest != {}
      invariant ConcatInv(localityMap, rest, visited, ll)
      decreases rest
    {
      rest, visited, ll := VisitNext(localityMap, rest, visited, ll);
    }
  }

  /** Visiting one more key that was not visited yet. */
  lemma VisitStep(buckets: map<int, seq<Locality>>, visited: seq<int>, k: int)
    requires forall j :: 0 <= j < |visited| ==> visited[j] in buckets && visited[j] != k
    requires Distinct(visited) && k in buckets
    ensures Distinct(visited + [k]) && KeySet(visited + [k]) == KeySet(visited) + {k}
    ensures Concat(buckets, visited + [k]) == Concat(buckets, visited) + buckets[k]
  {
    assert (visited + [k])[..|visited|] == visited;
  }

  /** `removeCommunities`: what comes out is the reference result, in some order. */
  method RemoveCommunities(localities: seq<Locality>) returns (ll: seq<Locality>)
    ensures multiset(ll) == multiset(Reparented(localities))
    ensures |ll| == |NonCommunities(localities)|
    ensures forall x :: x in ll ==> !IsCommunity(x)
  {
    var buckets, communityID := BucketLocalities(localities);
    var localityMap := MoveBuckets(localities, buckets, communityID);
    ghost var visited;
    ll, visited := ConcatBuckets(localityMap);
    Emitted(localities, localityMap, visited);
    assert |multiset(ll)| == |multiset(Reparented(localities))|;
    NoCommunityLeft(localities);
    assert forall x :: x in ll ==> x in multiset(Reparented(localities));
  }

  /** No locality of the reference result is a community. */
  lemma NoCommunityLeft(ls: seq<Locality>)
    ensures forall x :: x in Reparented(ls) ==> !IsCommunity(x)
  {
    var r := Reparented(ls);
    forall x | x in r
      ensures !IsCommunity(x)
    {
      var j :| 0 <= j < |r| && r[j] == x;
      var y := NonCommunities(ls)[j];
      assert y in NonCommunities(ls);
      assert x.publicName.en == y.publicName.en;
    }
  }

  /** Re-parenting goes one level only: a locality under community `ls[j]` (the last
      community with that id) ends up under that community's own parent, whether or not
      that parent is itself a community. */
  lemma OneLevelOnly(ls: seq<Locality>, i: int, j: int)
    requires 0 <= i < |ls| && 0 <= j < |ls|
    requires !IsCommunity(ls[i]) && LastCommunityAt(ls, j) && ls[j].id == ls[i].parentID
    ensures ls[i].(parentID := ls[j].parentID) in Reparented(ls)
  {
    var p := CommunityParents(ls);
    var id := ls[i].parentID;
    assert id in p;
    var j' :| 0 <= j' < |ls| && LastCommunityAt(ls, j') && ls[j'].id == id && p[id] == ls[j'].parentID;
    assert j == j';
    ReparentedHas(ls, i);
  }

  /** A locality whose parent is no community keeps its parent. */
  lemma TopLevelKept(ls: seq<Locality>, i: int)
    requires 0 <= i < |ls| && !IsCommunity(ls[i])
    requires forall k :: 0 <= k < |ls| && IsCommunity(ls[k]) ==> ls[k].id != ls[i].parentID
    ensures ls[i] in Reparented(ls)
  {
    assert ls[i].parentID !in CommunityParents(ls);
    ReparentedHas(ls, i);
  }

  /** Every non-community locality comes out re-parented. */
  lemma ReparentedHas(ls: seq<Locality>, i: int)
    requires 0 <= i < |ls| && !IsCommunity(ls[i])
    ensures Reparent(CommunityParents(ls), ls[i]) in Reparented(ls)
  {
    var nc := NonCommunities(ls);
    assert ls[i] in nc;
    var m :| 0 <= m < |nc| && nc[m] == ls[i];
    assert Reparented(ls)[m] == Reparent(CommunityParents(ls), ls[i]);
  }

  /** A set other than the empty one has an element. */
  lemma NonEmpty(s: set<int>)
    requires s != {}
    ensures exists x :: x in s
  {
    if forall x :: x !in s {
      assert false;
    }
  }

  /** The bucket of a parent that no earlier locality had is empty. */
  lemma {:induction false} BucketAbsent(ls: seq<Locality>, k: int)
    requires k !in ParentKeys(ls)
    ensures Bucket(ls, k) == []
  {
    if ls != [] {
      BucketAbsent(ls[..|ls| - 1], k);
    }
  }

  /** A bucket carried to its new parent is the selection of that one parent. */
  lemma {:induction false} MovedSelected(ls: seq<Locality>, parents: map<int, int>, k: int)
    ensures Moved(ls, parents, k) == Selected(ls, parents, {k})
  {
    if ls != [] {
      var init := ls[..|ls| - 1];
      MovedSelected(init, parents, k);
      if k in parents {
        var l := ls[|ls| - 1];
        assert WithParent(Bucket(ls, k), parents[k]) ==
               WithParent(Bucket(init, k), parents[k]) + WithParent(if !IsCommunity(l) && l.parentID == k then [l] else [], parents[k]);
      }
    }
  }

  /** Selections over disjoint sets of parents add up. */
  lemma {:induction false} SelectedUnion(ls: seq<Locality>, parents: map<int, int>, a: set<int>, b: set<int>)
    requires a !! b
    ensures multiset(Selected(ls, parents, a + b)) == multiset(Selected(ls, parents, a)) + multiset(Selected(ls, parents, b))
  {
    if ls != [] {
      SelectedUnion(ls[..|ls| - 1], parents, a, b);
    }
  }

  /** Selecting every parent that occurs is the reference result. */
  lemma {:induction false} SelectedAll(ls: seq<Locality>, keys: set<int>)
    requires ParentKeys(ls) <= keys
    ensures Selected(ls, CommunityParents(ls), keys) == Reparented(ls)
  {
    SelectedAllUnder(ls, CommunityParents(ls), keys);
  }

  lemma {:induction false} SelectedAllUnder(ls: seq<Locality>, parents: map<int, int>, keys: set<int>)
    requires ParentKeys(ls) <= keys
    ensures Selected(ls, parents, keys) == ReparentEach(parents, NonCommunities(ls))
  {
    if ls != [] {
      var init := ls[..|ls| - 1];
      var l := ls[|ls| - 1];
      assert ParentKeys(init) <= keys;
      SelectedAllUnder(init, parents, keys);
      if !IsCommunity(l) {
        assert (NonCommunities(init) + [l])[..|NonCommunities(init)|] == NonCommunities(init);
      }
    }
  }

  /** Selecting no parent selects nothing. */
  lemma {:induction false} SelectedNone(ls: seq<Locality>, parents: map<int, int>)
    ensures Selected(ls, parents, {}) == []
  {
    if ls != [] {
      SelectedNone(ls[..|ls| - 1], parents);
    }
  }

  /** The concatenated buckets in a visiting order of distinct parents are the selection
      of those parents. */
  lemma {:induction false} ConcatSelected(ls: seq<Locality>, buckets: map<int, seq<Locality>>, ks: seq<int>)
    requires forall j :: 0 <= j < |ks| ==> ks[j] in buckets
    requires forall k :: k in buckets ==> buckets[k] == Moved(ls, CommunityParents(ls), k)
    requires Distinct(ks)
    ensures multiset(Concat(buckets, ks)) == multiset(Selected(ls, CommunityParents(ls), KeySet(ks)))
  {
    var parents := CommunityParents(ls);
    if ks == [] {
      SelectedNone(ls, parents);
    } else {
      var init := ks[..|ks| - 1];
      var k := ks[|ks| - 1];
      ConcatSelected(ls, buckets, init);
      MovedSelected(ls, parents, k);
      var a := KeySet(init);
      assert k !in a;
      SelectedUnion(ls, parents, a, {k});
      assert Concat(buckets, ks) == Concat(buckets, init) + buckets[k];
    }
  }

  /** The output holds the re-parented buckets of every parent, hence the reference result. */
  lemma {:induction false} Emitted(ls: seq<Locality>, buckets: map<int, seq<Locality>>, ks: seq<int>)
    requires buckets.Keys == ParentKeys(ls)
    requires forall k :: k in buckets ==> buckets[k] == Moved(ls, CommunityParents(ls), k)
    requires forall j :: 0 <= j < |ks| ==> ks[j] in buckets
    requires KeySet(ks) == buckets.Keys
    requires Distinct(ks)
    ensures multiset(Concat(buckets, ks)) == multiset(Reparented(ls))
  {
    ConcatSelected(ls, buckets, ks);
    SelectedAll(ls, KeySet(ks));
  }
}
