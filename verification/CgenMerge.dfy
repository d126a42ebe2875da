/**
 The merge of a fresh server list of pipelines into the editor's list
 (bundle/webroot/js/cgen.js:1326-1352).

 Objects that the script shares between lists are named by a `Ref`, so an update through one
 list is seen through the other.  Settings and runtime status are opaque texts.
 */
module CgenMerge {
  import opened Wrappers

  datatype Feed = Feed(id: string, originalId: string, settings: string, runtime: string)

  // ---------------------------------------------------------------- lookups

  /** The entry of `new Map(feeds.map((feed) => [feed.id, feed]))`: the last one wins. */
  function FindId(feeds: seq<Feed>, id: string): (r: Option<nat>)
    ensures r.Some? ==> r.value < |feeds| && feeds[r.value].id == id
    ensures r.None? ==> forall i | 0 <= i < |feeds| :: feeds[i].id != id
    decreases |feeds|
  {
    if feeds == [] then None
    else if feeds[|feeds| - 1].id == id then Some(|feeds| - 1)
    else FindId(feeds[..|feeds| - 1], id)
  }

  /** A dirty feed that was renamed since it was loaded. */
  predicate Renamed(f: Feed, dirty: set<string>) {
    f.id in dirty && f.originalId != "" && f.originalId != f.id
  }

  /** The last feed that was renamed from `id`. */
  function FindRenamed(feeds: seq<Feed>, dirty: set<string>, id: string): (r: Option<nat>)
    ensures r.Some? ==> r.value < |feeds| && Renamed(feeds[r.value], dirty) && feeds[r.value].originalId == id
    ensures r.None? ==> forall i | 0 <= i < |feeds| :: Renamed(feeds[i], dirty) ==> feeds[i].originalId != id
    decreases |feeds|
  {
    if feeds == [] then None
    else if Renamed(feeds[|feeds| - 1], dirty) && feeds[|feeds| - 1].originalId == id then Some(|feeds| - 1)
    else FindRenamed(feeds[..|feeds| - 1], dirty, id)
  }

  /** The local feed that stands for the server's feed `id`. */
  function Hit(feeds: seq<Feed>, dirty: set<string>, id: string): (r: Option<nat>)
    ensures r.Some? ==> r.value < |feeds| && feeds[r.value].id in dirty
  {
    if id in dirty then FindId(feeds, id) else FindRenamed(feeds, dirty, id)
  }

  // ---------------------------------------------------------------- the merge

  /** An object of the local list or of the server's list. */
  datatype Ref = Local(index: nat, id: string) | Remote(index: nat, id: string)

  function RefIds(refs: seq<Ref>): set<string> {
    set k | 0 <= k < |refs| :: refs[k].id
  }

  /** The walk over the server's list. */
  function Walk(feeds: seq<Feed>, dirty: set<string>, latest: seq<Feed>): seq<Ref>
    decreases |latest|
  {
    if latest == [] then []
    else
      var refs := Walk(feeds, dirty, latest[..|latest| - 1]);
      var j := |latest| - 1;
      match Hit(feeds, dirty, latest[j].id)
      case Some(i) => if feeds[i].id in RefIds(refs) then refs else refs + [Local(i, feeds[i].id)]
      case None => if latest[j].id in RefIds(refs) then refs else refs + [Remote(j, latest[j].id)]
  }

  /** Dirty local feeds that the server's list did not mention. */
  function Leftover(feeds: seq<Feed>, dirty: set<string>, included: set<string>): seq<Ref>
    decreases |feeds|
  {
    if feeds == [] then []
    else
      var refs := Leftover(feeds[..|feeds| - 1], dirty, included);
      var i := |feeds| - 1;
      if feeds[i].id in dirty && feeds[i].id !in included then refs + [Local(i, feeds[i].id)] else refs
  }

  /** The runtime status of a local feed: that of the last server feed it stands for. */
  function Runtime(feeds: seq<Feed>, dirty: set<string>, latest: seq<Feed>, i: nat): string
    requires i < |feeds|
    decreases |latest|
  {
    if latest == [] then feeds[i].runtime
    else if Hit(feeds, dirty, latest[|latest| - 1].id) == Some(i) then latest[|latest| - 1].runtime
    else Runtime(feeds, dirty, latest[..|latest| - 1], i)
  }

  predicate Points(feeds: seq<Feed>, latest: seq<Feed>, r: Ref) {
    match r
    case Local(i, id) => i < |feeds| && feeds[i].id == id
    case Remote(j, id) => j < |latest| && latest[j].id == id
  }

  predicate AllPoint(feeds: seq<Feed>, latest: seq<Feed>, refs: seq<Ref>) {
    forall k | 0 <= k < |refs| :: Points(feeds, latest, refs[k])
  }

  function Resolve(feeds: seq<Feed>, dirty: set<string>, latest: seq<Feed>, r: Ref): Feed
    requires Points(feeds, latest, r)
  {
    match r
    case Local(i, _) => feeds[i].(runtime := Runtime(feeds, dirty, latest, i))
    case Remote(j, _) => latest[j]
  }

  function ResolveAll(feeds: seq<Feed>, dirty: set<string>, latest: seq<Feed>, refs: seq<Ref>): (fs: seq<Feed>)
    requires AllPoint(feeds, latest, refs)
    ensures |fs| == |refs|
    ensures forall k | 0 <= k < |refs| :: fs[k] == Resolve(feeds, dirty, latest, refs[k])
  {
    seq(|refs|, k requires 0 <= k < |refs| => Resolve(feeds, dirty, latest, refs[k]))
  }

  function MergedRefs(feeds: seq<Feed>, dirty: set<string>, latest: seq<Feed>): seq<Ref> {
    var walked := Walk(feeds, dirty, latest);
    walked + Leftover(feeds, dirty, RefIds(walked))
  }

  function Merge(feeds: seq<Feed>, dirty: set<string>, latest: seq<Feed>): seq<Feed> {
    MergedRefsPoint(feeds, dirty, latest);
    ResolveAll(feeds, dirty, latest, MergedRefs(feeds, dirty, latest))
  }

  // ---------------------------------------------------------------- the loops

  /** The two maps of the merge. */
  method BuildMaps(feeds: seq<Feed>, dirty: set<string>)
    returns (currentByID: map<string, nat>, renamedByOriginalID: map<string, nat>)
    ensures forall id :: if id in currentByID then FindId(feeds, id) == Some(currentByID[id])
                         else FindId(feeds, id) == None
    ensures forall id :: if id in renamedByOriginalID then
                           FindRenamed(feeds, dirty, id) == Some(renamedByOriginalID[id])
                         else FindRenamed(feeds, dirty, id) == None
  {
    currentByID, renamedByOriginalID := map[], map[];
    var i := 0;
    while i < |feeds|
      invariant 0 <= i <= |feeds|
      invariant forall id :: if id in currentByID then FindId(feeds[..i], id) == Some(currentByID[id])
                             else FindId(feeds[..i], id) == None
      invariant forall id :: if id in renamedByOriginalID then
                               FindRenamed(feeds[..i], dirty, id) == Some(renamedByOriginalID[id])
                             else FindRenamed(feeds[..i], dirty, id) == None
    {
      var feed := feeds[i];
      assert feeds[..i + 1][..i] == feeds[..i];
      currentByID := currentByID[feed.id := i];
      if Renamed(feed, dirty) {
        renamedByOriginalID := renamedByOriginalID[feed.originalId := i];
      }
      i := i + 1;
    }
    assert feeds[..|feeds|] == feeds;
  }

  /** The local feeds with their runtime status after the walk. */
  function Objects(feeds: seq<Feed>, dirty: set<string>, latest: seq<Feed>): (objects: seq<Feed>)
    ensures |objects| == |feeds|
    ensures forall i | 0 <= i < |feeds| :: objects[i] == feeds[i].(runtime := Runtime(feeds, dirty, latest, i))
  {
    seq(|feeds|, i requires 0 <= i < |feeds| => feeds[i].(runtime := Runtime(feeds, dirty, latest, i)))
  }

  lemma VisitOne(feeds: seq<Feed>, dirty: set<string>, latest: seq<Feed>, j: nat)
    requires j < |latest|
    ensures var before, after := Objects(feeds, dirty, latest[..j]), Objects(feeds, dirty, latest[..j + 1]);
            match Hit(feeds, dirty, latest[j].id)
            case Some(i) => after == before[i := before[i].(runtime := latest[j].runtime)]
            case None => after == before
    ensures var before, after := Walk(feeds, dirty, latest[..j]), Walk(feeds, dirty, latest[..j + 1]);
            match Hit(feeds, dirty, latest[j].id)
            case Some(i) =>
              after == if feeds[i].id in RefIds(before) then before else before + [Local(i, feeds[i].id)]
            case None =>
              after == if latest[j].id in RefIds(before) then before else before + [Remote(j, latest[j].id)]
  {
    hide Hit, RefIds;
    assert latest[..j + 1][..j] == latest[..j];
  }

  /** The walk over the server's list; `objects` are the local feeds, updated in place. */
  method WalkLatest(feeds: seq<Feed>, dirty: set<string>, latest: seq<Feed>)
    returns (objects: seq<Feed>, refs: seq<Ref>, included: set<string>)
    ensures refs == Walk(feeds, dirty, latest) && included == RefIds(refs)
    ensures objects == Objects(feeds, dirty, latest)
  {
    var currentByID, renamedByOriginalID := BuildMaps(feeds, dirty);
    objects, refs, included := feeds, [], {};
    NothingIncluded();
    assert objects == Objects(feeds, dirty, []);
    var j := 0;
    while j < |latest|
      invariant 0 <= j <= |latest|
      invariant refs == Walk(feeds, dirty, latest[..j])
      invariant included == RefIds(refs)
      invariant objects == Objects(feeds, dirty, latest[..j])
    {
      var next := latest[j];
      var local := if next.id in dirty then Get(currentByID, next.id) else Get(renamedByOriginalID, next.id);
      assert local == Hit(feeds, dirty, next.id);
      VisitOne(feeds, dirty, latest, j);
      hide Walk, RefIds, Hit, Runtime, Objects, FindId, FindRenamed;
      match local {
        case Some(i) =>
          objects := objects[i := objects[i].(runtime := next.runtime)];
          if objects[i].id !in included {
            IncludeOne(refs, Local(i, objects[i].id));
            refs := refs + [Local(i, objects[i].id)];
          }
          included := included + {objects[i].id};
        case None =>
          if next.id !in included {
            IncludeOne(refs, Remote(j, next.id));
            refs := refs + [Remote(j, next.id)];
            included := included + {next.id};
          }
      }
      j := j + 1;
    }
    assert latest[..|latest|] == latest;
  }

  lemma NothingIncluded()
    ensures RefIds([]) == {}
  {
  }

  /** Appends the dirty local feeds that were not included. */
  method AppendLeftover(feeds: seq<Feed>, dirty: set<string>, included: set<string>, walked: seq<Ref>)
    returns (refs: seq<Ref>)
    ensures refs == walked + Leftover(feeds, dirty, included)
  {
    refs := walked;
    var k := 0;
    while k < |feeds|
      invariant 0 <= k <= |feeds|
      invariant refs == walked + Leftover(feeds[..k], dirty, included)
    {
      assert feeds[..k + 1][..k] == feeds[..k];
      if feeds[k].id in dirty && feeds[k].id !in included {
        refs := refs + [Local(k, feeds[k].id)];
      }
      k := k + 1;
    }
    assert feeds[..|feeds|] == feeds;
  }

  method MergeLatest(feeds: seq<Feed>, dirty: set<string>, latest: seq<Feed>) returns (merged: seq<Feed>)
    ensures merged == Merge(feeds, dirty, latest)
  {
    hide Walk, Leftover, RefIds, Runtime;
    var objects, walked, included := WalkLatest(feeds, dirty, latest);
    var refs := AppendLeftover(feeds, dirty, included, walked);
    MergedRefsPoint(feeds, dirty, latest);
    merged := seq(|refs|, m requires 0 <= m < |refs| && AllPoint(feeds, latest, refs) && |objects| == |feeds| =>
                            Pick(objects, latest, refs[m]));
  }

  function Pick(objects: seq<Feed>, latest: seq<Feed>, r: Ref): Feed
    requires r.index < if r.Local? then |objects| else |latest|
  {
    if r.Local? then objects[r.index] else latest[r.index]
  }

  function Get(m: map<string, nat>, id: string): Option<nat> {
    if id in m then Some(m[id]) else None
  }

  lemma IncludeOne(refs: seq<Ref>, r: Ref)
    ensures RefIds(refs + [r]) == RefIds(refs) + {r.id}
  {
    var all := refs + [r];
    assert all[|refs|] == r;
    forall k | 0 <= k < |refs|
      ensures refs[k].id in RefIds(all)
    {
      assert all[k] == refs[k];
    }
  }

  // ---------------------------------------------------------------- what the walk includes

  predicate UniqueIds(feeds: seq<Feed>) {
    forall i, j | 0 <= i < j < |feeds| :: feeds[i].id != feeds[j].id
  }

  function Ids(feeds: seq<Feed>): set<string> {
    set i | 0 <= i < |feeds| :: feeds[i].id
  }

  predicate DistinctRefs(refs: seq<Ref>) {
    forall a, b | 0 <= a < b < |refs| :: refs[a].id != refs[b].id
  }

  /** A reference to a dirty local feed, or to a server feed that no local feed stands for. */
  predicate Chosen(feeds: seq<Feed>, dirty: set<string>, latest: seq<Feed>, r: Ref) {
    && Points(feeds, latest, r)
    && (r.Local? ==> r.id in dirty)
    && (r.Remote? ==> Hit(feeds, dirty, r.id).None?)
  }

  predicate AllChosen(feeds: seq<Feed>, dirty: set<string>, latest: seq<Feed>, refs: seq<Ref>) {
    forall k | 0 <= k < |refs| :: Chosen(feeds, dirty, latest, refs[k])
  }

  lemma ChosenGrows(feeds: seq<Feed>, dirty: set<string>, latest: seq<Feed>, refs: seq<Ref>)
    requires latest != [] && AllChosen(feeds, dirty, latest[..|latest| - 1], refs)
    ensures AllChosen(feeds, dirty, latest, refs)
  {
    forall k | 0 <= k < |refs|
      ensures Chosen(feeds, dirty, latest, refs[k])
    {
      assert Chosen(feeds, dirty, latest[..|latest| - 1], refs[k]);
    }
  }

  lemma InRefIds(refs: seq<Ref>, id: string)
    ensures id in RefIds(refs) <==> exists k :: 0 <= k < |refs| && refs[k].id == id
  {
  }

  lemma DistinctGrows(refs: seq<Ref>, r: Ref)
    requires DistinctRefs(refs) && r.id !in RefIds(refs)
    ensures DistinctRefs(refs + [r])
  {
    forall a | 0 <= a < |refs|
      ensures refs[a].id != r.id
    {
      InRefIds(refs, r.id);
    }
  }

  lemma {:induction false} WalkIsChosen(feeds: seq<Feed>, dirty: set<string>, latest: seq<Feed>)
    ensures AllChosen(feeds, dirty, latest, Walk(feeds, dirty, latest))
    ensures DistinctRefs(Walk(feeds, dirty, latest))
    decreases |latest|
  {
    if latest != [] {
      var front := latest[..|latest| - 1];
      WalkIsChosen(feeds, dirty, front);
      var refs := Walk(feeds, dirty, front);
      ChosenGrows(feeds, dirty, latest, refs);
      hide RefIds, FindId, FindRenamed;
      var j := |latest| - 1;
      match Hit(feeds, dirty, latest[j].id) {
        case Some(i) =>
          if feeds[i].id !in RefIds(refs) {
            DistinctGrows(refs, Local(i, feeds[i].id));
          }
        case None =>
          if latest[j].id !in RefIds(refs) {
            DistinctGrows(refs, Remote(j, latest[j].id));
          }
      }
    }
  }

  lemma {:induction false} LeftoverIsChosen(
      feeds: seq<Feed>, dirty: set<string>, included: set<string>, n: nat, latest: seq<Feed>)
    requires n <= |feeds| && UniqueIds(feeds)
    ensures var refs := Leftover(feeds[..n], dirty, included);
            && AllChosen(feeds, dirty, latest, refs)
            && DistinctRefs(refs)
            && (forall k | 0 <= k < |refs| :: refs[k].Local? && refs[k].index < n && refs[k].id !in included)
            && (forall i | 0 <= i < n :: feeds[i].id in dirty && feeds[i].id !in included ==>
                  Local(i, feeds[i].id) in refs)
    decreases n
  {
    if n > 0 {
      LeftoverIsChosen(feeds, dirty, included, n - 1, latest);
      assert feeds[..n][..n - 1] == feeds[..n - 1];
      var refs := Leftover(feeds[..n - 1], dirty, included);
      var r := Local(n - 1, feeds[n - 1].id);
      forall k | 0 <= k < |refs|
        ensures refs[k].id != feeds[n - 1].id
      {
        assert Chosen(feeds, dirty, latest, refs[k]);
      }
    }
  }

  lemma {:induction false} LeftoverPoints(feeds: seq<Feed>, dirty: set<string>, included: set<string>, latest: seq<Feed>)
    ensures AllPoint(feeds, latest, Leftover(feeds, dirty, included))
    decreases |feeds|
  {
    if feeds != [] {
      LeftoverPoints(feeds[..|feeds| - 1], dirty, included, latest);
      var refs := Leftover(feeds[..|feeds| - 1], dirty, included);
      forall k | 0 <= k < |refs|
        ensures Points(feeds, latest, refs[k])
      {
        assert Points(feeds[..|feeds| - 1], latest, refs[k]);
      }
    }
  }

  lemma MergedRefsPoint(feeds: seq<Feed>, dirty: set<string>, latest: seq<Feed>)
    ensures AllPoint(feeds, latest, MergedRefs(feeds, dirty, latest))
  {
    WalkIsChosen(feeds, dirty, latest);
    var walked := Walk(feeds, dirty, latest);
    assert AllPoint(feeds, latest, walked) by {
      forall k | 0 <= k < |walked|
        ensures Points(feeds, latest, walked[k])
      {
        assert Chosen(feeds, dirty, latest, walked[k]);
      }
    }
    LeftoverPoints(feeds, dirty, RefIds(walked), latest);
  }

  lemma MergedRefsAreChosen(feeds: seq<Feed>, dirty: set<string>, latest: seq<Feed>)
    requires UniqueIds(feeds)
    ensures AllChosen(feeds, dirty, latest, MergedRefs(feeds, dirty, latest))
    ensures DistinctRefs(MergedRefs(feeds, dirty, latest))
  {
    hide Walk, Leftover, RefIds, Chosen, UniqueIds;
    WalkIsChosen(feeds, dirty, latest);
    var walked := Walk(feeds, dirty, latest);
    var included := RefIds(walked);
    LeftoverIsChosen(feeds, dirty, included, |feeds|, latest);
    assert feeds[..|feeds|] == feeds;
    var rest := Leftover(feeds, dirty, included);
    forall a, b | 0 <= a < |walked| && 0 <= b < |rest|
      ensures walked[a].id != rest[b].id
    {
      InRefIds(walked, walked[a].id);
    }
  }

  // ---------------------------------------------------------------- the laws of the merge

  /** Ids stay unique, also when the server's list repeats one. */
  lemma MergeKeepsIdsUnique(feeds: seq<Feed>, dirty: set<string>, latest: seq<Feed>)
    requires UniqueIds(feeds)
    ensures UniqueIds(Merge(feeds, dirty, latest))
  {
    MergedRefsAreChosen(feeds, dirty, latest);
    MergedRefsPoint(feeds, dirty, latest);
    var refs := MergedRefs(feeds, dirty, latest);
    hide MergedRefs, Chosen, Runtime;
    forall a, b | 0 <= a < b < |refs|
      ensures Merge(feeds, dirty, latest)[a].id != Merge(feeds, dirty, latest)[b].id
    {
      assert refs[a].id != refs[b].id;
    }
  }

  /** A feed at a position of a list, but for its runtime status. */
  predicate Carries(feeds: seq<Feed>, k: nat, f: Feed) {
    k < |feeds| && feeds[k] == f.(runtime := feeds[k].runtime)
  }

  /** Every dirty local feed is in the merged list, exactly once, with all its settings. */
  lemma DirtyFeedsSurvive(feeds: seq<Feed>, dirty: set<string>, latest: seq<Feed>, i: nat) returns (k: nat)
    requires UniqueIds(feeds) && i < |feeds| && feeds[i].id in dirty
    ensures Carries(Merge(feeds, dirty, latest), k, feeds[i])
    ensures forall m | 0 <= m < |Merge(feeds, dirty, latest)| ::
              Merge(feeds, dirty, latest)[m].id == feeds[i].id ==> m == k
  {
    MergeKeepsIdsUnique(feeds, dirty, latest);
    MergedRefsPoint(feeds, dirty, latest);
    var refs := MergedRefs(feeds, dirty, latest);
    k := DirtyRef(feeds, dirty, latest, i);
    hide MergedRefs, Runtime;
    assert Points(feeds, latest, refs[k]);
    var merged := Merge(feeds, dirty, latest);
    assert merged[k].id == feeds[i].id;
  }

  lemma DirtyRef(feeds: seq<Feed>, dirty: set<string>, latest: seq<Feed>, i: nat) returns (k: nat)
    requires UniqueIds(feeds) && i < |feeds| && feeds[i].id in dirty
    ensures var refs := MergedRefs(feeds, dirty, latest); k < |refs| && refs[k] == Local(i, feeds[i].id)
  {
    hide Walk, Leftover, RefIds;
    var walked := Walk(feeds, dirty, latest);
    var included := RefIds(walked);
    WalkIsChosen(feeds, dirty, latest);
    LeftoverIsChosen(feeds, dirty, included, |feeds|, latest);
    assert feeds[..|feeds|] == feeds;
    if feeds[i].id in included {
      InRefIds(walked, feeds[i].id);
      k :| 0 <= k < |walked| && walked[k].id == feeds[i].id;
      assert Chosen(feeds, dirty, latest, walked[k]);
    } else {
      var rest := Leftover(feeds, dirty, included);
      var m :| 0 <= m < |rest| && rest[m] == Local(i, feeds[i].id);
      k := |walked| + m;
    }
  }

  /** The old id of a renamed feed does not come back, unless a dirty local feed holds it. */
  lemma RenamedIdsStayAway(feeds: seq<Feed>, dirty: set<string>, latest: seq<Feed>, i: nat, k: nat)
    requires UniqueIds(feeds) && i < |feeds| && feeds[i].id in dirty
    requires feeds[i].originalId != "" && feeds[i].originalId != feeds[i].id
    requires k < |Merge(feeds, dirty, latest)| && Merge(feeds, dirty, latest)[k].id == feeds[i].originalId
    requires dirty <= Ids(feeds)
    ensures exists m :: 0 <= m < |feeds| && feeds[m].id == feeds[i].originalId && feeds[m].id in dirty
  {
    MergedRefsAreChosen(feeds, dirty, latest);
    MergedRefsPoint(feeds, dirty, latest);
    var refs := MergedRefs(feeds, dirty, latest);
    assert Chosen(feeds, dirty, latest, refs[k]);
    hide MergedRefs, Walk, Leftover, Runtime, AllChosen;
    assert feeds[i].originalId in dirty;
    assert feeds[i].originalId in Ids(feeds);
  }

  // ---------------------------------------------------------------- the server's other feeds

  /** The feeds of `feeds` that are not dirty. */
  function Untouched(feeds: seq<Feed>, dirty: set<string>): seq<Feed>
    decreases |feeds|
  {
    if feeds == [] then []
    else
      var front, last := Untouched(feeds[..|feeds| - 1], dirty), feeds[|feeds| - 1];
      if last.id in dirty then front else front + [last]
  }

  /** The dirty local feed `i` stands for the server's feed of its id; or for the one it was loaded
      as, unless a dirty feed has that id or a later one was loaded as it too. */
  predicate StandsFor(feeds: seq<Feed>, dirty: set<string>, i: nat, id: string)
    requires i < |feeds|
  {
    && feeds[i].id in dirty
    && (feeds[i].id == id
        || (id !in dirty && id != "" && feeds[i].originalId == id
            && forall j | i < j < |feeds| :: feeds[j].id in dirty ==> feeds[j].originalId != id))
  }

  lemma {:induction false} FindRenamedIs(feeds: seq<Feed>, dirty: set<string>, id: string, i: nat)
    requires i < |feeds| && id !in dirty
    ensures FindRenamed(feeds, dirty, id) == Some(i) <==> StandsFor(feeds, dirty, i, id)
    decreases |feeds|
  {
    var n := |feeds| - 1;
    if i < n {
      FindRenamedIs(feeds[..n], dirty, id, i);
      assert StandsFor(feeds, dirty, i, id) <==>
             StandsFor(feeds[..n], dirty, i, id) && !(feeds[n].id in dirty && feeds[n].originalId == id);
    }
  }

  lemma HitIs(feeds: seq<Feed>, dirty: set<string>, id: string, i: nat)
    requires UniqueIds(feeds) && dirty <= Ids(feeds) && i < |feeds|
    ensures Hit(feeds, dirty, id) == Some(i) <==> StandsFor(feeds, dirty, i, id)
  {
    if id !in dirty {
      FindRenamedIs(feeds, dirty, id, i);
    }
  }

  /** Some dirty local feed has the id of a server's feed, or was loaded as it. */
  predicate IsStoodFor(feeds: seq<Feed>, dirty: set<string>, id: string) {
    exists i :: 0 <= i < |feeds| && feeds[i].id in dirty && (feeds[i].id == id || (id != "" && feeds[i].originalId == id))
  }

  lemma HitIff(feeds: seq<Feed>, dirty: set<string>, id: string)
    requires UniqueIds(feeds) && dirty <= Ids(feeds)
    ensures Hit(feeds, dirty, id).Some? <==> IsStoodFor(feeds, dirty, id)
  {
    match Hit(feeds, dirty, id)
    case Some(i) => HitIs(feeds, dirty, id, i);
    case None =>
  }

  /** The server's feeds that no dirty local feed stands for. */
  function Foreign(feeds: seq<Feed>, dirty: set<string>, latest: seq<Feed>): seq<Feed>
    decreases |latest|
  {
    if latest == [] then []
    else
      var front, last := Foreign(feeds, dirty, latest[..|latest| - 1]), latest[|latest| - 1];
      if IsStoodFor(feeds, dirty, last.id) then front else front + [last]
  }

  /** The server feeds among references, in order. */
  function Remotes(latest: seq<Feed>, refs: seq<Ref>): seq<Feed>
    requires forall k | 0 <= k < |refs| :: refs[k].Remote? ==> refs[k].index < |latest|
    decreases |refs|
  {
    if refs == [] then []
    else
      var front, last := Remotes(latest, refs[..|refs| - 1]), refs[|refs| - 1];
      if last.Remote? then front + [latest[last.index]] else front
  }

  lemma {:induction false} RemotesOfMore(latest: seq<Feed>, more: seq<Feed>, refs: seq<Ref>)
    requires forall k | 0 <= k < |refs| :: refs[k].Remote? ==> refs[k].index < |latest|
    ensures Remotes(latest + more, refs) == Remotes(latest, refs)
    decreases |refs|
  {
    if refs != [] {
      RemotesOfMore(latest, more, refs[..|refs| - 1]);
    }
  }

  lemma RemotesGrow(latest: seq<Feed>, refs: seq<Ref>, r: Ref)
    requires forall k | 0 <= k < |refs| :: refs[k].Remote? ==> refs[k].index < |latest|
    requires r.Remote? ==> r.index < |latest|
    ensures Remotes(latest, refs + [r]) ==
            Remotes(latest, refs) + if r.Remote? then [latest[r.index]] else []
  {
    var all := refs + [r];
    assert all[..|refs|] == refs;
  }

  lemma ChosenRemotesPoint(feeds: seq<Feed>, dirty: set<string>, latest: seq<Feed>, refs: seq<Ref>)
    requires AllChosen(feeds, dirty, latest, refs)
    ensures forall k | 0 <= k < |refs| :: refs[k].Remote? ==> refs[k].index < |latest|
  {
    forall k | 0 <= k < |refs|
      ensures refs[k].Remote? ==> refs[k].index < |latest|
    {
      assert Chosen(feeds, dirty, latest, refs[k]);
    }
  }

  /** No id of an earlier server feed, and no local id, hides a server feed that is not dirty. */
  lemma ForeignIsNew(feeds: seq<Feed>, dirty: set<string>, latest: seq<Feed>)
    requires latest != [] && UniqueIds(latest) && dirty <= Ids(feeds)
    requires Hit(feeds, dirty, latest[|latest| - 1].id).None?
    ensures latest[|latest| - 1].id !in RefIds(Walk(feeds, dirty, latest[..|latest| - 1]))
  {
    var front, id := latest[..|latest| - 1], latest[|latest| - 1].id;
    var refs := Walk(feeds, dirty, front);
    WalkIsChosen(feeds, dirty, front);
    hide Walk;
    RemoteIsNotDirty(feeds, dirty, id);
    forall k | 0 <= k < |refs|
      ensures refs[k].id != id
    {
      assert Chosen(feeds, dirty, front, refs[k]);
    }
    InRefIds(refs, id);
  }

  lemma {:induction false} WalkTakesForeign(feeds: seq<Feed>, dirty: set<string>, latest: seq<Feed>)
    requires UniqueIds(feeds) && UniqueIds(latest) && dirty <= Ids(feeds)
    ensures AllChosen(feeds, dirty, latest, Walk(feeds, dirty, latest))
    ensures forall k | 0 <= k < |Walk(feeds, dirty, latest)| ::
              Walk(feeds, dirty, latest)[k].Remote? ==> Walk(feeds, dirty, latest)[k].index < |latest|
    ensures Remotes(latest, Walk(feeds, dirty, latest)) == Foreign(feeds, dirty, latest)
    decreases |latest|
  {
    WalkIsChosen(feeds, dirty, latest);
    ChosenRemotesPoint(feeds, dirty, latest, Walk(feeds, dirty, latest));
    if latest != [] {
      var front := latest[..|latest| - 1];
      WalkTakesForeign(feeds, dirty, front);
      var refs := Walk(feeds, dirty, front);
      assert front + [latest[|latest| - 1]] == latest;
      RemotesOfMore(front, [latest[|latest| - 1]], refs);
      var j := |latest| - 1;
      HitIff(feeds, dirty, latest[j].id);
      match Hit(feeds, dirty, latest[j].id) {
        case Some(i) =>
          if feeds[i].id !in RefIds(refs) {
            RemotesGrow(latest, refs, Local(i, feeds[i].id));
          }
        case None =>
          ForeignIsNew(feeds, dirty, latest);
          RemotesGrow(latest, refs, Remote(j, latest[j].id));
      }
    }
  }

  lemma {:induction false} LocalsAddNoRemotes(latest: seq<Feed>, refs: seq<Ref>, more: seq<Ref>)
    requires forall k | 0 <= k < |refs| :: refs[k].Remote? ==> refs[k].index < |latest|
    requires forall k | 0 <= k < |more| :: more[k].Local?
    ensures Remotes(latest, refs + more) == Remotes(latest, refs)
    decreases |more|
  {
    if more == [] {
      assert refs + more == refs;
    } else {
      var front := more[..|more| - 1];
      LocalsAddNoRemotes(latest, refs, front);
      assert refs + more == (refs + front) + [more[|more| - 1]];
      RemotesGrow(latest, refs + front, more[|more| - 1]);
    }
  }

  /** Of a chosen list, the feeds that are not dirty are the server's. */
  lemma {:induction false} UntouchedAreRemotes(
      feeds: seq<Feed>, dirty: set<string>, latest: seq<Feed>, refs: seq<Ref>)
    requires AllChosen(feeds, dirty, latest, refs) && AllPoint(feeds, latest, refs) && dirty <= Ids(feeds)
    requires forall k | 0 <= k < |refs| :: refs[k].Remote? ==> refs[k].index < |latest|
    ensures Untouched(ResolveAll(feeds, dirty, latest, refs), dirty) == Remotes(latest, refs)
    decreases |refs|
  {
    if refs != [] {
      var front, last := refs[..|refs| - 1], refs[|refs| - 1];
      UntouchedAreRemotes(feeds, dirty, latest, front);
      var all := ResolveAll(feeds, dirty, latest, refs);
      assert all[..|refs| - 1] == ResolveAll(feeds, dirty, latest, front);
      assert Chosen(feeds, dirty, latest, last);
      if last.Remote? {
        RemoteIsNotDirty(feeds, dirty, last.id);
      }
    }
  }

  lemma RemoteIsNotDirty(feeds: seq<Feed>, dirty: set<string>, id: string)
    requires dirty <= Ids(feeds) && Hit(feeds, dirty, id).None?
    ensures id !in dirty
  {
  }

  /** The rest of the merged list is the server's: every feed that no dirty local feed stands
      for, unchanged and in the server's order, and nothing else. */
  lemma ServerFeedsKeepTheirOrder(feeds: seq<Feed>, dirty: set<string>, latest: seq<Feed>)
    requires UniqueIds(feeds) && UniqueIds(latest) && dirty <= Ids(feeds)
    ensures Untouched(Merge(feeds, dirty, latest), dirty) == Foreign(feeds, dirty, latest)
  {
    MergedRefsAreChosen(feeds, dirty, latest);
    MergedRefsPoint(feeds, dirty, latest);
    var refs := MergedRefs(feeds, dirty, latest);
    var walked := Walk(feeds, dirty, latest);
    WalkTakesForeign(feeds, dirty, latest);
    LeftoverIsChosen(feeds, dirty, RefIds(walked), |feeds|, latest);
    assert feeds[..|feeds|] == feeds;
    LocalsAddNoRemotes(latest, walked, Leftover(feeds, dirty, RefIds(walked)));
    ChosenRemotesPoint(feeds, dirty, latest, refs);
    UntouchedAreRemotes(feeds, dirty, latest, refs);
  }

  // ---------------------------------------------------------------- where a dirty feed stands

  /** The first of the server's feeds that the dirty feed `i` stands for, or the end of the list. */
  predicate FirstPlace(feeds: seq<Feed>, dirty: set<string>, latest: seq<Feed>, i: nat, p: nat)
    requires i < |feeds|
  {
    && p <= |latest|
    && (p < |latest| ==> StandsFor(feeds, dirty, i, latest[p].id))
    && (forall q | 0 <= q < p :: !StandsFor(feeds, dirty, i, latest[q].id))
  }

  /** The walk includes a local feed only for a server feed it stands for. */
  lemma {:induction false} WalkedStandsFor(feeds: seq<Feed>, dirty: set<string>, latest: seq<Feed>, i: nat) returns (q: nat)
    requires UniqueIds(feeds) && dirty <= Ids(feeds) && i < |feeds| && feeds[i].id in dirty
    requires feeds[i].id in RefIds(Walk(feeds, dirty, latest))
    ensures q < |latest| && StandsFor(feeds, dirty, i, latest[q].id)
    decreases |latest|
  {
    var n := |latest| - 1;
    var refs := Walk(feeds, dirty, latest[..n]);
    hide StandsFor, UniqueIds;
    if feeds[i].id in RefIds(refs) {
      q := WalkedStandsFor(feeds, dirty, latest[..n], i);
    } else {
      q := n;
      HitIs(feeds, dirty, latest[n].id, i);
      IncludeLast(feeds, dirty, latest, feeds[i].id);
      if Hit(feeds, dirty, latest[n].id).None? {
        RemoteIsNotDirty(feeds, dirty, latest[n].id);
      } else {
        SameFeed(feeds, i, Hit(feeds, dirty, latest[n].id).value);
      }
    }
  }

  lemma SameFeed(feeds: seq<Feed>, i: nat, j: nat)
    requires UniqueIds(feeds) && i < |feeds| && j < |feeds| && feeds[i].id == feeds[j].id
    ensures i == j
  {
  }

  lemma IncludeLast(feeds: seq<Feed>, dirty: set<string>, latest: seq<Feed>, id: string)
    requires latest != []
    requires id in RefIds(Walk(feeds, dirty, latest)) && id !in RefIds(Walk(feeds, dirty, latest[..|latest| - 1]))
    ensures var n := |latest| - 1;
            match Hit(feeds, dirty, latest[n].id)
            case Some(i) => feeds[i].id == id
            case None => latest[n].id == id
  {
    var n := |latest| - 1;
    var refs := Walk(feeds, dirty, latest[..n]);
    hide RefIds, FindId, FindRenamed;
    match Hit(feeds, dirty, latest[n].id)
    case Some(i) => IncludeOne(refs, Local(i, feeds[i].id));
    case None => IncludeOne(refs, Remote(n, latest[n].id));
  }

  /** A prefix of the walk is followed by what the rest of the server's list adds. */
  lemma {:induction false} WalkPlaces(feeds: seq<Feed>, dirty: set<string>, latest: seq<Feed>, i: nat, p: nat)
    requires UniqueIds(feeds) && UniqueIds(latest) && dirty <= Ids(feeds) && i < |feeds| && p < |latest|
    requires FirstPlace(feeds, dirty, latest, i, p)
    ensures var before := Walk(feeds, dirty, latest[..p]);
            before + [Local(i, feeds[i].id)] <= Walk(feeds, dirty, latest)
    decreases |latest|
  {
    var n := |latest| - 1;
    hide RefIds, UniqueIds;
    if p < n {
      assert latest[..n][..p] == latest[..p];
      UniquePrefix(latest, n);
      WalkPlaces(feeds, dirty, latest[..n], i, p);
      hide StandsFor;
    } else {
      HitIs(feeds, dirty, latest[n].id, i);
      var before := Walk(feeds, dirty, latest[..n]);
      assert feeds[i].id in dirty;
      hide StandsFor;
      if feeds[i].id in RefIds(before) {
        var q := WalkedStandsFor(feeds, dirty, latest[..n], i);
        assert false;
      }
    }
  }

  lemma UniquePrefix(feeds: seq<Feed>, n: nat)
    requires UniqueIds(feeds) && n <= |feeds|
    ensures UniqueIds(feeds[..n])
  {
  }

  /** A dirty feed takes the place of the first server feed it stands for: before it come exactly
      the server's other feeds that came before that one.  If it stands for none of them it comes
      after them all. */
  lemma {:induction false} DirtyFeedsTakeTheirPlaces(feeds: seq<Feed>, dirty: set<string>, latest: seq<Feed>, i: nat, p: nat, k: nat)
    requires UniqueIds(feeds) && UniqueIds(latest) && dirty <= Ids(feeds) && i < |feeds| && feeds[i].id in dirty
    requires FirstPlace(feeds, dirty, latest, i, p)
    requires k < |Merge(feeds, dirty, latest)| && Merge(feeds, dirty, latest)[k].id == feeds[i].id
    ensures Untouched(Merge(feeds, dirty, latest)[..k], dirty) == Foreign(feeds, dirty, latest[..p])
  {
    hide Walk, Leftover, RefIds, Runtime, UniqueIds, StandsFor, Foreign, Chosen;
    MergedRefsAreChosen(feeds, dirty, latest);
    MergedRefsPoint(feeds, dirty, latest);
    var refs, walked := MergedRefs(feeds, dirty, latest), Walk(feeds, dirty, latest);
    assert refs[k].id == feeds[i].id by {
      assert Points(feeds, latest, refs[k]);
    }
    ChosenRemotesPoint(feeds, dirty, latest, refs);
    UntouchedAreRemotes(feeds, dirty, latest, refs[..k]);
    assert Merge(feeds, dirty, latest)[..k] == ResolveAll(feeds, dirty, latest, refs[..k]);
    if p < |latest| {
      WalkPlaces(feeds, dirty, latest, i, p);
      var before := Walk(feeds, dirty, latest[..p]);
      assert refs[|before|] == Local(i, feeds[i].id);
      assert k == |before|;
      assert refs[..k] == before;
      UniquePrefix(latest, p);
      WalkTakesForeign(feeds, dirty, latest[..p]);
      assert latest[..p] + latest[p..] == latest;
      RemotesOfMore(latest[..p], latest[p..], before);
    } else {
      assert latest[..p] == latest;
      if k < |walked| {
        InRefIds(walked, feeds[i].id);
        var q := WalkedStandsFor(feeds, dirty, latest, i);
        assert false;
      }
      WalkTakesForeign(feeds, dirty, latest);
      LeftoverIsChosen(feeds, dirty, RefIds(walked), |feeds|, latest);
      assert feeds[..|feeds|] == feeds;
      var rest := Leftover(feeds, dirty, RefIds(walked));
      assert refs[..k] == walked + rest[..k - |walked|];
      LocalsAddNoRemotes(latest, walked, rest[..k - |walked|]);
    }
  }

  predicate Ascend(feeds: seq<Feed>, refs: seq<Ref>, a: nat, b: nat)
    requires a < |refs| && b < |refs|
  {
    && refs[a].Local? && refs[b].Local? && refs[a].index < |feeds| && refs[b].index < |feeds|
    && (a < b ==> refs[a].index < refs[b].index) && (a == b ==> refs[a] == refs[b])
  }

  lemma {:induction false} LeftoverInOrder(feeds: seq<Feed>, dirty: set<string>, included: set<string>, a: nat, b: nat)
    requires a < |Leftover(feeds, dirty, included)| && b < |Leftover(feeds, dirty, included)|
    ensures Ascend(feeds, Leftover(feeds, dirty, included), a, b)
    decreases |feeds|
  {
    var front := feeds[..|feeds| - 1];
    var n := |Leftover(front, dirty, included)|;
    if a < n {
      LeftoverInOrder(front, dirty, included, a, a);
    }
    if b < n {
      LeftoverInOrder(front, dirty, included, b, b);
    }
    if a < n && b < n {
      LeftoverInOrder(front, dirty, included, a, b);
    }
  }

  /** Dirty feeds that stand for none of the server's keep their own order. */
  lemma {:induction false} LeftoversKeepTheirOrder(feeds: seq<Feed>, dirty: set<string>, latest: seq<Feed>, i: nat, j: nat, k: nat, m: nat)
    requires UniqueIds(feeds) && dirty <= Ids(feeds) && i < j < |feeds| && feeds[i].id in dirty && feeds[j].id in dirty
    requires forall q | 0 <= q < |latest| ::
               !StandsFor(feeds, dirty, i, latest[q].id) && !StandsFor(feeds, dirty, j, latest[q].id)
    requires k < |Merge(feeds, dirty, latest)| && Merge(feeds, dirty, latest)[k].id == feeds[i].id
    requires m < |Merge(feeds, dirty, latest)| && Merge(feeds, dirty, latest)[m].id == feeds[j].id
    ensures k < m
  {
    hide Walk, Leftover, RefIds, Runtime, UniqueIds, StandsFor, Chosen;
    MergedRefsAreChosen(feeds, dirty, latest);
    MergedRefsPoint(feeds, dirty, latest);
    var refs, walked := MergedRefs(feeds, dirty, latest), Walk(feeds, dirty, latest);
    assert Points(feeds, latest, refs[k]) && Points(feeds, latest, refs[m]);
    assert refs[k].id == feeds[i].id && refs[m].id == feeds[j].id;
    NotWalked(feeds, dirty, latest, i, k);
    NotWalked(feeds, dirty, latest, j, m);
    var rest := Leftover(feeds, dirty, RefIds(walked));
    var (a, b) := (k - |walked|, m - |walked|);
    assert rest[a] == refs[k] && rest[b] == refs[m];
    LeftoverInOrder(feeds, dirty, RefIds(walked), a, b);
    LeftoverInOrder(feeds, dirty, RefIds(walked), b, a);
    SameFeed(feeds, i, rest[a].index);
    SameFeed(feeds, j, rest[b].index);
  }

  lemma NotWalked(feeds: seq<Feed>, dirty: set<string>, latest: seq<Feed>, i: nat, k: nat)
    requires UniqueIds(feeds) && dirty <= Ids(feeds) && i < |feeds| && feeds[i].id in dirty
    requires forall q | 0 <= q < |latest| :: !StandsFor(feeds, dirty, i, latest[q].id)
    requires k < |MergedRefs(feeds, dirty, latest)| && MergedRefs(feeds, dirty, latest)[k].id == feeds[i].id
    ensures k >= |Walk(feeds, dirty, latest)|
  {
    hide Walk, Leftover, RefIds, UniqueIds, StandsFor;
    var walked := Walk(feeds, dirty, latest);
    if k < |walked| {
      assert walked[k].id == feeds[i].id;
      InRefIds(walked, feeds[i].id);
      var q := WalkedStandsFor(feeds, dirty, latest, i);
      assert false;
    }
  }

  /** Its runtime status is that of the last server feed it stands for, or the one it had. */
  lemma {:induction false} RuntimeIsTheServers(feeds: seq<Feed>, dirty: set<string>, latest: seq<Feed>, i: nat, k: nat)
    requires UniqueIds(feeds) && dirty <= Ids(feeds) && i < |feeds| && feeds[i].id in dirty
    requires k < |Merge(feeds, dirty, latest)| && Merge(feeds, dirty, latest)[k].id == feeds[i].id
    ensures (exists q: nat :: IsLastPlace(feeds, dirty, latest, i, q) && Merge(feeds, dirty, latest)[k].runtime == latest[q].runtime)
            || (Merge(feeds, dirty, latest)[k].runtime == feeds[i].runtime
                && forall q | 0 <= q < |latest| :: !StandsFor(feeds, dirty, i, latest[q].id))
  {
    hide Walk, Leftover, RefIds, StandsFor, Chosen, IsLastPlace;
    MergedRefsAreChosen(feeds, dirty, latest);
    MergedRefsPoint(feeds, dirty, latest);
    var refs := MergedRefs(feeds, dirty, latest);
    var m := DirtyRef(feeds, dirty, latest, i);
    assert refs[k].id == feeds[i].id by {
      assert Points(feeds, latest, refs[k]);
    }
    assert k == m;
    RuntimeIs(feeds, dirty, latest, i);
  }

  predicate IsLastPlace(feeds: seq<Feed>, dirty: set<string>, latest: seq<Feed>, i: nat, q: nat)
    requires i < |feeds|
  {
    && q < |latest| && StandsFor(feeds, dirty, i, latest[q].id)
    && forall later | q < later < |latest| :: !StandsFor(feeds, dirty, i, latest[later].id)
  }

  lemma {:induction false} RuntimeIs(feeds: seq<Feed>, dirty: set<string>, latest: seq<Feed>, i: nat)
    requires UniqueIds(feeds) && dirty <= Ids(feeds) && i < |feeds|
    ensures (exists q: nat :: IsLastPlace(feeds, dirty, latest, i, q) && Runtime(feeds, dirty, latest, i) == latest[q].runtime)
            || (Runtime(feeds, dirty, latest, i) == feeds[i].runtime
                && forall q | 0 <= q < |latest| :: !StandsFor(feeds, dirty, i, latest[q].id))
    decreases |latest|
  {
    hide StandsFor, UniqueIds;
    if latest != [] {
      var n := |latest| - 1;
      HitIs(feeds, dirty, latest[n].id, i);
      if Hit(feeds, dirty, latest[n].id) == Some(i) {
        assert IsLastPlace(feeds, dirty, latest, i, n);
      } else {
        var front := latest[..n];
        RuntimeIs(feeds, dirty, front, i);
        if q: nat :| IsLastPlace(feeds, dirty, front, i, q) && Runtime(feeds, dirty, front, i) == front[q].runtime {
          assert IsLastPlace(feeds, dirty, latest, i, q) by {
            assert forall later | q < later < n :: front[later] == latest[later];
          }
        } else {
          assert forall q | 0 <= q < n :: front[q] == latest[q];
        }
      }
    }
  }

  /** The dirty ids stay ids of the list. */
  lemma MergeKeepsDirtyIds(feeds: seq<Feed>, dirty: set<string>, latest: seq<Feed>)
    requires UniqueIds(feeds) && dirty <= Ids(feeds)
    ensures dirty <= Ids(Merge(feeds, dirty, latest))
  {
    forall id | id in dirty
      ensures id in Ids(Merge(feeds, dirty, latest))
    {
      var i :| 0 <= i < |feeds| && feeds[i].id == id;
      var k := DirtyFeedsSurvive(feeds, dirty, latest, i);
    }
  }
}
