/**
 * `get_apple_playlists`: the library's playlists as a name-to-id index, the name of a
 * playlist inside a folder qualified as `folder/name`, together with the table of the
 * folders it resolved.
 */
module AppleLibrary {
  import opened Text
  import opened Provider
  import opened AppleApi

  /** The parent id of a playlist at the top of the library, which is never looked up. */
  const RootId: string := "p.playlistsroot"

  /** An item whose parent is looked up (lines 65-70): not a folder, with a parent other than the root. */
  predicate HasFolderParent(item: LibraryItem) {
    !item.isFolder && item.parent.Some? && item.parent.value != RootId
  }

  /** `parent_ids` after the first loop over the items. */
  function ParentIds(items: seq<LibraryItem>): set<string>
    decreases |items|
  {
    if items == [] then {}
    else
      var last := items[|items| - 1];
      ParentIds(items[..|items| - 1]) + (if HasFolderParent(last) then {last.parent.value} else {})
  }

  /** The first loop of `get_apple_playlists`, which collects the parent ids. */
  method CollectParents(items: seq<LibraryItem>) returns (ids: set<string>)
    ensures ids == ParentIds(items)
  {
    ids := {};
    for k := 0 to |items|
      invariant ids == ParentIds(items[..k])
    {
      assert items[..k + 1][..k] == items[..k];
      var item := items[k];
      if !item.isFolder && item.parent.Some? && item.parent.value != RootId {
        ids := ids + {item.parent.value};
      }
    }
    assert items[..|items|] == items;
  }

  /** A lookup gave a truthy folder name: not `None` and not empty. */
  predicate Resolves(reply: Reply<Option<string>>) {
    reply.Ok? && reply.value.Some? && reply.value.value != ""
  }

  /** The ids `calls` looked up. */
  function LookedUp(calls: seq<AppleCall>): set<string> {
    set j | 0 <= j < |calls| && calls[j].LookedUpFolder? :: calls[j].folderId
  }

  /** `calls` looked up distinct folders, one after another, each of them answered. */
  predicate Lookups(calls: seq<AppleCall>)
    decreases |calls|
  {
    calls != [] ==>
      var front, last := calls[..|calls| - 1], calls[|calls| - 1];
      && Lookups(front)
      && last.LookedUpFolder? && last.folderName.Ok? && last.folderId !in LookedUp(front)
  }

  /** `folders` after the lookups `calls`: each id whose lookup resolved, with the name it gave. */
  function Resolved(calls: seq<AppleCall>): map<string, string>
    decreases |calls|
  {
    if calls == [] then map[]
    else
      var front, last := calls[..|calls| - 1], calls[|calls| - 1];
      if last.LookedUpFolder? && Resolves(last.folderName) then Resolved(front)[last.folderId := last.folderName.value.value]
      else Resolved(front)
  }

  /** The last lookup raised: the exception leaves `get_apple_playlists`, as no handler guards it. */
  predicate LookupsStopped(calls: seq<AppleCall>) {
    calls != [] && calls[|calls| - 1].LookedUpFolder? && calls[|calls| - 1].folderName.Raised?
  }

  /**
   * The second loop (lines 73-76) over the set `ids`, in whatever order the set is iterated:
   * each id looked up once, until every id was or a lookup raised.
   */
  predicate LookupsRun(ids: set<string>, calls: seq<AppleCall>) {
    if LookupsStopped(calls) then
      var front := calls[..|calls| - 1];
      && Lookups(front) && LookedUp(front) <= ids
      && calls[|calls| - 1].folderId in ids && calls[|calls| - 1].folderId !in LookedUp(front)
    else Lookups(calls) && LookedUp(calls) == ids
  }

  /** One more answered lookup, of an id not looked up before. */
  lemma {:induction false} LookupSnoc(calls: seq<AppleCall>, c: AppleCall)
    requires Lookups(calls) && c.LookedUpFolder? && c.folderName.Ok? && c.folderId !in LookedUp(calls)
    ensures Lookups(calls + [c])
    ensures LookedUp(calls + [c]) == LookedUp(calls) + {c.folderId}
    ensures Resolved(calls + [c]) ==
      if Resolves(c.folderName) then Resolved(calls)[c.folderId := c.folderName.value.value] else Resolved(calls)
  {
    var all := calls + [c];
    assert all[..|calls|] == calls;
    assert forall j :: 0 <= j < |calls| ==> all[j] == calls[j];
    assert all[|calls|] == c;
  }

  /** A lookup that raised ends the loop: the run stops there. */
  lemma {:induction false} LookupRaised(ids: set<string>, calls: seq<AppleCall>, c: AppleCall)
    requires Lookups(calls) && LookedUp(calls) <= ids
    requires c.LookedUpFolder? && c.folderName.Raised? && c.folderId in ids && c.folderId !in LookedUp(calls)
    ensures LookupsStopped(calls + [c]) && LookupsRun(ids, calls + [c])
    ensures (calls + [c])[|calls|] == c
  {
    assert (calls + [c])[..|calls|] == calls;
  }

  /** Answered lookups of every id make a complete run. */
  lemma {:induction false} LookupsDone(ids: set<string>, calls: seq<AppleCall>)
    requires Lookups(calls) && LookedUp(calls) == ids
    ensures !LookupsStopped(calls) && LookupsRun(ids, calls)
  {
    if calls != [] {
      assert calls[..|calls| - 1] + [calls[|calls| - 1]] == calls;
    }
  }

  /**
   * The state of the loop over the parent ids: the ids looked up so far are those no longer
   * `remaining`, and `folders` holds what they resolved to.
   */
  predicate LookupState(ids: set<string>, remaining: set<string>, calls: seq<AppleCall>, folders: map<string, string>) {
    remaining <= ids && LookedUp(calls) == ids - remaining && Lookups(calls) && folders == Resolved(calls)
  }

  /**
   * One round of the loop over the parent ids: look up one remaining id and keep its name
   * when it is truthy, or stop with the exception the lookup raised.
   */
  method LookUpNext(session: AppleSession, ids: set<string>, remaining: set<string>, folders: map<string, string>,
                    ghost calls: seq<AppleCall>)
    returns (stop: Option<Failure>, remaining': set<string>, folders': map<string, string>, ghost c: AppleCall)
    requires remaining != {} && LookupState(ids, remaining, calls, folders)
    modifies session
    ensures session.calls == old(session.calls) + [c]
    ensures stop.Some? ==>
      && LookupsStopped(calls + [c]) && LookupsRun(ids, calls + [c])
      && stop.value == (calls + [c])[|calls|].folderName.failure
    ensures stop.None? ==> LookupState(ids, remaining', calls + [c], folders') && |remaining'| < |remaining|
  {
    var id :| id in remaining;
    var name := session.FolderInfo(id);
    c := LookedUpFolder(id, name);
    remaining', folders' := remaining, folders;
    if name.Raised? {
      LookupRaised(ids, calls, c);
      return Some(name.failure), remaining', folders', c;
    }
    LookupSnoc(calls, c);
    if name.value.Some? && name.value.value != "" {
      folders' := folders[id := name.value.value];
    }
    remaining' := remaining - {id};
    assert ids - remaining' == (ids - remaining) + {id};
    stop := None;
  }

  /** The loop over the parent ids: `folders[parent_id] = folder_name` for each that resolves. */
  method LookUpFolders(session: AppleSession, ids: set<string>)
    returns (r: Reply<map<string, string>>, ghost calls: seq<AppleCall>)
    modifies session
    ensures session.calls == old(session.calls) + calls
    ensures LookupsRun(ids, calls)
    ensures r == if LookupsStopped(calls) then Raised(calls[|calls| - 1].folderName.failure) else Ok(Resolved(calls))
  {
    var remaining := ids;
    var folders := map[];
    calls := [];
    while remaining != {}
      invariant LookupState(ids, remaining, calls, folders)
      invariant session.calls == old(session.calls) + calls
      decreases |remaining|
    {
      var stop;
      ghost var c;
      stop, remaining, folders, c := LookUpNext(session, ids, remaining, folders, calls);
      calls := calls + [c];
      if stop.Some? {
        return Raised(stop.value), calls;
      }
    }
    LookupsDone(ids, calls);
    r := Ok(folders);
  }

  /** The name an item is listed under (lines 81-88): `folder/name` when its parent was resolved. */
  function ListedName(item: LibraryItem, folders: map<string, string>): string {
    if item.parent.Some? && item.parent.value in folders then folders[item.parent.value] + "/" + item.name
    else item.name
  }

  /** The (name, id) pairs the third loop writes: one per item that is not a folder, in order. */
  function ListPairs(items: seq<LibraryItem>, folders: map<string, string>): seq<(string, string)>
    decreases |items|
  {
    if items == [] then []
    else
      var last := items[|items| - 1];
      ListPairs(items[..|items| - 1], folders) + (if last.isFolder then [] else [(ListedName(last, folders), last.id)])
  }

  /** The pairs of a prefix one item longer. */
  lemma {:induction false} ListPairsSnoc(items: seq<LibraryItem>, folders: map<string, string>, k: nat)
    requires k < |items|
    ensures ListPairs(items[..k + 1], folders) ==
      ListPairs(items[..k], folders) + (if items[k].isFolder then [] else [(ListedName(items[k], folders), items[k].id)])
  {
    assert items[..k + 1][..k] == items[..k];
  }

  /** The third loop of `get_apple_playlists`: `apple_lists[playlist_name] = playlist_id` per playlist. */
  method ListPlaylists(items: seq<LibraryItem>, folders: map<string, string>) returns (lists: map<string, string>)
    ensures lists == PutAll(map[], ListPairs(items, folders))
  {
    lists := map[];
    for k := 0 to |items|
      invariant lists == PutAll(map[], ListPairs(items[..k], folders))
    {
      ListPairsSnoc(items, folders, k);
      var item := items[k];
      if !item.isFolder {
        var name := item.name;
        if item.parent.Some? {
          if item.parent.value in folders {
            name := folders[item.parent.value] + "/" + name;
          }
        }
        assert name == ListedName(item, folders);
        PutAllSnoc(map[], ListPairs(items[..k], folders), (name, item.id));
        lists := lists[name := item.id];
      } else {
        assert ListPairs(items[..k], folders) + [] == ListPairs(items[..k], folders);
      }
    }
    assert items[..|items|] == items;
  }

  /**
   * `get_apple_playlists(apple)` (lines 56-92): the calls it makes and its result, the
   * index and the folder table, or the exception that escaped it.
   */
  predicate LibraryRun(calls: seq<AppleCall>, r: Reply<(map<string, string>, map<string, string>)>) {
    && |calls| >= 1 && calls[0].ListedLibrary?
    && match calls[0].listing
       case Raised(f) => |calls| == 1 && r == Raised(f)
       case Ok(NoData) => |calls| == 1 && r == Ok((map[], map[]))
       case Ok(Data(items)) =>
         var lookups := calls[1..];
         && LookupsRun(ParentIds(items), lookups)
         && r == if LookupsStopped(lookups) then Raised(lookups[|lookups| - 1].folderName.failure)
                 else Ok((PutAll(map[], ListPairs(items, Resolved(lookups))), Resolved(lookups)))
  }

  /** `get_apple_playlists`: list the library, resolve the parents, then name the playlists. */
  method GetPlaylists(session: AppleSession)
    returns (r: Reply<(map<string, string>, map<string, string>)>, ghost calls: seq<AppleCall>)
    modifies session
    ensures session.calls == old(session.calls) + calls
    ensures LibraryRun(calls, r)
  {
    var listing := session.Library();
    ghost var lookups := [];
    match listing {
      case Raised(f) =>
        r := Raised(f);
      case Ok(NoData) =>
        r := Ok((map[], map[]));
      case Ok(Data(items)) =>
        var ids := CollectParents(items);
        var folders;
        folders, lookups := LookUpFolders(session, ids);
        match folders {
          case Raised(f) =>
            r := Raised(f);
          case Ok(table) =>
            var lists := ListPlaylists(items, table);
            r := Ok((lists, table));
        }
    }
    calls := [ListedLibrary(listing)] + lookups;
    assert calls[1..] == lookups;
  }
}

/** What `get_apple_playlists` guarantees about the index and the folder table it returns. */
module AppleLibraryFacts {
  import opened Text
  import opened Provider
  import opened AppleApi
  import opened AppleLibrary

  /** A parent id is collected exactly when some playlist that is not a folder names it and it is not the root. */
  lemma {:induction false} ParentIdsFrom(items: seq<LibraryItem>, id: string)
    ensures id in ParentIds(items) <==>
      exists i :: 0 <= i < |items| && HasFolderParent(items[i]) && items[i].parent.value == id
    decreases |items|
  {
    if items != [] {
      var front := items[..|items| - 1];
      ParentIdsFrom(front, id);
      assert forall i :: 0 <= i < |front| ==> front[i] == items[i];
      if id in ParentIds(front) {
        var i :| 0 <= i < |front| && HasFolderParent(front[i]) && front[i].parent.value == id;
        assert items[i] == front[i];
      }
    }
  }

  /**
   * After answered lookups of distinct ids, each looked-up id is in the table exactly when
   * its lookup gave a truthy name, and then with that name; nothing else is in it.
   */
  lemma {:induction false} ResolvedFromLookups(calls: seq<AppleCall>)
    requires Lookups(calls)
    ensures Resolved(calls).Keys <= LookedUp(calls)
    ensures forall j :: 0 <= j < |calls| ==>
      && calls[j].LookedUpFolder?
      && (calls[j].folderId in Resolved(calls) <==> Resolves(calls[j].folderName))
      && (Resolves(calls[j].folderName) ==> Resolved(calls)[calls[j].folderId] == calls[j].folderName.value.value)
    decreases |calls|
  {
    if calls != [] {
      var front, last := calls[..|calls| - 1], calls[|calls| - 1];
      ResolvedFromLookups(front);
      assert LookedUp(calls) == LookedUp(front) + {last.folderId} by {
        LookupSnoc(front, last);
        assert front + [last] == calls;
      }
      forall j | 0 <= j < |front|
        ensures calls[j].LookedUpFolder? && calls[j].folderId != last.folderId
      {
        assert front[j] == calls[j];
        LookupsAreLookups(front, j);
        assert calls[j].folderId in LookedUp(front);
      }
    }
  }

  /** Answered lookups are all folder lookups. */
  lemma {:induction false} LookupsAreLookups(calls: seq<AppleCall>, j: nat)
    requires Lookups(calls) && j < |calls|
    ensures calls[j].LookedUpFolder? && calls[j].folderName.Ok?
    decreases |calls|
  {
    if j < |calls| - 1 {
      LookupsAreLookups(calls[..|calls| - 1], j);
    }
  }

  /** Every pair the third loop writes is the listed name and id of an item that is not a folder. */
  lemma {:induction false} ListPairsFrom(items: seq<LibraryItem>, folders: map<string, string>, k: nat)
    requires k < |ListPairs(items, folders)|
    ensures exists i :: (0 <= i < |items| && !items[i].isFolder &&
      ListPairs(items, folders)[k] == (ListedName(items[i], folders), items[i].id))
    decreases |items|
  {
    var front := items[..|items| - 1];
    var pairs := ListPairs(front, folders);
    if k < |pairs| {
      ListPairsFrom(front, folders, k);
      var i :| 0 <= i < |front| && !front[i].isFolder && pairs[k] == (ListedName(front[i], folders), front[i].id);
      assert items[i] == front[i];
    } else {
      assert !items[|items| - 1].isFolder;
    }
  }

  /**
   * A playlist that is not a folder is listed under its listed name with its own id, unless
   * a later playlist takes the same name: the later write wins.
   */
  lemma {:induction false} ListedLastWins(items: seq<LibraryItem>, folders: map<string, string>, i: nat)
    requires i < |items| && !items[i].isFolder
    requires forall j :: i < j < |items| && !items[j].isFolder ==> ListedName(items[j], folders) != ListedName(items[i], folders)
    ensures ListedName(items[i], folders) in PutAll(map[], ListPairs(items, folders))
    ensures PutAll(map[], ListPairs(items, folders))[ListedName(items[i], folders)] == items[i].id
    decreases |items|
  {
    var n := |items| - 1;
    var front, last := items[..n], items[n];
    var pairs := ListPairs(front, folders);
    var key := ListedName(items[i], folders);
    ListPairsSnoc(items, folders, n);
    assert items[..n + 1] == items;
    if i < n {
      assert front[i] == items[i];
      forall j | i < j < |front| && !front[j].isFolder
        ensures ListedName(front[j], folders) != ListedName(front[i], folders)
      {
        assert front[j] == items[j];
      }
      ListedLastWins(front, folders, i);
      if !last.isFolder {
        assert ListedName(last, folders) != key;
        PutAllSnoc(map[], pairs, (ListedName(last, folders), last.id));
      } else {
        assert pairs + [] == pairs;
      }
    } else {
      PutAllSnoc(map[], pairs, (ListedName(last, folders), last.id));
    }
  }

  /**
   * The result of a listing that succeeds. Without `data` both tables are empty. Otherwise
   * the folder table holds exactly the collected parent ids whose lookup gave a truthy name,
   * with that name, and never the root; every key of the index is the listed name of an
   * item that is not a folder, and every such item's name is a key.
   */
  lemma {:induction false} LibraryResult(calls: seq<AppleCall>, r: Reply<(map<string, string>, map<string, string>)>)
    requires LibraryRun(calls, r) && r.Ok?
    ensures calls[0].listing == Ok(NoData) ==> r.value.0 == map[] && r.value.1 == map[]
    ensures RootId !in r.value.1
    ensures forall id :: id in r.value.1 ==> r.value.1[id] != ""
    ensures calls[0].listing.Ok? && calls[0].listing.value.Data? ==>
      var items, lookups := calls[0].listing.value.items, calls[1..];
      && r.value.1.Keys <= ParentIds(items)
      && (forall j :: 0 <= j < |lookups| ==>
            lookups[j].LookedUpFolder? && (lookups[j].folderId in r.value.1 <==> Resolves(lookups[j].folderName)))
      && (forall key :: key in r.value.0 ==>
            exists i :: 0 <= i < |items| && !items[i].isFolder && key == ListedName(items[i], r.value.1))
      && (forall i :: 0 <= i < |items| && !items[i].isFolder ==> ListedName(items[i], r.value.1) in r.value.0)
  {
    if calls[0].listing.Ok? && calls[0].listing.value.Data? {
      var items, lookups := calls[0].listing.value.items, calls[1..];
      var folders := Resolved(lookups);
      var pairs := ListPairs(items, folders);
      ResolvedFromLookups(lookups);
      ResolvedValues(lookups);
      forall id | id in folders ensures id != RootId {
        ParentIdsFrom(items, id);
      }
      forall key | key in r.value.0
        ensures exists i :: 0 <= i < |items| && !items[i].isFolder && key == ListedName(items[i], folders)
      {
        var k :| 0 <= k < |pairs| && pairs[k].0 == key;
        ListPairsFrom(items, folders, k);
      }
      forall i | 0 <= i < |items| && !items[i].isFolder
        ensures ListedName(items[i], folders) in r.value.0
      {
        ListPairsCover(items, folders, i);
      }
    }
  }

  /** Every name in the folder table is truthy. */
  lemma {:induction false} ResolvedValues(calls: seq<AppleCall>)
    ensures forall id :: id in Resolved(calls) ==> Resolved(calls)[id] != ""
    decreases |calls|
  {
    if calls != [] {
      ResolvedValues(calls[..|calls| - 1]);
    }
  }

  /** Every item that is not a folder writes a pair under its listed name. */
  lemma {:induction false} ListPairsCover(items: seq<LibraryItem>, folders: map<string, string>, i: nat)
    requires i < |items| && !items[i].isFolder
    ensures exists k :: 0 <= k < |ListPairs(items, folders)| && ListPairs(items, folders)[k].0 == ListedName(items[i], folders)
    decreases |items|
  {
    var front := items[..|items| - 1];
    if i < |items| - 1 {
      ListPairsCover(front, folders, i);
      assert front[i] == items[i];
      var k :| 0 <= k < |ListPairs(front, folders)| && ListPairs(front, folders)[k].0 == ListedName(front[i], folders);
      assert ListPairs(items, folders)[k] == ListPairs(front, folders)[k];
    } else {
      var k := |ListPairs(front, folders)|;
      assert ListPairs(items, folders)[k].0 == ListedName(items[i], folders);
    }
  }
}
