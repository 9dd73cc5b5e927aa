/**
 * The folder-aware half of the Tidal back end: `get_tidal_playlists`, which indexes the
 * user's playlists by name (those inside folders as `folder/name`) and fills the folder
 * cache, and `tidal_dest_check`, which finds or creates the destination playlist and
 * files it into a folder.
 *
 * `_session_folders_cache` lives for the whole process; it is modelled by `FolderCache`,
 * with folders represented by their ids.
 */
module TidalFolders {
  import opened Text
  import opened Provider
  import opened TidalApi

  /** `_session_folders_cache`: folder name to folder, kept across calls. */
  class FolderCache {
    var folders: map<string, string>

    constructor ()
      ensures folders == map[]
    {
      folders := map[];
    }

    /** `_session_folders_cache[name] = folder` */
    method Put(name: string, folder: string)
      modifies this
      ensures folders == old(folders)[name := folder]
    {
      folders := folders[name := folder];
    }

    /** `for folder in user_folders: _session_folders_cache[folder.name] = folder` */
    method PutFolders(fs: seq<Named>)
      modifies this
      ensures folders == PutAll(old(folders), NamedPairs(fs))
    {
      folders := PutEach(folders, NamedPairs(fs));
    }
  }

  /** Each named thing as a `(name, id)` pair, in order. */
  function NamedPairs(ns: seq<Named>): seq<(string, string)> {
    seq(|ns|, k requires 0 <= k < |ns| => (ns[k].name, ns[k].id))
  }

  /** The truth value of an optional string: present and not empty. */
  predicate Truthy(o: Option<string>) {
    o.Some? && o.value != ""
  }

  /** How a folder name prints inside an f-string: a missing name prints as `None`. */
  function FolderLabel(name: Option<string>): string {
    match name
    case Some(n) => n
    case None => "None"
  }

  /** An item of the folders endpoint whose `itemType` is `FOLDER`. */
  predicate IsFolder(item: ListItem) {
    item.itemType == Some("FOLDER")
  }

  /** `[item for item in items if item.get("itemType") == "FOLDER"]` */
  function OnlyFolders(items: seq<ListItem>): (r: seq<ListItem>)
    ensures forall x :: x in r <==> x in items && IsFolder(x)
    ensures |r| <= |items|
  {
    if items == [] then []
    else
      var front := items[..|items| - 1];
      var last := items[|items| - 1];
      assert forall x :: x in items <==> x in front || x == last by {
        assert items == front + [last];
      }
      OnlyFolders(front) + (if IsFolder(last) then [last] else [])
  }

  /** `s` starts with `prefix`. */
  predicate StartsWith(s: string, prefix: string) {
    |prefix| <= |s| && s[..|prefix|] == prefix
  }

  /**
   * The index entries for the members of folder `shown` that have a name:
   * `f"{shown}/{item.name}"` to the member's id, in order.
   */
  function MemberPairs(shown: string, ms: seq<FolderMember>): seq<(string, string)> {
    if ms == [] then []
    else MemberPairs(shown, ms[..|ms| - 1]) + MemberPair(shown, ms[|ms| - 1])
  }

  /** The entry one member contributes: none for a member without a name. */
  function MemberPair(shown: string, m: FolderMember): seq<(string, string)> {
    match m
    case Nameless => []
    case Playlist(name, id) => [(shown + "/" + name, id)]
  }

  /**
   * Every entry is keyed `shown/` followed by the name of a member with a name, and
   * holds that member's id.
   */
  lemma {:induction false} MemberPairsQualified(shown: string, ms: seq<FolderMember>, q: (string, string))
    requires q in MemberPairs(shown, ms)
    ensures StartsWith(q.0, shown + "/") && Playlist(q.0[|shown| + 1..], q.1) in ms
    decreases |ms|
  {
    var front, last := ms[..|ms| - 1], ms[|ms| - 1];
    if q in MemberPairs(shown, front) {
      MemberPairsQualified(shown, front, q);
      assert Playlist(q.0[|shown| + 1..], q.1) in front;
    } else {
      var key := shown + "/" + last.name;
      assert q == (key, last.id);
      assert key[..|shown| + 1] == shown + "/" && key[|shown| + 1..] == last.name;
    }
  }

  /** Every member with a name gets an entry under `shown/name`. */
  lemma {:induction false} MemberPairsComplete(shown: string, ms: seq<FolderMember>, k: nat)
    requires k < |ms| && ms[k].Playlist?
    ensures (shown + "/" + ms[k].name, ms[k].id) in MemberPairs(shown, ms)
    decreases |ms|
  {
    var front := ms[..|ms| - 1];
    if k < |ms| - 1 {
      assert front[k] == ms[k];
      MemberPairsComplete(shown, front, k);
    }
  }

  /** The loop over `folder.items()`: every member with a name is written to the index. */
  method IndexMembers(index: map<string, string>, shown: string, ms: seq<FolderMember>)
    returns (r: map<string, string>)
    ensures r == PutAll(index, MemberPairs(shown, ms))
  {
    r := index;
    for k := 0 to |ms|
      invariant r == PutAll(index, MemberPairs(shown, ms[..k]))
    {
      var pairs := MemberPairs(shown, ms[..k]);
      assert ms[..k + 1][..k] == ms[..k];
      assert MemberPairs(shown, ms[..k + 1]) == pairs + MemberPair(shown, ms[k]);
      match ms[k] {
        case Nameless =>
          assert pairs + [] == pairs;
        case Playlist(name, id) =>
          PutAllSnoc(index, pairs, (shown + "/" + name, id));
          r := r[shown + "/" + name := id];
      }
    }
    assert ms[..|ms|] == ms;
  }

  /** How `except Exception: pass` ends when its body raised `f`: an interrupt escapes it. */
  function ExceptPass(f: Failure): (e: ItemEnd)
    ensures e.Stop? <==> f.Interrupted?
    ensures e.Stop? ==> e.failure == f
  {
    if f.Interrupted? then Stop(f) else Next
  }

  /** The calls one folder of the listing made, what it cached and indexed, and how it ended. */
  datatype FolderRun = FolderRun(calls: seq<TidalCall>, cached: seq<(string, string)>,
                                 pairs: seq<(string, string)>, end: ItemEnd)

  /**
   * Reading one folder's members (lines 80-89): open the folder, list its items and index
   * the named ones under `shown/name`; an exception skips the folder.
   */
  predicate ReadFolderRun(dataId: Option<string>, shown: string, calls: seq<TidalCall>,
                          pairs: seq<(string, string)>, end: ItemEnd)
  {
    && |calls| >= 1 && calls[0].OpenedFolder? && calls[0].requestedId == dataId
    && match calls[0].openedId
       case Raised(f) => |calls| == 1 && pairs == [] && end == ExceptPass(f)
       case Ok(folder) =>
         && |calls| == 2 && calls[1].ListedFolderMembers? && calls[1].folder == folder
         && match calls[1].members
            case Raised(f) => pairs == [] && end == ExceptPass(f)
            case Ok(ms) => pairs == MemberPairs(shown, ms) && end == Next
  }

  /**
   * One folder of the listing (lines 68-89): a folder with a name is opened once to be
   * cached under that name, then opened again to index its members.
   */
  predicate FolderScanRun(item: ListItem, r: FolderRun) {
    var shown := FolderLabel(item.name);
    if Truthy(item.name) then
      && |r.calls| >= 1 && r.calls[0].OpenedFolder? && r.calls[0].requestedId == item.dataId
      && match r.calls[0].openedId
         case Raised(Interrupted) =>
           |r.calls| == 1 && r.cached == [] && r.pairs == [] && r.end == Stop(Interrupted)
         case Raised(Error) =>
           r.cached == [] && ReadFolderRun(item.dataId, shown, r.calls[1..], r.pairs, r.end)
         case Ok(folder) =>
           r.cached == [(item.name.value, folder)] && ReadFolderRun(item.dataId, shown, r.calls[1..], r.pairs, r.end)
    else
      r.cached == [] && ReadFolderRun(item.dataId, shown, r.calls, r.pairs, r.end)
  }

  /** The calls of consecutive folders, one after another. */
  function FolderCalls(runs: seq<FolderRun>): seq<TidalCall> {
    if runs == [] then [] else FolderCalls(runs[..|runs| - 1]) + runs[|runs| - 1].calls
  }

  /** The cache writes of consecutive folders, in order. */
  function FolderCached(runs: seq<FolderRun>): seq<(string, string)> {
    if runs == [] then [] else FolderCached(runs[..|runs| - 1]) + runs[|runs| - 1].cached
  }

  /** The index writes of consecutive folders, in order. */
  function FolderPairs(runs: seq<FolderRun>): seq<(string, string)> {
    if runs == [] then [] else FolderPairs(runs[..|runs| - 1]) + runs[|runs| - 1].pairs
  }

  /**
   * Each of `runs` is the run of the folder at its position in `folders`, and every run
   * but the last ended normally (the loop goes on only after those).
   */
  predicate FoldersRun(folders: seq<ListItem>, runs: seq<FolderRun>)
    decreases |runs|
  {
    && |runs| <= |folders|
    && (runs != [] ==>
         var front := runs[..|runs| - 1];
         && FoldersRun(folders, front)
         && (front != [] ==> front[|front| - 1].end == Next)
         && FolderScanRun(folders[|runs| - 1], runs[|runs| - 1]))
  }

  /** The run at position `k` is the run of folder `k`, and it ended normally unless it is the last. */
  lemma {:induction false} FoldersRunAt(folders: seq<ListItem>, runs: seq<FolderRun>, k: nat)
    requires FoldersRun(folders, runs) && k < |runs|
    ensures k < |folders| && FolderScanRun(folders[k], runs[k])
    ensures k < |runs| - 1 ==> runs[k].end == Next
    decreases |runs|
  {
    if k < |runs| - 1 {
      var front := runs[..|runs| - 1];
      FoldersRunAt(folders, front, k);
      assert front[k] == runs[k];
    }
  }

  /** Appending one folder's run appends its calls, cache writes and index writes. */
  lemma {:induction false} FolderRunsAppend(runs: seq<FolderRun>, r: FolderRun)
    ensures FolderCalls(runs + [r]) == FolderCalls(runs) + r.calls
    ensures FolderCached(runs + [r]) == FolderCached(runs) + r.cached
    ensures FolderPairs(runs + [r]) == FolderPairs(runs) + r.pairs
  {
    assert (runs + [r])[..|runs|] == runs;
  }

  /** One more folder: the cache and the index after it are those before it plus its writes. */
  lemma {:induction false} FolderStep(folders: seq<ListItem>, cache0: map<string, string>, index: map<string, string>,
                   runs: seq<FolderRun>, r: FolderRun)
    requires FoldersRun(folders, runs) && |runs| < |folders| && FolderScanRun(folders[|runs|], r)
    requires runs != [] ==> runs[|runs| - 1].end == Next
    ensures FoldersRun(folders, runs + [r])
    ensures FolderCalls(runs + [r]) == FolderCalls(runs) + r.calls
    ensures PutAll(cache0, FolderCached(runs + [r])) == PutAll(PutAll(cache0, FolderCached(runs)), r.cached)
    ensures PutAll(index, FolderPairs(runs + [r])) == PutAll(PutAll(index, FolderPairs(runs)), r.pairs)
  {
    FolderRunsAppend(runs, r);
    PutAllAppend(cache0, FolderCached(runs), r.cached);
    PutAllAppend(index, FolderPairs(runs), r.pairs);
    assert (runs + [r])[..|runs|] == runs;
  }

  /** Every index write of consecutive folders comes from one of them. */
  lemma {:induction false} FolderPairsFrom(runs: seq<FolderRun>, q: (string, string))
    requires q in FolderPairs(runs)
    ensures exists k :: 0 <= k < |runs| && q in runs[k].pairs
    decreases |runs|
  {
    var front := runs[..|runs| - 1];
    if q in FolderPairs(front) {
      FolderPairsFrom(front, q);
      var k :| 0 <= k < |front| && q in front[k].pairs;
      assert runs[k] == front[k];
    }
  }

  /**
   * The fallback of `get_tidal_playlists` (lines 93-103): every folder of `user.folders()`
   * is cached under its name; an exception other than an interrupt is ignored.
   */
  predicate FallbackRun(calls: seq<TidalCall>, cache0: map<string, string>, cache1: map<string, string>,
                        index: map<string, string>, r: Reply<map<string, string>>)
  {
    && |calls| == 1 && calls[0].ListedUserFolders?
    && match calls[0].folders
       case Ok(fs) => cache1 == PutAll(cache0, NamedPairs(fs)) && r == Ok(index)
       case Raised(f) => cache1 == cache0 && r == (if f.Interrupted? then Raised(f) else Ok(index))
  }

  /**
   * `get_tidal_playlists` (lines 42-105): index the user's playlists by name (an exception
   * there escapes); list the folders and, for each `FOLDER` item, cache it and index its
   * playlists as `folder/name` (an exception other than an interrupt ends or skips that
   * part); then cache the folders of `user.folders()`. The cache `cache0` becomes `cache1`.
   */
  predicate LoadRun(calls: seq<TidalCall>, cache0: map<string, string>, cache1: map<string, string>,
                    runs: seq<FolderRun>, r: Reply<map<string, string>>)
  {
    && |calls| >= 1 && calls[0].ListedUserPlaylists?
    && match calls[0].playlists
       case Raised(f) => |calls| == 1 && runs == [] && cache1 == cache0 && r == Raised(f)
       case Ok(pls) =>
         var index := PutAll(map[], NamedPairs(pls));
         && |calls| >= 2 && calls[1].ListedFolders?
         && match calls[1].listing
            case Raised(f) =>
              && runs == []
              && if f.Interrupted? then |calls| == 2 && cache1 == cache0 && r == Raised(f)
                 else FallbackRun(calls[2..], cache0, cache1, index, r)
            case Ok(NotOk) => runs == [] && FallbackRun(calls[2..], cache0, cache1, index, r)
            case Ok(Listed(items)) => FolderPhaseRun(OnlyFolders(items), calls[2..], cache0, cache1, index, runs, r)
  }

  /**
   * The calls after a successful listing: one run per `FOLDER` item, every one but the last
   * ending normally; an interrupt stops there, otherwise the fallback follows.
   */
  predicate FolderPhaseRun(folders: seq<ListItem>, calls: seq<TidalCall>, cache0: map<string, string>,
                           cache1: map<string, string>, index: map<string, string>,
                           runs: seq<FolderRun>, r: Reply<map<string, string>>)
  {
    var n := |FolderCalls(runs)|;
    var cacheMid := PutAll(cache0, FolderCached(runs));
    var indexMid := PutAll(index, FolderPairs(runs));
    && FoldersRun(folders, runs)
    && |calls| >= n && calls[..n] == FolderCalls(runs)
    && if |runs| > 0 && runs[|runs| - 1].end.Stop? then
         |calls| == n && cache1 == cacheMid && r == Raised(runs[|runs| - 1].end.failure)
       else
         |runs| == |folders| && FallbackRun(calls[n..], cacheMid, cache1, indexMid, r)
  }

  /** Reading one folder's members. */
  method ReadFolder(session: TidalSession, index: map<string, string>, dataId: Option<string>, shown: string)
    returns (r: map<string, string>, end: ItemEnd, ghost calls: seq<TidalCall>, ghost pairs: seq<(string, string)>)
    modifies session
    ensures session.calls == old(session.calls) + calls
    ensures r == PutAll(index, pairs)
    ensures ReadFolderRun(dataId, shown, calls, pairs, end)
  {
    ghost var before := session.calls;
    r, pairs := index, [];
    var openReply := session.OpenFolder(dataId);
    match openReply {
      case Raised(f) =>
        end := ExceptPass(f);
      case Ok(folder) =>
        var members := session.FolderMembers(folder);
        match members {
          case Raised(f) =>
            end := ExceptPass(f);
          case Ok(ms) =>
            r := IndexMembers(index, shown, ms);
            pairs, end := MemberPairs(shown, ms), Next;
        }
    }
    calls := session.calls[|before|..];
    assert session.calls == before + calls;
  }

  /** One folder of the listing: cache it when it has a name, then index its playlists. */
  method ScanFolder(session: TidalSession, cache: FolderCache, index: map<string, string>, item: ListItem)
    returns (r: map<string, string>, end: ItemEnd, ghost run: FolderRun)
    modifies session, cache
    ensures end == run.end
    ensures session.calls == old(session.calls) + run.calls
    ensures cache.folders == PutAll(old(cache.folders), run.cached)
    ensures r == PutAll(index, run.pairs)
    ensures FolderScanRun(item, run)
  {
    ghost var before := session.calls;
    var shown := FolderLabel(item.name);
    ghost var cached: seq<(string, string)> := [];
    if Truthy(item.name) {
      var openReply := session.OpenFolder(item.dataId);
      match openReply {
        case Raised(f) =>
          if f.Interrupted? {
            r, end := index, Stop(f);
            run := FolderRun(session.calls[|before|..], [], [], end);
            assert session.calls == before + run.calls;
            return;
          }
        case Ok(folder) =>
          cache.Put(item.name.value, folder);
          cached := [(item.name.value, folder)];
      }
    }
    ghost var middle := session.calls;
    ghost var calls, pairs;
    r, end, calls, pairs := ReadFolder(session, index, item.dataId, shown);
    run := FolderRun(session.calls[|before|..], cached, pairs, end);
    assert session.calls == before + run.calls;
    assert run.calls[|middle| - |before|..] == calls;
  }

  /**
   * One pass of the loop over the folders: the folder after those in `runs` is scanned, and
   * the log, the cache and the index grow by its run.
   */
  method ScanNext(session: TidalSession, cache: FolderCache, folders: seq<ListItem>, k: nat, r: map<string, string>,
                  ghost calls0: seq<TidalCall>, ghost cache0: map<string, string>, ghost index0: map<string, string>,
                  ghost runs: seq<FolderRun>)
    returns (r': map<string, string>, end: ItemEnd, ghost run: FolderRun)
    requires FoldersRun(folders, runs) && k == |runs| < |folders|
    requires runs != [] ==> runs[|runs| - 1].end == Next
    requires session.calls == calls0 + FolderCalls(runs)
    requires cache.folders == PutAll(cache0, FolderCached(runs))
    requires r == PutAll(index0, FolderPairs(runs))
    modifies session, cache
    ensures end == run.end
    ensures FoldersRun(folders, runs + [run])
    ensures session.calls == calls0 + FolderCalls(runs + [run])
    ensures cache.folders == PutAll(cache0, FolderCached(runs + [run]))
    ensures r' == PutAll(index0, FolderPairs(runs + [run]))
  {
    r', end, run := ScanFolder(session, cache, r, folders[k]);
    FolderStep(folders, cache0, index0, runs, run);
  }

  /** The loop over the `FOLDER` items of the listing; it stops on an interrupt. */
  method ScanFolders(session: TidalSession, cache: FolderCache, index: map<string, string>, folders: seq<ListItem>)
    returns (r: map<string, string>, end: ItemEnd, ghost runs: seq<FolderRun>)
    modifies session, cache
    ensures end == if |runs| > 0 then runs[|runs| - 1].end else Next
    ensures session.calls == old(session.calls) + FolderCalls(runs)
    ensures cache.folders == PutAll(old(cache.folders), FolderCached(runs))
    ensures r == PutAll(index, FolderPairs(runs))
    ensures FoldersRun(folders, runs)
    ensures (|runs| > 0 && runs[|runs| - 1].end.Stop?) || |runs| == |folders|
  {
    r, end, runs := index, Next, [];
    ghost var calls0, cache0 := session.calls, cache.folders;
    var k := 0;
    while k < |folders|
      invariant k <= |folders| && |runs| == k && end == Next
      invariant session.calls == calls0 + FolderCalls(runs)
      invariant cache.folders == PutAll(cache0, FolderCached(runs))
      invariant r == PutAll(index, FolderPairs(runs))
      invariant FoldersRun(folders, runs)
      invariant k > 0 ==> runs[k - 1].end == Next
    {
      ghost var run;
      r, end, run := ScanNext(session, cache, folders, k, r, calls0, cache0, index, runs);
      runs := runs + [run];
      if end.Stop? {
        return;
      }
      k := k + 1;
    }
  }

  /** The fallback over `user.folders()`. */
  method CacheUserFolders(session: TidalSession, cache: FolderCache, index: map<string, string>)
    returns (r: Reply<map<string, string>>, ghost calls: seq<TidalCall>)
    modifies session, cache
    ensures session.calls == old(session.calls) + calls
    ensures FallbackRun(calls, old(cache.folders), cache.folders, index, r)
  {
    var folders := session.UserFolders();
    match folders {
      case Ok(fs) =>
        cache.PutFolders(fs);
        r := Ok(index);
      case Raised(f) =>
        r := if f.Interrupted? then Raised(f) else Ok(index);
    }
    calls := [ListedUserFolders(folders)];
  }

  /** The folders of a successful listing, then the fallback unless an interrupt stopped the loop. */
  method LoadFolders(session: TidalSession, cache: FolderCache, index: map<string, string>, folders: seq<ListItem>)
    returns (r: Reply<map<string, string>>, ghost calls: seq<TidalCall>, ghost runs: seq<FolderRun>)
    modifies session, cache
    ensures session.calls == old(session.calls) + calls
    ensures FolderPhaseRun(folders, calls, old(cache.folders), cache.folders, index, runs, r)
  {
    var indexMid, end;
    indexMid, end, runs := ScanFolders(session, cache, index, folders);
    calls := FolderCalls(runs);
    if end.Stop? {
      r := Raised(end.failure);
      return;
    }
    ghost var fallback;
    r, fallback := CacheUserFolders(session, cache, indexMid);
    calls := calls + fallback;
    assert calls[..|FolderCalls(runs)|] == FolderCalls(runs);
    assert calls[|FolderCalls(runs)|..] == fallback;
  }

  /** `get_tidal_playlists`: the name-to-id index of the user's playlists, folders included. */
  method LoadPlaylists(session: TidalSession, cache: FolderCache)
    returns (r: Reply<map<string, string>>, ghost calls: seq<TidalCall>, ghost runs: seq<FolderRun>)
    modifies session, cache
    ensures session.calls == old(session.calls) + calls
    ensures LoadRun(calls, old(cache.folders), cache.folders, runs, r)
  {
    runs := [];
    var playlists := session.UserPlaylists();
    calls := [ListedUserPlaylists(playlists)];
    if playlists.Raised? {
      r := Raised(playlists.failure);
      return;
    }
    var index := PutEach(map[], NamedPairs(playlists.value));
    var listing := session.Folders();
    calls := calls + [ListedFolders(listing)];
    ghost var rest;
    if listing.Ok? && listing.value.Listed? {
      r, rest, runs := LoadFolders(session, cache, index, OnlyFolders(listing.value.items));
    } else if listing.Raised? && listing.failure.Interrupted? {
      r := Raised(listing.failure);
      return;
    } else {
      r, rest := CacheUserFolders(session, cache, index);
    }
    calls := calls + rest;
    assert calls[2..] == rest;
  }
}

module TidalFolderFacts {
  import opened Text
  import opened Provider
  import opened TidalApi
  import opened TidalFolders

  /** The index of the user's own playlists, before any folder is read (lines 44-47). */
  function UserIndex(pls: seq<Named>): map<string, string> {
    PutAll(map[], NamedPairs(pls))
  }

  /**
   * Every user playlist's name is a key of the user index, and holds that playlist's id
   * unless a later playlist has the same name.
   */
  lemma {:induction false} UserIndexKeys(pls: seq<Named>, i: nat)
    requires i < |pls|
    ensures pls[i].name in UserIndex(pls)
    ensures (forall j :: i < j < |pls| ==> pls[j].name != pls[i].name) ==> UserIndex(pls)[pls[i].name] == pls[i].id
  {
    var pairs := NamedPairs(pls);
    assert pairs[i] == (pls[i].name, pls[i].id);
    if forall j :: i < j < |pls| ==> pls[j].name != pls[i].name {
      forall j | i < j < |pairs| ensures pairs[j].0 != pairs[i].0 {
        assert pairs[j].0 == pls[j].name;
      }
      PutAllLastWins(map[], pairs, i);
    }
  }

  /** The index `get_tidal_playlists` returns, when it returns one. */
  lemma {:induction false} LoadResult(calls: seq<TidalCall>, cache0: map<string, string>, cache1: map<string, string>,
                                      runs: seq<FolderRun>, r: Reply<map<string, string>>)
    requires LoadRun(calls, cache0, cache1, runs, r) && r.Ok?
    ensures calls[0].playlists.Ok?
    ensures var index := UserIndex(calls[0].playlists.value);
      if calls[1].listing.Ok? && calls[1].listing.value.Listed? then
        && |runs| == |OnlyFolders(calls[1].listing.value.items)|
        && r.value == PutAll(index, FolderPairs(runs))
      else r.value == index
  {
    var index := UserIndex(calls[0].playlists.value);
    if calls[1].listing.Ok? && calls[1].listing.value.Listed? {
      var folders := OnlyFolders(calls[1].listing.value.items);
      FolderPhaseResult(folders, calls[2..], cache0, cache1, index, runs, r);
    }
  }

  /** A folder phase that ends with an index has read every folder and written their pairs. */
  lemma {:induction false} FolderPhaseResult(folders: seq<ListItem>, calls: seq<TidalCall>, cache0: map<string, string>,
                                             cache1: map<string, string>, index: map<string, string>,
                                             runs: seq<FolderRun>, r: Reply<map<string, string>>)
    requires FolderPhaseRun(folders, calls, cache0, cache1, index, runs, r) && r.Ok?
    ensures |runs| == |folders| && r.value == PutAll(index, FolderPairs(runs))
  {
  }

  /**
   * Every playlist of the user is in the index whatever happens to the folders: a failing
   * folder endpoint leaves the user's own playlists in place. A playlist keeps its own id
   * when no later playlist and no folder entry takes its name.
   */
  lemma {:induction false} LoadKeepsUserPlaylists(calls: seq<TidalCall>, cache0: map<string, string>, cache1: map<string, string>,
                               runs: seq<FolderRun>, r: Reply<map<string, string>>, i: nat)
    requires LoadRun(calls, cache0, cache1, runs, r) && r.Ok?
    requires calls[0].playlists.Ok? && i < |calls[0].playlists.value|
    ensures calls[0].playlists.value[i].name in r.value
    ensures var pls := calls[0].playlists.value;
      (forall j :: i < j < |pls| ==> pls[j].name != pls[i].name)
      && (forall k :: 0 <= k < |FolderPairs(runs)| ==> FolderPairs(runs)[k].0 != pls[i].name)
      ==> r.value[pls[i].name] == pls[i].id
  {
    var pls := calls[0].playlists.value;
    LoadResult(calls, cache0, cache1, runs, r);
    UserIndexKeys(pls, i);
    if calls[1].listing.Ok? && calls[1].listing.value.Listed? {
      if forall k :: 0 <= k < |FolderPairs(runs)| ==> FolderPairs(runs)[k].0 != pls[i].name {
        PutAllUntouched(UserIndex(pls), FolderPairs(runs), pls[i].name);
      }
    }
  }

  /** When the folder listing raises or does not answer 200, the index is the user index or an interrupt. */
  lemma {:induction false} LoadWithoutListing(calls: seq<TidalCall>, cache0: map<string, string>, cache1: map<string, string>,
                           runs: seq<FolderRun>, r: Reply<map<string, string>>)
    requires LoadRun(calls, cache0, cache1, runs, r) && calls[0].playlists.Ok?
    requires calls[1].listing == Raised(Error) || calls[1].listing == Ok(NotOk)
    ensures runs == [] && |calls| == 3 && calls[2].ListedUserFolders?
    ensures r == (if calls[2].folders == Raised(Interrupted) then Raised(Interrupted) else Ok(UserIndex(calls[0].playlists.value)))
  {
  }

  /** An index entry that one folder's run wrote is keyed `label/…` with that folder's label. */
  lemma {:induction false} ScanRunPairs(item: ListItem, run: FolderRun, q: (string, string))
    requires FolderScanRun(item, run) && q in run.pairs
    ensures StartsWith(q.0, FolderLabel(item.name) + "/")
  {
    var shown := FolderLabel(item.name);
    var calls := if Truthy(item.name) then run.calls[1..] else run.calls;
    assert ReadFolderRun(item.dataId, shown, calls, run.pairs, run.end);
    var ms :| calls[1].members == Ok(ms) && run.pairs == MemberPairs(shown, ms);
    MemberPairsQualified(shown, ms, q);
  }

  /**
   * Every key of the index is a user playlist's name or is qualified by the label of a
   * `FOLDER` item of the listing: other items are never read as folders.
   */
  lemma {:induction false} LoadIndexKeys(calls: seq<TidalCall>, cache0: map<string, string>, cache1: map<string, string>,
                      runs: seq<FolderRun>, r: Reply<map<string, string>>, key: string)
    requires LoadRun(calls, cache0, cache1, runs, r) && r.Ok? && key in r.value
    ensures calls[0].playlists.Ok?
    ensures || key in UserIndex(calls[0].playlists.value)
            || (&& calls[1].listing.Ok? && calls[1].listing.value.Listed?
                && exists item :: item in calls[1].listing.value.items && IsFolder(item)
                                  && StartsWith(key, FolderLabel(item.name) + "/"))
  {
    LoadResult(calls, cache0, cache1, runs, r);
    var index := UserIndex(calls[0].playlists.value);
    if key !in index {
      var items := calls[1].listing.value.items;
      var folders := OnlyFolders(items);
      var pairs := FolderPairs(runs);
      var k :| 0 <= k < |pairs| && pairs[k].0 == key;
      FolderPairsFrom(runs, pairs[k]);
      var j :| 0 <= j < |runs| && pairs[k] in runs[j].pairs;
      assert FoldersRun(folders, runs) by {
        assert FolderPhaseRun(folders, calls[2..], cache0, cache1, index, runs, r);
      }
      FoldersRunAt(folders, runs, j);
      ScanRunPairs(folders[j], runs[j], pairs[k]);
      assert folders[j] in folders;
    }
  }

  /** Reading the playlists only ever adds folders to the cache. */
  lemma {:induction false} LoadCacheGrows(calls: seq<TidalCall>, cache0: map<string, string>, cache1: map<string, string>,
                       runs: seq<FolderRun>, r: Reply<map<string, string>>)
    requires LoadRun(calls, cache0, cache1, runs, r)
    ensures cache0.Keys <= cache1.Keys
  {
    if calls[0].playlists.Ok? && calls[1].listing.Ok? && calls[1].listing.value.Listed? {
      var folders := OnlyFolders(calls[1].listing.value.items);
      var index := UserIndex(calls[0].playlists.value);
      assert FolderPhaseRun(folders, calls[2..], cache0, cache1, index, runs, r);
    }
  }
}
