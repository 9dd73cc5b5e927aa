/**
 * `tidal_dest_check`: the destination playlist for a transfer into Tidal. A name already in
 * the index is reused. Otherwise a playlist is created: a name `folder/leaf` whose folder is
 * one of the source's Apple Music folders goes into that Tidal folder (from the session
 * cache, found by the folders endpoint or newly created) and falls back to a root playlist
 * named `leaf`; any other name with a `/` goes into a cached folder when there is one, and
 * falls back to a root playlist under the full name.
 *
 * Every branch that creates a playlist with `session.user.create_playlist` does so before
 * it tries to attach it, so a failed attach leaves that playlist behind and the fallback
 * creates a second one.
 */
module TidalDest {
  import opened Text
  import opened Provider
  import opened TidalApi
  import opened TidalFolders

  /** The caller's `playlists` dictionary, which `tidal_dest_check` updates in place. */
  class PlaylistIndex {
    var ids: map<string, string>

    constructor (ids0: map<string, string>)
      ensures ids == ids0
    {
      ids := ids0;
    }

    /** `playlists[name] = id` */
    method Put(name: string, id: string)
      modifies this
      ensures ids == old(ids)[name := id]
    {
      ids := ids[name := id];
    }
  }

  /** `data.id` of the first folder named `folderName`, or `None` when no folder has that name. */
  function FirstNamedId(folders: seq<ListItem>, folderName: string): Option<string> {
    if folders == [] then None
    else if folders[0].name == Some(folderName) then folders[0].dataId
    else FirstNamedId(folders[1..], folderName)
  }

  /** The `folder_id` that the search of the folders endpoint settles on (lines 155-165). */
  function FolderIdNamed(listing: Listing, folderName: string): Option<string> {
    match listing
    case NotOk => None
    case Listed(items) => FirstNamedId(OnlyFolders(items), folderName)
  }

  /** `folder_id` is the id of a `FOLDER` item named `folderName`, the first such item. */
  lemma {:induction false} FirstNamedIdFound(folders: seq<ListItem>, folderName: string)
    ensures FirstNamedId(folders, folderName).Some? ==>
      exists k :: 0 <= k < |folders| && folders[k].name == Some(folderName)
        && folders[k].dataId == FirstNamedId(folders, folderName)
        && forall j :: 0 <= j < k ==> folders[j].name != Some(folderName)
    ensures (forall k :: 0 <= k < |folders| ==> folders[k].name != Some(folderName)) ==>
      FirstNamedId(folders, folderName) == None
    decreases |folders|
  {
    if folders != [] {
      var rest := folders[1..];
      FirstNamedIdFound(rest, folderName);
      if folders[0].name != Some(folderName) {
        if FirstNamedId(rest, folderName).Some? {
          var k :| 0 <= k < |rest| && rest[k].name == Some(folderName)
            && rest[k].dataId == FirstNamedId(rest, folderName)
            && forall j :: 0 <= j < k ==> rest[j].name != Some(folderName);
          assert folders[k + 1] == rest[k];
          assert forall j :: 1 <= j < k + 1 ==> folders[j] == rest[j - 1];
        }
        if forall k :: 0 <= k < |folders| ==> folders[k].name != Some(folderName) {
          assert forall k :: 0 <= k < |rest| ==> rest[k] == folders[k + 1];
        }
      }
    }
  }

  /** The `for folder in folders` search with its `break`. */
  method FindFolderId(listing: Listing, folderName: string) returns (folderId: Option<string>)
    ensures folderId == FolderIdNamed(listing, folderName)
  {
    folderId := None;
    if listing.Listed? {
      var folders := OnlyFolders(listing.items);
      var k := 0;
      while k < |folders|
        invariant k <= |folders|
        invariant FirstNamedId(folders[k..], folderName) == FirstNamedId(folders, folderName)
      {
        assert folders[k..][1..] == folders[k + 1..];
        if folders[k].name == Some(folderName) {
          return folders[k].dataId;
        }
        k := k + 1;
      }
    }
  }

  /** `tidal_create_playlist(title, …)`, which no handler guards: its failure propagates. */
  predicate RootRun(title: string, calls: seq<TidalCall>, r: Reply<string>) {
    calls == [CreatedRootPlaylist(title, r)]
  }

  /**
   * The `except Exception` of the folder `try` (lines 199-205) for a failure `f`: an interrupt
   * escapes it, anything else falls back to a root playlist named `leaf`.
   */
  predicate Rescued(f: Failure, leaf: string, calls: seq<TidalCall>, r: Reply<string>) {
    if f.Interrupted? then calls == [] && r == Raised(f) else RootRun(leaf, calls, r)
  }

  /** Lines 187-197: create the folder, cache it and attach the playlist `pid` to it. */
  predicate NewFolderRun(folderName: string, leaf: string, pid: string, calls: seq<TidalCall>,
                         cache0: map<string, string>, cache1: map<string, string>, r: Reply<string>)
  {
    && |calls| >= 1 && calls[0].CreatedFolder? && calls[0].folderTitle == folderName
    && match calls[0].folderCreated
       case Raised(f) => cache1 == cache0 && Rescued(f, leaf, calls[1..], r)
       case Ok(folder) =>
         && cache1 == cache0[folderName := folder]
         && |calls| >= 2 && calls[1].AddedToFolder? && calls[1].folderId == folder && calls[1].playlistId == pid
         && match calls[1].attached
            case Ok(_) => |calls| == 2 && r == Ok(pid)
            case Raised(f) => Rescued(f, leaf, calls[2..], r)
  }

  /**
   * Lines 171-185: open the folder the listing found, cache it and attach the playlist `pid`;
   * an ordinary failure goes on to create a new folder.
   */
  predicate ExistingFolderRun(folderName: string, leaf: string, folderId: string, pid: string, calls: seq<TidalCall>,
                              cache0: map<string, string>, cache1: map<string, string>, r: Reply<string>)
  {
    && |calls| >= 1 && calls[0].OpenedFolder? && calls[0].requestedId == Some(folderId)
    && match calls[0].openedId
       case Raised(Interrupted) => |calls| == 1 && cache1 == cache0 && r == Raised(Interrupted)
       case Raised(Error) => NewFolderRun(folderName, leaf, pid, calls[1..], cache0, cache1, r)
       case Ok(folder) =>
         var cacheMid := cache0[folderName := folder];
         && |calls| >= 2 && calls[1].AddedToFolder? && calls[1].folderId == folder && calls[1].playlistId == pid
         && match calls[1].attached
            case Ok(_) => |calls| == 2 && cache1 == cacheMid && r == Ok(pid)
            case Raised(Interrupted) => |calls| == 2 && cache1 == cacheMid && r == Raised(Interrupted)
            case Raised(Error) => NewFolderRun(folderName, leaf, pid, calls[2..], cacheMid, cache1, r)
  }

  /**
   * Lines 141-205: list the folders, then go on as `ListedRun` with the id the listing gives
   * the folder `folderName`.
   */
  predicate ApiFolderRun(folderName: string, leaf: string, calls: seq<TidalCall>,
                         cache0: map<string, string>, cache1: map<string, string>, r: Reply<string>)
  {
    && |calls| >= 1 && calls[0].ListedFolders?
    && match calls[0].listing
       case Raised(f) => cache1 == cache0 && Rescued(f, leaf, calls[1..], r)
       case Ok(listing) => ListedRun(folderName, leaf, FolderIdNamed(listing, folderName), calls[1..], cache0, cache1, r)
  }

  /**
   * Lines 161-205: create the playlist `leaf`, then attach it to the folder `folderId` when
   * the listing found one, or to a new folder.
   */
  predicate ListedRun(folderName: string, leaf: string, folderId: Option<string>, calls: seq<TidalCall>,
                      cache0: map<string, string>, cache1: map<string, string>, r: Reply<string>)
  {
    && |calls| >= 1 && calls[0].CreatedPlaylist? && calls[0].title == leaf
    && match calls[0].created
       case Raised(f) => cache1 == cache0 && Rescued(f, leaf, calls[1..], r)
       case Ok(pid) =>
         if Truthy(folderId) then ExistingFolderRun(folderName, leaf, folderId.value, pid, calls[1..], cache0, cache1, r)
         else NewFolderRun(folderName, leaf, pid, calls[1..], cache0, cache1, r)
  }

  /**
   * Lines 126-138 and 213-225: create the playlist `leaf`, which no handler guards, and attach
   * it to the cached `folder`. Only an ordinary failure of the attach lets the resolver go on.
   */
  predicate CachedAttachRun(folder: string, leaf: string, calls: seq<TidalCall>, r: Reply<string>) {
    && |calls| >= 1 && calls[0].CreatedPlaylist? && calls[0].title == leaf
    && match calls[0].created
       case Raised(f) => |calls| == 1 && r == Raised(f)
       case Ok(pid) =>
         && |calls| >= 2 && calls[1].AddedToFolder? && calls[1].folderId == folder && calls[1].playlistId == pid
         && match calls[1].attached
            case Ok(_) => |calls| == 2 && r == Ok(pid)
            case Raised(Interrupted) => |calls| == 2 && r == Raised(Interrupted)
            case Raised(Error) => true
  }

  /** The attach to the cached folder failed with an ordinary exception, after which the resolver goes on. */
  predicate AttachFellThrough(calls: seq<TidalCall>) {
    && |calls| >= 2 && calls[0].CreatedPlaylist? && calls[0].created.Ok?
    && calls[1].AddedToFolder? && calls[1].attached == Raised(Error)
  }

  /** Lines 124-205: the folder `folderName` from the cache, then from the folders endpoint. */
  predicate AppleFolderRun(folderName: string, leaf: string, calls: seq<TidalCall>,
                           cache0: map<string, string>, cache1: map<string, string>, r: Reply<string>)
  {
    if folderName in cache0 then
      && CachedAttachRun(cache0[folderName], leaf, calls, r)
      && if AttachFellThrough(calls) then ApiFolderRun(folderName, leaf, calls[2..], cache0, cache1, r)
         else cache1 == cache0
    else ApiFolderRun(folderName, leaf, calls, cache0, cache1, r)
  }

  /** `name.split("/", 1)` when `name` holds a `/`. */
  function SlashSplit(name: string): Option<(string, string)> {
    if Contains(name, "/") then Some(SplitOnce(name, "/")) else None
  }

  /**
   * Lines 208-232: a name with a `/` whose folder is cached goes into that folder; otherwise,
   * or when that attach fails, a root playlist gets the full name, slashes included.
   */
  predicate LiteralRun(name: string, calls: seq<TidalCall>, cache: map<string, string>, r: Reply<string>) {
    match SlashSplit(name)
    case Some((folderName, leaf)) =>
      if folderName in cache then
        && CachedAttachRun(cache[folderName], leaf, calls, r)
        && (AttachFellThrough(calls) ==> RootRun(name, calls[2..], r))
      else RootRun(name, calls, r)
    case None => RootRun(name, calls, r)
  }

  /** Lines 119-123: `apple_folders` is non-empty, the name holds a `/` and its folder is one of `apple_folders`' values. */
  predicate AppleBranch(name: string, appleFolders: map<string, string>) {
    |appleFolders| > 0 && SlashSplit(name).Some? && SlashSplit(name).value.0 in appleFolders.Values
  }

  /**
   * `tidal_dest_check(playlists, session, name, apple_folders)`: the calls it makes, the cache
   * `cache0` becoming `cache1`, the index `index0` becoming `index1`, and its result `r` (an id,
   * or the exception that escaped it).
   */
  predicate DestRun(index0: map<string, string>, name: string, appleFolders: map<string, string>, calls: seq<TidalCall>,
                    cache0: map<string, string>, cache1: map<string, string>, index1: map<string, string>, r: Reply<string>)
  {
    && index1 == (if r.Ok? then index0[name := r.value] else index0)
    && if name in index0 then calls == [] && cache1 == cache0 && r == Ok(index0[name])
       else if AppleBranch(name, appleFolders) then
         AppleFolderRun(SlashSplit(name).value.0, SlashSplit(name).value.1, calls, cache0, cache1, r)
       else cache1 == cache0 && LiteralRun(name, calls, cache0, r)
  }

  method CreateRoot(session: TidalSession, title: string) returns (r: Reply<string>, ghost calls: seq<TidalCall>)
    modifies session
    ensures session.calls == old(session.calls) + calls
    ensures RootRun(title, calls, r)
  {
    r := session.CreateRootPlaylist(title);
    calls := [CreatedRootPlaylist(title, r)];
  }

  method Rescue(session: TidalSession, f: Failure, leaf: string) returns (r: Reply<string>, ghost calls: seq<TidalCall>)
    modifies session
    ensures session.calls == old(session.calls) + calls
    ensures Rescued(f, leaf, calls, r)
  {
    if f.Interrupted? {
      r, calls := Raised(f), [];
    } else {
      r, calls := CreateRoot(session, leaf);
    }
  }

  method NewFolder(session: TidalSession, cache: FolderCache, folderName: string, leaf: string, pid: string)
    returns (r: Reply<string>, ghost calls: seq<TidalCall>)
    modifies session, cache
    ensures session.calls == old(session.calls) + calls
    ensures NewFolderRun(folderName, leaf, pid, calls, old(cache.folders), cache.folders, r)
  {
    var created := session.CreateFolder(folderName);
    calls := [CreatedFolder(folderName, created)];
    ghost var rest;
    match created {
      case Raised(f) =>
        r, rest := Rescue(session, f, leaf);
      case Ok(folder) =>
        cache.Put(folderName, folder);
        var attached := session.AddToFolder(folder, pid);
        calls := calls + [AddedToFolder(folder, pid, attached)];
        match attached {
          case Ok(_) =>
            r, rest := Ok(pid), [];
          case Raised(f) =>
            r, rest := Rescue(session, f, leaf);
        }
    }
    ghost var head := calls;
    calls := calls + rest;
    assert calls[|head|..] == rest;
  }

  method ExistingFolder(session: TidalSession, cache: FolderCache, folderName: string, leaf: string,
                        folderId: string, pid: string)
    returns (r: Reply<string>, ghost calls: seq<TidalCall>)
    modifies session, cache
    ensures session.calls == old(session.calls) + calls
    ensures ExistingFolderRun(folderName, leaf, folderId, pid, calls, old(cache.folders), cache.folders, r)
  {
    var openReply := session.OpenFolder(Some(folderId));
    calls := [OpenedFolder(Some(folderId), openReply)];
    ghost var rest := [];
    match openReply {
      case Raised(Interrupted) =>
        r := Raised(Interrupted);
      case Raised(Error) =>
        r, rest := NewFolder(session, cache, folderName, leaf, pid);
      case Ok(folder) =>
        cache.Put(folderName, folder);
        var attached := session.AddToFolder(folder, pid);
        calls := calls + [AddedToFolder(folder, pid, attached)];
        match attached {
          case Ok(_) =>
            r := Ok(pid);
          case Raised(Interrupted) =>
            r := Raised(Interrupted);
          case Raised(Error) =>
            r, rest := NewFolder(session, cache, folderName, leaf, pid);
        }
    }
    ghost var head := calls;
    calls := calls + rest;
    assert calls[|head|..] == rest;
  }

  method ApiFolder(session: TidalSession, cache: FolderCache, folderName: string, leaf: string)
    returns (r: Reply<string>, ghost calls: seq<TidalCall>)
    modifies session, cache
    ensures session.calls == old(session.calls) + calls
    ensures ApiFolderRun(folderName, leaf, calls, old(cache.folders), cache.folders, r)
  {
    var listing := session.Folders();
    ghost var rest;
    match listing {
      case Raised(f) =>
        r, rest := Rescue(session, f, leaf);
      case Ok(answer) =>
        var folderId := FindFolderId(answer, folderName);
        r, rest := CreateListed(session, cache, folderName, leaf, folderId);
    }
    calls := [ListedFolders(listing)] + rest;
    assert calls[1..] == rest;
  }

  /** The playlist, then the folder the listing found or a new one. */
  method CreateListed(session: TidalSession, cache: FolderCache, folderName: string, leaf: string, folderId: Option<string>)
    returns (r: Reply<string>, ghost calls: seq<TidalCall>)
    modifies session, cache
    ensures session.calls == old(session.calls) + calls
    ensures ListedRun(folderName, leaf, folderId, calls, old(cache.folders), cache.folders, r)
  {
    var created := session.CreatePlaylist(leaf);
    ghost var rest;
    match created {
      case Raised(f) =>
        r, rest := Rescue(session, f, leaf);
      case Ok(pid) =>
        if Truthy(folderId) {
          r, rest := ExistingFolder(session, cache, folderName, leaf, folderId.value, pid);
        } else {
          r, rest := NewFolder(session, cache, folderName, leaf, pid);
        }
    }
    calls := [CreatedPlaylist(leaf, created)] + rest;
    assert calls[1..] == rest;
  }

  /** Create `leaf` and attach it to the cached `folder`; `fell` when an ordinary failure of the attach lets the caller go on. */
  method CachedAttach(session: TidalSession, folder: string, leaf: string)
    returns (r: Reply<string>, fell: bool, ghost calls: seq<TidalCall>)
    modifies session
    ensures session.calls == old(session.calls) + calls
    ensures CachedAttachRun(folder, leaf, calls, r)
    ensures fell == AttachFellThrough(calls) && (fell ==> |calls| == 2)
  {
    var created := session.CreatePlaylist(leaf);
    calls := [CreatedPlaylist(leaf, created)];
    fell := false;
    match created {
      case Raised(f) =>
        r := Raised(f);
      case Ok(pid) =>
        var attached := session.AddToFolder(folder, pid);
        calls := calls + [AddedToFolder(folder, pid, attached)];
        r := if attached.Ok? then Ok(pid) else Raised(attached.failure);
        fell := attached == Raised(Error);
    }
  }

  method AppleFolder(session: TidalSession, cache: FolderCache, folderName: string, leaf: string)
    returns (r: Reply<string>, ghost calls: seq<TidalCall>)
    modifies session, cache
    ensures session.calls == old(session.calls) + calls
    ensures AppleFolderRun(folderName, leaf, calls, old(cache.folders), cache.folders, r)
  {
    calls := [];
    if folderName in cache.folders {
      var fell;
      r, fell, calls := CachedAttach(session, cache.folders[folderName], leaf);
      if !fell {
        return;
      }
    }
    ghost var rest;
    r, rest := ApiFolder(session, cache, folderName, leaf);
    ghost var head := calls;
    calls := calls + rest;
    assert calls[|head|..] == rest;
  }

  method Literal(session: TidalSession, cache: FolderCache, name: string, split: Option<(string, string)>)
    returns (r: Reply<string>, ghost calls: seq<TidalCall>)
    requires split == SlashSplit(name)
    modifies session
    ensures session.calls == old(session.calls) + calls
    ensures LiteralRun(name, calls, cache.folders, r)
  {
    calls := [];
    if split.Some? && split.value.0 in cache.folders {
      var fell;
      r, fell, calls := CachedAttach(session, cache.folders[split.value.0], split.value.1);
      if !fell {
        return;
      }
    }
    ghost var rest;
    r, rest := CreateRoot(session, name);
    ghost var head := calls;
    calls := calls + rest;
    assert calls[|head|..] == rest;
  }

  /** `tidal_dest_check`: reuse the playlist `name` or create it, filing it into a folder where one applies. */
  method DestCheck(session: TidalSession, cache: FolderCache, index: PlaylistIndex, name: string,
                   appleFolders: map<string, string>)
    returns (r: Reply<string>, ghost calls: seq<TidalCall>)
    modifies session, cache, index
    ensures session.calls == old(session.calls) + calls
    ensures DestRun(old(index.ids), name, appleFolders, calls, old(cache.folders), cache.folders, index.ids, r)
  {
    if name in index.ids {
      return Ok(index.ids[name]), [];
    }
    var split := SlashSplit(name);
    if |appleFolders| > 0 && split.Some? && split.value.0 in appleFolders.Values {
      r, calls := AppleFolder(session, cache, split.value.0, split.value.1);
    } else {
      r, calls := Literal(session, cache, name, split);
    }
    if r.Ok? {
      index.Put(name, r.value);
    }
  }
}

/** What every run of `tidal_dest_check` guarantees, whichever of its branches it takes. */
module TidalDestFacts {
  import opened Text
  import opened Provider
  import opened TidalApi
  import opened TidalFolders
  import opened TidalDest

  /**
   * What a stretch of calls did: the ids of the playlists it created, the titles of the
   * folders and of the root playlists it asked for, and the (folder, playlist) pairs it
   * attached, each in order.
   */
  datatype Effects = Effects(created: seq<string>, folders: seq<string>, roots: seq<string>,
                             attached: seq<(string, string)>)

  /** The effects of one stretch followed by those of another. */
  function Plus(a: Effects, b: Effects): Effects {
    Effects(a.created + b.created, a.folders + b.folders, a.roots + b.roots, a.attached + b.attached)
  }

  /** The effects of one call. */
  function CallEffects(c: TidalCall): Effects {
    match c
    case CreatedPlaylist(_, created) => Effects(if created.Ok? then [created.value] else [], [], [], [])
    case CreatedRootPlaylist(title, created) => Effects(if created.Ok? then [created.value] else [], [], [title], [])
    case CreatedFolder(title, _) => Effects([], [title], [], [])
    case AddedToFolder(folder, pid, attached) => Effects([], [], [], if attached.Ok? then [(folder, pid)] else [])
    case _ => Effects([], [], [], [])
  }

  /** No effect at all. */
  const NoEffects := Effects([], [], [], [])

  /** The effects of a log of calls. */
  function LogEffects(calls: seq<TidalCall>): Effects {
    if calls == [] then NoEffects else Plus(CallEffects(calls[0]), LogEffects(calls[1..]))
  }

  lemma {:induction false} PlusNone(e: Effects)
    ensures Plus(NoEffects, e) == e && Plus(e, NoEffects) == e
  {
    assert [] + e.created == e.created + [] == e.created;
    assert [] + e.folders == e.folders + [] == e.folders;
    assert [] + e.roots == e.roots + [] == e.roots;
    assert [] + e.attached == e.attached + [] == e.attached;
  }

  lemma {:induction false} PlusAssociates(a: Effects, b: Effects, c: Effects)
    ensures Plus(Plus(a, b), c) == Plus(a, Plus(b, c))
  {
    assert (a.created + b.created) + c.created == a.created + (b.created + c.created);
    assert (a.folders + b.folders) + c.folders == a.folders + (b.folders + c.folders);
    assert (a.roots + b.roots) + c.roots == a.roots + (b.roots + c.roots);
    assert (a.attached + b.attached) + c.attached == a.attached + (b.attached + c.attached);
  }

  lemma {:induction false} LogEffectsAppend(a: seq<TidalCall>, b: seq<TidalCall>)
    ensures LogEffects(a + b) == Plus(LogEffects(a), LogEffects(b))
    decreases |a|
  {
    if a == [] {
      assert a + b == b;
      PlusNone(LogEffects(b));
    } else {
      assert (a + b)[0] == a[0] && (a + b)[1..] == a[1..] + b;
      LogEffectsAppend(a[1..], b);
      PlusAssociates(CallEffects(a[0]), LogEffects(a[1..]), LogEffects(b));
    }
  }

  /** Calls without effect, such as a listing, an opened folder or a failed attach, change nothing. */
  lemma {:induction false} SkipsNone(calls: seq<TidalCall>)
    requires calls != [] && CallEffects(calls[0]) == NoEffects
    ensures LogEffects(calls) == LogEffects(calls[1..])
  {
    PlusNone(LogEffects(calls[1..]));
  }

  /** A log of one call has that call's effects. */
  lemma {:induction false} OneCall(c: TidalCall)
    ensures LogEffects([c]) == CallEffects(c)
  {
    assert [c][1..] == [];
    PlusNone(CallEffects(c));
  }

  /** `s` holds nothing, or just `x`. */
  predicate AtMostOne<T(==)>(s: seq<T>, x: T) {
    s == [] || s == [x]
  }

  /**
   * At most one playlist was attached: the result, into the folder `cache` holds under
   * `folderName`.
   */
  predicate AttachedInto(e: Effects, cache: map<string, string>, folderName: string, r: Reply<string>) {
    e.attached == [] ||
      (folderName in cache && |e.attached| == 1 && e.attached[0].0 == cache[folderName] && r == Ok(e.attached[0].1))
  }

  /** A returned id is that of the last playlist created. */
  predicate ReturnsLastCreated(e: Effects, r: Reply<string>) {
    r.Ok? ==> |e.created| > 0 && r.value == e.created[|e.created| - 1]
  }

  /**
   * After the playlist `pid` was created: either it is returned and nothing more was created,
   * or one more playlist was created and that one is returned.
   */
  predicate ReturnsPidOrNext(e: Effects, pid: string, r: Reply<string>) {
    && (r.Ok? ==> (e.created == [] && r == Ok(pid)) || e.created == [r.value])
    && (r.Ok? && e.attached == [] ==> e.created == [r.value])
  }

  /** The effects of the root fallback: at most the one playlist `leaf`, which is the result. */
  lemma {:induction false} RescuedFacts(f: Failure, leaf: string, calls: seq<TidalCall>, r: Reply<string>)
    requires Rescued(f, leaf, calls, r)
    ensures LogEffects(calls).folders == [] && LogEffects(calls).attached == []
    ensures LogEffects(calls).roots == if f.Interrupted? then [] else [leaf]
    ensures LogEffects(calls).created == if r.Ok? then [r.value] else []
  {
    if !f.Interrupted? {
      PlusNone(CallEffects(calls[0]));
    }
  }

  /**
   * Attaching `pid` to `folder`, then the root fallback if that fails: at most the attach, or
   * at most the root playlist `leaf`, which is then the result.
   */
  lemma {:induction false} AttachThenRescue(folder: string, leaf: string, pid: string, calls: seq<TidalCall>, r: Reply<string>)
    requires |calls| >= 1 && calls[0].AddedToFolder? && calls[0].folderId == folder && calls[0].playlistId == pid
    requires match calls[0].attached
             case Ok(_) => |calls| == 1 && r == Ok(pid)
             case Raised(f) => Rescued(f, leaf, calls[1..], r)
    ensures LogEffects(calls).folders == []
    ensures AtMostOne(LogEffects(calls).roots, leaf)
    ensures LogEffects(calls).attached == if calls[0].attached.Ok? then [(folder, pid)] else []
    ensures calls[0].attached.Ok? ==> r == Ok(pid) && LogEffects(calls).created == []
    ensures !calls[0].attached.Ok? ==> LogEffects(calls).created == if r.Ok? then [r.value] else []
  {
    if calls[0].attached.Ok? {
      assert calls == [calls[0]];
      OneCall(calls[0]);
    } else {
      SkipsNone(calls);
      RescuedFacts(calls[0].attached.failure, leaf, calls[1..], r);
    }
  }

  /**
   * Creating a folder: exactly one folder, titled `folderName`; at most one root playlist,
   * titled `leaf`; at most one attach, of `pid` into the folder cached afterwards.
   */
  lemma {:induction false} NewFolderFacts(folderName: string, leaf: string, pid: string, calls: seq<TidalCall>,
                       cache0: map<string, string>, cache1: map<string, string>, r: Reply<string>)
    requires NewFolderRun(folderName, leaf, pid, calls, cache0, cache1, r)
    ensures cache1 - {folderName} == cache0 - {folderName}
    ensures LogEffects(calls).folders == [folderName]
    ensures AtMostOne(LogEffects(calls).roots, leaf)
    ensures AttachedInto(LogEffects(calls), cache1, folderName, r)
    ensures LogEffects(calls).attached != [] ==> r == Ok(pid)
    ensures ReturnsPidOrNext(LogEffects(calls), pid, r)
  {
    var rest := calls[1..];
    var e0 := Effects([], [folderName], [], []);
    assert LogEffects(calls) == Plus(e0, LogEffects(rest));
    match calls[0].folderCreated {
      case Raised(f) =>
        RescuedFacts(f, leaf, rest, r);
      case Ok(folder) =>
        assert cache1 - {folderName} == cache0 - {folderName};
        AttachThenRescue(folder, leaf, pid, rest, r);
    }
  }

  /** The existing folder, then perhaps a new one: the same guarantees as creating a folder, but maybe no folder at all. */
  lemma {:induction false} ExistingFolderFacts(folderName: string, leaf: string, folderId: string, pid: string, calls: seq<TidalCall>,
                            cache0: map<string, string>, cache1: map<string, string>, r: Reply<string>)
    requires ExistingFolderRun(folderName, leaf, folderId, pid, calls, cache0, cache1, r)
    ensures cache1 - {folderName} == cache0 - {folderName}
    ensures AtMostOne(LogEffects(calls).folders, folderName)
    ensures AtMostOne(LogEffects(calls).roots, leaf)
    ensures AttachedInto(LogEffects(calls), cache1, folderName, r)
    ensures LogEffects(calls).attached != [] ==> r == Ok(pid)
    ensures ReturnsPidOrNext(LogEffects(calls), pid, r)
  {
    var rest := calls[1..];
    SkipsNone(calls);
    match calls[0].openedId {
      case Raised(Interrupted) =>
      case Raised(Error) =>
        NewFolderFacts(folderName, leaf, pid, rest, cache0, cache1, r);
      case Ok(folder) =>
        var cacheMid := cache0[folderName := folder];
        var tail := rest[1..];
        assert cacheMid - {folderName} == cache0 - {folderName};
        if rest[0].attached.Ok? {
          assert tail == [];
          PlusNone(CallEffects(rest[0]));
        } else {
          SkipsNone(rest);
          if rest[0].attached == Raised(Error) {
            NewFolderFacts(folderName, leaf, pid, tail, cacheMid, cache1, r);
          } else {
            assert tail == [];
          }
        }
    }
  }

  /** A playlist `pid` created before a stretch that returns it or the next one it creates. */
  lemma {:induction false} CreatedBefore(pid: string, e: Effects, cache: map<string, string>, folderName: string, r: Reply<string>)
    requires ReturnsPidOrNext(e, pid, r) && AttachedInto(e, cache, folderName, r)
    ensures Plus(Effects([pid], [], [], []), e).folders == e.folders
    ensures Plus(Effects([pid], [], [], []), e).roots == e.roots
    ensures AttachedInto(Plus(Effects([pid], [], [], []), e), cache, folderName, r)
    ensures ReturnsLastCreated(Plus(Effects([pid], [], [], []), e), r)
  {
    var p := Plus(Effects([pid], [], [], []), e);
    assert p.created == [pid] + e.created;
  }

  /**
   * The folders endpoint path: at most one folder, titled `folderName`; at most one root
   * playlist, titled `leaf`; at most one attach, into the folder cached afterwards, of the
   * playlist returned; a returned id is the last playlist created.
   */
  lemma {:induction false} ApiFolderFacts(folderName: string, leaf: string, calls: seq<TidalCall>,
                       cache0: map<string, string>, cache1: map<string, string>, r: Reply<string>)
    requires ApiFolderRun(folderName, leaf, calls, cache0, cache1, r)
    ensures cache1 - {folderName} == cache0 - {folderName}
    ensures AtMostOne(LogEffects(calls).folders, folderName)
    ensures AtMostOne(LogEffects(calls).roots, leaf)
    ensures AttachedInto(LogEffects(calls), cache1, folderName, r)
    ensures ReturnsLastCreated(LogEffects(calls), r)
  {
    SkipsNone(calls);
    match calls[0].listing {
      case Raised(f) =>
        RescuedFacts(f, leaf, calls[1..], r);
      case Ok(listing) =>
        ListedFacts(folderName, leaf, FolderIdNamed(listing, folderName), calls[1..], cache0, cache1, r);
    }
  }

  /** `ListedRun` has the guarantees of `ApiFolderFacts`. */
  lemma {:induction false} ListedFacts(folderName: string, leaf: string, folderId: Option<string>, calls: seq<TidalCall>,
                                       cache0: map<string, string>, cache1: map<string, string>, r: Reply<string>)
    requires ListedRun(folderName, leaf, folderId, calls, cache0, cache1, r)
    ensures cache1 - {folderName} == cache0 - {folderName}
    ensures AtMostOne(LogEffects(calls).folders, folderName)
    ensures AtMostOne(LogEffects(calls).roots, leaf)
    ensures AttachedInto(LogEffects(calls), cache1, folderName, r)
    ensures ReturnsLastCreated(LogEffects(calls), r)
  {
    var rest := calls[1..];
    match calls[0].created {
      case Raised(f) =>
        SkipsNone(calls);
        RescuedFacts(f, leaf, rest, r);
      case Ok(pid) =>
        assert LogEffects(calls) == Plus(Effects([pid], [], [], []), LogEffects(rest));
        if Truthy(folderId) {
          ExistingFolderFacts(folderName, leaf, folderId.value, pid, rest, cache0, cache1, r);
        } else {
          NewFolderFacts(folderName, leaf, pid, rest, cache0, cache1, r);
        }
        CreatedBefore(pid, LogEffects(rest), cache1, folderName, r);
    }
  }

  /**
   * The attempt at a cached folder: when the resolver stops there, its one playlist, if
   * created, is all it created, and is the result exactly when it was attached to `folder`;
   * when the resolver goes on, that playlist is left behind and nothing is attached.
   */
  lemma {:induction false} CachedAttachFacts(folder: string, leaf: string, calls: seq<TidalCall>, r: Reply<string>)
    requires CachedAttachRun(folder, leaf, calls, r)
    ensures !AttachFellThrough(calls) ==>
      LogEffects(calls) == Effects(if calls[0].created.Ok? then [calls[0].created.value] else [], [], [],
                                   if r.Ok? then [(folder, r.value)] else [])
    ensures !AttachFellThrough(calls) && r.Ok? ==> r.value == calls[0].created.value
  {
    if !AttachFellThrough(calls) {
      var rest := calls[1..];
      if calls[0].created.Ok? {
        assert rest == [rest[0]];
        OneCall(rest[0]);
        PlusNone(CallEffects(calls[0]));
      } else {
        assert rest == [];
        PlusNone(CallEffects(calls[0]));
      }
    }
  }

  /** A failed attach to a cached folder followed by `rest`: the playlist made first, then whatever `rest` did. */
  lemma {:induction false} AfterFellThrough(calls: seq<TidalCall>)
    requires AttachFellThrough(calls)
    ensures LogEffects(calls) == Plus(Effects([calls[0].created.value], [], [], []), LogEffects(calls[2..]))
  {
    var rest := calls[1..];
    assert rest[1..] == calls[2..];
    SkipsNone(rest);
  }

  /** A playlist `pid` left behind before a stretch whose result is the last playlist it created. */
  lemma {:induction false} LeftBehind(pid: string, e: Effects, r: Reply<string>)
    requires ReturnsLastCreated(e, r)
    ensures Plus(Effects([pid], [], [], []), e).folders == e.folders
    ensures Plus(Effects([pid], [], [], []), e).roots == e.roots
    ensures Plus(Effects([pid], [], [], []), e).attached == e.attached
    ensures ReturnsLastCreated(Plus(Effects([pid], [], [], []), e), r)
    ensures r.Ok? ==> |Plus(Effects([pid], [], [], []), e).created| >= 2
  {
    var p := Plus(Effects([pid], [], [], []), e);
    assert p.created == [pid] + e.created;
  }

  /**
   * The Apple folder branch: the cache changes under `folderName` only; at most one folder,
   * titled `folderName`, and at most one root playlist, titled `leaf`; at most one attach,
   * into the folder cached afterwards, of the playlist returned; a returned id is the last
   * playlist created; a failed attach to the cached folder leaves a playlist behind; a
   * cached folder that takes the playlist is reused without creating one.
   */
  lemma {:induction false} AppleFolderFacts(folderName: string, leaf: string, calls: seq<TidalCall>,
                         cache0: map<string, string>, cache1: map<string, string>, r: Reply<string>)
    requires AppleFolderRun(folderName, leaf, calls, cache0, cache1, r)
    ensures cache1 - {folderName} == cache0 - {folderName}
    ensures AtMostOne(LogEffects(calls).folders, folderName)
    ensures AtMostOne(LogEffects(calls).roots, leaf)
    ensures AttachedInto(LogEffects(calls), cache1, folderName, r)
    ensures ReturnsLastCreated(LogEffects(calls), r)
    ensures AttachFellThrough(calls) && r.Ok? ==> |LogEffects(calls).created| >= 2
    ensures folderName in cache0 && !AttachFellThrough(calls) ==> cache1 == cache0 && LogEffects(calls).folders == []
  {
    if folderName in cache0 {
      CachedAttachFacts(cache0[folderName], leaf, calls, r);
      if AttachFellThrough(calls) {
        ApiFolderFacts(folderName, leaf, calls[2..], cache0, cache1, r);
        AfterFellThrough(calls);
        LeftBehind(calls[0].created.value, LogEffects(calls[2..]), r);
      }
    } else {
      ApiFolderFacts(folderName, leaf, calls, cache0, cache1, r);
    }
  }


  /**
   * The literal branch: no folder is ever created; at most one root playlist, under the
   * full name; at most one attach, into the cached folder of the name's first segment, of
   * the playlist returned; a returned id is the last playlist created; a failed attach to
   * the cached folder leaves a playlist behind.
   */
  lemma {:induction false} LiteralFacts(name: string, calls: seq<TidalCall>, cache: map<string, string>, r: Reply<string>)
    requires LiteralRun(name, calls, cache, r)
    ensures LogEffects(calls).folders == []
    ensures AtMostOne(LogEffects(calls).roots, name)
    ensures LogEffects(calls).attached != [] ==>
      SlashSplit(name).Some? && AttachedInto(LogEffects(calls), cache, SlashSplit(name).value.0, r)
    ensures ReturnsLastCreated(LogEffects(calls), r)
    ensures AttachFellThrough(calls) && r.Ok? ==> |LogEffects(calls).created| >= 2
  {
    match SlashSplit(name) {
      case Some((folderName, leaf)) =>
        if folderName in cache {
          CachedAttachFacts(cache[folderName], leaf, calls, r);
          if AttachFellThrough(calls) {
            RescuedFacts(Error, name, calls[2..], r);
            AfterFellThrough(calls);
            LeftBehind(calls[0].created.value, LogEffects(calls[2..]), r);
          }
        } else {
          RescuedFacts(Error, name, calls, r);
        }
      case None =>
        RescuedFacts(Error, name, calls, r);
    }
  }


  /**
   * The index changes under `name` only: an existing name is returned with no call and no
   * change; a created playlist is entered under `name`; an escaping exception changes nothing.
   */
  lemma {:induction false} DestIndexUpdate(index0: map<string, string>, name: string, appleFolders: map<string, string>, calls: seq<TidalCall>,
                        cache0: map<string, string>, cache1: map<string, string>, index1: map<string, string>, r: Reply<string>)
    requires DestRun(index0, name, appleFolders, calls, cache0, cache1, index1, r)
    ensures index1 - {name} == index0 - {name}
    ensures r.Ok? ==> name in index1 && index1[name] == r.value
    ensures r.Raised? ==> index1 == index0
    ensures name in index0 ==> calls == [] && cache1 == cache0 && index1 == index0 && r == Ok(index0[name])
  {
    if r.Ok? {
      assert index0[name := r.value] - {name} == index0 - {name};
    }
  }

  /**
   * A run of `tidal_dest_check` for a new name. The cache changes under the Apple folder's
   * name only, and not at all outside the Apple branch. At most one folder is created, only in
   * the Apple branch, and titled with the folder's name. At most one root playlist is
   * created: the leaf in the Apple branch, the full name otherwise. At most one attach
   * succeeds: the returned playlist, into the folder the cache holds under the name's first
   * segment afterwards. A returned id is the last playlist created; a failed attach to a
   * cached folder leaves the playlist it made behind, so two or more are created.
   */
  lemma {:induction false} DestFacts(index0: map<string, string>, name: string, appleFolders: map<string, string>, calls: seq<TidalCall>,
                  cache0: map<string, string>, cache1: map<string, string>, index1: map<string, string>, r: Reply<string>)
    requires DestRun(index0, name, appleFolders, calls, cache0, cache1, index1, r) && name !in index0
    ensures AppleBranch(name, appleFolders) ==> cache1 - {SlashSplit(name).value.0} == cache0 - {SlashSplit(name).value.0}
    ensures !AppleBranch(name, appleFolders) ==> cache1 == cache0
    ensures LogEffects(calls).folders != [] ==>
      AppleBranch(name, appleFolders) && LogEffects(calls).folders == [SlashSplit(name).value.0]
    ensures AtMostOne(LogEffects(calls).roots, if AppleBranch(name, appleFolders) then SlashSplit(name).value.1 else name)
    ensures LogEffects(calls).attached != [] ==>
      SlashSplit(name).Some? && AttachedInto(LogEffects(calls), cache1, SlashSplit(name).value.0, r)
    ensures ReturnsLastCreated(LogEffects(calls), r)
    ensures AttachFellThrough(calls) && r.Ok? ==> |LogEffects(calls).created| >= 2
  {
    if AppleBranch(name, appleFolders) {
      var split := SlashSplit(name).value;
      AppleFolderFacts(split.0, split.1, calls, cache0, cache1, r);
    } else {
      LiteralFacts(name, calls, cache0, r);
    }
  }

  /**
   * A cached folder that takes the new playlist is reused: no folder is created, the cache
   * is unchanged and the playlist goes into the cached folder.
   */
  lemma {:induction false} DestReusesCachedFolder(index0: map<string, string>, name: string, appleFolders: map<string, string>,
                               calls: seq<TidalCall>, cache0: map<string, string>, cache1: map<string, string>,
                               index1: map<string, string>, r: Reply<string>)
    requires DestRun(index0, name, appleFolders, calls, cache0, cache1, index1, r) && name !in index0
    requires AppleBranch(name, appleFolders) && SlashSplit(name).value.0 in cache0 && !AttachFellThrough(calls)
    ensures LogEffects(calls).folders == [] && cache1 == cache0
    ensures r.Ok? ==> LogEffects(calls).attached == [(cache0[SlashSplit(name).value.0], r.value)]
  {
    var split := SlashSplit(name).value;
    CachedAttachFacts(cache0[split.0], split.1, calls, r);
  }

  /**
   * After a playlist has been attached to the folder of an Apple folder, a later new
   * playlist in the same folder is created and then attached to that very folder first.
   */
  lemma {:induction false} LaterCallUsesSameFolder(index0: map<string, string>, name: string, appleFolders: map<string, string>,
                                calls: seq<TidalCall>, cache0: map<string, string>, cache1: map<string, string>,
                                index1: map<string, string>, r: Reply<string>,
                                name2: string, calls2: seq<TidalCall>, cache2: map<string, string>,
                                index2: map<string, string>, r2: Reply<string>)
    requires DestRun(index0, name, appleFolders, calls, cache0, cache1, index1, r) && name !in index0
    requires AppleBranch(name, appleFolders) && LogEffects(calls).attached != []
    requires DestRun(index1, name2, appleFolders, calls2, cache1, cache2, index2, r2) && name2 !in index1
    requires AppleBranch(name2, appleFolders) && SlashSplit(name2).value.0 == SlashSplit(name).value.0
    ensures calls2[0].CreatedPlaylist? && calls2[0].title == SlashSplit(name2).value.1
    ensures calls2[0].created.Ok? ==> calls2[1].AddedToFolder? && calls2[1].folderId == LogEffects(calls).attached[0].0
  {
    DestFacts(index0, name, appleFolders, calls, cache0, cache1, index1, r);
  }
}
