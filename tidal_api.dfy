/**
 * What the Tidal back end sees of Tidal: the `tidalapi` session and the raw HTTP endpoints.
 * Every call is a method of `TidalSession` whose reply is arbitrary, a value or an
 * exception; each call is appended, with its reply, to the session's `calls` log.
 */
module TidalApi {
  import opened Text
  import opened Provider

  /** A track as `tidalapi` returns it: its name, its album's name and its artists' names. */
  datatype TidalTrack = TidalTrack(name: string, album: string, artists: seq<string>)

  /** Something with a name and an id: a playlist, or a folder of `session.user.folders()`. */
  datatype Named = Named(name: string, id: string)

  /** An element of `folder.items()`: a playlist, or an object without a `name`. */
  datatype FolderMember = Playlist(name: string, id: string) | Nameless

  /** An entry of the folders endpoint's `items`: `itemType`, `name` and `data.id`, any of them absent. */
  datatype ListItem = ListItem(itemType: Option<string>, name: Option<string>, dataId: Option<string>)

  /** The folders endpoint's answer: a status other than 200, or the `items` of its JSON body. */
  datatype Listing = NotOk | Listed(items: seq<ListItem>)

  /** One track of the search endpoint's `tracks.items`. */
  datatype SearchHit = SearchHit(id: string, title: string, album: string, artists: seq<string>)

  /**
   * What `tidal_search_playlist` returned, seen through the three ways `move_to_tidal`
   * inspects it: the length of its printed form, the number of its top-level entries,
   * and `search["tracks"]["items"]` (absent when that lookup raises).
   */
  datatype TidalSearch = TidalSearch(printedLength: nat, topLevelCount: nat, items: Option<seq<SearchHit>>)

  /** One call into Tidal and its reply. Folders are represented by their ids. */
  datatype TidalCall =
    | ListedUserPlaylists(playlists: Reply<seq<Named>>)
    | ListedFolders(listing: Reply<Listing>)
    | OpenedFolder(requestedId: Option<string>, openedId: Reply<string>)
    | ListedFolderMembers(folder: string, members: Reply<seq<FolderMember>>)
    | ListedUserFolders(folders: Reply<seq<Named>>)
    | CreatedPlaylist(title: string, created: Reply<string>)
    | CreatedRootPlaylist(title: string, created: Reply<string>)
    | CreatedFolder(folderTitle: string, folderCreated: Reply<string>)
    | AddedToFolder(folderId: string, playlistId: string, attached: Reply<()>)
    | FetchedTracks(sourceId: string, tracks: Reply<seq<TidalTrack>>)
    | Searched(query: string, result: Reply<TidalSearch>)
    | Paused
    | AddedTrack(destId: string, trackId: string, added: Reply<()>)

  /** A logged-in Tidal session. Each method is one call; its reply is whatever Tidal answers. */
  class TidalSession {
    var calls: seq<TidalCall>

    constructor ()
      ensures calls == []
    {
      calls := [];
    }

    /** `session.user.playlists()` */
    method UserPlaylists() returns (r: Reply<seq<Named>>)
      modifies this
      ensures calls == old(calls) + [ListedUserPlaylists(r)]
    {
      r :| true;
      calls := calls + [ListedUserPlaylists(r)];
    }

    /** GET `my-collection/playlists/folders`, its status and its JSON `items`. */
    method Folders() returns (r: Reply<Listing>)
      modifies this
      ensures calls == old(calls) + [ListedFolders(r)]
    {
      r :| true;
      calls := calls + [ListedFolders(r)];
    }

    /** `session.folder(folder_id)` */
    method OpenFolder(folderId: Option<string>) returns (r: Reply<string>)
      modifies this
      ensures calls == old(calls) + [OpenedFolder(folderId, r)]
    {
      r :| true;
      calls := calls + [OpenedFolder(folderId, r)];
    }

    /** `folder.items()` */
    method FolderMembers(folder: string) returns (r: Reply<seq<FolderMember>>)
      modifies this
      ensures calls == old(calls) + [ListedFolderMembers(folder, r)]
    {
      r :| true;
      calls := calls + [ListedFolderMembers(folder, r)];
    }

    /** `session.user.folders()` */
    method UserFolders() returns (r: Reply<seq<Named>>)
      modifies this
      ensures calls == old(calls) + [ListedUserFolders(r)]
    {
      r :| true;
      calls := calls + [ListedUserFolders(r)];
    }

    /** `session.user.create_playlist(title, "")`, giving the new playlist's id. */
    method CreatePlaylist(title: string) returns (r: Reply<string>)
      modifies this
      ensures calls == old(calls) + [CreatedPlaylist(title, r)]
    {
      r :| true;
      calls := calls + [CreatedPlaylist(title, r)];
    }

    /** `tidal_create_playlist(title, "Sound Tunnel playlist", token)`: a playlist at the root. */
    method CreateRootPlaylist(title: string) returns (r: Reply<string>)
      modifies this
      ensures calls == old(calls) + [CreatedRootPlaylist(title, r)]
    {
      r :| true;
      calls := calls + [CreatedRootPlaylist(title, r)];
    }

    /** `session.user.create_folder(title=title)`, giving the new folder's id. */
    method CreateFolder(title: string) returns (r: Reply<string>)
      modifies this
      ensures calls == old(calls) + [CreatedFolder(title, r)]
    {
      r :| true;
      calls := calls + [CreatedFolder(title, r)];
    }

    /** `folder.add_items([playlist_id])` */
    method AddToFolder(folderId: string, playlistId: string) returns (r: Reply<()>)
      modifies this
      ensures calls == old(calls) + [AddedToFolder(folderId, playlistId, r)]
    {
      r :| true;
      calls := calls + [AddedToFolder(folderId, playlistId, r)];
    }

    /** `session.playlist(playlist_id).tracks()` */
    method PlaylistTracks(playlistId: string) returns (r: Reply<seq<TidalTrack>>)
      modifies this
      ensures calls == old(calls) + [FetchedTracks(playlistId, r)]
    {
      r :| true;
      calls := calls + [FetchedTracks(playlistId, r)];
    }

    /** `tidal_search_playlist(query, token)` */
    method Search(query: string) returns (r: Reply<TidalSearch>)
      modifies this
      ensures calls == old(calls) + [Searched(query, r)]
    {
      r :| true;
      calls := calls + [Searched(query, r)];
    }

    /** `sleep(0.5)` before an add. */
    method Pause()
      modifies this
      ensures calls == old(calls) + [Paused]
    {
      calls := calls + [Paused];
    }

    /** `tidal_add_song_to_playlist(dest_id, track_id, token)` */
    method AddTrack(destId: string, trackId: string) returns (r: Reply<()>)
      modifies this
      ensures calls == old(calls) + [AddedTrack(destId, trackId, r)]
    {
      r :| true;
      calls := calls + [AddedTrack(destId, trackId, r)];
    }
  }
}
