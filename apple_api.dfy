/**
 * What the Apple Music back end sees of Apple Music: the `amp-api` endpoints it calls
 * through `requests`. Every call is a method of `AppleSession` whose reply is arbitrary,
 * a decoded JSON answer or an exception; each call is appended, with its reply, to the
 * session's `calls` log.
 */
module AppleApi {
  import opened Text
  import opened Provider

  /** A library or catalogue song: its `id` and the attributes `name`, `albumName` and `artistName`. */
  datatype Song = Song(id: string, name: string, albumName: string, artistName: string)

  /**
   * An entry of the library's playlists: its `id`, its `attributes.name`, whether
   * `attributes.folder` is truthy, and the id of `relationships.parent.data[0]` when the
   * entry has a non-empty parent relationship.
   */
  datatype LibraryItem = LibraryItem(id: string, name: string, isFolder: bool, parent: Option<string>)

  /**
   * The answer to the library playlists request: without a `data` key (a status other than
   * 200 gives `{}`), or its `data`.
   */
  datatype LibraryListing = NoData | Data(items: seq<LibraryItem>)

  /** The answer to a tracks request: a body with `errors`, or `meta.total` and `data`. */
  datatype TracksPage = Errors | Page(total: int, data: seq<Song>)

  /**
   * The answer to a catalogue search: without a `results` key, or the number of keys of
   * `results` and `results.song.data` (`None` when that lookup raises).
   */
  datatype SearchAnswer = NoResults | Results(keyCount: nat, songs: Option<seq<Song>>)

  /**
   * One call into Apple Music and its reply. A tracks request names no offset for the first
   * page and `&offset=n` for the others.
   */
  datatype AppleCall =
    | ListedLibrary(listing: Reply<LibraryListing>)
    | LookedUpFolder(folderId: string, folderName: Reply<Option<string>>)
    | CreatedPlaylist(title: string, created: Reply<string>)
    | FetchedPage(sourceId: string, offset: Option<nat>, page: Reply<TracksPage>)
    | Searched(query: string, answer: Reply<SearchAnswer>)
    | Paused
    | AddedTrack(destId: string, songId: string, added: Reply<()>)

  /** Authenticated request headers. Each method is one call; its reply is whatever Apple Music answers. */
  class AppleSession {
    var calls: seq<AppleCall>

    constructor ()
      ensures calls == []
    {
      calls := [];
    }

    /** `appleapi_user_playlists(headers)` */
    method Library() returns (r: Reply<LibraryListing>)
      modifies this
      ensures calls == old(calls) + [ListedLibrary(r)]
    {
      r :| true;
      calls := calls + [ListedLibrary(r)];
    }

    /** `appleapi_get_folder_info(folder_id, headers)`: the folder's name, or `None`. */
    method FolderInfo(folderId: string) returns (r: Reply<Option<string>>)
      modifies this
      ensures calls == old(calls) + [LookedUpFolder(folderId, r)]
    {
      r :| true;
      calls := calls + [LookedUpFolder(folderId, r)];
    }

    /** `appleapi_create_playlist(title, headers)`, giving the new playlist's id. */
    method CreatePlaylist(title: string) returns (r: Reply<string>)
      modifies this
      ensures calls == old(calls) + [CreatedPlaylist(title, r)]
    {
      r :| true;
      calls := calls + [CreatedPlaylist(title, r)];
    }

    /** GET the tracks of `sourceId`, at `offset` when there is one. */
    method TracksPage(sourceId: string, offset: Option<nat>) returns (r: Reply<TracksPage>)
      modifies this
      ensures calls == old(calls) + [FetchedPage(sourceId, offset, r)]
    {
      r :| true;
      calls := calls + [FetchedPage(sourceId, offset, r)];
    }

    /** `appleapi_music_search(query, headers)` */
    method Search(query: string) returns (r: Reply<SearchAnswer>)
      modifies this
      ensures calls == old(calls) + [Searched(query, r)]
    {
      r :| true;
      calls := calls + [Searched(query, r)];
    }

    /** `sleep(0.5)` before an add. */
    method Pause()
      modifies this
      ensures calls == old(calls) + [Paused]
    {
      calls := calls + [Paused];
    }

    /** `appleapi_add_playlist_item(dest_id, song_id, headers)` */
    method AddTrack(destId: string, songId: string) returns (r: Reply<()>)
      modifies this
      ensures calls == old(calls) + [AddedTrack(destId, songId, r)]
    {
      r :| true;
      calls := calls + [AddedTrack(destId, songId, r)];
    }
  }
}
