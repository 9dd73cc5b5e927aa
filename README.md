# sound-tunnel playlist reconciliation, modelled in Dafny

sound-tunnel copies a playlist from one streaming platform to another. It indexes the
destination account's playlists by name, finds or creates the destination playlist, and
computes which track descriptions are missing there. Each missing track is searched for
in the destination's catalogue. The first candidate whose text is similar enough is added,
and the tracks that could not be matched are reported. A track description is
`album&@#72title&@#72artist`.

This project models the shared helpers (`src/mainfuncs.py`) and the two back ends whose
behaviour is richest: Tidal (`src/tidalfuncs.py`) and Apple Music (`src/applefuncs.py`).

- **Platform calls.** Every call a back end makes into its platform (an HTTP request or a
  `tidalapi` method) is a method of a session class (`TidalApi.TidalSession`,
  `AppleApi.AppleSession`). The method appends the call and its reply to the session's
  `calls` log. A reply is a value or an exception: `Interrupted` for `KeyboardInterrupt`,
  `Error` for anything an `except Exception` catches.
- **Operations.** Each operation is an imperative method over such a session. Its contract
  ties the calls it appended, the state it changed (the folder cache, the playlist index)
  and its result to a predicate over the log that states what the code does. Lemmas
  beside it prove what the code promises: what the index holds, how many tracks a transfer
  adds and records, which folders get created, how exceptions end a loop.
- **Shared pieces.** Python's string operations, difflib's matching-block count behind
  `compare`, and the track description format are pure functions with lemmas.
  - Python's string operations used here are `split`, `join`, `replace`, `rstrip`,
    `split(sep, 1)` and the one `re.sub`.
  - The matcher behind `compare` is difflib's `SequenceMatcher.ratio()`.

Modules:

- `Text`, `SequenceMatcher`, `Track`, `MainFuncs`: pure.
- `Provider`: replies and per-track runs shared by both transfer loops.
- `TidalApi` and `TidalFuncs`: the Tidal track transfer.
- `TidalFolders` and `TidalFolderFacts`: `get_tidal_playlists`.
- `TidalDest` and `TidalDestFacts`: `tidal_dest_check`.
- `AppleApi` and `AppleFuncs`: the Apple track transfer.
- `AppleLibrary` and `AppleLibraryFacts`: `get_apple_playlists`.

`_session_folders_cache` is a `FolderCache` object whose map field the methods update.
The caller's `playlists` dictionary, which `tidal_dest_check` updates in place, is a
`PlaylistIndex` object.

Two behaviours of the code shape the model:

- `tidal_dest_check` files a new playlist into a Tidal folder, creating that folder when
  needed, only when `apple_folders` is non-empty and the first segment of the name is one
  of its values (src/tidalfuncs.py:119-123). Any other name with a `/` goes into an
  already cached folder or becomes a root playlist under the full name
  (src/tidalfuncs.py:208-232).
- The two transfers search for different text (src/tidalfuncs.py:256-257,
  src/applefuncs.py:157):
  - The Tidal transfer searches for title and artists and compares candidates against the
    whole description.
  - The Apple transfer searches for the whole description, album included.
  - Each records its own search text when a track is not found.

## Model

| member | source | states |
|---|---|---|
| MainFuncs.Label | src/mainfuncs.py:9-16 | the label is Spotify, Youtube, Tidal or Apple exactly when the platform letter is that platform's, in either case, and empty for any other letter |
| MainFuncs.Message | src/mainfuncs.py:5-18 | the printed line is `[code] `, then the platform label, then the message |
| MainFuncs.MessageCaseInsensitive | src/mainfuncs.py:9-16 | an upper-case platform letter prints the same line as the lower-case one |
| MainFuncs.UpperAscii | src/mainfuncs.py:9-16 | the upper-case form of a lower-case ASCII letter, the letters `plat.lower()` folds back |
| MainFuncs.FirstPresent | src/mainfuncs.py:25-46 | reference lookup: `None` exactly when no candidate key is stored, otherwise the value of the first stored candidate |
| MainFuncs.FirstStoredAt | src/mainfuncs.py:25-46 | spelling k is stored and no earlier spelling is: the step at which the lookup returns |
| MainFuncs.Candidates | src/mainfuncs.py:27-38 | the three spellings the lookup tries, in order: the name, the name plus one space, the name without trailing whitespace |
| MainFuncs.ConfirmPlaylistExist | src/mainfuncs.py:25-46 | `None` exactly when neither the name, nor the name plus a space, nor the name with trailing whitespace removed is stored |
| MainFuncs.ConfirmIsFirstPresent | src/mainfuncs.py:25-46 | the lookup returns the id of the first stored spelling, in the order exact, plus one space, stripped |
| MainFuncs.ConfirmIgnoresTrailingWhitespace | src/mainfuncs.py:37-41 | a stored name typed with extra trailing whitespace is found under the stored name's id |
| MainFuncs.ConfirmFindsStored | src/mainfuncs.py:26-29 | a stored name is found under its own id |
| MainFuncs.NoDuplicates | src/mainfuncs.py:49 | no element occurs twice, as in a list built from a set |
| MainFuncs.WhatToMove | src/mainfuncs.py:48-50 | the delta holds no duplicates and holds a track exactly when the track is new and not present already |
| MainFuncs.NothingToMove | src/mainfuncs.py:48-50 | when every new track is already present, nothing is moved |
| MainFuncs.WhatToMoveCount | src/mainfuncs.py:48-50 | the delta has exactly the size of the set difference `set(new) - set(old)` |
| MainFuncs.Compare | src/mainfuncs.py:52-58 | two texts match when difflib's ratio `2M/(len(first)+len(second))` is above 0.45, M being `SequenceMatcher.MatchCount`, written in integers as `40M > 9(len(first)+len(second))`; two empty texts have ratio 1 and match |
| MainFuncs.CompareSelf | src/mainfuncs.py:52-58 | every description matches itself |
| MainFuncs.CompareCommonBlock | src/mainfuncs.py:52-58 | a common block longer than 0.225 of the combined length makes two texts match |
| MainFuncs.CompareNeedsComparableLengths | src/mainfuncs.py:52-58 | texts that match have lengths within a factor of 31/9 of each other |
| MainFuncs.CompareEmpty | src/mainfuncs.py:52-58 | only the empty text matches the empty text (ratio 1 for two empty strings) |
| MainFuncs.CompareDashVariant | src/mainfuncs.py:52-58 | a dash spelling variant of a title still matches |
| MainFuncs.CompareDisjoint | src/mainfuncs.py:52-58 | non-empty texts that share no character never match |
| MainFuncs.CompareRejectsOtherArtist | src/mainfuncs.py:52-58 | `Queen` is rejected against `Abba` |
| MainFuncs.CompareRejectsFragment | src/mainfuncs.py:52-58 | `Queen` is rejected against `Bohemian Rhapsody Queen`, although the description contains it |
| MainFuncs.NotFoundKey | src/mainfuncs.py:60-63 | the report key has the length of its parts plus the five separator characters and ends in a quote |
| MainFuncs.NotFoundKeyInjective | src/mainfuncs.py:60-63 | for one pair of platforms, different playlists get different keys |
| SequenceMatcher.RunLen | src/mainfuncs.py:54 | the length of the common run of the two texts starting at a given pair of positions, inside the ranges searched |
| SequenceMatcher.ScanRow | src/mainfuncs.py:54 | `find_longest_match`'s inner loop over the starts in b for one start in a, keeping the first strictly longer run |
| SequenceMatcher.Scan | src/mainfuncs.py:54 | `find_longest_match`'s outer loop over the starts in a, so that ties go to the earliest start in a and then in b |
| SequenceMatcher.LongestMatch | src/mainfuncs.py:54 | `find_longest_match(alo, ahi, blo, bhi)` with no junk: a block inside the ranges, `(alo, blo, 0)` when nothing matches; `LongestMatchIsLongest` states that it is common and longest |
| SequenceMatcher.Matches | src/mainfuncs.py:54 | the characters of `get_matching_blocks()` over two ranges: the longest block plus the matches to its left and to its right, never more than either range holds |
| SequenceMatcher.MatchCount | src/mainfuncs.py:54 | the matched characters of the whole of both texts, the M of `ratio()`; at most the length of either text |
| SequenceMatcher.LongestMatchIsLongest | src/mainfuncs.py:54 | the block `find_longest_match` returns is common to both texts and no common run in its range is longer |
| SequenceMatcher.CommonBlockBound | src/mainfuncs.py:54 | any common block bounds the matched-character count from below |
| SequenceMatcher.DisjointMatchesNothing | src/mainfuncs.py:54 | texts that share no character have no matched characters |
| SequenceMatcher.MatchSelf | src/mainfuncs.py:54 | a text matched against itself matches every character |
| Text.IndexOf | src/applefuncs.py:127-128 | Python's `s.find(sub)` as an option: the first index where `sub` occurs, and no occurrence before it |
| Text.Contains | src/applefuncs.py:127 | Python's `sub in s`: `sub` occurs somewhere in `s` |
| Text.Split | src/tidalfuncs.py:257 | Python's `s.split(sep)` for a non-empty separator: the pieces between occurrences, left to right, at least one piece; `JoinSplit` and `SplitJoin` state the round trips |
| Text.Join | src/tidalfuncs.py:245 | Python's `sep.join(parts)`: the parts with the separator between consecutive ones |
| Text.Replace | src/tidalfuncs.py:256 | Python's `s.replace(old, new)`: every non-overlapping occurrence replaced, left to right, as the join of the split |
| Text.JoinSplit | src/tidalfuncs.py:257 | joining the pieces of a split with the separator gives back the text |
| Text.SplitJoin | src/tidalfuncs.py:257 | separator-free fields come back out of a split exactly as they were joined |
| Text.RStrip | src/mainfuncs.py:38 | `rstrip` returns a prefix that does not end in whitespace, and only whitespace follows it |
| Text.RStripDropsTrailingSpace | src/mainfuncs.py:38 | `rstrip` removes exactly the whitespace appended to a name that does not end in whitespace |
| Text.IsSpace | src/mainfuncs.py:38 | Python's `str.isspace()` for one character, the characters `rstrip()` removes |
| Text.SplitOnce | src/tidalfuncs.py:120 | `split("/", 1)` gives a head without `/` and a tail that rebuild the name around the first `/` |
| Text.CloseParen | src/tidalfuncs.py:261 | the first `)` the lazy `.*?` of `\(.*?\)` can reach: no `)` and no newline before it |
| Text.StripParens | src/tidalfuncs.py:261 | `re.sub(r"\(.*?\)", "", s)`: every shortest parenthesised span without a newline removed, left to right; an unclosed `(` stays; `StripParensShape` states its bounds |
| Text.StripParensShape | src/tidalfuncs.py:261 | removing parenthesised spans never lengthens the text and leaves text without `(` unchanged |
| Track.Entry | src/tidalfuncs.py:246 | the canonical description `album&@#72title&@#72artist`; `EntryFields` states that it splits back into its fields |
| Track.Spaced | src/tidalfuncs.py:256 | the description with every delimiter replaced by a space, the text a transfer compares candidates with; `SpacedEntry` states that it is `album title artist` |
| Track.EntryFields | src/tidalfuncs.py:246 | a description built from delimiter-free fields splits back into album, title and artist |
| Track.SpacedEntry | src/tidalfuncs.py:256 | replacing the delimiters of a description gives `album title artist` |
| Provider.PutAll | src/tidalfuncs.py:46-47 | writing pairs into a dictionary yields its keys plus the pairs' keys |
| Provider.PutEach | src/tidalfuncs.py:46-47 | the loop `for k, v in pairs: d[k] = v` computes the fold of the writes |
| Provider.Stopped | src/tidalfuncs.py:283-287 | an interrupt cancels the transfer; any other exception aborts it with what was collected |
| Provider.PutAllLastWins | src/applefuncs.py:90 | a key ends up with the value of its last write |
| Provider.PutAllUntouched | src/tidalfuncs.py:89 | a key no pair writes keeps its value |
| Provider.LoopNotFoundBound | src/tidalfuncs.py:250-287 | a transfer loop never reports more tracks as not found than it had to move |
| Provider.RecordedFrom | src/tidalfuncs.py:280-282 | every reported entry was recorded by one of the tracks processed |
| Provider.FirstTrueFinds | src/tidalfuncs.py:266-279 | the first `true` verdict is found; none is found exactly when all verdicts are false |
| Provider.FirstTrue | src/tidalfuncs.py:266-281 | the position of the first true verdict, the candidate a `for … break … else` loop stops at |
| Provider.RunCalls | src/tidalfuncs.py:255-281 | the calls of consecutive tracks of a transfer loop, one after another |
| Provider.RunRecorded | src/tidalfuncs.py:255-282 | what consecutive tracks appended to `not_found`, one after another |
| Provider.LoopEnds | src/tidalfuncs.py:254-287 | a transfer loop processes its tracks in order, each but the last finishing normally; a track that stops ends the loop with `Stopped` of what was collected, otherwise every track was processed and the list is returned |
| TidalApi.TidalSession.UserPlaylists | src/tidalfuncs.py:44 | `session.user.playlists()`: one logged call whose reply is any list or exception |
| TidalApi.TidalSession.Folders | src/tidalfuncs.py:58-68 | GET of the folders endpoint: one logged call whose reply is a non-200 status, the `items`, or an exception |
| TidalApi.TidalSession.OpenFolder | src/tidalfuncs.py:77 | `session.folder(folder_id)`: one logged call whose reply is any folder or exception |
| TidalApi.TidalSession.FolderMembers | src/tidalfuncs.py:85 | `folder.items()`: one logged call |
| TidalApi.TidalSession.UserFolders | src/tidalfuncs.py:99 | `session.user.folders()`: one logged call |
| TidalApi.TidalSession.CreatePlaylist | src/tidalfuncs.py:128 | `session.user.create_playlist(title, "")`: one logged call whose reply is the new id or an exception |
| TidalApi.TidalSession.CreateRootPlaylist | src/tidalfuncs.py:291-296 | `tidal_create_playlist`: one logged call creating a playlist at the root |
| TidalApi.TidalSession.CreateFolder | src/tidalfuncs.py:189 | `session.user.create_folder(title=…)`: one logged call |
| TidalApi.TidalSession.AddToFolder | src/tidalfuncs.py:131 | `folder_obj.add_items([playlist.id])`: one logged call |
| TidalApi.TidalSession.PlaylistTracks | src/tidalfuncs.py:235-236 | `session.playlist(id).tracks()`: one logged call |
| TidalApi.TidalSession.Search | src/tidalfuncs.py:298-302 | `tidal_search_playlist`: one logged call whose reply is any search answer or exception |
| TidalApi.TidalSession.Pause | src/tidalfuncs.py:277 | `sleep(0.5)`, logged |
| TidalApi.TidalSession.AddTrack | src/tidalfuncs.py:304-312 | `tidal_add_song_to_playlist`: one logged call |
| TidalFuncs.TidalEntryFields | src/tidalfuncs.py:234-247 | a Tidal track's description splits back into album, title and artists joined by spaces |
| TidalFuncs.TidalEntry | src/tidalfuncs.py:239-246 | a Tidal track's description: album, title and the artists joined by single spaces; `TidalEntryFields` states that it splits back into them |
| TidalFuncs.TidalEntries | src/tidalfuncs.py:237-247 | one description per track, in order |
| TidalFuncs.Describe | src/tidalfuncs.py:238-246 | one description per track, in order |
| TidalFuncs.GetPlaylistContent | src/tidalfuncs.py:234-247 | one fetch of the playlist; its tracks as descriptions, or the exception it raised |
| TidalFuncs.FirstAcceptedFinds | src/tidalfuncs.py:266-279 | the hit picked is accepted and all hits before it are rejected; none is picked exactly when all are rejected |
| TidalFuncs.HitText | src/tidalfuncs.py:267-274 | the text a search hit is compared with: album, title and artists separated by spaces |
| TidalFuncs.Verdicts | src/tidalfuncs.py:266-276 | `compare(found, op)` for each hit, in order |
| TidalFuncs.FirstAccepted | src/tidalfuncs.py:266-279 | the position of the first accepted hit; `FirstAcceptedFinds` states that it is the first and that none is picked iff all are rejected |
| TidalFuncs.TidalQueryDropsAlbum | src/tidalfuncs.py:257 | the search query of a description is `title artist`, without the album |
| TidalFuncs.TidalQuery | src/tidalfuncs.py:257 | the search query `" ".join(i.split("&@#72")[1:])`: every field but the album, joined by spaces |
| TidalFuncs.CandidateRun | src/tidalfuncs.py:266-281 | the candidate scan: the first hit accepted against `op` gets a pause and one add and the scan stops, ending as the add ends; with none accepted the current query is recorded; a missing `tracks.items` raises |
| TidalFuncs.RetryRun | src/tidalfuncs.py:259-265 | the retry: a search with the parenthesised spans removed; an answer with 408 top-level entries records the query from before the removal, a raised search stops, any other answer is scanned with the stripped query |
| TidalFuncs.AnswerRun | src/tidalfuncs.py:258-281 | after the first search: a raised search stops with nothing recorded, a printed length of 408 retries, anything else is scanned |
| TidalFuncs.TrackRun | src/tidalfuncs.py:258-281 | one track: a search for its query, then what `AnswerRun` states |
| TidalFuncs.TidalTrackRun | src/tidalfuncs.py:256-281 | one track for a description: the query is its title and artists, and candidates are compared with the description with its delimiters as spaces |
| TidalFuncs.Adds | src/tidalfuncs.py:278 | how many calls of a log add a track |
| TidalFuncs.TracksRun | src/tidalfuncs.py:255-281 | run k is the run of track k of the list |
| TidalFuncs.TidalTransferRun | src/tidalfuncs.py:249-287 | `move_to_tidal`: the destination read first, its exception escaping; then the tracks of `what_to_move(present, playlist_info)` moved in order as `LoopEnds` and `TracksRun` state |
| TidalFuncs.CandidateOnce | src/tidalfuncs.py:266-281 | the candidate scan adds at most one track or records its query, never both |
| TidalFuncs.RetryOnce | src/tidalfuncs.py:259-265 | the retry adds at most one track or records one query, never both |
| TidalFuncs.TrackOnce | src/tidalfuncs.py:256-281 | a track is added at most once or recorded at most once, never both, and what it records is its query with or without parenthesised spans |
| TidalFuncs.TracksRunAt | src/tidalfuncs.py:255-281 | the run at position k of the loop is the run of track k |
| TidalFuncs.TidalTransferBounds | src/tidalfuncs.py:249-287 | each track adds at most one track and records at most one entry; the report is no longer than the `what_to_move` delta, and each entry is a moved track's query with or without parenthesised spans |
| TidalFuncs.FindAccepted | src/tidalfuncs.py:266-279 | the loop over the hits returns the first accepted hit |
| TidalFuncs.ScanCandidates | src/tidalfuncs.py:266-281 | the scan's calls, record and ending are those of the candidate scan of the answer |
| TidalFuncs.Retry | src/tidalfuncs.py:259-281 | the retry's calls, record and ending satisfy `RetryRun`: search without parenthesised spans, record the earlier query on a second empty answer, otherwise scan |
| TidalFuncs.TransferTrack | src/tidalfuncs.py:258-281 | one track's calls, record and ending satisfy `TrackRun`: search, then retry or scan the candidates |
| TidalFuncs.Answered | src/tidalfuncs.py:259-281 | after the first search: stop on its exception, retry on printed length 408, otherwise scan |
| TidalFuncs.TransferEntry | src/tidalfuncs.py:256-281 | a description is transferred with its title-and-artists query and its spaced text as comparison |
| TidalFuncs.MoveNext | src/tidalfuncs.py:255-281 | one loop pass extends the log and the runs by the next track's run |
| TidalFuncs.MoveAll | src/tidalfuncs.py:254-287 | tracks are processed in order until one stops; an interrupt cancels, another exception aborts with what was collected |
| TidalFuncs.MoveToTidal | src/tidalfuncs.py:249-287 | the destination is read, the delta computed by `what_to_move`, and every track moved as specified |
| TidalFolders.FolderCache.Put | src/tidalfuncs.py:78 | the cache gains the folder under its name and is otherwise unchanged |
| TidalFolders.FolderCache.PutFolders | src/tidalfuncs.py:100-103 | the cache is updated with every folder under its name, later ones winning |
| TidalFolders.NamedPairs | src/tidalfuncs.py:46-47 | each playlist or folder as a `(name, id)` pair, in order |
| TidalFolders.Truthy | src/tidalfuncs.py:75 | the truth value of an optional name: present and not empty |
| TidalFolders.FolderLabel | src/tidalfuncs.py:88 | how a folder name prints inside the f-string: a missing name prints as `None` |
| TidalFolders.IsFolder | src/tidalfuncs.py:68 | an item whose `itemType` is `FOLDER` |
| TidalFolders.OnlyFolders | src/tidalfuncs.py:68 | exactly the `FOLDER` items are kept, in order |
| TidalFolders.StartsWith | src/tidalfuncs.py:88 | a key begins with a given prefix |
| TidalFolders.MemberPair | src/tidalfuncs.py:87-89 | the entry one folder member writes: `shown/name` to its id, none for a member without a name |
| TidalFolders.MemberPairs | src/tidalfuncs.py:86-89 | the entries of a folder's members, in order; `MemberPairsQualified` and `MemberPairsComplete` state exactly which |
| TidalFolders.MemberPairsQualified | src/tidalfuncs.py:86-89 | every index entry is keyed `folder/name` for a named member and holds its id |
| TidalFolders.MemberPairsComplete | src/tidalfuncs.py:86-89 | every named member of a folder gets an entry |
| TidalFolders.IndexMembers | src/tidalfuncs.py:86-89 | the member loop writes the index as the fold of the member entries |
| TidalFolders.ExceptPass | src/tidalfuncs.py:79-80 | `except Exception: pass` swallows an ordinary failure and lets an interrupt escape |
| TidalFolders.ReadFolderRun | src/tidalfuncs.py:83-91 | reading one folder: open it and list its items, indexing the named ones under `shown/name`; a raised open or listing writes nothing and ends as `ExceptPass` says |
| TidalFolders.FolderScanRun | src/tidalfuncs.py:70-91 | one `FOLDER` item: with a truthy name it is opened once to be cached under that name (an interrupt stops, another failure caches nothing), then read as `ReadFolderRun` states; otherwise only read |
| TidalFolders.FolderCalls | src/tidalfuncs.py:70-91 | the calls of consecutive folders, one after another |
| TidalFolders.FolderCached | src/tidalfuncs.py:74-80 | the cache writes of consecutive folders, in order |
| TidalFolders.FolderPairs | src/tidalfuncs.py:86-89 | the index writes of consecutive folders, in order |
| TidalFolders.FoldersRun | src/tidalfuncs.py:70-91 | run k is the run of folder k, and every run but the last ended normally |
| TidalFolders.FoldersRunAt | src/tidalfuncs.py:70-91 | the run at position k is folder k's, and it ended normally unless it is the last |
| TidalFolders.FolderStep | src/tidalfuncs.py:70-91 | one more folder grows the cache and the index by that folder's writes |
| TidalFolders.FolderPairsFrom | src/tidalfuncs.py:83-89 | every index write of the folder loop comes from one folder's run |
| TidalFolders.ReadFolder | src/tidalfuncs.py:83-91 | opening a folder and indexing its members; an exception skips the folder |
| TidalFolders.ScanFolder | src/tidalfuncs.py:70-91 | one folder is cached when it has a name, then its playlists are indexed |
| TidalFolders.ScanNext | src/tidalfuncs.py:70-91 | one loop pass grows the log, cache and index by the next folder's run |
| TidalFolders.ScanFolders | src/tidalfuncs.py:68-91 | every `FOLDER` item is scanned in order until an interrupt |
| TidalFolders.CacheUserFolders | src/tidalfuncs.py:97-107 | the fallback caches every user folder; an ordinary exception is ignored |
| TidalFolders.FallbackRun | src/tidalfuncs.py:97-107 | the fallback: one `user.folders()` call; each folder cached under its name, a raised call caching nothing; an interrupt escapes, any other exception leaves the index as the result |
| TidalFolders.LoadFolders | src/tidalfuncs.py:64-107 | after a successful listing the folders are scanned, then the fallback runs unless an interrupt stopped the loop |
| TidalFolders.FolderPhaseRun | src/tidalfuncs.py:68-107 | after a 200 listing: one run per `FOLDER` item, every one but the last ending normally; an interrupt stops there with the cache written so far, otherwise the fallback follows on the grown cache and index |
| TidalFolders.LoadPlaylists | src/tidalfuncs.py:42-109 | the calls, cache update and returned index satisfy `LoadRun`, the log predicate of `get_tidal_playlists` |
| TidalFolders.LoadRun | src/tidalfuncs.py:42-109 | `get_tidal_playlists`: the user's playlists indexed by name (an exception there escapes); then the folder listing, whose failure or non-200 status goes straight to the fallback, an interrupt escaping; then the folder phase as `FolderPhaseRun` states |
| TidalFolderFacts.UserIndexKeys | src/tidalfuncs.py:44-47 | every user playlist's name is a key of the index, holding that playlist's id unless a later playlist has the same name |
| TidalFolderFacts.UserIndex | src/tidalfuncs.py:44-47 | the index of the user's own playlists, later names winning, before any folder is read |
| TidalFolderFacts.LoadResult | src/tidalfuncs.py:42-109 | the index returned is the user index written over by the folder entries |
| TidalFolderFacts.LoadKeepsUserPlaylists | src/tidalfuncs.py:42-109 | every user playlist is in the returned index, whatever the folder endpoints do, and keeps its own id when no later playlist and no folder entry takes its name |
| TidalFolderFacts.LoadWithoutListing | src/tidalfuncs.py:58-95 | when the listing raises or does not answer 200, the index is the user index or the call is interrupted |
| TidalFolderFacts.ScanRunPairs | src/tidalfuncs.py:86-89 | an entry a folder's run wrote is keyed with that folder's label |
| TidalFolderFacts.LoadIndexKeys | src/tidalfuncs.py:42-109 | every key is a user playlist's name or is qualified by the label of a `FOLDER` item |
| TidalFolderFacts.LoadCacheGrows | src/tidalfuncs.py:42-109 | reading the playlists only adds folders to the cache |
| TidalDest.PlaylistIndex.Put | src/tidalfuncs.py:196 | the index gains the name with the id and is otherwise unchanged |
| TidalDest.FirstNamedIdFound | src/tidalfuncs.py:155-165 | the folder id found is that of the first `FOLDER` item with the name; none when there is no such item |
| TidalDest.FirstNamedId | src/tidalfuncs.py:161-165 | `data.id` of the first folder with the name, `None` when there is none; `FirstNamedIdFound` states both directions |
| TidalDest.FolderIdNamed | src/tidalfuncs.py:155-165 | the `folder_id` the listing settles on: `None` for a non-200 status, otherwise that of the first `FOLDER` item with the name |
| TidalDest.FindFolderId | src/tidalfuncs.py:155-165 | the search loop with its `break` finds the first folder with the name |
| TidalDest.CreateRoot | src/tidalfuncs.py:202 | creating a root playlist makes one unguarded call whose failure propagates |
| TidalDest.RootRun | src/tidalfuncs.py:202 | one root-playlist create, with no handler around it: its reply is the result |
| TidalDest.Rescued | src/tidalfuncs.py:199-205 | the folder handler for a failure: an interrupt escapes with no call, anything else creates a root playlist under the leaf name |
| TidalDest.Rescue | src/tidalfuncs.py:199-205 | the handler lets an interrupt escape and otherwise creates the playlist in the root |
| TidalDest.NewFolder | src/tidalfuncs.py:187-197 | a folder is created, cached and given the playlist |
| TidalDest.NewFolderRun | src/tidalfuncs.py:187-197 | a folder created under the folder name and cached before the playlist is attached to it; a failure of either is rescued as `Rescued` states |
| TidalDest.ExistingFolder | src/tidalfuncs.py:171-185 | the listed folder is opened, cached and given the playlist; an ordinary failure goes on to a new folder |
| TidalDest.ExistingFolderRun | src/tidalfuncs.py:171-185 | the listed folder opened, cached and given the playlist; an interrupt escapes, another failure of the open or attach goes on as `NewFolderRun` |
| TidalDest.ApiFolder | src/tidalfuncs.py:141-205 | list the folders, then the listed-folder path with the folder id found |
| TidalDest.ApiFolderRun | src/tidalfuncs.py:141-205 | the folders listed, a raised listing rescued, then `ListedRun` with the id the listing gives the folder |
| TidalDest.CreateListed | src/tidalfuncs.py:167-205 | the playlist is created, then attached to the listed folder or to a new one |
| TidalDest.ListedRun | src/tidalfuncs.py:167-205 | the leaf playlist created first (a failure rescued), then put into the listed folder when the id is truthy, or into a new folder |
| TidalDest.CachedAttach | src/tidalfuncs.py:125-138 | the playlist is created unguarded and attached to the cached folder; only an ordinary failure of the attach goes on |
| TidalDest.CachedAttachRun | src/tidalfuncs.py:125-138 | an unguarded create of the leaf playlist and an attach to the cached folder: success returns the playlist, an interrupt escapes, and only an ordinary attach failure lets the resolver go on |
| TidalDest.AttachFellThrough | src/tidalfuncs.py:136-138 | the create succeeded and the attach raised an ordinary exception |
| TidalDest.AppleFolder | src/tidalfuncs.py:124-205 | the Apple-folder branch: the cached folder first, then the folders endpoint |
| TidalDest.AppleFolderRun | src/tidalfuncs.py:124-205 | a cached folder is tried first, and the folders endpoint after a failed attach; an uncached folder goes straight to the endpoint |
| TidalDest.Literal | src/tidalfuncs.py:207-232 | a name with a cached first segment goes into that folder; otherwise a root playlist gets the full name |
| TidalDest.SlashSplit | src/tidalfuncs.py:120 | `name.split("/", 1)` when the name holds a `/`, otherwise nothing |
| TidalDest.LiteralRun | src/tidalfuncs.py:207-232 | a name with a `/` whose folder is cached goes into that folder; otherwise, or after a failed attach, a root playlist gets the full name, slashes included |
| TidalDest.AppleBranch | src/tidalfuncs.py:119-123 | `apple_folders` is non-empty, the name holds a `/`, and its first segment is one of `apple_folders`' values |
| TidalDest.DestCheck | src/tidalfuncs.py:111-232 | the calls, cache, index and result satisfy `DestRun`, the log predicate of `tidal_dest_check` |
| TidalDest.DestRun | src/tidalfuncs.py:111-232 | `tidal_dest_check`: a known name returns its id with no call; the Apple branch goes as `AppleFolderRun`, any other name as `LiteralRun`, the cache unchanged there; the index gains the name with the id returned, and is unchanged when an exception escapes |
| TidalDestFacts.RescuedFacts | src/tidalfuncs.py:199-205 | the root fallback creates at most the one playlist, and it is the result |
| TidalDestFacts.AttachThenRescue | src/tidalfuncs.py:171-205 | an attach and then, on failure, the root fallback: at most the attach, or the root playlist as result |
| TidalDestFacts.NewFolderFacts | src/tidalfuncs.py:187-205 | exactly one folder, named after the folder; at most one root playlist; at most one attach, into the folder cached |
| TidalDestFacts.ExistingFolderFacts | src/tidalfuncs.py:171-205 | the same guarantees as a new folder, but perhaps no folder at all |
| TidalDestFacts.ApiFolderFacts | src/tidalfuncs.py:141-205 | the folders-endpoint path creates at most one folder and one root playlist and returns the last playlist created |
| TidalDestFacts.ListedFacts | src/tidalfuncs.py:167-205 | the listed-folder path has the guarantees of the folders-endpoint path |
| TidalDestFacts.CachedAttachFacts | src/tidalfuncs.py:125-138 | stopping at a cached folder returns the created playlist exactly when it was attached to that folder; going on leaves it behind |
| TidalDestFacts.AfterFellThrough | src/tidalfuncs.py:136-138 | a failed cached attach leaves its playlist, then whatever follows |
| TidalDestFacts.AppleFolderFacts | src/tidalfuncs.py:124-205 | the Apple-folder branch changes the cache under the folder name only and creates at most one folder and one root playlist |
| TidalDestFacts.LiteralFacts | src/tidalfuncs.py:207-232 | the literal branch never creates a folder and creates at most one root playlist, under the full name |
| TidalDestFacts.DestIndexUpdate | src/tidalfuncs.py:111-232 | an existing name is returned with no call; a created playlist is entered under the name; an escaping exception changes nothing |
| TidalDestFacts.DestFacts | src/tidalfuncs.py:111-232 | for a new name: the cache changes only in the Apple branch; at most one folder, only there; at most one root playlist; the result is the last playlist created |
| TidalDestFacts.DestReusesCachedFolder | src/tidalfuncs.py:125-135 | a cached folder that takes the playlist is reused: no folder is created and the cache is unchanged |
| TidalDestFacts.LaterCallUsesSameFolder | src/tidalfuncs.py:124-135 | after a playlist was filed into an Apple folder, a later playlist for that folder is attached to the same folder first |
| AppleApi.AppleSession.Library | src/applefuncs.py:49-54 | `appleapi_user_playlists`: one logged call whose reply is the listing, `{}` as no data, or an exception |
| AppleApi.AppleSession.FolderInfo | src/applefuncs.py:33-47 | `appleapi_get_folder_info`: one logged call whose reply is a name, `None`, or an exception |
| AppleApi.AppleSession.CreatePlaylist | src/applefuncs.py:111-118 | `appleapi_create_playlist`: one logged call whose reply is the new id or an exception |
| AppleApi.AppleSession.TracksPage | src/applefuncs.py:136-148 | one GET of a playlist's tracks, with `&offset=` for the later pages: one logged call |
| AppleApi.AppleSession.Search | src/applefuncs.py:190-193 | `appleapi_music_search`: one logged call |
| AppleApi.AppleSession.Pause | src/applefuncs.py:178 | `sleep(0.5)`, logged |
| AppleApi.AppleSession.AddTrack | src/applefuncs.py:195-198 | `appleapi_add_playlist_item`: one logged call |
| AppleFuncs.FeatArtist | src/applefuncs.py:127-129 | the featured artist holds no `)` |
| AppleFuncs.AppleArtist | src/applefuncs.py:124-131 | the artist segment: `artistName`, then the featured artist when the title holds `(feat. `, joined by a space |
| AppleFuncs.AppleEntry | src/applefuncs.py:124-132 | an Apple song's description: album, title and the artist segment; `AppleEntryFields` states that it splits back into them |
| AppleFuncs.FeatRoundTrip | src/applefuncs.py:127-129 | a title `t(feat. x)u` yields `x` as its featured artist when `t` holds no marker and `x` holds neither `)` nor a marker; `u` may hold further markers |
| AppleFuncs.FeatLaterMarker | src/applefuncs.py:127-129 | `Hi (feat. K) (feat. L)` names `K`: a later marker does not change the featured artist |
| AppleFuncs.AppleEntryFields | src/applefuncs.py:120-133 | a song's description splits back into album, title, and artist with any featured artist |
| AppleFuncs.FeatEnrichesArtist | src/applefuncs.py:127-131 | the featured artist `x` of a title `t(feat. x)u` is appended to the artist segment, under the conditions of `FeatRoundTrip` |
| AppleFuncs.AppleEntries | src/applefuncs.py:123-133 | one description per song, in order |
| AppleFuncs.Describe | src/applefuncs.py:123-133 | the loop yields one description per song, in order |
| AppleFuncs.PageCount | src/applefuncs.py:144 | `ceil(total / 100)`: the fewest pages of 100 that hold the total |
| AppleFuncs.PagesFetchedAt | src/applefuncs.py:145-147 | later request j fetches page j + 1 at offset `100 * (j + 1)` |
| AppleFuncs.PageAt | src/applefuncs.py:145-148 | a call fetched page i of the playlist at offset `100 * i` and got a page back |
| AppleFuncs.PagesFetched | src/applefuncs.py:145-148 | calls fetched pages 1, 2, … in order, each answered with a page |
| AppleFuncs.PagesData | src/applefuncs.py:148 | the `data` of the fetched pages, one after another |
| AppleFuncs.LaterPagesRun | src/applefuncs.py:144-149 | after the first page of an n-page playlist: pages 1 to n-1 in order, their `data` appended; a raising page, or one without `data`, raises |
| AppleFuncs.PagingRun | src/applefuncs.py:135-149 | `appleapi_get_playlist_content`: a first page with `errors` gives no songs, a total of at most 100 gives the first page, otherwise the later pages follow; a raised first page escapes |
| AppleFuncs.PagesCoverTotal | src/applefuncs.py:135-149 | a read makes exactly `ceil(total / 100)` requests, each offset below the total, and returns the pages' songs in order |
| AppleFuncs.FetchLater | src/applefuncs.py:144-148 | the paging loop fetches the later pages in order and appends their data |
| AppleFuncs.FetchSongs | src/applefuncs.py:135-149 | the calls and result satisfy `PagingRun`: no songs on `errors`, the first page for a total up to 100, otherwise the later pages in order |
| AppleFuncs.GetPlaylistContent | src/applefuncs.py:120-133 | the playlist's songs as descriptions, or the exception raised |
| AppleFuncs.DestCheck | src/applefuncs.py:94-102 | a listed name gives its id with no call; any other name is created as it is |
| AppleFuncs.FirstMatchingFinds | src/applefuncs.py:166-179 | the song picked is accepted and all before it rejected; none exactly when all are rejected |
| AppleFuncs.SongText | src/applefuncs.py:167-176 | the text a catalogue song is compared with: album, title and artist segment separated by spaces |
| AppleFuncs.FirstMatching | src/applefuncs.py:166-179 | the position of the first song accepted against the query; `FirstMatchingFinds` states that it is the first and that none is picked iff all are rejected |
| AppleFuncs.ScanRun | src/applefuncs.py:166-182 | the candidate scan: the first accepted song gets a pause and one add and the scan stops, ending as the add ends; with none accepted the query is recorded; a missing `song.data` raises |
| AppleFuncs.RetryRun | src/applefuncs.py:159-165 | the retry: a search with the parenthesised spans removed; zero result keys records the text from before the removal, a missing `results` or a raised search stops, any other answer is scanned with the stripped text |
| AppleFuncs.AnswerRun | src/applefuncs.py:158-182 | after the first search: a raised search or a missing `results` stops, zero result keys retries, anything else is scanned |
| AppleFuncs.TrackRun | src/applefuncs.py:157-182 | one track: a search for its text, then what `AnswerRun` states |
| AppleFuncs.AppleTrackRun | src/applefuncs.py:157-182 | one track for a description: the search text is the description with its delimiters as spaces, the album included |
| AppleFuncs.Adds | src/applefuncs.py:179 | how many calls of a log add a song |
| AppleFuncs.TracksRun | src/applefuncs.py:156-182 | run k is the run of track k of the list |
| AppleFuncs.AppleTransferRun | src/applefuncs.py:151-188 | `move_to_apple`: the destination read as `PagingRun` states, its exception escaping; then the tracks of `what_to_move(present, playlist_info)` moved in order as `LoopEnds` and `TracksRun` state |
| AppleFuncs.SongMatchesItsEntry | src/applefuncs.py:157-178 | a song searched for by its own spaced description is accepted |
| AppleFuncs.ScanOnce | src/applefuncs.py:166-182 | the scan adds at most one song or records its query, never both |
| AppleFuncs.RetryOnce | src/applefuncs.py:159-165 | the retry adds at most one song or records one text, never both |
| AppleFuncs.TrackOnce | src/applefuncs.py:157-182 | a track is added at most once or recorded at most once, never both; it records its search text with or without parenthesised spans |
| AppleFuncs.TracksRunAt | src/applefuncs.py:156-182 | the run at position k of the loop is the run of track k |
| AppleFuncs.TracksRunSnoc | src/applefuncs.py:156-182 | the next track's run extends the runs before it |
| AppleFuncs.AppleTransferBounds | src/applefuncs.py:151-188 | each track adds at most one song and records at most one entry; the report is no longer than the `what_to_move` delta, and each entry is a moved track's search text with or without parenthesised spans |
| AppleFuncs.TransferTrack | src/applefuncs.py:157-182 | one track's calls, record and ending satisfy `TrackRun`: search, then retry or scan the candidates |
| AppleFuncs.Answered | src/applefuncs.py:158-182 | after the first search: stop on its exception, retry when there are no result keys, otherwise scan |
| AppleFuncs.Retry | src/applefuncs.py:159-182 | the retry's calls, record and ending satisfy `RetryRun`: search without parenthesised spans, record the earlier text on a second answer without result keys, otherwise scan |
| AppleFuncs.FindMatching | src/applefuncs.py:166-179 | the loop over the candidates returns the first accepted song |
| AppleFuncs.Scan | src/applefuncs.py:166-182 | the scan's calls, record and ending satisfy `ScanRun`: the first accepted song gets a pause and one add, otherwise the query is recorded |
| AppleFuncs.MoveNext | src/applefuncs.py:156-182 | one loop pass extends the log and the runs by the next track's run |
| AppleFuncs.MoveAll | src/applefuncs.py:155-188 | tracks are processed in order until one stops; an interrupt cancels, another exception aborts with what was collected |
| AppleFuncs.MoveToApple | src/applefuncs.py:151-188 | the destination is read, the delta computed by `what_to_move`, and every track moved as specified |
| AppleLibrary.CollectParents | src/applefuncs.py:63-70 | the first loop collects exactly the parent ids |
| AppleLibrary.HasFolderParent | src/applefuncs.py:65-69 | an item that is not a folder and has a parent other than `p.playlistsroot` |
| AppleLibrary.ParentIds | src/applefuncs.py:63-70 | `parent_ids` after the first loop; `ParentIdsFrom` states exactly which ids it holds |
| AppleLibrary.LookUpNext | src/applefuncs.py:73-76 | one remaining parent id is looked up, and its name kept when truthy |
| AppleLibrary.LookUpFolders | src/applefuncs.py:72-76 | every parent id is looked up once until one raises; the folder table is the truthy names, or the exception escapes |
| AppleLibrary.Resolves | src/applefuncs.py:75 | a lookup gave a truthy folder name |
| AppleLibrary.LookedUp | src/applefuncs.py:73-74 | the ids a log of lookups looked up |
| AppleLibrary.Lookups | src/applefuncs.py:73-76 | distinct ids looked up one after another, each answered |
| AppleLibrary.Resolved | src/applefuncs.py:73-76 | `folders` after the lookups: each id whose lookup resolved, with its name |
| AppleLibrary.LookupsStopped | src/applefuncs.py:74 | the last lookup raised, and its exception leaves `get_apple_playlists` |
| AppleLibrary.LookupsRun | src/applefuncs.py:73-76 | the second loop, in whatever order the set is iterated: each id looked up once, until every id was or one lookup raised |
| AppleLibrary.ListPlaylists | src/applefuncs.py:79-90 | the third loop writes each playlist that is not a folder under its listed name |
| AppleLibrary.ListedName | src/applefuncs.py:81-88 | the name an item is listed under: `folder/name` when its parent was resolved, otherwise its own name |
| AppleLibrary.ListPairs | src/applefuncs.py:79-90 | the `(name, id)` writes of the third loop: one per item that is not a folder, in order |
| AppleLibrary.GetPlaylists | src/applefuncs.py:56-92 | the calls and result satisfy `LibraryRun`, the log predicate of `get_apple_playlists` |
| AppleLibrary.LibraryRun | src/applefuncs.py:56-92 | `get_apple_playlists`: a raised listing escapes; no `data` gives two empty maps; otherwise the parents are looked up as `LookupsRun` states, a raised lookup escaping, and the index is the writes of `ListPairs` with the table `Resolved` |
| AppleLibraryFacts.ParentIdsFrom | src/applefuncs.py:63-70 | an id is collected exactly when a non-folder item names it as a parent other than the root |
| AppleLibraryFacts.ResolvedFromLookups | src/applefuncs.py:73-76 | a looked-up id is in the folder table exactly when its lookup gave a truthy name, and with that name |
| AppleLibraryFacts.ListPairsFrom | src/applefuncs.py:79-90 | every write is the listed name and id of a non-folder item |
| AppleLibraryFacts.ListedLastWins | src/applefuncs.py:79-90 | a playlist is listed under its name with its id unless a later one takes the same name |
| AppleLibraryFacts.LibraryResult | src/applefuncs.py:56-92 | without `data` both tables are empty; otherwise the folder table holds only collected parent ids, never the root, and the index is keyed exactly by the listed names |
| AppleLibraryFacts.ResolvedValues | src/applefuncs.py:75-76 | every folder name in the table is non-empty |
| AppleLibraryFacts.ListPairsCover | src/applefuncs.py:79-90 | every non-folder item writes a pair under its listed name |

## Left out

- Authentication (`tidal_auth`, `apple_auth`, `apple_is_logged_in`): credential files and login flows are I/O.
- `main.py`, `display_playlists` and `report_sync_summary`: interactive driver and console output.
- Console output in general (`print`, `message` calls inside operations, `tqdm` progress bars).
  `message` is modelled only as the line it would print.
- `sleep(0.5)` before each add: a `Pause` call in the log, with no duration.
- `write_to_file`: the append to `notfound.txt` is I/O. Only the key it writes under is modelled.
- Raw HTTP and the `tidalapi` library: requests, headers, JSON bodies and status codes are replies
  chosen freely by the session classes. Only the fields the code reads are kept.
- Exceptions raised by the code itself on a missing JSON field, such as a `KeyError`, are modelled only where the
  code reaches them by a modelled reply. Examples: a search answer without `tracks.items` or
  `song.data`, and a later page without `data`. Elsewhere the replies are well formed.
- `appleapi_create_playlist_folder` and the `parent_folder_id` argument of
  `appleapi_create_playlist`: no code path of the core uses them.
- Folder objects are represented by their ids. `add_items` on a folder object is an attach call
  taking that id.
- `MainFuncs.WhatToMove`: Python returns the delta in set order, which is unspecified. The
  model keeps first occurrences in the order of the incoming list. The contract states the
  delta's contents and size, not its order.
- `AppleLibrary.LookUpFolders`: set iteration order is unspecified. The model looks the ids
  up in an arbitrary order.
- `MainFuncs.Compare`: the ratio is a float compared with 0.45. The model uses the exact
  integer form `40 * M > 9 * (|first| + |second|)`. difflib's autojunk heuristic, which only
  applies to texts of 200 characters or more, is not modelled.
- `SequenceMatcher` models only what `ratio()` depends on. difflib itself is not part of this
  model.
- `KeyboardInterrupt` handling ends the program with `sys.exit(0)`. The model ends the
  transfer with a `Cancelled` outcome instead of terminating.
- Interrupts are modelled only as replies of platform calls, not as arriving between two
  statements.
- The Spotify and YouTube back ends (`ytfuncs`, `spfyfuncs`) are not part of this model.
- When the Apple library listing has no `data`, `get_apple_playlists` returns empty maps. That
  is what the code returns, and an empty folder table is falsy wherever the code checks
  `apple_folders`.
