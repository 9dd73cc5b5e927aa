/**
 * The Apple Music back end: reading a library playlist page by page as canonical
 * descriptions, resolving or creating the destination playlist and moving tracks into it
 * by search and similarity. Each operation is specified by a predicate over the calls it
 * leaves in the session's log.
 */
module AppleFuncs {
  import opened Text
  import opened Provider
  import opened AppleApi
  import opened Track
  import MainFuncs

  // ---------------------------------------------------------------------------------
  // get_apple_playlist_content

  /** What a title names a featured artist with. */
  const FeatMarker: string := "(feat. "

  /** The marker cannot overlap itself: only its first character is `(`. */
  lemma {:induction false} FeatMarkerBorderless()
    ensures Borderless(FeatMarker)
  {
    forall m | 0 < m < |FeatMarker| ensures FeatMarker[m..] != FeatMarker[..|FeatMarker| - m] {
      assert FeatMarker[m..][0] == FeatMarker[m] != '(';
      assert FeatMarker[..|FeatMarker| - m][0] == '(';
    }
  }

  /** The first piece of `s.split(sep)` holds no `sep`. */
  lemma {:induction false} FirstPieceFree(s: string, sep: string)
    requires sep != ""
    ensures !Contains(Split(s, sep)[0], sep)
  {
    match IndexOf(s, sep)
    case None =>
    case Some(k) =>
      NoneBeforeFirst(s, sep, k);
  }

  /**
   * `song_name.split("(feat. ")[1].split(')')[0]`: what follows the first marker, up to the
   * next `)` (or the next marker). It holds no `)`.
   */
  function FeatArtist(name: string): (r: string)
    requires Contains(name, FeatMarker)
    ensures !Contains(r, ")")
  {
    var pieces := Split(name, FeatMarker);
    assert |pieces| >= 2;
    FirstPieceFree(pieces[1], ")");
    Split(pieces[1], ")")[0]
  }

  /** An occurrence of `sub` that lies inside the front `x` of `x + y` is an occurrence in `x`. */
  lemma {:induction false} OccursInFront(x: string, y: string, sub: string, k: nat)
    ensures k + |sub| <= |x| && OccursAt(x + y, sub, k) ==> OccursAt(x, sub, k)
  {
    if k + |sub| <= |x| {
      assert (x + y)[k..k + |sub|] == x[k..k + |sub|];
    }
  }

  /** No character an occurrence of the marker covers is a `)`. */
  lemma {:induction false} MarkerHoldsNoClose(s: string, k: nat, p: nat)
    ensures OccursAt(s, FeatMarker, k) && k <= p < k + |FeatMarker| ==> s[p] != ')'
  {
    if OccursAt(s, FeatMarker, k) && k <= p < k + |FeatMarker| {
      assert s[p] == s[k..k + |FeatMarker|][p - k] == FeatMarker[p - k];
    }
  }

  /**
   * The first marker in `x)u` comes after the `)`, when `x` holds no marker: the marker
   * holds no `)`, so no occurrence can start inside `x` and cover that `)`.
   */
  lemma {:induction false} FirstMarkerAfterClose(x: string, u: string)
    requires !Contains(x, FeatMarker)
    ensures var rest := x + ")" + u;
      exists tail :: Split(rest, FeatMarker)[0] == x + ")" + tail
  {
    var rest := x + ")" + u;
    match IndexOf(rest, FeatMarker)
    case None =>
      assert Split(rest, FeatMarker)[0] == x + ")" + u;
    case Some(k) =>
      OccursInFront(x, ")" + u, FeatMarker, k);
      assert x + ")" + u == x + (")" + u);
      MarkerHoldsNoClose(rest, k, |x|);
      ContainsMeansOccurs(x, FeatMarker);
      assert rest[|x|] == ')';
      assert k > |x|;
      assert Split(rest, FeatMarker)[0] == rest[..k];
      assert rest[..k] == x + ")" + rest[|x| + 1..k];
  }

  /**
   * A title `t(feat. x)u` whose prefix `t` holds no marker names `x` as its featured
   * artist, provided `x` holds neither `)` nor a marker; `u` may hold further markers.
   */
  lemma {:induction false} FeatRoundTrip(t: string, x: string, u: string)
    requires !Contains(t, FeatMarker) && !Contains(x, ")") && !Contains(x, FeatMarker)
    ensures Contains(t + FeatMarker + x + ")" + u, FeatMarker)
    ensures FeatArtist(t + FeatMarker + x + ")" + u) == x
  {
    var rest := x + ")" + u;
    var name := t + FeatMarker + rest;
    assert t + FeatMarker + x + ")" + u == name;
    FeatMarkerBorderless();
    FirstAfterPrefix(t, FeatMarker, rest);
    assert name[|t| + |FeatMarker|..] == rest;
    assert Split(name, FeatMarker)[1] == Split(rest, FeatMarker)[0];
    FirstMarkerAfterClose(x, u);
    var tail :| Split(rest, FeatMarker)[0] == x + ")" + tail;
    FirstAfterPrefix(x, ")", tail);
    assert (x + ")" + tail)[..|x|] == x;
  }

  /** A later marker does not change the featured artist: `Hi (feat. K) (feat. L)` names `K`. */
  lemma {:induction false} FeatLaterMarker()
    ensures Contains("Hi (feat. K) (feat. L)", FeatMarker) && FeatArtist("Hi (feat. K) (feat. L)") == "K"
  {
    var t, x, u := "Hi ", "K", " (feat. L)";
    assert !Contains(t, FeatMarker) by { ContainsMeansOccurs(t, FeatMarker); }
    assert !Contains(x, FeatMarker) by { ContainsMeansOccurs(x, FeatMarker); }
    assert !Contains(x, ")") by {
      ContainsMeansOccurs(x, ")");
      assert !OccursAt(x, ")", 0) by { assert x[0..1][0] == 'K'; }
    }
    FeatRoundTrip(t, x, u);
    assert t + FeatMarker + x + ")" + u == "Hi (feat. K) (feat. L)";
  }

  /** The artist segment: `artistName`, then the featured artist when the title names one. */
  function AppleArtist(s: Song): string {
    if Contains(s.name, FeatMarker) then s.artistName + " " + FeatArtist(s.name) else s.artistName
  }

  /** The canonical description of an Apple Music song. */
  function AppleEntry(s: Song): string {
    Entry(s.albumName, s.name, AppleArtist(s))
  }

  /**
   * The description of a song splits back into its album, its title, unchanged, and its
   * artist segment; that segment is the artist alone for a title without marker, and the
   * artist and the featured one for a title `t(feat. x)u` as in `FeatRoundTrip`.
   */
  lemma {:induction false} AppleEntryFields(s: Song)
    requires !Contains(s.albumName, Delimiter) && !Contains(s.name, Delimiter) && !Contains(AppleArtist(s), Delimiter)
    ensures Split(AppleEntry(s), Delimiter) == [s.albumName, s.name, AppleArtist(s)]
    ensures !Contains(s.name, FeatMarker) ==> Split(AppleEntry(s), Delimiter)[2] == s.artistName
  {
    EntryFields(s.albumName, s.name, AppleArtist(s));
  }

  /** A featured artist enriches the artist segment. */
  lemma {:induction false} FeatEnrichesArtist(s: Song, t: string, x: string, u: string)
    requires s.name == t + FeatMarker + x + ")" + u
    requires !Contains(t, FeatMarker) && !Contains(x, ")") && !Contains(x, FeatMarker)
    ensures AppleArtist(s) == s.artistName + " " + x
  {
    FeatRoundTrip(t, x, u);
  }

  /** The descriptions of `songs`, in order. */
  function AppleEntries(songs: seq<Song>): (r: seq<string>)
    ensures |r| == |songs|
    ensures forall k :: 0 <= k < |songs| ==> r[k] == AppleEntry(songs[k])
  {
    if songs == [] then [] else AppleEntries(songs[..|songs| - 1]) + [AppleEntry(songs[|songs| - 1])]
  }

  /** The loop of `get_apple_playlist_content`: one description per song, in order. */
  method Describe(songs: seq<Song>) returns (result: seq<string>)
    ensures |result| == |songs|
    ensures forall k :: 0 <= k < |songs| ==> result[k] == AppleEntry(songs[k])
  {
    result := [];
    for k := 0 to |songs|
      invariant |result| == k
      invariant forall j :: 0 <= j < k ==> result[j] == AppleEntry(songs[j])
    {
      result := result + [AppleEntry(songs[k])];
    }
  }

  // ---------------------------------------------------------------------------------
  // appleapi_get_playlist_content

  /** `ceil(total / 100)` for a total above one page: the fewest pages of 100 that hold it. */
  function PageCount(total: int): (n: nat)
    requires total > 100
    ensures n >= 2 && 100 * (n - 1) < total <= 100 * n
  {
    (total + 99) / 100
  }

  /** `c` fetched page `i` of `sourceId`, at offset `100 * i`, and got a page back. */
  predicate PageAt(sourceId: string, i: nat, c: AppleCall) {
    c.FetchedPage? && c.sourceId == sourceId && c.offset == Some(100 * i) && c.page.Ok? && c.page.value.Page?
  }

  /** `calls` fetched pages 1, 2, … of `sourceId` in order, each answered with a page. */
  predicate PagesFetched(sourceId: string, calls: seq<AppleCall>)
    decreases |calls|
  {
    calls != [] ==> PagesFetched(sourceId, calls[..|calls| - 1]) && PageAt(sourceId, |calls|, calls[|calls| - 1])
  }

  /** The `data` of the pages `calls` fetched, one after another. */
  function PagesData(calls: seq<AppleCall>): seq<Song>
    decreases |calls|
  {
    if calls == [] then []
    else
      var c := calls[|calls| - 1];
      PagesData(calls[..|calls| - 1]) + (if c.FetchedPage? && c.page.Ok? && c.page.value.Page? then c.page.value.data else [])
  }

  /** Call `j` of a run of fetched pages fetched page `j + 1`. */
  lemma {:induction false} PagesFetchedAt(sourceId: string, calls: seq<AppleCall>, j: nat)
    requires PagesFetched(sourceId, calls) && j < |calls|
    ensures PageAt(sourceId, j + 1, calls[j])
    decreases |calls|
  {
    if j < |calls| - 1 {
      PagesFetchedAt(sourceId, calls[..|calls| - 1], j);
    }
  }

  /**
   * The loop of `appleapi_get_playlist_content` (lines 144-148) after a first page `first`
   * of a playlist of `n` pages: pages 1 to `n - 1`, in order, their `data` appended; a reply
   * that raises, or whose body has no `data`, raises.
   */
  predicate LaterPagesRun(sourceId: string, n: nat, first: seq<Song>, calls: seq<AppleCall>, r: Reply<seq<Song>>) {
    var m := |calls|;
    && m <= n - 1
    && if m > 0 && !PageAt(sourceId, m, calls[m - 1]) then
         && PagesFetched(sourceId, calls[..m - 1])
         && calls[m - 1].FetchedPage? && calls[m - 1].sourceId == sourceId && calls[m - 1].offset == Some(100 * m)
         && r == Raised(if calls[m - 1].page.Raised? then calls[m - 1].page.failure else Error)
       else
         m == n - 1 && PagesFetched(sourceId, calls) && r == Ok(first + PagesData(calls))
  }

  /**
   * `appleapi_get_playlist_content(source_id, headers)` (lines 135-149): a first page with
   * `errors` gives no songs; a total of at most 100 gives the first page; otherwise the
   * later pages follow.
   */
  predicate PagingRun(sourceId: string, calls: seq<AppleCall>, r: Reply<seq<Song>>) {
    && |calls| >= 1 && calls[0].FetchedPage? && calls[0].sourceId == sourceId && calls[0].offset == None
    && match calls[0].page
       case Raised(f) => |calls| == 1 && r == Raised(f)
       case Ok(Errors) => |calls| == 1 && r == Ok([])
       case Ok(Page(total, data)) =>
         if total <= 100 then |calls| == 1 && r == Ok(data)
         else LaterPagesRun(sourceId, PageCount(total), data, calls[1..], r)
  }

  /**
   * A read that succeeds after a first page of `total` songs made exactly `ceil(total/100)`
   * requests (one when `total` is at most 100): request `j` at offset `100 * j`, every
   * offset below `total`, and together they reach `total`. The songs are the first page's,
   * then each later page's, in order.
   */
  lemma {:induction false} PagesCoverTotal(sourceId: string, calls: seq<AppleCall>, r: Reply<seq<Song>>)
    requires PagingRun(sourceId, calls, r) && r.Ok? && calls[0].page.Ok? && calls[0].page.value.Page?
    ensures var total := calls[0].page.value.total;
      && |calls| == (if total <= 100 then 1 else PageCount(total))
      && total <= 100 * |calls|
      && r.value == calls[0].page.value.data + PagesData(calls[1..])
    ensures forall j :: 1 <= j < |calls| ==>
      calls[j].FetchedPage? && calls[j].offset == Some(100 * j) && 100 * j < calls[0].page.value.total && calls[j].page.Ok?
  {
    var later := calls[1..];
    forall j | 1 <= j < |calls|
      ensures calls[j].FetchedPage? && calls[j].offset == Some(100 * j) && 100 * j < calls[0].page.value.total && calls[j].page.Ok?
    {
      PagesFetchedAt(sourceId, later, j - 1);
    }
  }

  /** One page of a read, appended to what the earlier pages gave. */
  lemma {:induction false} PagesSnoc(sourceId: string, calls: seq<AppleCall>, c: AppleCall)
    requires PagesFetched(sourceId, calls) && PageAt(sourceId, |calls| + 1, c)
    ensures PagesFetched(sourceId, calls + [c])
    ensures PagesData(calls + [c]) == PagesData(calls) + c.page.value.data
  {
    assert (calls + [c])[..|calls|] == calls;
  }

  /** The loop over the later pages. */
  method FetchLater(session: AppleSession, sourceId: string, n: nat, first: seq<Song>)
    returns (r: Reply<seq<Song>>, ghost calls: seq<AppleCall>)
    requires n >= 2
    modifies session
    ensures session.calls == old(session.calls) + calls
    ensures LaterPagesRun(sourceId, n, first, calls, r)
  {
    var songs := first;
    calls := [];
    for i := 1 to n
      invariant |calls| == i - 1 && PagesFetched(sourceId, calls)
      invariant songs == first + PagesData(calls)
      invariant session.calls == old(session.calls) + calls
    {
      var page := session.TracksPage(sourceId, Some(100 * i));
      ghost var c := FetchedPage(sourceId, Some(100 * i), page);
      match page {
        case Raised(f) =>
          calls := calls + [c];
          assert calls[..i - 1] == calls[..|calls| - 1];
          r := Raised(f);
          return;
        case Ok(Errors) =>
          calls := calls + [c];
          assert calls[..i - 1] == calls[..|calls| - 1];
          r := Raised(Error);
          return;
        case Ok(Page(_, data)) =>
          PagesSnoc(sourceId, calls, c);
          calls := calls + [c];
          songs := songs + data;
      }
    }
    r := Ok(songs);
  }

  /** `appleapi_get_playlist_content`: every song of the playlist, page by page. */
  method FetchSongs(session: AppleSession, sourceId: string) returns (r: Reply<seq<Song>>, ghost calls: seq<AppleCall>)
    modifies session
    ensures session.calls == old(session.calls) + calls
    ensures PagingRun(sourceId, calls, r)
  {
    var first := session.TracksPage(sourceId, None);
    ghost var later := [];
    match first {
      case Raised(f) =>
        r := Raised(f);
      case Ok(Errors) =>
        r := Ok([]);
      case Ok(Page(total, data)) =>
        if total <= 100 {
          r := Ok(data);
        } else {
          r, later := FetchLater(session, sourceId, (total + 99) / 100, data);
        }
    }
    calls := [FetchedPage(sourceId, None, first)] + later;
    assert calls[1..] == later;
  }

  /** `get_apple_playlist_content`: the playlist's songs as canonical descriptions. */
  method GetPlaylistContent(session: AppleSession, sourceId: string)
    returns (r: Reply<seq<string>>, ghost calls: seq<AppleCall>, ghost songs: Reply<seq<Song>>)
    modifies session
    ensures session.calls == old(session.calls) + calls
    ensures PagingRun(sourceId, calls, songs)
    ensures r == match songs { case Ok(ss) => Ok(AppleEntries(ss)) case Raised(f) => Raised(f) }
  {
    var fetched;
    fetched, calls := FetchSongs(session, sourceId);
    songs := fetched;
    match fetched {
      case Raised(f) =>
        r := Raised(f);
      case Ok(ss) =>
        var described := Describe(ss);
        assert described == AppleEntries(ss);
        r := Ok(described);
    }
  }

  // ---------------------------------------------------------------------------------
  // apple_dest_check

  /**
   * `apple_dest_check(apple_lists, apple, name)`: a listed name gives its id without any
   * call; any other name is created as it is, slashes included. The index is only read.
   */
  method DestCheck(session: AppleSession, lists: map<string, string>, name: string)
    returns (r: Reply<string>, ghost calls: seq<AppleCall>)
    modifies session
    ensures session.calls == old(session.calls) + calls
    ensures name in lists ==> calls == [] && r == Ok(lists[name])
    ensures name !in lists ==> calls == [CreatedPlaylist(name, r)]
  {
    if name in lists {
      return Ok(lists[name]), [];
    }
    r := session.CreatePlaylist(name);
    calls := [CreatedPlaylist(name, r)];
  }

  // ---------------------------------------------------------------------------------
  // move_to_apple

  /** The text a catalogue song is compared with: album, title and artist segment separated by spaces. */
  function SongText(s: Song): string {
    s.albumName + " " + s.name + " " + AppleArtist(s)
  }

  /** The position of the first song whose text `accept` accepts against `query`. */
  function FirstMatching(songs: seq<Song>, query: string, accept: (string, string) -> bool): Option<nat> {
    FirstTrue(seq(|songs|, j requires 0 <= j < |songs| => accept(SongText(songs[j]), query)))
  }

  /**
   * The song `FirstMatching` picks is accepted and every song before it is rejected; it
   * picks none exactly when every song is rejected.
   */
  lemma {:induction false} FirstMatchingFinds(songs: seq<Song>, query: string, accept: (string, string) -> bool)
    ensures var r := FirstMatching(songs, query, accept);
      && (r.Some? ==> r.value < |songs| && accept(SongText(songs[r.value]), query))
      && (r.Some? ==> forall j :: 0 <= j < r.value ==> !accept(SongText(songs[j]), query))
      && (r.None? <==> forall j :: 0 <= j < |songs| ==> !accept(SongText(songs[j]), query))
  {
    var v := seq(|songs|, j requires 0 <= j < |songs| => accept(SongText(songs[j]), query));
    FirstTrueFinds(v);
    assert forall j :: 0 <= j < |songs| ==> v[j] == accept(SongText(songs[j]), query);
  }

  /**
   * A song of the library, searched for by its own spaced description, is accepted as a
   * candidate: its candidate text is that description.
   */
  lemma {:induction false} SongMatchesItsEntry(s: Song)
    requires !Contains(s.albumName, Delimiter) && !Contains(s.name, Delimiter) && !Contains(AppleArtist(s), Delimiter)
    ensures SongText(s) == Spaced(AppleEntry(s))
    ensures MainFuncs.Compare(SongText(s), Spaced(AppleEntry(s)))
  {
    SpacedEntry(s.albumName, s.name, AppleArtist(s));
    MainFuncs.CompareSelf(SongText(s));
  }

  /**
   * The candidate scan of `move_to_apple` (lines 166-182) over `results.song.data`: the
   * first song whose text `accept` accepts against the current `query` gets a pause and
   * one add, and the scan stops; with no accepted song `query` is recorded; a missing
   * `song.data` raises.
   */
  predicate ScanRun(destId: string, query: string, accept: (string, string) -> bool, songs: Option<seq<Song>>,
                    calls: seq<AppleCall>, recorded: seq<string>, end: ItemEnd)
  {
    match songs
    case None => calls == [] && recorded == [] && end == Stop(Error)
    case Some(ss) =>
      match FirstMatching(ss, query, accept)
      case None => calls == [] && recorded == [query] && end == Next
      case Some(k) =>
        && k < |ss|
        && |calls| == 2 && calls[0] == Paused
        && calls[1].AddedTrack? && calls[1].destId == destId && calls[1].songId == ss[k].id
        && recorded == []
        && end == (match calls[1].added { case Ok(_) => Next case Raised(f) => Stop(f) })
  }

  /**
   * The retry of `move_to_apple` (lines 160-165) after a first answer without result keys:
   * search again with the parenthesised spans of `query` removed; an answer without result
   * keys again records `query` as it was before the removal, any other is scanned against
   * the stripped text.
   */
  predicate RetryRun(destId: string, query: string, accept: (string, string) -> bool,
                     calls: seq<AppleCall>, recorded: seq<string>, end: ItemEnd)
  {
    var stripped := StripParens(query);
    && |calls| >= 1 && calls[0].Searched? && calls[0].query == stripped
    && match calls[0].answer
       case Raised(f) => |calls| == 1 && recorded == [] && end == Stop(f)
       case Ok(NoResults) => |calls| == 1 && recorded == [] && end == Stop(Error)
       case Ok(Results(keys, songs)) =>
         if keys == 0 then |calls| == 1 && recorded == [query] && end == Next
         else ScanRun(destId, stripped, accept, songs, calls[1..], recorded, end)
  }

  /**
   * One track of `move_to_apple` (lines 157-182) for the search text `query`: search,
   * retry when the answer has no result keys, otherwise scan the candidates.
   */
  predicate TrackRun(destId: string, query: string, accept: (string, string) -> bool, t: ItemRun<AppleCall>) {
    && |t.calls| >= 1 && t.calls[0].Searched? && t.calls[0].query == query
    && AnswerRun(destId, query, accept, t.calls[0].answer, t.calls[1..], t.recorded, t.end)
  }

  /** What follows the first search of a track, given its `answer`. */
  predicate AnswerRun(destId: string, query: string, accept: (string, string) -> bool, answer: Reply<SearchAnswer>,
                      rest: seq<AppleCall>, recorded: seq<string>, end: ItemEnd) {
    match answer
    case Raised(f) => rest == [] && recorded == [] && end == Stop(f)
    case Ok(NoResults) => rest == [] && recorded == [] && end == Stop(Error)
    case Ok(Results(keys, songs)) =>
      if keys == 0 then RetryRun(destId, query, accept, rest, recorded, end)
      else ScanRun(destId, query, accept, songs, rest, recorded, end)
  }

  /**
   * One track of `move_to_apple` for the description `entry`: the search text is the whole
   * description with its delimiters as spaces, the album included.
   */
  predicate AppleTrackRun(destId: string, entry: string, t: ItemRun<AppleCall>) {
    TrackRun(destId, Spaced(entry), MainFuncs.Compare, t)
  }

  /** How many calls of `calls` add a track. */
  function Adds(calls: seq<AppleCall>): nat {
    if calls == [] then 0 else (if calls[0].AddedTrack? then 1 else 0) + Adds(calls[1..])
  }

  /** The scan adds at most one track or records its query, never both. */
  lemma {:induction false} ScanOnce(destId: string, query: string, accept: (string, string) -> bool, songs: Option<seq<Song>>,
                                    calls: seq<AppleCall>, recorded: seq<string>, end: ItemEnd)
    requires ScanRun(destId, query, accept, songs, calls, recorded, end)
    ensures Adds(calls) + |recorded| <= 1
    ensures forall x :: x in recorded ==> x == query
  {
    if songs.Some? && FirstMatching(songs.value, query, accept).Some? {
      var tail := calls[1..];
      assert tail == [calls[1]] && tail[1..] == [];
      assert Adds(tail) == 1;
      assert Adds(calls) == Adds(tail);
    }
  }

  /** The retry adds at most one track or records one text, never both. */
  lemma {:induction false} RetryOnce(destId: string, query: string, accept: (string, string) -> bool,
                                     calls: seq<AppleCall>, recorded: seq<string>, end: ItemEnd)
    requires RetryRun(destId, query, accept, calls, recorded, end)
    ensures Adds(calls) + |recorded| <= 1
    ensures forall x :: x in recorded ==> x == query || x == StripParens(query)
  {
    assert Adds(calls) == Adds(calls[1..]);
    match calls[0].answer {
      case Raised(_) =>
      case Ok(NoResults) =>
      case Ok(Results(keys, songs)) =>
        if keys != 0 {
          ScanOnce(destId, StripParens(query), accept, songs, calls[1..], recorded, end);
        }
    }
  }

  /**
   * A track is added at most once and recorded as not found at most once, never both; what
   * it records is its search text, or that text with parenthesised spans removed.
   */
  lemma {:induction false} TrackOnce(destId: string, query: string, accept: (string, string) -> bool, t: ItemRun<AppleCall>)
    requires TrackRun(destId, query, accept, t)
    ensures Adds(t.calls) + |t.recorded| <= 1
    ensures forall x :: x in t.recorded ==> x == query || x == StripParens(query)
  {
    var c := t.calls;
    assert Adds(c) == Adds(c[1..]);
    match c[0].answer {
      case Raised(_) =>
      case Ok(NoResults) =>
      case Ok(Results(keys, songs)) =>
        if keys == 0 {
          RetryOnce(destId, query, accept, c[1..], t.recorded, t.end);
        } else {
          ScanOnce(destId, query, accept, songs, c[1..], t.recorded, t.end);
        }
    }
  }

  /** Each of `runs` is the run of the track at its position in `items`. */
  predicate TracksRun(destId: string, items: seq<string>, runs: seq<ItemRun<AppleCall>>)
    decreases |runs|
  {
    && |runs| <= |items|
    && (runs != [] ==>
         && TracksRun(destId, items, runs[..|runs| - 1])
         && AppleTrackRun(destId, items[|runs| - 1], runs[|runs| - 1]))
  }

  /** The run at position `k` is the run of track `k`. */
  lemma {:induction false} TracksRunAt(destId: string, items: seq<string>, runs: seq<ItemRun<AppleCall>>, k: nat)
    requires TracksRun(destId, items, runs) && k < |runs|
    ensures k < |items| && AppleTrackRun(destId, items[k], runs[k])
    decreases |runs|
  {
    if k < |runs| - 1 {
      var front := runs[..|runs| - 1];
      TracksRunAt(destId, items, front, k);
      assert front[k] == runs[k];
    }
  }

  /** The run of the next track extends the runs of the tracks before it. */
  lemma {:induction false} TracksRunSnoc(destId: string, items: seq<string>, runs: seq<ItemRun<AppleCall>>, t: ItemRun<AppleCall>)
    requires TracksRun(destId, items, runs) && |runs| < |items|
    requires AppleTrackRun(destId, items[|runs|], t)
    ensures TracksRun(destId, items, runs + [t])
  {
    assert (runs + [t])[..|runs|] == runs;
  }

  /**
   * `move_to_apple`: `fetch` read the destination into `songs` (an exception there
   * escapes); then the tracks of `what_to_move(present, playlist_info)` are moved in order.
   */
  predicate AppleTransferRun(destId: string, playlistInfo: seq<string>, fetch: seq<AppleCall>, songs: Reply<seq<Song>>,
                             runs: seq<ItemRun<AppleCall>>, outcome: TransferOutcome)
  {
    && PagingRun(destId, fetch, songs)
    && match songs
       case Raised(f) => runs == [] && outcome == Propagated(f)
       case Ok(present) =>
         var delta := MainFuncs.WhatToMove(AppleEntries(present), playlistInfo);
         && LoopEnds(delta, runs, outcome)
         && TracksRun(destId, delta, runs)
  }

  /**
   * A transfer reports at most one entry per track it had to move and adds at most one
   * song per such track; every reported entry is a moved track's search text, or that
   * text with parenthesised spans removed.
   */
  lemma {:induction false} AppleTransferBounds(destId: string, playlistInfo: seq<string>, fetch: seq<AppleCall>,
                                               songs: Reply<seq<Song>>, runs: seq<ItemRun<AppleCall>>, outcome: TransferOutcome)
    requires AppleTransferRun(destId, playlistInfo, fetch, songs, runs, outcome)
    ensures outcome.Finished? || outcome.Aborted? ==> |outcome.notFound| <= |playlistInfo|
    ensures forall k :: 0 <= k < |runs| ==> Adds(runs[k].calls) <= 1 && |runs[k].recorded| <= 1
    ensures songs.Ok? ==>
      var delta := MainFuncs.WhatToMove(AppleEntries(songs.value), playlistInfo);
      && |runs| <= |delta|
      && (outcome.Finished? || outcome.Aborted? ==> |outcome.notFound| <= |delta|)
    ensures songs.Ok? ==> forall k, x :: 0 <= k < |runs| && x in runs[k].recorded ==>
      var entry := MainFuncs.WhatToMove(AppleEntries(songs.value), playlistInfo)[k];
      x == Spaced(entry) || x == StripParens(Spaced(entry))
    ensures |runs| <= |playlistInfo|
  {
    if songs.Ok? {
      var delta := MainFuncs.WhatToMove(AppleEntries(songs.value), playlistInfo);
      forall k | 0 <= k < |runs|
        ensures |runs[k].recorded| <= 1 && Adds(runs[k].calls) <= 1
        ensures forall x :: x in runs[k].recorded ==> x == Spaced(delta[k]) || x == StripParens(Spaced(delta[k]))
      {
        TracksRunAt(destId, delta, runs, k);
        TrackOnce(destId, Spaced(delta[k]), MainFuncs.Compare, runs[k]);
      }
      LoopNotFoundBound(delta, runs, outcome);
    }
  }

  /** One track of `move_to_apple`: search, retry without parentheses, then scan the candidates. */
  method TransferTrack(session: AppleSession, destId: string, query: string, accept: (string, string) -> bool)
    returns (recorded: seq<string>, end: ItemEnd, ghost t: ItemRun<AppleCall>)
    modifies session
    ensures session.calls == old(session.calls) + t.calls && t.recorded == recorded && t.end == end
    ensures TrackRun(destId, query, accept, t)
  {
    var first := session.Search(query);
    ghost var rest;
    recorded, end, rest := Answered(session, destId, query, accept, first);
    t := ItemRun([Searched(query, first)] + rest, recorded, end);
    assert t.calls[0] == Searched(query, first) && t.calls[1..] == rest;
  }

  /** What a track does once its search has given `first`: stop, retry, or scan the candidates. */
  method Answered(session: AppleSession, destId: string, query: string, accept: (string, string) -> bool,
                  first: Reply<SearchAnswer>)
    returns (recorded: seq<string>, end: ItemEnd, ghost rest: seq<AppleCall>)
    modifies session
    ensures session.calls == old(session.calls) + rest
    ensures AnswerRun(destId, query, accept, first, rest, recorded, end)
  {
    rest := [];
    match first {
      case Raised(f) =>
        recorded, end := [], Stop(f);
      case Ok(NoResults) =>
        recorded, end := [], Stop(Error);
      case Ok(Results(keys, songs)) =>
        if keys == 0 {
          recorded, end, rest := Retry(session, destId, query, accept);
        } else {
          recorded, end, rest := Scan(session, destId, query, accept, songs);
        }
    }
  }

  /** The retry with parenthesised spans removed, and the scan of its answer. */
  method Retry(session: AppleSession, destId: string, query: string, accept: (string, string) -> bool)
    returns (recorded: seq<string>, end: ItemEnd, ghost calls: seq<AppleCall>)
    modifies session
    ensures session.calls == old(session.calls) + calls
    ensures RetryRun(destId, query, accept, calls, recorded, end)
  {
    var stripped := StripParens(query);
    var second := session.Search(stripped);
    ghost var rest := [];
    match second {
      case Raised(f) =>
        recorded, end := [], Stop(f);
      case Ok(NoResults) =>
        recorded, end := [], Stop(Error);
      case Ok(Results(keys, songs)) =>
        if keys == 0 {
          recorded, end := [query], Next;
        } else {
          recorded, end, rest := Scan(session, destId, stripped, accept, songs);
        }
    }
    calls := [Searched(stripped, second)] + rest;
    assert calls[1..] == rest;
  }

  /** The loop over the candidates that looks for the first one `accept` accepts against `query`. */
  method FindMatching(songs: seq<Song>, query: string, accept: (string, string) -> bool) returns (r: Option<nat>)
    ensures r.Some? ==> r.value < |songs|
    ensures r == FirstMatching(songs, query, accept)
  {
    FirstMatchingFinds(songs, query, accept);
    var k := 0;
    while k < |songs|
      invariant k <= |songs|
      invariant forall j :: 0 <= j < k ==> !accept(SongText(songs[j]), query)
    {
      if accept(SongText(songs[k]), query) {
        return Some(k);
      }
      k := k + 1;
    }
    return None;
  }

  /**
   * The candidate scan (lines 166-182): `for … else`, where the `else` runs when no `break`
   * did. The search for the accepted song is `FindMatching`.
   */
  method Scan(session: AppleSession, destId: string, query: string, accept: (string, string) -> bool, songs: Option<seq<Song>>)
    returns (recorded: seq<string>, end: ItemEnd, ghost calls: seq<AppleCall>)
    modifies session
    ensures session.calls == old(session.calls) + calls
    ensures ScanRun(destId, query, accept, songs, calls, recorded, end)
  {
    if songs.None? {
      return [], Stop(Error), [];
    }
    var matching := FindMatching(songs.value, query, accept);
    if matching.None? {
      return [query], Next, [];
    }
    var id := songs.value[matching.value].id;
    session.Pause();
    var added := session.AddTrack(destId, id);
    recorded := [];
    end := match added { case Ok(_) => Next case Raised(f) => Stop(f) };
    calls := [Paused, AddedTrack(destId, id, added)];
  }

  /** One pass of the loop of `move_to_apple`: the track after those in `runs` is moved. */
  method MoveNext(session: AppleSession, destId: string, items: seq<string>, k: nat,
                  ghost calls0: seq<AppleCall>, ghost runs: seq<ItemRun<AppleCall>>)
    returns (recorded: seq<string>, end: ItemEnd, ghost t: ItemRun<AppleCall>)
    requires k == |runs| < |items|
    requires session.calls == calls0 + RunCalls(runs)
    requires TracksRun(destId, items, runs)
    modifies session
    ensures t.recorded == recorded && t.end == end
    ensures session.calls == calls0 + RunCalls(runs + [t])
    ensures RunRecorded(runs + [t]) == RunRecorded(runs) + recorded
    ensures TracksRun(destId, items, runs + [t])
  {
    var query := Replace(items[k], Delimiter, " ");
    recorded, end, t := TransferTrack(session, destId, query, MainFuncs.Compare);
    TracksRunSnoc(destId, items, runs, t);
    RunsAppend(runs, t);
    assert session.calls == (calls0 + RunCalls(runs)) + t.calls;
  }

  /**
   * The loop of `move_to_apple` over the tracks to move, inside its `try`: every track in
   * order until one stops on an exception.
   */
  method MoveAll(session: AppleSession, destId: string, items: seq<string>)
    returns (outcome: TransferOutcome, ghost runs: seq<ItemRun<AppleCall>>)
    modifies session
    ensures session.calls == old(session.calls) + RunCalls(runs)
    ensures LoopEnds(items, runs, outcome)
    ensures TracksRun(destId, items, runs)
  {
    var notFound := [];
    runs := [];
    var k := 0;
    while k < |items|
      invariant k <= |items| && |runs| == k
      invariant session.calls == old(session.calls) + RunCalls(runs)
      invariant notFound == RunRecorded(runs)
      invariant forall j :: 0 <= j < k ==> runs[j].end == Next
      invariant TracksRun(destId, items, runs)
    {
      var recorded, end, t := MoveNext(session, destId, items, k, old(session.calls), runs);
      runs, notFound := runs + [t], notFound + recorded;
      if end.Stop? {
        outcome := Stopped(end.failure, notFound);
        return;
      }
      k := k + 1;
    }
    outcome := Finished(notFound);
  }

  /**
   * `move_to_apple`: read the destination (an exception there escapes), move every track of
   * `what_to_move(present, playlist_info)` and return what could not be found; an interrupt
   * ends the program and any other exception returns what was collected so far.
   */
  method MoveToApple(session: AppleSession, playlistInfo: seq<string>, destId: string)
    returns (outcome: TransferOutcome, ghost fetch: seq<AppleCall>, ghost songs: Reply<seq<Song>>,
             ghost runs: seq<ItemRun<AppleCall>>)
    modifies session
    ensures session.calls == old(session.calls) + fetch + RunCalls(runs)
    ensures AppleTransferRun(destId, playlistInfo, fetch, songs, runs, outcome)
  {
    var present;
    present, fetch, songs := GetPlaylistContent(session, destId);
    match present {
      case Raised(f) =>
        outcome, runs := Propagated(f), [];
      case Ok(entries) =>
        var delta := MainFuncs.WhatToMove(entries, playlistInfo);
        outcome, runs := MoveAll(session, destId, delta);
    }
  }
}
