/**
 * The Tidal back end: listing the user's playlists (folders included) into a name-to-id
 * index, resolving or creating the destination playlist, reading a playlist as canonical
 * descriptions and moving tracks into a playlist by search and similarity. Each operation
 * is specified by a predicate over the calls it leaves in the session's log.
 */
module TidalFuncs {
  import opened Text
  import opened Provider
  import opened TidalApi
  import opened Track
  import MainFuncs

  // ---------------------------------------------------------------------------------
  // get_tidal_playlist_content

  /** The canonical description of a Tidal track: its artists joined by single spaces. */
  function TidalEntry(t: TidalTrack): string {
    Entry(t.album, t.name, Join(t.artists, " "))
  }

  /** A Tidal track's description splits back into album, title and the joined artists. */
  lemma {:induction false} TidalEntryFields(t: TidalTrack)
    requires !Contains(t.album, Delimiter) && !Contains(t.name, Delimiter)
    requires !Contains(Join(t.artists, " "), Delimiter)
    ensures Split(TidalEntry(t), Delimiter) == [t.album, t.name, Join(t.artists, " ")]
  {
    EntryFields(t.album, t.name, Join(t.artists, " "));
  }

  /** The descriptions of a playlist's tracks, one per track, in order. */
  method Describe(tracks: seq<TidalTrack>) returns (result: seq<string>)
    ensures |result| == |tracks|
    ensures forall k :: 0 <= k < |tracks| ==> result[k] == TidalEntry(tracks[k])
  {
    result := [];
    for k := 0 to |tracks|
      invariant |result| == k
      invariant forall j :: 0 <= j < k ==> result[j] == TidalEntry(tracks[j])
    {
      result := result + [TidalEntry(tracks[k])];
    }
  }

  /** The descriptions of `tracks`, in order: what `Describe` computes, as a value. */
  function TidalEntries(tracks: seq<TidalTrack>): (r: seq<string>)
    ensures |r| == |tracks|
    ensures forall k :: 0 <= k < |tracks| ==> r[k] == TidalEntry(tracks[k])
  {
    if tracks == [] then [] else TidalEntries(tracks[..|tracks| - 1]) + [TidalEntry(tracks[|tracks| - 1])]
  }

  /** `get_tidal_playlist_content`: the playlist's tracks as canonical descriptions. */
  method GetPlaylistContent(session: TidalSession, playlistId: string) returns (r: Reply<seq<string>>)
    modifies session
    ensures |session.calls| == |old(session.calls)| + 1
    ensures session.calls[..|old(session.calls)|] == old(session.calls)
    ensures var c := session.calls[|old(session.calls)|];
      c.FetchedTracks? && c.sourceId == playlistId
      && r == match c.tracks { case Ok(ts) => Ok(TidalEntries(ts)) case Raised(f) => Raised(f) }
  {
    var tracks := session.PlaylistTracks(playlistId);
    match tracks
    case Raised(f) =>
      r := Raised(f);
    case Ok(ts) =>
      var described := Describe(ts);
      assert described == TidalEntries(ts);
      r := Ok(described);
  }

  // ---------------------------------------------------------------------------------
  // move_to_tidal

  /** The text a search hit is compared with: album, title and artists separated by spaces. */
  function HitText(h: SearchHit): string {
    h.album + " " + h.title + " " + Join(h.artists, " ")
  }

  /** `accept(found, op)` for each hit, in order. */
  function Verdicts(hits: seq<SearchHit>, op: string, accept: (string, string) -> bool): seq<bool> {
    seq(|hits|, j requires 0 <= j < |hits| => accept(HitText(hits[j]), op))
  }

  /** The position of the first hit whose text `accept` accepts against `op`. */
  function FirstAccepted(hits: seq<SearchHit>, op: string, accept: (string, string) -> bool): Option<nat> {
    FirstTrue(Verdicts(hits, op, accept))
  }

  /**
   * The hit `FirstAccepted` picks is accepted and every hit before it is rejected; it picks
   * none exactly when every hit is rejected.
   */
  lemma {:induction false} FirstAcceptedFinds(hits: seq<SearchHit>, op: string, accept: (string, string) -> bool)
    ensures var r := FirstAccepted(hits, op, accept);
      && (r.Some? ==> r.value < |hits| && accept(HitText(hits[r.value]), op))
      && (r.Some? ==> forall j :: 0 <= j < r.value ==> !accept(HitText(hits[j]), op))
      && (r.None? <==> forall j :: 0 <= j < |hits| ==> !accept(HitText(hits[j]), op))
  {
    var v := Verdicts(hits, op, accept);
    FirstTrueFinds(v);
    assert forall j :: 0 <= j < |hits| ==> v[j] == accept(HitText(hits[j]), op);
  }

  /** The search query of a description: every field but the album, joined by spaces. */
  function TidalQuery(entry: string): string {
    Join(Split(entry, Delimiter)[1..], " ")
  }

  /** For a canonical description the query is `title artist`: the album is dropped. */
  lemma {:induction false} TidalQueryDropsAlbum(album: string, title: string, artist: string)
    requires !Contains(album, Delimiter) && !Contains(title, Delimiter) && !Contains(artist, Delimiter)
    ensures TidalQuery(Entry(album, title, artist)) == title + " " + artist
    ensures Spaced(Entry(album, title, artist)) == album + " " + title + " " + artist
  {
    EntryFields(album, title, artist);
    SpacedEntry(album, title, artist);
    assert [album, title, artist][1..] == [title, artist];
    assert Join([artist], " ") == artist;
  }

  /**
   * The candidate scan of `move_to_tidal` over the search answer `s` (lines 266-281): the
   * first hit whose text `compare` accepts against `op` gets a pause and one add, and the
   * scan stops; with no accepted hit the current `query` is recorded; a missing
   * `tracks.items` raises.
   */
  predicate CandidateRun(destId: string, query: string, op: string, accept: (string, string) -> bool, s: TidalSearch,
                         calls: seq<TidalCall>, recorded: seq<string>, end: ItemEnd)
  {
    match s.items
    case None => calls == [] && recorded == [] && end == Stop(Error)
    case Some(hits) =>
      match FirstAccepted(hits, op, accept)
      case None => calls == [] && recorded == [query] && end == Next
      case Some(k) =>
        && k < |hits|
        && |calls| == 2 && calls[0] == Paused
        && calls[1].AddedTrack? && calls[1].destId == destId && calls[1].trackId == hits[k].id
        && recorded == []
        && end == (match calls[1].added { case Ok(_) => Next case Raised(f) => Stop(f) })
  }

  /**
   * The retry of `move_to_tidal` (lines 259-265) after a first answer of printed length 408:
   * search again with the parenthesised spans of `query` removed; an answer with 408
   * top-level entries records the query from before the removal, any other is scanned.
   */
  predicate RetryRun(destId: string, query: string, op: string, accept: (string, string) -> bool,
                     calls: seq<TidalCall>, recorded: seq<string>, end: ItemEnd)
  {
    var stripped := StripParens(query);
    && |calls| >= 1 && calls[0].Searched? && calls[0].query == stripped
    && match calls[0].result
       case Raised(f) => |calls| == 1 && recorded == [] && end == Stop(f)
       case Ok(second) =>
         if second.topLevelCount == 408 then |calls| == 1 && recorded == [query] && end == Next
         else CandidateRun(destId, stripped, op, accept, second, calls[1..], recorded, end)
  }

  /**
   * One track of `move_to_tidal` (lines 256-281), given its search `query` and the text `op`
   * candidates are compared with: search, retry when the printed answer has length 408,
   * otherwise scan the candidates.
   */
  predicate TrackRun(destId: string, query: string, op: string, accept: (string, string) -> bool, t: ItemRun<TidalCall>) {
    && |t.calls| >= 1 && t.calls[0].Searched? && t.calls[0].query == query
    && AnswerRun(destId, query, op, accept, t.calls[0].result, t.calls[1..], t.recorded, t.end)
  }

  /** What follows the first search of a track, given its `answer`. */
  predicate AnswerRun(destId: string, query: string, op: string, accept: (string, string) -> bool,
                      answer: Reply<TidalSearch>, rest: seq<TidalCall>, recorded: seq<string>, end: ItemEnd) {
    match answer
    case Raised(f) => rest == [] && recorded == [] && end == Stop(f)
    case Ok(first) =>
      if first.printedLength == 408 then RetryRun(destId, query, op, accept, rest, recorded, end)
      else CandidateRun(destId, query, op, accept, first, rest, recorded, end)
  }

  /**
   * One track of `move_to_tidal` for the description `entry`: the query is its title and
   * artists, and candidates are compared with the whole description, delimiters as spaces.
   */
  predicate TidalTrackRun(destId: string, entry: string, t: ItemRun<TidalCall>) {
    TrackRun(destId, TidalQuery(entry), Spaced(entry), MainFuncs.Compare, t)
  }

  /** How many calls of `calls` add a track. */
  function Adds(calls: seq<TidalCall>): nat {
    if calls == [] then 0 else (if calls[0].AddedTrack? then 1 else 0) + Adds(calls[1..])
  }

  /** The candidate scan adds at most one track or records its query, never both. */
  lemma {:induction false} CandidateOnce(destId: string, query: string, op: string, accept: (string, string) -> bool, s: TidalSearch,
                      calls: seq<TidalCall>, recorded: seq<string>, end: ItemEnd)
    requires CandidateRun(destId, query, op, accept, s, calls, recorded, end)
    ensures Adds(calls) + |recorded| <= 1
    ensures forall x :: x in recorded ==> x == query
  {
    if s.items.Some? && FirstAccepted(s.items.value, op, accept).Some? {
      var tail := calls[1..];
      assert tail == [calls[1]] && tail[1..] == [];
      assert Adds(tail) == 1;
      assert Adds(calls) == Adds(tail);
    }
  }

  /** The retry adds at most one track or records one query, never both. */
  lemma {:induction false} RetryOnce(destId: string, query: string, op: string, accept: (string, string) -> bool,
                  calls: seq<TidalCall>, recorded: seq<string>, end: ItemEnd)
    requires RetryRun(destId, query, op, accept, calls, recorded, end)
    ensures Adds(calls) + |recorded| <= 1
    ensures forall x :: x in recorded ==> x == query || x == StripParens(query)
  {
    assert Adds(calls) == Adds(calls[1..]);
    if calls[0].result.Ok? && calls[0].result.value.topLevelCount != 408 {
      CandidateOnce(destId, StripParens(query), op, accept, calls[0].result.value, calls[1..], recorded, end);
    }
  }

  /**
   * A track is added at most once and recorded as not found at most once, never both;
   * what it records is its query, or that query with parenthesised spans removed.
   */
  lemma {:induction false} TrackOnce(destId: string, query: string, op: string, accept: (string, string) -> bool, t: ItemRun<TidalCall>)
    requires TrackRun(destId, query, op, accept, t)
    ensures Adds(t.calls) + |t.recorded| <= 1
    ensures forall x :: x in t.recorded ==> x == query || x == StripParens(query)
  {
    var c := t.calls;
    assert Adds(c) == Adds(c[1..]);
    if c[0].result.Ok? {
      var first := c[0].result.value;
      if first.printedLength == 408 {
        RetryOnce(destId, query, op, accept, c[1..], t.recorded, t.end);
      } else {
        CandidateOnce(destId, query, op, accept, first, c[1..], t.recorded, t.end);
      }
    }
  }

  /** Each of `runs` is the run of the track at its position in `items`. */
  predicate TracksRun(destId: string, items: seq<string>, runs: seq<ItemRun<TidalCall>>)
    decreases |runs|
  {
    && |runs| <= |items|
    && (runs != [] ==>
         && TracksRun(destId, items, runs[..|runs| - 1])
         && TidalTrackRun(destId, items[|runs| - 1], runs[|runs| - 1]))
  }

  /** The run at position `k` is the run of track `k`. */
  lemma {:induction false} TracksRunAt(destId: string, items: seq<string>, runs: seq<ItemRun<TidalCall>>, k: nat)
    requires TracksRun(destId, items, runs) && k < |runs|
    ensures k < |items| && TidalTrackRun(destId, items[k], runs[k])
    decreases |runs|
  {
    if k < |runs| - 1 {
      var front := runs[..|runs| - 1];
      TracksRunAt(destId, items, front, k);
      assert front[k] == runs[k];
    }
  }

  /** The log `move_to_tidal` leaves for a track list, and its outcome. */
  predicate TidalTransferRun(destId: string, playlistInfo: seq<string>, calls: seq<TidalCall>,
                             runs: seq<ItemRun<TidalCall>>, outcome: TransferOutcome)
  {
    && |calls| >= 1 && calls[0].FetchedTracks? && calls[0].sourceId == destId
    && match calls[0].tracks
       case Raised(f) => |calls| == 1 && runs == [] && outcome == Propagated(f)
       case Ok(present) =>
         var delta := MainFuncs.WhatToMove(TidalEntries(present), playlistInfo);
         && calls[1..] == RunCalls(runs)
         && LoopEnds(delta, runs, outcome)
         && TracksRun(destId, delta, runs)
  }

  /**
   * A transfer reports at most one entry per track it had to move and adds at most one
   * track per such track; every reported entry is a moved track's query (its title and
   * artists), or that query with parenthesised spans removed.
   */
  lemma {:induction false} TidalTransferBounds(destId: string, playlistInfo: seq<string>, calls: seq<TidalCall>,
                            runs: seq<ItemRun<TidalCall>>, outcome: TransferOutcome)
    requires TidalTransferRun(destId, playlistInfo, calls, runs, outcome)
    ensures outcome.Finished? || outcome.Aborted? ==> |outcome.notFound| <= |playlistInfo|
    ensures forall k :: 0 <= k < |runs| ==> Adds(runs[k].calls) <= 1 && |runs[k].recorded| <= 1
    ensures calls[0].tracks.Ok? ==>
      var delta := MainFuncs.WhatToMove(TidalEntries(calls[0].tracks.value), playlistInfo);
      && |runs| <= |delta|
      && (outcome.Finished? || outcome.Aborted? ==> |outcome.notFound| <= |delta|)
    ensures calls[0].tracks.Ok? ==> forall k, x :: 0 <= k < |runs| && x in runs[k].recorded ==>
      var entry := MainFuncs.WhatToMove(TidalEntries(calls[0].tracks.value), playlistInfo)[k];
      x == TidalQuery(entry) || x == StripParens(TidalQuery(entry))
    ensures |runs| <= |playlistInfo|
  {
    if calls[0].tracks.Ok? {
      var delta := MainFuncs.WhatToMove(TidalEntries(calls[0].tracks.value), playlistInfo);
      forall k | 0 <= k < |runs|
        ensures |runs[k].recorded| <= 1 && Adds(runs[k].calls) <= 1
        ensures forall x :: x in runs[k].recorded ==> x == TidalQuery(delta[k]) || x == StripParens(TidalQuery(delta[k]))
      {
        TracksRunAt(destId, delta, runs, k);
        TrackOnce(destId, TidalQuery(delta[k]), Spaced(delta[k]), MainFuncs.Compare, runs[k]);
      }
      LoopNotFoundBound(delta, runs, outcome);
    }
  }

  /** The loop over the hits that looks for the first one `accept` accepts against `op`. */
  method FindAccepted(hits: seq<SearchHit>, op: string, accept: (string, string) -> bool) returns (r: Option<nat>)
    ensures r.Some? ==> r.value < |hits|
    ensures r == FirstAccepted(hits, op, accept)
  {
    FirstAcceptedFinds(hits, op, accept);
    var k := 0;
    while k < |hits|
      invariant k <= |hits|
      invariant forall j :: 0 <= j < k ==> !accept(HitText(hits[j]), op)
    {
      if accept(HitText(hits[k]), op) {
        return Some(k);
      }
      k := k + 1;
    }
    return None;
  }

  /**
   * The candidate scan (lines 266-281): `for … else`, where the `else` runs when no `break`
   * did. The search for the accepted hit is `FindAccepted`.
   */
  method ScanCandidates(session: TidalSession, destId: string, query: string, op: string,
                        accept: (string, string) -> bool, s: TidalSearch)
    returns (recorded: seq<string>, end: ItemEnd, ghost calls: seq<TidalCall>)
    modifies session
    ensures session.calls == old(session.calls) + calls
    ensures CandidateRun(destId, query, op, accept, s, calls, recorded, end)
  {
    calls := [];
    if s.items.None? {
      recorded, end := [], Stop(Error);
      return;
    }
    var accepted := FindAccepted(s.items.value, op, accept);
    if accepted.None? {
      recorded, end := [query], Next;
    } else {
      var id := s.items.value[accepted.value].id;
      session.Pause();
      var added := session.AddTrack(destId, id);
      recorded := [];
      end := match added { case Ok(_) => Next case Raised(f) => Stop(f) };
      calls := [Paused, AddedTrack(destId, id, added)];
    }
  }

  /** The retry with parenthesised spans removed, and the scan of its answer. */
  method Retry(session: TidalSession, destId: string, query: string, op: string, accept: (string, string) -> bool)
    returns (recorded: seq<string>, end: ItemEnd, ghost calls: seq<TidalCall>)
    modifies session
    ensures session.calls == old(session.calls) + calls
    ensures RetryRun(destId, query, op, accept, calls, recorded, end)
  {
    var stripped := StripParens(query);
    var second := session.Search(stripped);
    ghost var rest := [];
    match second {
      case Raised(f) =>
        recorded, end := [], Stop(f);
      case Ok(retried) =>
        if retried.topLevelCount == 408 {
          recorded, end := [query], Next;
        } else {
          recorded, end, rest := ScanCandidates(session, destId, stripped, op, accept, retried);
        }
    }
    calls := [Searched(stripped, second)] + rest;
    assert calls[1..] == rest;
  }

  /** One track of `move_to_tidal`: search, retry without parentheses, then scan the candidates. */
  method TransferTrack(session: TidalSession, destId: string, query: string, op: string, accept: (string, string) -> bool)
    returns (recorded: seq<string>, end: ItemEnd, ghost t: ItemRun<TidalCall>)
    modifies session
    ensures session.calls == old(session.calls) + t.calls && t.recorded == recorded && t.end == end
    ensures TrackRun(destId, query, op, accept, t)
  {
    var first := session.Search(query);
    ghost var rest;
    recorded, end, rest := Answered(session, destId, query, op, accept, first);
    t := ItemRun([Searched(query, first)] + rest, recorded, end);
    assert t.calls[0] == Searched(query, first) && t.calls[1..] == rest;
  }

  /** What a track does once its search has given `first`: stop, retry, or scan the candidates. */
  method Answered(session: TidalSession, destId: string, query: string, op: string, accept: (string, string) -> bool,
                  first: Reply<TidalSearch>)
    returns (recorded: seq<string>, end: ItemEnd, ghost rest: seq<TidalCall>)
    modifies session
    ensures session.calls == old(session.calls) + rest
    ensures AnswerRun(destId, query, op, accept, first, rest, recorded, end)
  {
    rest := [];
    match first {
      case Raised(f) =>
        recorded, end := [], Stop(f);
      case Ok(search) =>
        if search.printedLength == 408 {
          recorded, end, rest := Retry(session, destId, query, op, accept);
        } else {
          recorded, end, rest := ScanCandidates(session, destId, query, op, accept, search);
        }
    }
  }

  /** One track of `move_to_tidal`, from its description. */
  method TransferEntry(session: TidalSession, destId: string, entry: string)
    returns (recorded: seq<string>, end: ItemEnd, ghost t: ItemRun<TidalCall>)
    modifies session
    ensures session.calls == old(session.calls) + t.calls && t.recorded == recorded && t.end == end
    ensures TidalTrackRun(destId, entry, t)
  {
    var query := Join(Split(entry, Delimiter)[1..], " ");
    var op := Replace(entry, Delimiter, " ");
    recorded, end, t := TransferTrack(session, destId, query, op, MainFuncs.Compare);
  }

  /** The run of the next track extends the runs of the tracks before it. */
  lemma {:induction false} TracksRunSnoc(destId: string, items: seq<string>, runs: seq<ItemRun<TidalCall>>, t: ItemRun<TidalCall>)
    requires TracksRun(destId, items, runs) && |runs| < |items|
    requires TidalTrackRun(destId, items[|runs|], t)
    ensures TracksRun(destId, items, runs + [t])
  {
    assert (runs + [t])[..|runs|] == runs;
  }

  /** One pass of the loop of `move_to_tidal`: the track after those in `runs` is moved. */
  method MoveNext(session: TidalSession, destId: string, items: seq<string>, k: nat,
                  ghost calls0: seq<TidalCall>, ghost runs: seq<ItemRun<TidalCall>>)
    returns (recorded: seq<string>, end: ItemEnd, ghost t: ItemRun<TidalCall>)
    requires k == |runs| < |items|
    requires session.calls == calls0 + RunCalls(runs)
    requires TracksRun(destId, items, runs)
    modifies session
    ensures t.recorded == recorded && t.end == end
    ensures session.calls == calls0 + RunCalls(runs + [t])
    ensures RunRecorded(runs + [t]) == RunRecorded(runs) + recorded
    ensures TracksRun(destId, items, runs + [t])
  {
    var entry := items[k];
    recorded, end, t := TransferEntry(session, destId, entry);
    TracksRunSnoc(destId, items, runs, t);
    RunsAppend(runs, t);
    assert session.calls == (calls0 + RunCalls(runs)) + t.calls;
  }

  /**
   * The loop of `move_to_tidal` over the tracks to move, inside its `try`: every track in
   * order until one stops on an exception.
   */
  method MoveAll(session: TidalSession, destId: string, items: seq<string>)
    returns (outcome: TransferOutcome, ghost runs: seq<ItemRun<TidalCall>>)
    modifies session
    ensures session.calls == old(session.calls) + RunCalls(runs)
    ensures LoopEnds(items, runs, outcome)
    ensures TracksRun(destId, items, runs)
  {
    var notFound := [];
    runs := [];
    var k := 0;
    while k < |items|
      invariant k <= |items| && |runs| == k
      invariant session.calls == old(session.calls) + RunCalls(runs)
      invariant notFound == RunRecorded(runs)
      invariant forall j :: 0 <= j < k ==> runs[j].end == Next
      invariant TracksRun(destId, items, runs)
    {
      var recorded, end, t := MoveNext(session, destId, items, k, old(session.calls), runs);
      runs, notFound := runs + [t], notFound + recorded;
      if end.Stop? {
        outcome := Stopped(end.failure, notFound);
        return;
      }
      k := k + 1;
    }
    outcome := Finished(notFound);
  }

  /**
   * `move_to_tidal`: read the destination (an exception there escapes), move every track of
   * `what_to_move(present, playlist_info)` and return what could not be found; an interrupt
   * ends the program and any other exception returns what was collected so far.
   */
  method MoveToTidal(session: TidalSession, playlistInfo: seq<string>, destId: string)
    returns (outcome: TransferOutcome, ghost runs: seq<ItemRun<TidalCall>>)
    modifies session
    ensures |old(session.calls)| <= |session.calls| && session.calls[..|old(session.calls)|] == old(session.calls)
    ensures TidalTransferRun(destId, playlistInfo, session.calls[|old(session.calls)|..], runs, outcome)
  {
    ghost var before := session.calls;
    var present := GetPlaylistContent(session, destId);
    ghost var fetch := session.calls[|before|];
    match present
    case Raised(f) =>
      outcome, runs := Propagated(f), [];
      assert session.calls[|before|..] == [fetch];
    case Ok(entries) =>
      var delta := MainFuncs.WhatToMove(entries, playlistInfo);
      outcome, runs := MoveAll(session, destId, delta);
      assert session.calls[|before|..][1..] == RunCalls(runs);
  }
}
