/**
 * The canonical description of a track that both back ends produce and consume:
 * album, title and artist separated by the delimiter `&@#72`.
 */
module Track {
  import opened Text

  const Delimiter: string := "&@#72"

  /** The canonical description `album&@#72title&@#72artist`. */
  function Entry(album: string, title: string, artist: string): string {
    album + Delimiter + title + Delimiter + artist
  }

  /** The delimiter cannot overlap itself. */
  lemma {:induction false} DelimiterBorderless()
    ensures Borderless(Delimiter)
  {
    forall m | 0 < m < |Delimiter| ensures Delimiter[m..] != Delimiter[..|Delimiter| - m] {
      assert Delimiter[m..][0] == Delimiter[m] != '&';
      assert Delimiter[..|Delimiter| - m][0] == '&';
    }
  }

  /** Fields free of the delimiter come back out of a description split on it. */
  lemma {:induction false} EntryFields(album: string, title: string, artist: string)
    requires !Contains(album, Delimiter) && !Contains(title, Delimiter) && !Contains(artist, Delimiter)
    ensures Split(Entry(album, title, artist), Delimiter) == [album, title, artist]
  {
    DelimiterBorderless();
    var parts := [album, title, artist];
    assert Join(parts, Delimiter) == Entry(album, title, artist) by {
      assert parts[1..] == [title, artist];
      assert parts[1..][1..] == [artist];
      assert Join([artist], Delimiter) == artist;
      assert Join([title, artist], Delimiter) == title + Delimiter + artist;
    }
    SplitJoin(parts, Delimiter);
  }

  /** The text a transfer compares candidates against: the description with every delimiter a space. */
  function Spaced(entry: string): string {
    Replace(entry, Delimiter, " ")
  }

  /** For a canonical description that is `album title artist`, spaces between. */
  lemma {:induction false} SpacedEntry(album: string, title: string, artist: string)
    requires !Contains(album, Delimiter) && !Contains(title, Delimiter) && !Contains(artist, Delimiter)
    ensures Spaced(Entry(album, title, artist)) == album + " " + title + " " + artist
  {
    EntryFields(album, title, artist);
    var parts := [album, title, artist];
    assert parts[1..] == [title, artist];
    assert parts[1..][1..] == [artist];
    assert Join([artist], " ") == artist;
    assert Join([title, artist], " ") == title + " " + artist;
    assert Join(parts, " ") == album + " " + (title + " " + artist);
  }
}
