/** The genre grouping engine: which artists to look up for the saved
    tracks, and the mapping from each genre tag to the saved tracks that have
    an artist carrying it. */
module Grouping {
  import opened Types
  import opened Sequences

  /** Every artist reference of every track, in order (the `SelectMany` over
      the tracks' artists). */
  function ArtistRefs(tracks: seq<Track>): seq<ArtistId>
  {
    if tracks == [] then [] else ArtistRefs(tracks[..|tracks| - 1]) + tracks[|tracks| - 1].artists
  }

  /** The references are exactly the artists of the tracks. */
  lemma {:induction false} ArtistRefsSpec(tracks: seq<Track>)
    ensures forall x | x in ArtistRefs(tracks) :: exists i :: 0 <= i < |tracks| && x in tracks[i].artists
    ensures forall i, x | 0 <= i < |tracks| && x in tracks[i].artists :: x in ArtistRefs(tracks)
  {
    if tracks != [] {
      var p := tracks[..|tracks| - 1];
      ArtistRefsSpec(p);
      assert forall i | 0 <= i < |p| :: tracks[i] == p[i];
    }
  }

  /** The artist identities the organiser looks up, each once. */
  function ArtistIdsToFetch(tracks: seq<Track>): seq<ArtistId>
  {
    Distinct(ArtistRefs(tracks))
  }

  /** The identities looked up are exactly the artists of the saved tracks,
      without repeats, in the order in which they first appear. */
  lemma ArtistIdsToFetchSpec(tracks: seq<Track>)
    ensures forall x | x in ArtistIdsToFetch(tracks) :: x in ArtistRefs(tracks)
    ensures forall x ::
      x in ArtistIdsToFetch(tracks) <==> exists i :: 0 <= i < |tracks| && x in tracks[i].artists
    ensures NoDuplicates(ArtistIdsToFetch(tracks))
    ensures forall i, j | 0 <= i < j < |ArtistIdsToFetch(tracks)| ::
      FirstIndex(ArtistRefs(tracks), ArtistIdsToFetch(tracks)[i])
        < FirstIndex(ArtistRefs(tracks), ArtistIdsToFetch(tracks)[j])
  {
    ArtistRefsSpec(tracks);
    DistinctSpec(ArtistRefs(tracks));
    DistinctKeepsFirstOccurrenceOrder(ArtistRefs(tracks));
  }

  /** Every genre tag of every artist, in order, repeats kept. */
  function AllGenres(artists: seq<Artist>): seq<Genre>
  {
    if artists == [] then [] else AllGenres(artists[..|artists| - 1]) + artists[|artists| - 1].genres
  }

  /** The tags listed are exactly the tags of the artists. */
  lemma {:induction false} AllGenresSpec(artists: seq<Artist>)
    ensures forall g | g in AllGenres(artists) :: exists i :: 0 <= i < |artists| && g in artists[i].genres
    ensures forall i, g | 0 <= i < |artists| && g in artists[i].genres :: g in AllGenres(artists)
  {
    if artists != [] {
      var p := artists[..|artists| - 1];
      AllGenresSpec(p);
      assert forall i | 0 <= i < |p| :: artists[i] == p[i];
    }
  }

  /** `artists.FirstOrDefault(y => y.Id == id)`. */
  function Resolve(artists: seq<Artist>, id: ArtistId): Option<Artist>
  {
    var k := FirstWhere(artists, (a: Artist) => a.id == id);
    if k < |artists| then Some(artists[k]) else None
  }

  /** The artist that `id` resolves to carries `genre`; an unresolved
      artist carries nothing. */
  predicate CarriesGenre(artists: seq<Artist>, id: ArtistId, genre: Genre)
  {
    match Resolve(artists, id)
    case Some(a) => genre in a.genres
    case None => false
  }

  /** Some artist of the track carries `genre`. */
  predicate HasGenre(track: Track, artists: seq<Artist>, genre: Genre)
  {
    exists x | x in track.artists :: CarriesGenre(artists, x, genre)
  }

  /** A track carries a genre exactly when one of its artists' first entry
      in `artists` lists that genre. */
  lemma HasGenreIff(track: Track, artists: seq<Artist>, genre: Genre)
    ensures HasGenre(track, artists, genre) <==>
      exists x, i | x in track.artists && 0 <= i < |artists| ::
        && artists[i].id == x
        && (forall j | 0 <= j < i :: artists[j].id != x)
        && genre in artists[i].genres
  {
    if HasGenre(track, artists, genre) {
      var x :| x in track.artists && CarriesGenre(artists, x, genre);
      var i := FirstWhere(artists, (a: Artist) => a.id == x);
      FirstWhereSpec(artists, (a: Artist) => a.id == x);
      assert artists[i].id == x;
    }
    if exists x, i | x in track.artists && 0 <= i < |artists| ::
        && artists[i].id == x
        && (forall j | 0 <= j < i :: artists[j].id != x)
        && genre in artists[i].genres
    {
      var x, i :| x in track.artists && 0 <= i < |artists|
        && artists[i].id == x
        && (forall j | 0 <= j < i :: artists[j].id != x)
        && genre in artists[i].genres;
      FirstWhereSpec(artists, (a: Artist) => a.id == x);
      assert FirstWhere(artists, (a: Artist) => a.id == x) == i;
      assert CarriesGenre(artists, x, genre);
    }
  }

  /** The group of one genre: the tracks carrying it, in input order. */
  function GroupOf(genre: Genre, tracks: seq<Track>, artists: seq<Artist>): seq<Track>
  {
    if tracks == [] then []
    else
      var p, last := tracks[..|tracks| - 1], tracks[|tracks| - 1];
      var g := GroupOf(genre, p, artists);
      if HasGenre(last, artists, genre) then g + [last] else g
  }

  /** A group holds exactly the tracks that carry its genre. */
  lemma {:induction false} GroupOfSpec(genre: Genre, tracks: seq<Track>, artists: seq<Artist>)
    ensures forall t | t in GroupOf(genre, tracks, artists) :: t in tracks && HasGenre(t, artists, genre)
    ensures forall t | t in tracks && HasGenre(t, artists, genre) :: t in GroupOf(genre, tracks, artists)
  {
    if tracks != [] {
      var p, last := tracks[..|tracks| - 1], tracks[|tracks| - 1];
      GroupOfSpec(genre, p, artists);
      assert tracks == p + [last];
    }
  }

  /** A group lists its tracks in the order of the saved-track list. */
  lemma {:induction false} GroupIsSubsequence(genre: Genre, tracks: seq<Track>, artists: seq<Artist>)
    ensures IsSubsequence(GroupOf(genre, tracks, artists), tracks)
  {
    if tracks != [] {
      var p, last := tracks[..|tracks| - 1], tracks[|tracks| - 1];
      GroupIsSubsequence(genre, p, artists);
      GroupOfSpec(genre, p, artists);
      var g := GroupOf(genre, p, artists);
      if HasGenre(last, artists, genre) {
        assert GroupOf(genre, tracks, artists) == g + [last];
        assert (g + [last])[..|g|] == g;
      } else if g != [] {
        assert g[|g| - 1] in g;
      }
    }
  }

  /** A track occurs in its genre's group exactly as often as in the saved
      tracks, and not at all in a group it does not carry. */
  lemma {:induction false} GroupMultiplicity(genre: Genre, tracks: seq<Track>, artists: seq<Artist>, t: Track)
    ensures multiset(GroupOf(genre, tracks, artists))[t]
      == if HasGenre(t, artists, genre) then multiset(tracks)[t] else 0
  {
    if tracks != [] {
      var p, last := tracks[..|tracks| - 1], tracks[|tracks| - 1];
      GroupMultiplicity(genre, p, artists, t);
      assert tracks == p + [last];
    }
  }

  /** Without repeated saved tracks, no group repeats a track. */
  lemma {:induction false} GroupNoDuplicates(genre: Genre, tracks: seq<Track>, artists: seq<Artist>)
    requires NoDuplicates(tracks)
    ensures NoDuplicates(GroupOf(genre, tracks, artists))
  {
    if tracks != [] {
      var p, last := tracks[..|tracks| - 1], tracks[|tracks| - 1];
      assert NoDuplicates(p);
      GroupNoDuplicates(genre, p, artists);
      GroupOfSpec(genre, p, artists);
      var g := GroupOf(genre, p, artists);
      assert last !in p;
      assert last !in g;
    }
  }

  /** The result of grouping: one entry per distinct genre tag of the
      artists, holding that genre's group. */
  function Groups(tracks: seq<Track>, artists: seq<Artist>): map<Genre, seq<Track>>
  {
    map g | g in AllGenres(artists) :: GroupOf(g, tracks, artists)
  }

  /** There is one group per genre tag carried by some artist, and it holds
      exactly the tracks carrying that tag, in the order of the saved tracks. */
  lemma GroupsSpec(tracks: seq<Track>, artists: seq<Artist>)
    ensures forall g | g in Groups(tracks, artists) :: exists i :: 0 <= i < |artists| && g in artists[i].genres
    ensures forall i, g | 0 <= i < |artists| && g in artists[i].genres :: g in Groups(tracks, artists)
    ensures forall g, t | g in Groups(tracks, artists) ::
      t in Groups(tracks, artists)[g] <==> t in tracks && HasGenre(t, artists, g)
    ensures forall g | g in Groups(tracks, artists) :: IsSubsequence(Groups(tracks, artists)[g], tracks)
  {
    AllGenresSpec(artists);
    forall g | g in Groups(tracks, artists)
      ensures forall t :: t in Groups(tracks, artists)[g] <==> t in tracks && HasGenre(t, artists, g)
      ensures IsSubsequence(Groups(tracks, artists)[g], tracks)
    {
      GroupOfSpec(g, tracks, artists);
      GroupIsSubsequence(g, tracks, artists);
    }
  }

  /** Builds the genre groups one genre at a time, each group by a pass over
      the saved tracks; every genre is inserted once. */
  method BuildGroups(tracks: seq<Track>, artists: seq<Artist>) returns (groups: map<Genre, seq<Track>>)
    ensures groups == Groups(tracks, artists)
  {
    var genres := Distinct(AllGenres(artists));
    DistinctSpec(AllGenres(artists));
    groups := map[];
    for i := 0 to |genres|
      invariant forall g :: g in groups <==> g in genres[..i]
      invariant forall g | g in groups :: groups[g] == GroupOf(g, tracks, artists)
    {
      var genre := genres[i];
      var group := [];
      for j := 0 to |tracks|
        invariant group == GroupOf(genre, tracks[..j], artists)
      {
        assert tracks[..j + 1][..j] == tracks[..j];
        if HasGenre(tracks[j], artists, genre) {
          group := group + [tracks[j]];
        }
      }
      assert tracks[..|tracks|] == tracks;
      // the genres are distinct, so the insert-if-absent always inserts
      assert genre !in groups;
      groups := groups[genre := group];
    }
    assert genres[..|genres|] == genres;
  }

  /** Two saved tracks, track1 by X (rock) and track2 by Y (rock, jazz):
      rock groups both tracks, jazz only track2. */
  lemma TwoTrackExample()
    ensures Groups([Track1, Track2], ExampleArtists)
      == map["rock" := [Track1, Track2], "jazz" := [Track2]]
  {
    ExampleGenres();
    ExampleGroupOf("rock");
    ExampleGroupOf("jazz");
    GroupsFromParts([Track1, Track2], ExampleArtists, Track1, Track2);
  }

  const Track1 := Track("track1", "uri:track1", ["X"])
  const Track2 := Track("track2", "uri:track2", ["Y"])
  const ExampleArtists := [Artist("X", ["rock"]), Artist("Y", ["rock", "jazz"])]

  lemma ExampleGenres()
    ensures AllGenres(ExampleArtists) == ["rock", "rock", "jazz"]
  {
    assert ExampleArtists[..1] == [ExampleArtists[0]] && ExampleArtists[..1][..0] == [];
  }

  lemma ExampleResolve()
    ensures Resolve(ExampleArtists, "X") == Some(ExampleArtists[0])
    ensures Resolve(ExampleArtists, "Y") == Some(ExampleArtists[1])
  {
    assert ExampleArtists[1..][0] == ExampleArtists[1];
  }

  lemma ExampleHasGenre(genre: Genre)
    requires genre == "rock" || genre == "jazz"
    ensures HasGenre(Track1, ExampleArtists, genre) <==> genre == "rock"
    ensures HasGenre(Track2, ExampleArtists, genre)
  {
    ExampleResolve();
    assert CarriesGenre(ExampleArtists, "Y", genre);
    assert "Y" in Track2.artists;
    if genre == "rock" {
      assert "X" in Track1.artists && CarriesGenre(ExampleArtists, "X", genre);
    } else {
      assert !CarriesGenre(ExampleArtists, "X", genre);
      assert forall x | x in Track1.artists :: x == "X";
    }
  }

  lemma ExampleGroupOf(genre: Genre)
    requires genre == "rock" || genre == "jazz"
    ensures GroupOf(genre, [Track1, Track2], ExampleArtists)
      == if genre == "rock" then [Track1, Track2] else [Track2]
  {
    ExampleHasGenre(genre);
    var one := [Track1, Track2][..1];
    assert one == [Track1] && one[..0] == [];
    assert GroupOf(genre, [Track1], ExampleArtists) == if genre == "rock" then [Track1] else [];
  }

  lemma GroupsFromParts(tracks: seq<Track>, artists: seq<Artist>, t1: Track, t2: Track)
    requires AllGenres(artists) == ["rock", "rock", "jazz"]
    requires GroupOf("rock", tracks, artists) == [t1, t2]
    requires GroupOf("jazz", tracks, artists) == [t2]
    ensures Groups(tracks, artists) == map["rock" := [t1, t2], "jazz" := [t2]]
  {
  }
}
