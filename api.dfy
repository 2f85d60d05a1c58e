/** The streaming service as the organiser sees it: an in-memory store of the
    user's saved tracks, playlists and artists, which records every request
    it receives and fails the requests that its failure plan names. */
module Api {
  import opened Types

  /** Message of the failure reported for a playlist the store does not hold. */
  const NotFoundMessage := "Not found."

  /** The artists a several-artists lookup returns for `ids`, in request
      order; identities the store does not know are left out. */
  function KnownArtists(known: map<ArtistId, Artist>, ids: seq<ArtistId>): (r: seq<Artist>)
    ensures |r| <= |ids|
  {
    if ids == [] then []
    else
      var p, x := ids[..|ids| - 1], ids[|ids| - 1];
      var r := KnownArtists(known, p);
      if x in known then r + [known[x]] else r
  }

  /** The lookup returns the description of every known identity asked for,
      and nothing else. */
  lemma {:induction false} KnownArtistsSpec(known: map<ArtistId, Artist>, ids: seq<ArtistId>)
    ensures forall a | a in KnownArtists(known, ids) :: exists x | x in ids :: x in known && known[x] == a
    ensures forall x | x in ids && x in known :: known[x] in KnownArtists(known, ids)
  {
    if ids != [] {
      var p, x := ids[..|ids| - 1], ids[|ids| - 1];
      assert ids == p + [x];
      KnownArtistsSpec(known, p);
    }
  }

  /** Looking up a list in consecutive parts returns the parts' results in order. */
  lemma {:induction false} KnownArtistsAppend(known: map<ArtistId, Artist>, a: seq<ArtistId>, b: seq<ArtistId>)
    ensures KnownArtists(known, a + b) == KnownArtists(known, a) + KnownArtists(known, b)
  {
    if b == [] {
      assert a + b == a;
    } else {
      var b', x := b[..|b| - 1], b[|b| - 1];
      assert (a + b)[..|a + b| - 1] == a + b';
      KnownArtistsAppend(known, a, b');
    }
  }

  /** The tracks the given URIs stand for, in order. */
  function TracksOf(catalog: Uri -> Track, uris: seq<Uri>): seq<Track>
  {
    seq(|uris|, i requires 0 <= i < |uris| => catalog(uris[i]))
  }

  /** When every URI resolves to a track with that URI, the added tracks'
      URIs are the requested ones. */
  lemma UrisOfTracksOf(catalog: Uri -> Track, uris: seq<Uri>)
    requires forall i | 0 <= i < |uris| :: catalog(uris[i]).uri == uris[i]
    ensures UrisOf(TracksOf(catalog, uris)) == uris
  {
  }

  /** No request numbered from `lo` up to, not including, `hi` is planned
      to fail. */
  ghost predicate NoneFail(failures: map<nat, string>, lo: int, hi: int)
  {
    forall n: nat | lo <= n < hi :: n !in failures
  }

  /** What the store answers request number `n` on a playlist it holds
      (`known`) or does not hold: the planned failure first, then "not
      found", otherwise success. */
  function Verdict(failures: map<nat, string>, n: nat, known: bool): Outcome
  {
    if n in failures then Fail(failures[n])
    else if !known then Fail(NotFoundMessage)
    else Pass
  }

  lemma NoneFailStep(failures: map<nat, string>, lo: int, hi: nat)
    requires NoneFail(failures, lo, hi) && hi !in failures
    ensures NoneFail(failures, lo, hi + 1)
  {
  }

  lemma NoneFailJoin(failures: map<nat, string>, lo: int, mid: int, hi: int)
    requires NoneFail(failures, lo, mid) && NoneFail(failures, mid, hi)
    ensures NoneFail(failures, lo, hi)
  {
  }

  lemma NoneFailBroken(failures: map<nat, string>, lo: int, n: nat, hi: int)
    requires lo <= n < hi && n in failures
    ensures !NoneFail(failures, lo, hi)
  {
  }

  lemma NoneFailShrink(failures: map<nat, string>, lo: int, mid: int, hi: int)
    requires NoneFail(failures, lo, hi) && mid <= hi
    ensures NoneFail(failures, lo, mid)
  {
  }

  lemma NoneFailCons(failures: map<nat, string>, lo: nat, hi: int)
    requires lo !in failures
    ensures NoneFail(failures, lo, hi) <==> NoneFail(failures, lo + 1, hi)
  {
  }

  /** A run of requests numbered from `lo` that sent `sent` of its `planned`
      requests, every one but the last going through, and that reports the
      verdict of the last one, passes exactly when its playlist is known and
      none of the planned requests is planned to fail. */
  lemma RunPasses(failures: map<nat, string>, lo: nat, sent: nat, planned: nat, known: bool, o: Outcome)
    requires 0 < sent <= planned
    requires NoneFail(failures, lo, lo + sent - 1)
    requires o == Verdict(failures, lo + sent - 1, known)
    requires o.Pass? ==> sent == planned
    ensures o.Pass? <==> known && NoneFail(failures, lo, lo + planned)
  {
    if o.Pass? {
      NoneFailStep(failures, lo, lo + sent - 1);
    } else if known {
      assert lo + sent - 1 in failures;
    }
  }

  /** The changeable part of the store. */
  datatype Store = Store(
    library: seq<Track>,
    playlists: seq<PlaylistInfo>,
    contents: map<PlaylistId, seq<Track>>,
    nextId: PlaylistId)

  class SpotifyClient {
    /** The user's saved tracks. */
    var library: seq<Track>
    /** The user's playlist listing. */
    var playlists: seq<PlaylistInfo>
    /** The tracks of every playlist the store holds. */
    var contents: map<PlaylistId, seq<Track>>
    /** The identifier the next created playlist receives. */
    var nextId: PlaylistId
    /** Every request received so far, in order. */
    var trace: seq<Request>

    /** The artists the store can describe. */
    const artists: map<ArtistId, Artist>
    /** The track every URI stands for. */
    const catalog: Uri -> Track
    /** What a removal request leaves of a playlist's tracks. */
    const removal: (seq<Track>, seq<Uri>) -> seq<Track>
    /** Request number `n` (counted from 0) fails with message `failures[n]`. */
    const failures: map<nat, string>

    /** The listing names only playlists the store holds, and every held
        identifier is below the next one to allocate. */
    ghost predicate Valid()
      reads this
    {
      && (forall p | p in playlists :: p.id in contents)
      && (forall id | id in contents :: id < nextId)
    }

    /** Every artist record is filed under its own identity, and every URI
        stands for a track with that URI. Both are about the store's fixed
        data, so they hold for the client's whole life once constructed. */
    ghost predicate Coherent()
    {
      && (forall x | x in artists :: artists[x].id == x)
      && (forall u :: catalog(u).uri == u)
    }

    function State(): Store
      reads this
    {
      Store(library, playlists, contents, nextId)
    }

    constructor (library: seq<Track>, playlists: seq<PlaylistInfo>, contents: map<PlaylistId, seq<Track>>,
                 nextId: PlaylistId, artists: map<ArtistId, Artist>, catalog: Uri -> Track,
                 removal: (seq<Track>, seq<Uri>) -> seq<Track>, failures: map<nat, string>)
      requires forall p | p in playlists :: p.id in contents
      requires forall id | id in contents :: id < nextId
      requires forall x | x in artists :: artists[x].id == x
      requires forall u :: catalog(u).uri == u
      ensures Valid() && Coherent()
      ensures this.library == library && this.playlists == playlists && this.contents == contents
      ensures this.nextId == nextId
      ensures this.artists == artists && this.catalog == catalog && this.removal == removal
      ensures this.failures == failures && trace == []
    {
      this.library := library;
      this.playlists := playlists;
      this.contents := contents;
      this.nextId := nextId;
      this.trace := [];
      this.artists := artists;
      this.catalog := catalog;
      this.removal := removal;
      this.failures := failures;
    }

    /** Library.GetTracks: the saved tracks. */
    method LibraryGetTracks() returns (r: Result<seq<Track>>)
      requires Valid()
      modifies this
      ensures Valid() && State() == old(State())
      ensures trace == old(trace) + [GetSavedTracks]
      ensures r == if |old(trace)| in failures then Err(failures[|old(trace)|]) else Ok(library)
    {
      var n := |trace|;
      trace := trace + [GetSavedTracks];
      if n in failures {
        r := Err(failures[n]);
      } else {
        r := Ok(library);
      }
    }

    /** Playlists.CurrentUsers: the user's playlist listing. */
    method PlaylistsCurrentUsers() returns (r: Result<seq<PlaylistInfo>>)
      requires Valid()
      modifies this
      ensures Valid() && State() == old(State())
      ensures trace == old(trace) + [GetCurrentUsersPlaylists]
      ensures r == if |old(trace)| in failures then Err(failures[|old(trace)|]) else Ok(playlists)
    {
      var n := |trace|;
      trace := trace + [GetCurrentUsersPlaylists];
      if n in failures {
        r := Err(failures[n]);
      } else {
        r := Ok(playlists);
      }
    }

    /** Playlists.Get: the tracks of one playlist. */
    method PlaylistsGet(id: PlaylistId) returns (r: Result<seq<Track>>)
      requires Valid()
      modifies this
      ensures Valid() && State() == old(State())
      ensures trace == old(trace) + [GetPlaylist(id)]
      ensures r == if |old(trace)| in failures then Err(failures[|old(trace)|])
                   else if id !in contents then Err(NotFoundMessage)
                   else Ok(contents[id])
    {
      var n := |trace|;
      trace := trace + [GetPlaylist(id)];
      if n in failures {
        r := Err(failures[n]);
      } else if id !in contents {
        r := Err(NotFoundMessage);
      } else {
        r := Ok(contents[id]);
      }
    }

    /** Artists.GetSeveral: the descriptions of the listed artists. */
    method ArtistsGetSeveral(ids: seq<ArtistId>) returns (r: Result<seq<Artist>>)
      requires Valid()
      modifies this
      ensures Valid() && State() == old(State())
      ensures trace == old(trace) + [GetSeveralArtists(ids)]
      ensures r == if |old(trace)| in failures then Err(failures[|old(trace)|])
                   else Ok(KnownArtists(artists, ids))
    {
      var n := |trace|;
      trace := trace + [GetSeveralArtists(ids)];
      if n in failures {
        r := Err(failures[n]);
      } else {
        r := Ok(KnownArtists(artists, ids));
      }
    }

    /** Playlists.Create: a new, empty playlist owned by `owner`, appended
        to the listing under a fresh identifier. */
    method PlaylistsCreate(owner: UserId, name: string, description: string, isPublic: bool)
      returns (r: Result<PlaylistInfo>)
      requires Valid()
      modifies this
      ensures Valid()
      ensures trace == old(trace) + [CreatePlaylist(owner, name, description, isPublic)]
      ensures |old(trace)| in failures ==> r == Err(failures[|old(trace)|]) && State() == old(State())
      ensures |old(trace)| !in failures ==>
        && r == Ok(PlaylistInfo(old(nextId), name))
        && old(nextId) !in old(contents)
        && State() == old(State()).(
             playlists := old(playlists) + [r.value],
             contents := old(contents)[old(nextId) := []],
             nextId := old(nextId) + 1)
    {
      var n := |trace|;
      trace := trace + [CreatePlaylist(owner, name, description, isPublic)];
      if n in failures {
        r := Err(failures[n]);
      } else {
        var info := PlaylistInfo(nextId, name);
        playlists := playlists + [info];
        contents := contents[nextId := []];
        nextId := nextId + 1;
        r := Ok(info);
      }
    }

    /** Playlists.AddItems: appends the tracks of `uris` to a playlist. */
    method PlaylistsAddItems(id: PlaylistId, uris: seq<Uri>) returns (o: Outcome)
      requires Valid()
      modifies this
      ensures Valid()
      ensures trace == old(trace) + [AddItems(id, uris)]
      ensures o == Verdict(failures, |old(trace)|, id in old(contents))
      ensures o.Fail? ==> State() == old(State())
      ensures o.Pass? ==> State() == old(State()).(
        contents := old(contents)[id := old(contents)[id] + TracksOf(catalog, uris)])
    {
      var n := |trace|;
      trace := trace + [AddItems(id, uris)];
      if n in failures {
        o := Fail(failures[n]);
      } else if id !in contents {
        o := Fail(NotFoundMessage);
      } else {
        contents := contents[id := contents[id] + TracksOf(catalog, uris)];
        o := Pass;
      }
    }

    /** Playlists.RemoveItems: removes the listed URIs from a playlist. */
    method PlaylistsRemoveItems(id: PlaylistId, uris: seq<Uri>) returns (o: Outcome)
      requires Valid()
      modifies this
      ensures Valid()
      ensures trace == old(trace) + [RemoveItems(id, uris)]
      ensures o == Verdict(failures, |old(trace)|, id in old(contents))
      ensures o.Fail? ==> State() == old(State())
      ensures o.Pass? ==> State() == old(State()).(
        contents := old(contents)[id := removal(old(contents)[id], uris)])
    {
      var n := |trace|;
      trace := trace + [RemoveItems(id, uris)];
      if n in failures {
        o := Fail(failures[n]);
      } else if id !in contents {
        o := Fail(NotFoundMessage);
      } else {
        contents := contents[id := removal(contents[id], uris)];
        o := Pass;
      }
    }
  }
}
