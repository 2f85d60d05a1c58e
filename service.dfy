/** The playlist organiser: a session bound to one user of the streaming
    service, which groups the user's saved tracks by artist genre, creates or
    extends one playlist per large enough genre, removes repeated tracks from
    playlists, and keeps a progress log of what it did. */
module Service {
  import opened Types
  import opened Sequences
  import opened Grouping
  import opened Duplicates
  import opened Api
  import opened Plans
  import opened Log

  /** The lines GetTrackGroupsBySavedTracks logs when nothing fails. */
  const GroupingLog := [GettingSavedTracks, GettingArtists, PuttingTogether]

  class SpotifyService {
    const api: SpotifyClient
    /** Identity of the signed-in user, owner of created playlists. */
    const profileId: UserId
    /** The progress log, one entry per line. */
    var messages: seq<LogLine>

    constructor (api: SpotifyClient, profileId: UserId)
      ensures this.api == api && this.profileId == profileId && messages == []
    {
      this.api := api;
      this.profileId := profileId;
      messages := [];
    }

    method GetSavedTracks() returns (r: Result<seq<Track>>)
      requires api.Valid()
      modifies this, api
      ensures api.Valid() && api.State() == old(api.State())
      ensures messages == old(messages) + [GettingSavedTracks]
      ensures api.trace == old(api.trace) + [Request.GetSavedTracks]
      ensures r == if |old(api.trace)| in api.failures then Err(api.failures[|old(api.trace)|]) else Ok(api.library)
    {
      messages := messages + [GettingSavedTracks];
      r := api.LibraryGetTracks();
    }

    method GetPlaylists() returns (r: Result<seq<PlaylistInfo>>)
      requires api.Valid()
      modifies this, api
      ensures api.Valid() && api.State() == old(api.State())
      ensures messages == old(messages) + [GettingPlaylists]
      ensures api.trace == old(api.trace) + [GetCurrentUsersPlaylists]
      ensures r == if |old(api.trace)| in api.failures then Err(api.failures[|old(api.trace)|]) else Ok(api.playlists)
    {
      messages := messages + [GettingPlaylists];
      r := api.PlaylistsCurrentUsers();
    }

    method GetPlaylistTracks(id: PlaylistId) returns (r: Result<seq<Track>>)
      requires api.Valid()
      modifies api
      ensures api.Valid() && api.State() == old(api.State())
      ensures api.trace == old(api.trace) + [GetPlaylist(id)]
      ensures r.Ok? ==> id in api.contents && r.value == api.contents[id]
      ensures id !in api.contents ==> r.Err?
      ensures r == if |old(api.trace)| in api.failures then Err(api.failures[|old(api.trace)|])
                   else if id !in api.contents then Err(NotFoundMessage)
                   else Ok(api.contents[id])
    {
      r := api.PlaylistsGet(id);
    }

    /** Looks up the artists of the tracks, 50 distinct identities per request. */
    method GetArtistsByTracks(tracks: seq<Track>) returns (r: Result<seq<Artist>>, ghost sent: nat)
      requires api.Valid()
      modifies this, api
      ensures api.Valid() && api.State() == old(api.State())
      ensures messages == old(messages) + [GettingArtists]
      ensures sent <= |ArtistPlan(tracks)|
      ensures api.trace == old(api.trace) + ArtistPlan(tracks)[..sent]
      ensures r.Ok? ==> sent == |ArtistPlan(tracks)| && r.value == KnownArtists(api.artists, ArtistIdsToFetch(tracks))
      ensures r.Err? ==> 0 < sent
      ensures NoneFail(api.failures, |old(api.trace)|, |api.trace| - 1)
      ensures r.Err? ==> |api.trace| - 1 in api.failures && r.message == api.failures[|api.trace| - 1]
      ensures r.Ok? <==> NoneFail(api.failures, |old(api.trace)|, |old(api.trace)| + |ArtistPlan(tracks)|)
    {
      messages := messages + [GettingArtists];
      r, sent := FetchArtists(ArtistIdsToFetch(tracks));
    }

    /** The loop of GetArtistsByTracks: looks the identities up in batches
        of at most 50, stopping at the first failure. */
    method FetchArtists(artistIds: seq<ArtistId>) returns (r: Result<seq<Artist>>, ghost sent: nat)
      requires api.Valid()
      modifies api
      ensures api.Valid() && api.State() == old(api.State())
      ensures sent <= |Chunks(artistIds, BatchSize)|
      ensures api.trace == old(api.trace) + ArtistRequests(Chunks(artistIds, BatchSize))[..sent]
      ensures r.Ok? ==> sent == |Chunks(artistIds, BatchSize)| && r.value == KnownArtists(api.artists, artistIds)
      ensures r.Err? ==> 0 < sent
      ensures NoneFail(api.failures, |old(api.trace)|, |api.trace| - 1)
      ensures r.Err? ==> |api.trace| - 1 in api.failures && r.message == api.failures[|api.trace| - 1]
      ensures r.Ok? <==> NoneFail(api.failures, |old(api.trace)|, |api.trace|)
    {
      var result := [];
      ghost var batches := Chunks(artistIds, BatchSize);
      ghost var plan := ArtistRequests(batches);
      var i := 0;
      while |artistIds| > i * BatchSize
        invariant 0 <= i <= |batches|
        invariant api.Valid() && api.State() == old(api.State())
        invariant api.trace == old(api.trace) + plan[..i]
        invariant result == KnownArtists(api.artists, Flatten(batches[..i]))
        invariant NoneFail(api.failures, |old(api.trace)|, |api.trace|)
        decreases |batches| - i
      {
        ChunkGuard(artistIds, BatchSize, i);
        var currentIds := Take(Skip(artistIds, i * BatchSize), BatchSize);
        ChunkAt(artistIds, BatchSize, i);
        ghost var before := |api.trace|;
        var response := api.ArtistsGetSeveral(currentIds);
        PrefixStep(plan, i);
        AppendAssoc(old(api.trace), plan[..i], [GetSeveralArtists(currentIds)]);
        if response.Err? {
          NoneFailBroken(api.failures, |old(api.trace)|, before, |api.trace|);
          return Err(response.message), i + 1;
        }
        NoneFailStep(api.failures, |old(api.trace)|, before);
        FlattenPrefixStep(batches, i);
        KnownArtistsAppend(api.artists, Flatten(batches[..i]), currentIds);
        result := result + response.value;
        i := i + 1;
      }
      ChunkGuard(artistIds, BatchSize, i);
      assert batches[..i] == batches;
      ChunksReassemble(artistIds, BatchSize);
      NoneFailShrink(api.failures, |old(api.trace)|, |api.trace| - 1, |api.trace|);
      r, sent := Ok(result), i;
    }

    /** Groups the saved tracks by the genres of the given artists. */
    method GetTrackGroups(tracks: seq<Track>, artists: seq<Artist>) returns (groups: map<Genre, seq<Track>>)
      modifies this
      ensures messages == old(messages) + [PuttingTogether]
      ensures groups == Groups(tracks, artists)
    {
      messages := messages + [PuttingTogether];
      groups := BuildGroups(tracks, artists);
    }

    /** Reads the saved tracks, looks their artists up and groups the tracks
        by genre; the first failed request ends the operation. */
    method GetTrackGroupsBySavedTracks() returns (r: Result<map<Genre, seq<Track>>>, ghost sent: nat)
      requires api.Valid()
      modifies this, api
      ensures api.Valid() && api.State() == old(api.State())
      ensures 0 < sent <= 1 + |ArtistPlan(api.library)|
      ensures api.trace == old(api.trace) + [Request.GetSavedTracks] + ArtistPlan(api.library)[..sent - 1]
      ensures NoneFail(api.failures, |old(api.trace)|, |api.trace| - 1)
      ensures r.Err? ==> |api.trace| - 1 in api.failures && r.message == api.failures[|api.trace| - 1]
      ensures r.Ok? <==> NoneFail(api.failures, |old(api.trace)|, |old(api.trace)| + 1 + |ArtistPlan(api.library)|)
      ensures r.Ok? ==>
        && sent == 1 + |ArtistPlan(api.library)|
        && r.value == Groups(api.library, KnownArtists(api.artists, ArtistIdsToFetch(api.library)))
        && messages == old(messages) + GroupingLog
      ensures r.Err? ==> messages == old(messages) + GroupingLog[..if sent == 1 then 1 else 2]
    {
      var tracks := GetSavedTracks();
      if tracks.Err? {
        NoneFailBroken(api.failures, |old(api.trace)|, |old(api.trace)|, |old(api.trace)| + 1 + |ArtistPlan(api.library)|);
        return Err(tracks.message), 1;
      }
      ghost var artistsSent;
      var artists;
      artists, artistsSent := GetArtistsByTracks(tracks.value);
      sent := 1 + artistsSent;
      NoneFailCons(api.failures, |old(api.trace)|, |api.trace| - 1);
      NoneFailCons(api.failures, |old(api.trace)|, |old(api.trace)| + 1 + |ArtistPlan(api.library)|);
      if artists.Err? {
        return Err(artists.message), sent;
      }
      var groups := GetTrackGroups(tracks.value, artists.value);
      r := Ok(groups);
    }

    /** Creates a playlist of the signed-in user. */
    method CreatePlaylist(name: string, description: string := DefaultDescription, isPublic: bool := true)
      returns (r: Result<PlaylistInfo>)
      requires api.Valid()
      modifies api
      ensures api.Valid()
      ensures api.trace == old(api.trace) + [Request.CreatePlaylist(profileId, name, description, isPublic)]
      ensures r.Ok? <==> |old(api.trace)| !in api.failures
      ensures r.Err? ==> r.message == api.failures[|old(api.trace)|] && api.State() == old(api.State())
      ensures r.Ok? ==>
        && r.value == PlaylistInfo(old(api.nextId), name)
        && old(api.nextId) !in old(api.contents)
        && api.State() == old(api.State()).(
             playlists := old(api.playlists) + [r.value],
             contents := old(api.contents)[old(api.nextId) := []],
             nextId := old(api.nextId) + 1)
    {
      r := api.PlaylistsCreate(profileId, name, description, isPublic);
    }

    /** Appends the tracks of `uris` to a playlist, 50 per request; a failed
        request ends the operation, keeping what earlier requests added. */
    method AddTracksToPlaylist(id: PlaylistId, uris: seq<Uri>) returns (o: Outcome, ghost sent: nat)
      requires api.Valid()
      modifies api
      ensures api.Valid() && api.State() == old(api.State()).(contents := api.contents)
      ensures sent <= |AddPlan(id, uris)|
      ensures api.trace == old(api.trace) + AddPlan(id, uris)[..sent]
      ensures o.Pass? ==> sent == |AddPlan(id, uris)| && api.contents == Added(old(api.contents), id, api.catalog, uris)
      ensures o.Fail? ==> 0 < sent
      ensures o.Fail? ==>
        api.contents == Added(old(api.contents), id, api.catalog, Flatten(Chunks(uris, BatchSize)[..sent - 1]))
      ensures api.contents.Keys == old(api.contents).Keys
      ensures NoneFail(api.failures, |old(api.trace)|, |api.trace| - 1)
      ensures o.Fail? ==> o == Verdict(api.failures, |api.trace| - 1, id in old(api.contents))
      ensures o.Pass? <==>
        (uris == [] || id in old(api.contents)) && NoneFail(api.failures, |old(api.trace)|, |old(api.trace)| + |AddPlan(id, uris)|)
    {
      ghost var batches := Chunks(uris, BatchSize);
      AddedNothing(api.contents, id, api.catalog);
      o, sent := Pass, 0;
      if |uris| > 0 {
        var i := 0;
        while |uris| > i * BatchSize
          invariant 0 <= i <= |batches|
          invariant api.Valid() && api.State() == old(api.State()).(contents := api.contents)
          invariant api.trace == old(api.trace) + AddPlan(id, uris)[..i]
          invariant api.contents == Added(old(api.contents), id, api.catalog, Flatten(batches[..i]))
          invariant o.Pass?
          invariant NoneFail(api.failures, |old(api.trace)|, |api.trace|)
          invariant 0 < i ==> id in old(api.contents)
          decreases |batches| - i
        {
          ChunkGuard(uris, BatchSize, i);
          var batch := Take(Skip(uris, i * BatchSize), BatchSize);
          ChunkAt(uris, BatchSize, i);
          AddedKeys(old(api.contents), id, api.catalog, Flatten(batches[..i]));
          ghost var before := |api.trace|;
          o := api.PlaylistsAddItems(id, batch);
          PrefixStep(AddPlan(id, uris), i);
          AppendAssoc(old(api.trace), AddPlan(id, uris)[..i], [AddItems(id, batch)]);
          if o.Fail? {
            AddedKeys(old(api.contents), id, api.catalog, Flatten(batches[..i]));
            if before in api.failures {
              NoneFailBroken(api.failures, |old(api.trace)|, before, |old(api.trace)| + |AddPlan(id, uris)|);
            }
            sent := i + 1;
            return;
          }
          NoneFailStep(api.failures, |old(api.trace)|, before);
          FlattenPrefixStep(batches, i);
          AddedTwice(old(api.contents), id, api.catalog, Flatten(batches[..i]), batch);
          i := i + 1;
        }
        ChunkGuard(uris, BatchSize, i);
        assert batches[..i] == batches;
        NoneFailShrink(api.failures, |old(api.trace)|, |api.trace| - 1, |api.trace|);
        sent := i;
      }
      ChunksReassemble(uris, BatchSize);
      AddedKeys(old(api.contents), id, api.catalog, uris);
    }

    /** Adds to a playlist the requested URIs it does not hold yet, each once. */
    method AddTracksWithoutDuplicateToPlaylist(id: PlaylistId, uris: seq<Uri>) returns (o: Outcome, ghost sent: nat)
      requires api.Valid()
      modifies api
      ensures api.Valid() && api.State() == old(api.State()).(contents := api.contents)
      ensures api.contents.Keys == old(api.contents).Keys
      ensures sent <= |ExtendPlan(id, uris, old(api.contents))|
      ensures api.trace == old(api.trace) + ExtendPlan(id, uris, old(api.contents))[..sent]
      ensures o.Pass? ==>
        && sent == |ExtendPlan(id, uris, old(api.contents))|
        && id in old(api.contents)
        && api.contents == Added(old(api.contents), id, api.catalog, NewUris(uris, old(api.contents)[id]))
      ensures o.Fail? ==> 0 < sent
      ensures o.Fail? && sent == 1 ==> api.contents == old(api.contents)
      ensures o.Fail? && sent > 1 ==>
        && id in old(api.contents)
        && api.contents == Added(old(api.contents), id, api.catalog,
                                 Flatten(Chunks(NewUris(uris, old(api.contents)[id]), BatchSize)[..sent - 2]))
      ensures NoneFail(api.failures, |old(api.trace)|, |api.trace| - 1)
      ensures o.Fail? ==> o == Verdict(api.failures, |api.trace| - 1, id in old(api.contents))
      ensures o.Pass? <==>
        id in old(api.contents) && NoneFail(api.failures, |old(api.trace)|, |old(api.trace)| + |ExtendPlan(id, uris, old(api.contents))|)
    {
      var playlistTracks := GetPlaylistTracks(id);
      if playlistTracks.Err? {
        ExtendPlanOpens(id, uris, old(api.contents));
        if |old(api.trace)| in api.failures {
          NoneFailBroken(api.failures, |old(api.trace)|, |old(api.trace)|,
                         |old(api.trace)| + |ExtendPlan(id, uris, old(api.contents))|);
        }
        return Fail(playlistTracks.message), 1;
      }
      ghost var added;
      o, added := AddNewTracks(id, uris, playlistTracks.value);
      sent := 1 + added;
      ExtendPlanSplit(id, uris, old(api.contents), added);
      AppendAssoc(old(api.trace), [GetPlaylist(id)], AddPlan(id, NewUris(uris, playlistTracks.value))[..added]);
      assert id in old(api.contents) && playlistTracks.value == old(api.contents)[id];
      NoneFailCons(api.failures, |old(api.trace)|, |api.trace| - 1);
      NoneFailCons(api.failures, |old(api.trace)|, |old(api.trace)| + |ExtendPlan(id, uris, old(api.contents))|);
    }

    /** The adding half of AddTracksWithoutDuplicateToPlaylist, once the
        playlist's tracks `existing` are read. */
    method AddNewTracks(id: PlaylistId, uris: seq<Uri>, existing: seq<Track>) returns (o: Outcome, ghost sent: nat)
      requires api.Valid()
      modifies api
      ensures api.Valid() && api.State() == old(api.State()).(contents := api.contents)
      ensures api.contents.Keys == old(api.contents).Keys
      ensures sent <= |AddPlan(id, NewUris(uris, existing))|
      ensures api.trace == old(api.trace) + AddPlan(id, NewUris(uris, existing))[..sent]
      ensures o.Pass? ==>
        sent == |AddPlan(id, NewUris(uris, existing))| && api.contents == Added(old(api.contents), id, api.catalog, NewUris(uris, existing))
      ensures o.Fail? ==>
        0 < sent && api.contents == Added(old(api.contents), id, api.catalog, Flatten(Chunks(NewUris(uris, existing), BatchSize)[..sent - 1]))
      ensures NoneFail(api.failures, |old(api.trace)|, |api.trace| - 1)
      ensures o.Fail? ==> o == Verdict(api.failures, |api.trace| - 1, id in old(api.contents))
      ensures o.Pass? <==>
        (NewUris(uris, existing) == [] || id in old(api.contents))
        && NoneFail(api.failures, |old(api.trace)|, |old(api.trace)| + |AddPlan(id, NewUris(uris, existing))|)
    {
      var trackUris := Distinct(Except(uris, UrisOf(existing)));
      ExceptThenDistinct(uris, UrisOf(existing));
      o, sent := AddTracksToPlaylist(id, trackUris);
    }

    /** Removes the listed URIs from a playlist, in one request if any. */
    method RemoveTracksFromPlaylist(id: PlaylistId, uris: seq<Uri>) returns (o: Outcome)
      requires api.Valid()
      modifies api
      ensures api.Valid()
      ensures uris == [] ==> o.Pass? && api.trace == old(api.trace) && api.State() == old(api.State())
      ensures uris != [] ==> api.trace == old(api.trace) + [RemoveItems(id, uris)]
      ensures o.Fail? ==> api.State() == old(api.State())
      ensures uris != [] ==> o == Verdict(api.failures, |old(api.trace)|, id in old(api.contents))
      ensures uris != [] && o.Pass? ==>
        api.State() == old(api.State()).(contents := old(api.contents)[id := api.removal(old(api.contents)[id], uris)])
    {
      o := Pass;
      if |uris| > 0 {
        o := api.PlaylistsRemoveItems(id, uris);
      }
    }

    /** Removes the later occurrences of every repeated track from a playlist. */
    method RemoveDuplicateTracksFromPlaylist(id: PlaylistId) returns (o: Outcome, ghost sent: nat)
      requires api.Valid()
      modifies api
      ensures api.Valid()
      ensures 0 < sent <= |DedupPlan(id, old(api.contents))| <= 2
      ensures DedupPlan(id, old(api.contents))[0] == GetPlaylist(id)
      ensures api.trace == old(api.trace) + DedupPlan(id, old(api.contents))[..sent]
      ensures o.Pass? ==> sent == |DedupPlan(id, old(api.contents))|
      ensures o.Fail? || sent == 1 ==> api.State() == old(api.State())
      ensures o.Pass? && sent == 2 ==> api.State() == old(api.State()).(
        contents := old(api.contents)[id := api.removal(old(api.contents)[id], DedupPlan(id, old(api.contents))[1].uris)])
      ensures NoneFail(api.failures, |old(api.trace)|, |api.trace| - 1)
      ensures o.Fail? ==> o == Verdict(api.failures, |api.trace| - 1, id in old(api.contents))
      ensures o.Pass? <==>
        id in old(api.contents) && NoneFail(api.failures, |old(api.trace)|, |old(api.trace)| + |DedupPlan(id, old(api.contents))|)
    {
      var playlistTracks := GetPlaylistTracks(id);
      if playlistTracks.Err? {
        if |old(api.trace)| in api.failures {
          NoneFailBroken(api.failures, |old(api.trace)|, |old(api.trace)|,
                         |old(api.trace)| + |DedupPlan(id, old(api.contents))|);
        }
        return Fail(playlistTracks.message), 1;
      }
      NoneFailStep(api.failures, |old(api.trace)|, |old(api.trace)|);
      var duplicateTracks := DuplicateCandidates(playlistTracks.value);
      if |duplicateTracks| > 0 {
        o := api.PlaylistsRemoveItems(id, UrisOf(duplicateTracks));
        sent := 2;
        if |old(api.trace)| + 1 in api.failures {
          NoneFailBroken(api.failures, |old(api.trace)|, |old(api.trace)| + 1, |old(api.trace)| + 2);
        } else {
          NoneFailStep(api.failures, |old(api.trace)|, |old(api.trace)| + 1);
        }
      } else {
        o, sent := Pass, 1;
      }
    }

    /** RemoveDuplicateTracksFromPlaylist as the library-wide run sees it:
        one or two requests, opening with the read of the playlist, and no
        change to the listing. */
    method RunDedup(id: PlaylistId) returns (o: Outcome, ghost segment: seq<Request>)
      requires api.Valid()
      modifies api
      ensures api.Valid()
      ensures api.library == old(api.library) && api.playlists == old(api.playlists) && api.nextId == old(api.nextId)
      ensures api.trace == old(api.trace) + segment
      ensures 0 < |segment| <= 2 && segment[0] == GetPlaylist(id)
      ensures NoneFail(api.failures, |old(api.trace)|, |api.trace| - 1)
      ensures o == Verdict(api.failures, |api.trace| - 1, id in old(api.contents))
    {
      ghost var plan := DedupPlan(id, api.contents);
      ghost var sent;
      o, sent := RemoveDuplicateTracksFromPlaylist(id);
      segment := plan[..sent];
    }

    /** Runs the duplicate remover over every playlist of the listing, in
        listing order; the first failure ends the run. */
    method RemoveDuplicateTracksFromPlaylists()
      returns (o: Outcome, ghost outcomes: seq<Outcome>, ghost segments: seq<seq<Request>>)
      requires api.Valid()
      modifies this, api
      ensures api.Valid()
      ensures api.library == old(api.library) && api.playlists == old(api.playlists) && api.nextId == old(api.nextId)
      ensures messages == old(messages) + [GettingPlaylists]
      ensures api.trace == old(api.trace) + [GetCurrentUsersPlaylists] + Flatten(segments)
      ensures |outcomes| == |segments| && DedupSegments(old(api.playlists), segments)
      ensures forall i | 0 <= i < |outcomes| - 1 :: outcomes[i].Pass?
      ensures o.Pass? ==> |outcomes| == |old(api.playlists)|
      ensures o.Fail? && outcomes != [] ==> o == outcomes[|outcomes| - 1]
      ensures NoneFail(api.failures, |old(api.trace)|, |api.trace| - 1)
      ensures o == Verdict(api.failures, |api.trace| - 1, true)
    {
      var playlists := GetPlaylists();
      outcomes, segments := [], [];
      if playlists.Err? {
        return Fail(playlists.message), outcomes, segments;
      }
      o := Pass;
      for i := 0 to |playlists.value|
        invariant api.Valid()
        invariant api.library == old(api.library) && api.playlists == old(api.playlists) && api.nextId == old(api.nextId)
        invariant messages == old(messages) + [GettingPlaylists]
        invariant api.trace == old(api.trace) + [GetCurrentUsersPlaylists] + Flatten(segments)
        invariant |outcomes| == |segments| == i
        invariant DedupSegments(old(api.playlists), segments)
        invariant forall k | 0 <= k < i :: outcomes[k].Pass?
        invariant o.Pass?
        invariant NoneFail(api.failures, |old(api.trace)|, |api.trace|)
      {
        assert playlists.value[i] in api.playlists;
        ghost var before := |api.trace|;
        ghost var segment;
        var outcome;
        outcome, segment := RunDedup(playlists.value[i].id);
        NoneFailJoin(api.failures, |old(api.trace)|, before, |api.trace| - 1);
        FlattenSnoc(segments, segment);
        AppendAssoc(old(api.trace) + [GetCurrentUsersPlaylists], Flatten(segments), segment);
        DedupSegmentsSnoc(old(api.playlists), segments, segment);
        segments, outcomes := segments + [segment], outcomes + [outcome];
        if outcome.Fail? {
          return outcome, outcomes, segments;
        }
        NoneFailStep(api.failures, |old(api.trace)|, |api.trace| - 1);
      }
      NoneFailShrink(api.failures, |old(api.trace)|, |api.trace| - 1, |api.trace|);
    }

    /** The extending branch of the reconciler: logs the header, adds the
        group's new URIs to the playlist found, and on failure logs a skip
        line instead of stopping. */
    method ExtendGroup(id: PlaylistId, key: Genre, trackUris: seq<Uri>) returns (o: Outcome, ghost sent: nat)
      requires api.Valid()
      modifies this, api
      ensures api.Valid() && api.State() == old(api.State()).(contents := api.contents)
      ensures messages == old(messages) + GroupLog(key, true, o)
      ensures 0 < sent <= |ExtendPlan(id, trackUris, old(api.contents))|
      ensures api.trace == old(api.trace) + ExtendPlan(id, trackUris, old(api.contents))[..sent]
      ensures o.Pass? ==>
        && sent == |ExtendPlan(id, trackUris, old(api.contents))|
        && id in old(api.contents)
        && api.contents == Added(old(api.contents), id, api.catalog, NewUris(trackUris, old(api.contents)[id]))
      ensures api.contents.Keys == old(api.contents).Keys
      ensures NoneFail(api.failures, |old(api.trace)|, |api.trace| - 1)
      ensures o.Fail? ==> o == Verdict(api.failures, |api.trace| - 1, id in old(api.contents))
      ensures o.Pass? <==>
        id in old(api.contents)
        && NoneFail(api.failures, |old(api.trace)|, |old(api.trace)| + |ExtendPlan(id, trackUris, old(api.contents))|)
    {
      messages := messages + [Extending(key)];
      o, sent := AddTracksWithoutDuplicateToPlaylist(id, trackUris);
      if o.Fail? {
        messages := messages + [Skipping(key, o.message)];
      }
    }

    /** The creating branch of the reconciler: logs the header, creates a
        public playlist named after the genre with the default description,
        adds the group's URIs to it, and on failure logs a skip line instead
        of stopping. */
    method CreateGroup(key: Genre, trackUris: seq<Uri>) returns (o: Outcome, ghost sent: nat)
      requires api.Valid()
      modifies this, api
      ensures api.Valid() && api.library == old(api.library)
      ensures messages == old(messages) + GroupLog(key, false, o)
      ensures 0 < sent <= |CreatePlan(profileId, key, old(api.nextId), trackUris)|
      ensures api.trace == old(api.trace) + CreatePlan(profileId, key, old(api.nextId), trackUris)[..sent]
      ensures o.Pass? ==>
        && sent == |CreatePlan(profileId, key, old(api.nextId), trackUris)|
        && api.State() == old(api.State()).(
             playlists := old(api.playlists) + [PlaylistInfo(old(api.nextId), key)],
             contents := old(api.contents)[old(api.nextId) := TracksOf(api.catalog, trackUris)],
             nextId := old(api.nextId) + 1)
      ensures old(api.contents).Keys <= api.contents.Keys
      ensures NoneFail(api.failures, |old(api.trace)|, |api.trace| - 1)
      ensures o.Fail? ==> o == Verdict(api.failures, |api.trace| - 1, true)
      ensures o.Pass? <==>
        NoneFail(api.failures, |old(api.trace)|, |old(api.trace)| + |CreatePlan(profileId, key, old(api.nextId), trackUris)|)
    {
      messages := messages + [Creating(key)];
      var created := CreatePlaylist(key);
      if created.Err? {
        o, sent := Fail(created.message), 1;
        CreatePlanOpens(profileId, key, old(api.nextId), trackUris);
        NoneFailBroken(api.failures, |old(api.trace)|, |old(api.trace)|,
                       |old(api.trace)| + |CreatePlan(profileId, key, old(api.nextId), trackUris)|);
      } else {
        ghost var added;
        o, added := AddTracksToPlaylist(created.value.id, trackUris);
        sent := 1 + added;
        if o.Pass? {
          assert [] + TracksOf(api.catalog, trackUris) == TracksOf(api.catalog, trackUris);
        }
        CreatePlanPrefix(profileId, key, old(api.nextId), trackUris, added);
        AppendAssoc(old(api.trace), [Request.CreatePlaylist(profileId, key, DefaultDescription, true)],
                    AddPlan(old(api.nextId), trackUris)[..added]);
        NoneFailCons(api.failures, |old(api.trace)|, |api.trace| - 1);
        NoneFailCons(api.failures, |old(api.trace)|,
                     |old(api.trace)| + |CreatePlan(profileId, key, old(api.nextId), trackUris)|);
      }
      if o.Fail? {
        messages := messages + [Skipping(key, o.message)];
      }
    }

    /** Handles one selected genre group: extends the first playlist of the
        listing named after the genre, or creates one when there is none; a
        failure is logged and does not stop the run. */
    method ReconcileGroup(playlists: seq<PlaylistInfo>, key: Genre, trackUris: seq<Uri>)
      returns (o: Outcome, ghost sent: nat)
      requires api.Valid()
      modifies this, api
      ensures api.Valid() && api.library == old(api.library)
      ensures messages == old(messages) + GroupLog(key, FindByName(playlists, key).Some?, o)
      ensures 0 < sent <= |GroupPlan(profileId, playlists, key, trackUris, old(api.contents), old(api.nextId))|
      ensures api.trace == old(api.trace)
        + GroupPlan(profileId, playlists, key, trackUris, old(api.contents), old(api.nextId))[..sent]
      ensures o.Pass? ==> sent == |GroupPlan(profileId, playlists, key, trackUris, old(api.contents), old(api.nextId))|
      ensures o.Pass? ==> match FindByName(playlists, key)
        case Some(p) =>
          && p.id in old(api.contents)
          && api.State() == old(api.State()).(
               contents := Added(old(api.contents), p.id, api.catalog, NewUris(trackUris, old(api.contents)[p.id])))
        case None =>
          api.State() == old(api.State()).(
            playlists := old(api.playlists) + [PlaylistInfo(old(api.nextId), key)],
            contents := old(api.contents)[old(api.nextId) := TracksOf(api.catalog, trackUris)],
            nextId := old(api.nextId) + 1)
      ensures old(api.contents).Keys <= api.contents.Keys
      ensures NoneFail(api.failures, |old(api.trace)|, |api.trace| - 1)
      ensures o.Fail? ==> o == Verdict(api.failures, |api.trace| - 1, TargetKnown(playlists, key, old(api.contents)))
      ensures o.Pass? <==>
        && TargetKnown(playlists, key, old(api.contents))
        && NoneFail(api.failures, |old(api.trace)|,
                    |old(api.trace)| + |GroupPlan(profileId, playlists, key, trackUris, old(api.contents), old(api.nextId))|)
    {
      var found := FindByName(playlists, key);
      if found.Some? {
        o, sent := ExtendGroup(found.value.id, key, trackUris);
      } else {
        o, sent := CreateGroup(key, trackUris);
      }
    }

    /** ReconcileGroup as a run of the reconciler sees it: the group's log
        lines, and the requests it sent, which open with the group's opening
        request. */
    method RunGroup(playlists: seq<PlaylistInfo>, key: Genre, trackUris: seq<Uri>)
      returns (o: Outcome, ghost segment: seq<Request>)
      requires api.Valid()
      modifies this, api
      ensures api.Valid() && api.library == old(api.library)
      ensures messages == old(messages) + GroupLog(key, FindByName(playlists, key).Some?, o)
      ensures api.trace == old(api.trace) + segment
      ensures segment != [] && segment[0] == OpeningRequest(profileId, playlists, key)
      ensures old(api.contents).Keys <= api.contents.Keys
      ensures NoneFail(api.failures, |old(api.trace)|, |api.trace| - 1)
      ensures o == Verdict(api.failures, |api.trace| - 1, TargetKnown(playlists, key, old(api.contents)))
    {
      GroupPlanOpens(profileId, playlists, key, trackUris, api.contents, api.nextId);
      ghost var plan := GroupPlan(profileId, playlists, key, trackUris, api.contents, api.nextId);
      ghost var sent;
      o, sent := ReconcileGroup(playlists, key, trackUris);
      segment := plan[..sent];
    }

    /** The selected genres in the order the dictionary enumeration visits
        them; the order is left open. */
    method EnumerateGroups(selected: set<Genre>) returns (keys: seq<Genre>)
      ensures forall k :: k in keys <==> k in selected
      ensures NoDuplicates(keys)
    {
      keys := [];
      var remaining := selected;
      while remaining != {}
        invariant forall k :: k in keys <==> k in selected && k !in remaining
        invariant remaining <= selected
        invariant NoDuplicates(keys)
        decreases remaining
      {
        var key :| key in remaining;
        keys := keys + [key];
        remaining := remaining - {key};
      }
    }

    /** Handles the groups of `keys` one after another; a failed group is
        logged and the next one is handled. */
    method ReconcileGroups(playlists: seq<PlaylistInfo>, trackGroups: map<Genre, seq<Track>>, keys: seq<Genre>)
      returns (ghost outcomes: seq<Outcome>, ghost segments: seq<seq<Request>>)
      requires api.Valid()
      requires forall k | k in keys :: k in trackGroups
      requires forall p | p in playlists :: p.id in api.contents
      modifies this, api
      ensures api.Valid() && api.library == old(api.library)
      ensures |outcomes| == |segments| == |keys|
      ensures messages == old(messages) + RunLog(playlists, keys, outcomes)
      ensures api.trace == old(api.trace) + Flatten(segments)
      ensures GroupSegments(profileId, playlists, keys, segments)
      ensures SegmentsRan(api.failures, old(api.trace), outcomes, segments)
    {
      outcomes, segments := [], [];
      for i := 0 to |keys|
        invariant |outcomes| == |segments| == i
        invariant api.Valid() && api.library == old(api.library)
        invariant messages == old(messages) + RunLog(playlists, keys[..i], outcomes)
        invariant api.trace == old(api.trace) + Flatten(segments)
        invariant GroupSegments(profileId, playlists, keys[..i], segments)
        invariant forall p | p in playlists :: p.id in api.contents
        invariant SegmentsRan(api.failures, old(api.trace), outcomes, segments)
      {
        var key := keys[i];
        var trackUris := UrisOf(trackGroups[key]);
        FindByNameSpec(playlists, key);
        assert TargetKnown(playlists, key, api.contents);
        ghost var segment;
        var outcome;
        outcome, segment := RunGroup(playlists, key, trackUris);
        SegmentsRanSnoc(api.failures, old(api.trace), outcomes, segments, outcome, segment, |old(api.trace) + Flatten(segments)|, |api.trace|);
        PrefixStep(keys, i);
        RunLogSnoc(playlists, keys[..i], outcomes, key, outcome);
        AppendAssoc(old(messages), RunLog(playlists, keys[..i], outcomes), GroupLog(key, FindByName(playlists, key).Some?, outcome));
        FlattenSnoc(segments, segment);
        AppendAssoc(old(api.trace), Flatten(segments), segment);
        GroupSegmentsSnoc(profileId, playlists, keys[..i], segments, key, segment);
        outcomes, segments := outcomes + [outcome], segments + [segment];
      }
      assert keys[..|keys|] == keys;
    }

    /** Creates or extends one playlist per genre group holding more than
        `minTrackCount` saved tracks. */
    /** The opening of a reconciler run: read the listing, then group the
        saved tracks by genre. `prelude` counts the requests sent. */
    method GatherGroups() returns (r: Result<(seq<PlaylistInfo>, map<Genre, seq<Track>>)>, ghost prelude: nat)
      requires api.Valid()
      modifies this, api
      ensures api.Valid() && api.State() == old(api.State())
      ensures 0 < prelude <= |Prelude(api.library)|
      ensures api.trace == old(api.trace) + Prelude(api.library)[..prelude]
      ensures NoneFail(api.failures, |old(api.trace)|, |api.trace| - 1)
      ensures r.Err? ==> |api.trace| - 1 in api.failures && r.message == api.failures[|api.trace| - 1]
      ensures r.Err? ==> messages == old(messages) + [GettingPlaylists, GettingSavedTracks, GettingArtists][..if prelude < 3 then prelude else 3]
      ensures r.Ok? <==> NoneFail(api.failures, |old(api.trace)|, |old(api.trace)| + |Prelude(api.library)|)
      ensures r.Ok? ==>
        && prelude == |Prelude(api.library)|
        && api.trace == old(api.trace) + Prelude(api.library)
        && r.value.0 == api.playlists
        && r.value.1 == Groups(api.library, KnownArtists(api.artists, ArtistIdsToFetch(api.library)))
        && messages == old(messages) + [GettingPlaylists] + GroupingLog
    {
      ghost var start := |api.trace|;
      var playlists := GetPlaylists();
      PreludePrefix(api.library, 0);
      if playlists.Err? {
        NoneFailBroken(api.failures, start, start, start + |Prelude(api.library)|);
        return Err(playlists.message), 1;
      }
      ghost var groupingSent;
      var trackGroups;
      trackGroups, groupingSent := GetTrackGroupsBySavedTracks();
      prelude := 1 + groupingSent;
      ghost var listed := old(api.trace) + [GetCurrentUsersPlaylists];
      ghost var grouping := ArtistPlan(api.library)[..groupingSent - 1];
      PreludePrefix(api.library, groupingSent - 1);
      AppendAssoc(old(api.trace), [GetCurrentUsersPlaylists], [Request.GetSavedTracks] + grouping);
      AppendAssoc(listed, [Request.GetSavedTracks], grouping);
      NoneFailCons(api.failures, start, |api.trace| - 1);
      NoneFailCons(api.failures, start, start + |Prelude(api.library)|);
      if trackGroups.Err? {
        return Err(trackGroups.message), prelude;
      }
      r := Ok((playlists.value, trackGroups.value));
    }

    /** Reconciles, in some order, every group holding more than
        `minTrackCount` tracks. */
    method ReconcileLargeGroups(playlists: seq<PlaylistInfo>, trackGroups: map<Genre, seq<Track>>,
                                minTrackCount: int)
      returns (ghost order: seq<Genre>, ghost outcomes: seq<Outcome>, ghost segments: seq<seq<Request>>)
      requires api.Valid()
      requires forall p | p in playlists :: p.id in api.contents
      modifies this, api
      ensures api.Valid() && api.library == old(api.library)
      ensures |order| == |outcomes| == |segments|
      ensures forall k :: k in order <==> k in trackGroups && |trackGroups[k]| > minTrackCount
      ensures NoDuplicates(order)
      ensures messages == old(messages) + RunLog(playlists, order, outcomes)
      ensures api.trace == old(api.trace) + Flatten(segments)
      ensures GroupSegments(profileId, playlists, order, segments)
      ensures SegmentsRan(api.failures, old(api.trace), outcomes, segments)
    {
      var selected := set key | key in trackGroups && |trackGroups[key]| > minTrackCount;
      var keys := EnumerateGroups(selected);
      outcomes, segments := ReconcileGroups(playlists, trackGroups, keys);
      order := keys;
    }

    method CreateGenrePlaylists(minTrackCount: int)
      returns (o: Outcome, ghost groups: map<Genre, seq<Track>>, ghost order: seq<Genre>,
               ghost outcomes: seq<Outcome>, ghost segments: seq<seq<Request>>, ghost prelude: nat)
      requires api.Valid()
      modifies this, api
      ensures api.Valid() && api.library == old(api.library)
      ensures |order| == |outcomes| == |segments|
      ensures 0 < prelude <= |Prelude(old(api.library))|
      ensures o.Fail? ==> order == [] && api.State() == old(api.State())
      ensures o.Fail? ==> api.trace == old(api.trace) + Prelude(old(api.library))[..prelude]
      ensures o.Fail? ==> messages == old(messages) + [GettingPlaylists, GettingSavedTracks, GettingArtists][..if prelude < 3 then prelude else 3]
      ensures o.Fail? ==> NoneFail(api.failures, |old(api.trace)|, |api.trace| - 1)
      ensures o.Fail? ==> o == Verdict(api.failures, |api.trace| - 1, true)
      ensures o.Pass? <==> NoneFail(api.failures, |old(api.trace)|, |old(api.trace)| + |Prelude(old(api.library))|)
      ensures o.Pass? ==>
        && prelude == |Prelude(old(api.library))|
        && groups == Groups(old(api.library), KnownArtists(api.artists, ArtistIdsToFetch(old(api.library))))
        && (forall k :: k in order <==> k in groups && |groups[k]| > minTrackCount)
        && NoDuplicates(order)
        && messages == old(messages) + [GettingPlaylists] + GroupingLog + RunLog(old(api.playlists), order, outcomes)
        && api.trace == old(api.trace) + Prelude(old(api.library)) + Flatten(segments)
        && GroupSegments(profileId, old(api.playlists), order, segments)
      ensures o.Pass? ==> SegmentsRan(api.failures, old(api.trace) + Prelude(old(api.library)), outcomes, segments)
    {
      groups, order, outcomes, segments := map[], [], [], [];
      var gathered;
      gathered, prelude := GatherGroups();
      if gathered.Err? {
        return Fail(gathered.message), groups, order, outcomes, segments, prelude;
      }
      var playlists, trackGroups := gathered.value.0, gathered.value.1;
      groups := trackGroups;
      assert api.trace == old(api.trace) + Prelude(old(api.library)) by {
        PreludePrefix(old(api.library), |ArtistPlan(old(api.library))|);
      }
      order, outcomes, segments := ReconcileLargeGroups(playlists, trackGroups, minTrackCount);
      o := Pass;
    }
  }
}
