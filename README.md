# Stylefy playlist organiser — a Dafny model

Stylefy signs a user in to a music streaming service. It then does two jobs:

- **Genre playlists.** It reads the user's saved tracks and looks up their
  artists in batches of 50. It groups the tracks by the genres of their
  artists. For every genre group holding more than a minimum number of
  tracks, it extends the user's playlist named after the genre. When there
  is none, it creates a public playlist with the genre as its name and
  "Generated playlist" as its description. URIs already in the playlist are
  not added again.
- **De-duplication.** It removes repeated tracks from playlists.

All of this lives in one class, `SpotifyService`. That class also keeps a
progress log.

This project models that class.

- **Service.** The class becomes `Service.SpotifyService`. Its fields are the
  client, the user's profile identity and the log, a `seq<LogLine>`.
  Every operation is a method with a `modifies` clause. The two batching
  loops and the two loops over groups and playlists keep their shape.
- **Remote service.** The streaming service becomes `Api.SpotifyClient`. It
  is an in-memory store of saved tracks, the playlist listing, playlist
  contents and artists. It records every request it receives in `trace`. It
  fails request number `n` with message `failures[n]`, as its failure plan
  says. Exceptions become `Result`/`Outcome` values. `Coherent` states
  that every artist record is filed under its own identity and every URI
  stands for a track with that URI; the constructor establishes it and the
  store's fixed data never changes.
- **Pure logic.** The LINQ pipelines become functions with lemmas:
  - `Sequences`: Distinct, Except, Skip/Take batching;
  - `Grouping`: genre grouping;
  - `Duplicates`: the GroupBy/Skip(1) duplicate selection;
  - `Log`: the exact log lines.
- **Request plans.** `Plans` gives the request sequence of every operation
  as a function of what the store holds. Every method that runs one plan
  is proved to send a prefix of it and to stop at the first request that
  fails. Its failure reports that request's message. It succeeds exactly
  when no request of the whole plan is planned to fail (and, for playlist
  operations, the playlist is known). The two loops over groups and
  playlists are stated segment by segment. In the group loop, each group's
  outcome is the store's answer to the last request of its own segment,
  whatever the other groups did. In the de-duplication loop, every playlist
  before the last one handled passed, and the run's outcome is the answer
  to its last request.

## Model

| member | source | states |
|---|---|---|
| Service.SpotifyService.constructor | Stylefy.Web/SpotifyService.cs:12-18 | binds the client and the profile identity; the log starts empty |
| Service.SpotifyService.GetSavedTracks | Stylefy.Web/SpotifyService.cs:20-26 | logs "Getting saved tracks.", sends one saved-tracks request and changes nothing in the store; the result is the whole library, or the failure planned for that request |
| Service.SpotifyService.GetPlaylists | Stylefy.Web/SpotifyService.cs:28-34 | logs "Getting existing playlists.", sends one listing request and changes nothing; the result is the whole listing, or the failure planned for that request |
| Service.SpotifyService.GetPlaylistTracks | Stylefy.Web/SpotifyService.cs:36-41 | sends one playlist read and writes no log line; the result is the planned failure of that request, else "not found" for a playlist the store does not hold, else exactly the playlist's tracks |
| Service.SpotifyService.GetArtistsByTracks | Stylefy.Web/SpotifyService.cs:43-60 | logs one line; the lookups sent are a prefix of the batches of the distinct artist ids, stopping at the first failing lookup, whose message is the error; it succeeds exactly when none of the lookups of the whole plan fails, and then returns every known artist of those ids in request order |
| Service.SpotifyService.FetchArtists | Stylefy.Web/SpotifyService.cs:50-57 | the batching loop: sends a prefix of one lookup per 50-id batch, stopping at the first failing one; it succeeds exactly when none of the sent lookups failed, and then returns every known artist of the ids in request order |
| Service.SpotifyService.GetTrackGroups | Stylefy.Web/SpotifyService.cs:69-87 | logs "Putting pieces together." and returns the genre map `Groups(tracks, artists)`, whose properties `Grouping.GroupsSpec` proves |
| Service.SpotifyService.GetTrackGroupsBySavedTracks | Stylefy.Web/SpotifyService.cs:62-67 | sends the saved-tracks request and then a prefix of the artist lookups, stopping at the first failing request, whose message is the error; it succeeds exactly when no request of that plan fails, and then returns the groups of the library over the fetched artists with the three log lines; on failure the log stops after the step that failed |
| Service.SpotifyService.CreatePlaylist | Stylefy.Web/SpotifyService.cs:127-135 | sends one create request owned by the profile, with description "Generated playlist" and public by default; on success a fresh, empty playlist is appended to the listing; on failure nothing changes |
| Service.SpotifyService.AddTracksToPlaylist | Stylefy.Web/SpotifyService.cs:137-150 | sends a prefix of the 50-URI batches of the URIs (none for an empty list), stopping at the first batch the store refuses; it succeeds exactly when the list is empty or the playlist is known and no batch is planned to fail; on success the playlist gains exactly those tracks in order, on failure exactly the batches before the failing one |
| Service.SpotifyService.AddTracksWithoutDuplicateToPlaylist | Stylefy.Web/SpotifyService.cs:152-158 | reads the playlist, then adds only the URIs it does not hold yet, each once, in first-occurrence order; it stops at the first refused request and reports the store's answer to it; it succeeds exactly when the playlist is known and no request of the extend plan fails; on failure the playlist holds exactly what the batches sent before the failure added |
| Service.SpotifyService.AddNewTracks | Stylefy.Web/SpotifyService.cs:155-157 | adds the URIs the existing tracks lack, each once: a prefix of their batches, stopping at the first refused one; it succeeds exactly when nothing is to add or the playlist is known and no batch fails |
| Service.SpotifyService.RemoveTracksFromPlaylist | Stylefy.Web/SpotifyService.cs:160-170 | an empty list sends nothing, changes nothing and passes; otherwise it sends one removal request with all the URIs, its outcome is the store's answer to that request, and the removal is applied exactly when it passes |
| Service.SpotifyService.RemoveDuplicateTracksFromPlaylist | Stylefy.Web/SpotifyService.cs:180-194 | reads the playlist and, only when it holds a repeated identity, sends one removal of the URIs of every occurrence after the first; it stops at the first refused request and reports the store's answer; it succeeds exactly when the playlist is known and neither request fails; the store changes only by that removal |
| Service.SpotifyService.RunDedup | Stylefy.Web/SpotifyService.cs:176 | one step of the library-wide loop: one or two requests, opening with the read of that playlist; the step's outcome is the store's answer to its last request and every earlier one went through; the listing and the library are untouched |
| Service.SpotifyService.RemoveDuplicateTracksFromPlaylists | Stylefy.Web/SpotifyService.cs:172-178 | reads the listing once, then handles the playlists in listing order with one segment of requests each; every request but the last went through and the run's outcome is the store's answer to the last; every playlist before the last handled one passed; success means every playlist was handled |
| Service.SpotifyService.ExtendGroup | Stylefy.Web/SpotifyService.cs:97-109 | logs "Extending …" and sends a prefix of the extend plan; it succeeds exactly when the playlist is known and no request of the plan fails, and then adds exactly the new URIs; a failure is the store's answer to the last request sent, adds one skip line carrying its message and does not propagate |
| Service.SpotifyService.CreateGroup | Stylefy.Web/SpotifyService.cs:110-123 | logs "Creating …", creates a playlist named after the genre, public and described as "Generated playlist", then adds all the group's URIs; it succeeds exactly when no request of that plan fails, and then the listing gains that playlist holding exactly those tracks; a failure is the answer to the last request sent and adds one skip line |
| Service.SpotifyService.ReconcileGroup | Stylefy.Web/SpotifyService.cs:96-123 | extends the first listed playlist named after the genre, or creates one when there is none; the log and the requests sent follow the matching plan; it succeeds exactly when the target is known and no request of the plan fails, a failure being the answer to the last request sent; on success it states the store's new state for each branch |
| Service.SpotifyService.RunGroup | Stylefy.Web/SpotifyService.cs:94-124 | one iteration of the group loop: logs that group's lines; its requests open with the read of the found playlist or with the create request; every request but its last went through and its outcome is the store's answer to the last |
| Service.SpotifyService.EnumerateGroups | Stylefy.Web/SpotifyService.cs:93-94 | enumerates each selected genre exactly once, in an order the model leaves open |
| Service.SpotifyService.ReconcileGroups | Stylefy.Web/SpotifyService.cs:94-124 | handles every group in order; the log is the concatenation of the groups' lines; the trace is one segment per group, each opening with that group's first request; each group's outcome is decided by its own segment alone, so a failure in one group does not stop or change the others |
| Service.SpotifyService.GatherGroups | Stylefy.Web/SpotifyService.cs:91-92 | reads the listing, then the saved tracks and their artists, stopping at the first failing request, whose message is the error; it succeeds exactly when none of those requests fails, and then returns the listing and the genre groups of the library; the store is unchanged either way |
| Service.SpotifyService.ReconcileLargeGroups | Stylefy.Web/SpotifyService.cs:93-124 | reconciles every genre whose group holds strictly more than `minTrackCount` tracks, each once, with the group loop's log, trace and per-group outcomes |
| Service.SpotifyService.CreateGenrePlaylists | Stylefy.Web/SpotifyService.cs:89-125 | handles exactly the genres whose group holds strictly more than `minTrackCount` tracks, each once; it reaches the groups exactly when none of the listing, saved-tracks and artist requests fails; otherwise it sent a prefix of those, failed with the answer to the last one, left the store unchanged and ended the log after the failing step; on success the log and trace are listing, grouping, then one segment per group, each group's outcome decided by its own segment |
| Api.SpotifyClient.LibraryGetTracks | Stylefy.Web/SpotifyService.cs:23-24 | returns the whole saved library, or the planned failure; records the request |
| Api.SpotifyClient.PlaylistsCurrentUsers | Stylefy.Web/SpotifyService.cs:31-32 | returns the whole playlist listing, or the planned failure; records the request |
| Api.SpotifyClient.PlaylistsGet | Stylefy.Web/SpotifyService.cs:38-39 | returns the playlist's tracks; fails when a failure is planned or the playlist is unknown |
| Api.SpotifyClient.ArtistsGetSeveral | Stylefy.Web/SpotifyService.cs:54 | returns the known artists among the ids, in request order, or the planned failure |
| Api.SpotifyClient.PlaylistsCreate | Stylefy.Web/SpotifyService.cs:134 | on success allocates a fresh identifier, appends an empty playlist with that name to the listing, and returns it; on failure nothing changes |
| Api.SpotifyClient.PlaylistsAddItems | Stylefy.Web/SpotifyService.cs:146 | on success appends the tracks of the URIs to the playlist in order; otherwise fails and nothing changes |
| Api.SpotifyClient.PlaylistsRemoveItems | Stylefy.Web/SpotifyService.cs:168 | on success applies the store's removal to the playlist; otherwise fails and nothing changes |
| Api.KnownArtistsSpec | Stylefy.Web/SpotifyService.cs:54-55 | every returned artist is the record of a requested, known id, and every requested known id's record is returned |
| Api.KnownArtistsAppend | Stylefy.Web/SpotifyService.cs:51-57 | looking up two batches one after the other gives the concatenation of the lookups; this is why `AddRange` over the batches equals one lookup of all ids |
| Api.UrisOfTracksOf | Stylefy.Web/SpotifyService.cs:146 | adding URIs through a sound catalog gives back tracks with exactly those URIs, in order |
| Api.RunPasses | Stylefy.Web/SpotifyService.cs:137-158 | an operation that stops at its first refused request and reports the answer to it passes exactly when its playlist is known and none of its planned requests fails |
| Grouping.ArtistRefsSpec | Stylefy.Web/SpotifyService.cs:48 | the flattened artist ids are exactly the artists of the tracks |
| Grouping.ArtistIdsToFetchSpec | Stylefy.Web/SpotifyService.cs:48 | the ids to fetch are exactly the artists of some track, with no repeats, in order of first appearance |
| Grouping.AllGenresSpec | Stylefy.Web/SpotifyService.cs:73 | the flattened genres are exactly the genres of some artist |
| Grouping.HasGenreIff | Stylefy.Web/SpotifyService.cs:79 | a track carries a genre exactly when, for one of its artists, the first artist record with that id lists the genre (both directions) |
| Grouping.GroupOfSpec | Stylefy.Web/SpotifyService.cs:76-83 | a genre's group holds exactly the tracks that carry the genre |
| Grouping.GroupIsSubsequence | Stylefy.Web/SpotifyService.cs:76-83 | a group keeps the order of the saved tracks |
| Grouping.GroupMultiplicity | Stylefy.Web/SpotifyService.cs:76-83 | a track appears in a group as often as in the library when it carries the genre, and never otherwise |
| Grouping.GroupNoDuplicates | Stylefy.Web/SpotifyService.cs:76-83 | a library without repeats gives groups without repeats |
| Grouping.GroupsSpec | Stylefy.Web/SpotifyService.cs:72-86 | the keys are exactly the genres of some artist (both directions); each group holds exactly the tracks carrying its genre, in library order |
| Grouping.BuildGroups | Stylefy.Web/SpotifyService.cs:72-86 | the genre-by-genre loop with insert-if-absent builds exactly the map `Groups` |
| Grouping.TwoTrackExample | Stylefy.Web/SpotifyService.cs:69-87 | for a track by an artist with genre "rock" and one by an artist with "rock" and "jazz": rock groups both tracks, jazz only the second |
| Duplicates.OccurrencesSpec | Stylefy.Web/SpotifyService.cs:184 | one GroupBy group holds exactly the tracks with its identity |
| Duplicates.CandidatesAreTracks | Stylefy.Web/SpotifyService.cs:183-185 | every removal candidate is a track of the playlist |
| Duplicates.LaterOccurrencesOf | Stylefy.Web/SpotifyService.cs:184 | over distinct keys, the selection holds, for each identity, its occurrences after the first when it is a key, and none otherwise |
| Duplicates.CandidatesPerId | Stylefy.Web/SpotifyService.cs:183-185 | for every identity the candidates are exactly its occurrences after the first, in playlist order |
| Duplicates.LaterOccurrencesOrder | Stylefy.Web/SpotifyService.cs:184 | over distinct keys, the selection holds only tracks whose identity is a key, grouped in key order: a track of an earlier key never follows one of a later key |
| Duplicates.CandidatesFollowFirstAppearance | Stylefy.Web/SpotifyService.cs:183-185 | the candidates come group by group in the order the identities first appear in the playlist, as `GroupBy` orders its groups |
| Duplicates.CandidateCount | Stylefy.Web/SpotifyService.cs:183-185 | the number of candidates is the number of tracks minus the number of distinct identities |
| Duplicates.NoCandidatesIff | Stylefy.Web/SpotifyService.cs:183-186 | there is nothing to remove exactly when the playlist repeats no identity |
| Duplicates.FiveTrackExample | Stylefy.Web/SpotifyService.cs:183-185 | the playlist a, b, a, c, a yields the candidates a, a |
| Log.SkipLineIff | Stylefy.Web/SpotifyService.cs:106-107 | a log line starts with "Skipping interrupted " exactly when it reports a failed group, and that line ends with the failure's message |
| Sequences.FirstWhereSpec | Stylefy.Web/SpotifyService.cs:79 | `FirstOrDefault` finds the first element satisfying the predicate and no earlier one satisfies it |
| Sequences.DistinctSpec | Stylefy.Web/SpotifyService.cs:48 | `Distinct` keeps every element, adds none, and repeats none |
| Sequences.DistinctKeepsFirstOccurrenceOrder | Stylefy.Web/SpotifyService.cs:48 | `Distinct` orders elements by their first occurrence |
| Sequences.DistinctOfNoDuplicates | Stylefy.Web/SpotifyService.cs:156 | `Distinct` of a list without repeats is that list, so `Distinct` is idempotent |
| Sequences.DistinctLengthIff | Stylefy.Web/SpotifyService.cs:184 | `Distinct` shortens a list exactly when the list has a repeat |
| Sequences.ExceptSpec | Stylefy.Web/SpotifyService.cs:156 | `Except` keeps exactly the elements of the first list that are not in the second, each once |
| Sequences.ExceptIsDistinctWithout | Stylefy.Web/SpotifyService.cs:156 | `Except` equals filtering out the excluded elements after `Distinct`, so it keeps first-occurrence order |
| Sequences.ExceptThenDistinct | Stylefy.Web/SpotifyService.cs:156 | the `.Distinct()` after `Except` changes nothing |
| Sequences.ExceptAfterAdding | Stylefy.Web/SpotifyService.cs:152-158 | once the new URIs have been added, `Except` against the grown playlist is empty |
| Sequences.ChunkAt | Stylefy.Web/SpotifyService.cs:53 | batch `i` is `Skip(i * n).Take(n)` |
| Sequences.ChunkSizes | Stylefy.Web/SpotifyService.cs:53 | every batch holds between 1 and n items |
| Sequences.ChunksReassemble | Stylefy.Web/SpotifyService.cs:51-57 | the batches in order give the list back |
| Sequences.ChunkCountBounds | Stylefy.Web/SpotifyService.cs:51 | there are no batches for an empty list; otherwise the number of batches is the ceiling of length / n |
| Sequences.ChunkGuard | Stylefy.Web/SpotifyService.cs:143 | the loop guard `Count > i * n` holds exactly while batch `i` exists |
| Plans.BatchesSpec | Stylefy.Web/SpotifyService.cs:141-148 | with batches of 50: none for an empty list, the fewest that hold the list, each `Skip(i*50).Take(50)` of 1 to 50 items, reassembling to the list |
| Plans.ArtistPlanSpec | Stylefy.Web/SpotifyService.cs:46-57 | the artist lookups ask for every artist of the tracks exactly once, at most 50 per lookup, and there are none when no track names an artist |
| Plans.AddPlanSpec | Stylefy.Web/SpotifyService.cs:139-149 | the additions carry exactly the URIs in order, 1 to 50 per request, and there are none for an empty list |
| Plans.ExtendPlanSpec | Stylefy.Web/SpotifyService.cs:152-158 | extending reads the playlist first, then adds exactly the URIs it lacks, each once, at most 50 per request |
| Plans.ExtendAgainAddsNothing | Stylefy.Web/SpotifyService.cs:152-158 | extending a playlist a second time with the same URIs only reads it |
| Plans.DedupPlanSpec | Stylefy.Web/SpotifyService.cs:180-194 | de-duplication reads the playlist; it sends a removal exactly when an identity repeats, carrying one URI per surplus occurrence, each the URI of a track of the playlist |
| Plans.FindByNameSpec | Stylefy.Web/SpotifyService.cs:97 | the playlist found is the first one in the listing with the genre's name; none is found exactly when no playlist has that name |
| Plans.GroupPlanOpens | Stylefy.Web/SpotifyService.cs:97-123 | handling a group always opens with the read of the found playlist or with the create request |
| Plans.SegmentsRanAt | Stylefy.Web/SpotifyService.cs:94-124 | in a run of groups, group `i`'s requests follow those of the groups before it; all but its last went through and its outcome is the store's answer to the last |
| Plans.PreludePrefix | Stylefy.Web/SpotifyService.cs:91-92 | before the first group a run reads the listing, then the saved tracks, then the artist lookups |
| Plans.CreatePlanPrefix | Stylefy.Web/SpotifyService.cs:114-116 | creating a group's playlist sends the public "Generated playlist" create request, then the additions |
| Plans.AddedTwice | Stylefy.Web/SpotifyService.cs:143-148 | adding two batches one after the other equals adding their concatenation |
| Plans.GroupLogShape | Stylefy.Web/SpotifyService.cs:99-122 | a group logs its header, and a skip line exactly when it failed |
| Plans.RunLogShape | Stylefy.Web/SpotifyService.cs:94-124 | a run logs one header per group plus one skip line per failed group |

## Left out

- Pagination (`PaginateAll`) is not modelled. One request returns the whole
  list.
- Asynchrony is not modelled. `AsParallel().ForAll` with the
  `ConcurrentDictionary` becomes a sequential loop; `TryAdd` becomes
  insert-if-absent.
- Dictionary enumeration order is unspecified in the source.
  `EnumerateGroups` picks the genres in an arbitrary order, and every
  property is proved for any order.
- Null values are not modelled:
  - a null genre list becomes the empty list;
  - an artist id the service cannot describe is dropped from a lookup,
    where the real service returns a null entry;
  - playlist items that are not tracks (the `as FullTrack` cast) do not
    occur.
- Exceptions other than failed remote requests are not modelled.
- The remote service's own behaviour is a parameter of the store:
  - which requests fail, and with what message (the failure plan);
  - what a removal request leaves of a playlist;
  - the track each URI stands for;
  - the format of playlist identifiers (identifiers are natural numbers
    the store allocates).
- Log format: `Messages` is a `StringBuilder`. The model keeps a sequence of
  lines; joining them with `Environment.NewLine` is not modelled.
- The `SpotifyService` constructor's `PrivateUser` is reduced to its
  identity. The other profile fields are not used.
- Service.SpotifyService.CreateGroup: on failure, it does not state the
  store's partial state (a playlist may have been created and partly
  filled). It states the requests sent, the failing request and the log.
- Service.SpotifyService.ReconcileGroup: on failure, it does not state the
  store's partial state. It states the requests sent, the failing request
  and the log.
- Service.SpotifyService.RunGroup: it states the first request of its
  segment and how the segment ended, not the whole group plan.
- Service.SpotifyService.ReconcileGroups: it states each group's segment
  by its first request and by how it ended, not by the whole group plan.
  It does not state the store's contents after the loop.
- Service.SpotifyService.ReconcileLargeGroups: the same as
  `ReconcileGroups`, over the selected genres.
- Service.SpotifyService.CreateGenrePlaylists: it does not state the
  store's contents after a run that reached the groups. `ReconcileGroup`
  states them group by group.
- Service.SpotifyService.RunDedup: it states the first request of its
  segment, how the segment ended and that the listing is untouched. It does
  not state the removal.
- Service.SpotifyService.RemoveDuplicateTracksFromPlaylists: it states
  each playlist's segment only by its first request and the run's outcome
  by its last request. It does not state the contents after the run;
  `RemoveDuplicateTracksFromPlaylist` states them playlist by playlist.
