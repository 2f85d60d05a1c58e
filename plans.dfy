/** What the organiser sends and writes, as functions of what the store holds:
    the batched request sequences of the artist lookup, of the playlist
    additions, of extending, creating and de-duplicating a playlist, and the
    progress log of a run of the reconciler. */
module Plans {
  import opened Types
  import opened Sequences
  import opened Grouping
  import opened Duplicates
  import opened Api
  import opened Log

  /** Description of every playlist the reconciler creates. */
  const DefaultDescription := "Generated playlist"

  /** The identifiers or URIs a request carries. */
  function Items(r: Request): seq<string>
  {
    match r
    case GetSeveralArtists(ids) => ids
    case AddItems(_, uris) => uris
    case RemoveItems(_, uris) => uris
    case _ => []
  }

  /** Everything the requests carry, request after request. */
  function AllItems(rs: seq<Request>): seq<string>
  {
    if rs == [] then [] else AllItems(rs[..|rs| - 1]) + Items(rs[|rs| - 1])
  }

  lemma {:induction false} AllItemsAppend(a: seq<Request>, b: seq<Request>)
    ensures AllItems(a + b) == AllItems(a) + AllItems(b)
  {
    if b == [] {
      assert a + b == a;
    } else {
      var b', z := b[..|b| - 1], b[|b| - 1];
      assert (a + b)[..|a + b| - 1] == a + b';
      AllItemsAppend(a, b');
    }
  }

  /** One several-artists lookup per batch. */
  function ArtistRequests(batches: seq<seq<ArtistId>>): seq<Request>
  {
    seq(|batches|, i requires 0 <= i < |batches| => GetSeveralArtists(batches[i]))
  }

  /** One addition to playlist `id` per batch. */
  function AddRequests(id: PlaylistId, batches: seq<seq<Uri>>): seq<Request>
  {
    seq(|batches|, i requires 0 <= i < |batches| => AddItems(id, batches[i]))
  }

  lemma {:induction false} ArtistRequestsCarry(batches: seq<seq<ArtistId>>)
    ensures AllItems(ArtistRequests(batches)) == Flatten(batches)
  {
    if batches != [] {
      var p := batches[..|batches| - 1];
      assert ArtistRequests(batches)[..|batches| - 1] == ArtistRequests(p);
      ArtistRequestsCarry(p);
    }
  }

  lemma {:induction false} AddRequestsCarry(id: PlaylistId, batches: seq<seq<Uri>>)
    ensures AllItems(AddRequests(id, batches)) == Flatten(batches)
  {
    if batches != [] {
      var p := batches[..|batches| - 1];
      assert AddRequests(id, batches)[..|batches| - 1] == AddRequests(id, p);
      AddRequestsCarry(id, p);
    }
  }

  /** The lookups of GetArtistsByTracks: the distinct artist identities of
      the tracks, in batches of at most 50. */
  function ArtistPlan(tracks: seq<Track>): seq<Request>
  {
    ArtistRequests(Chunks(ArtistIdsToFetch(tracks), BatchSize))
  }

  /** The additions of AddTracksToPlaylist: the URIs, in batches of at most 50. */
  function AddPlan(id: PlaylistId, uris: seq<Uri>): seq<Request>
  {
    AddRequests(id, Chunks(uris, BatchSize))
  }

  /** The URIs of `uris` not yet in the playlist, each once. */
  function NewUris(uris: seq<Uri>, existing: seq<Track>): seq<Uri>
  {
    Except(uris, UrisOf(existing))
  }

  /** The requests of AddTracksWithoutDuplicateToPlaylist when nothing fails:
      read the playlist, then add the URIs it does not hold yet. */
  function ExtendPlan(id: PlaylistId, uris: seq<Uri>, contents: map<PlaylistId, seq<Track>>): seq<Request>
  {
    [GetPlaylist(id)] + if id in contents then AddPlan(id, NewUris(uris, contents[id])) else []
  }

  /** Extending opens with the read of the playlist. */
  lemma ExtendPlanOpens(id: PlaylistId, uris: seq<Uri>, contents: map<PlaylistId, seq<Track>>)
    ensures 0 < |ExtendPlan(id, uris, contents)| && ExtendPlan(id, uris, contents)[..1] == [GetPlaylist(id)]
  {
  }

  /** Extending reads the playlist and then sends the additions of its new
      URIs: a prefix of the extension is the read and a prefix of the
      additions. */
  lemma ExtendPlanSplit(id: PlaylistId, uris: seq<Uri>, contents: map<PlaylistId, seq<Track>>, added: nat)
    requires id in contents && added <= |AddPlan(id, NewUris(uris, contents[id]))|
    ensures |ExtendPlan(id, uris, contents)| == 1 + |AddPlan(id, NewUris(uris, contents[id]))|
    ensures ExtendPlan(id, uris, contents)[..1 + added] == [GetPlaylist(id)] + AddPlan(id, NewUris(uris, contents[id]))[..added]
  {
    PrefixOfAppend([GetPlaylist(id)], AddPlan(id, NewUris(uris, contents[id])), added);
  }

  /** The requests of creating the playlist of group `key`, which receives
      identifier `newId`, and filling it. */
  function CreatePlan(owner: UserId, key: Genre, newId: PlaylistId, uris: seq<Uri>): seq<Request>
  {
    [CreatePlaylist(owner, key, DefaultDescription, true)] + AddPlan(newId, uris)
  }

  /** The playlist listed first under `name`. */
  function FindByName(playlists: seq<PlaylistInfo>, name: string): Option<PlaylistInfo>
  {
    var k := FirstWhere(playlists, (p: PlaylistInfo) => p.name == name);
    if k < |playlists| then Some(playlists[k]) else None
  }

  /** The playlist found is the first one of the listing with that name;
      nothing is found exactly when no playlist has the name. */
  lemma FindByNameSpec(playlists: seq<PlaylistInfo>, name: string)
    ensures FindByName(playlists, name).Some? ==>
      exists k | 0 <= k < |playlists| ::
        && FindByName(playlists, name).value == playlists[k]
        && playlists[k].name == name
        && (forall j | 0 <= j < k :: playlists[j].name != name)
    ensures FindByName(playlists, name).Some? ==> FindByName(playlists, name).value in playlists
    ensures FindByName(playlists, name).None? <==> forall p | p in playlists :: p.name != name
  {
    FirstWhereSpec(playlists, (p: PlaylistInfo) => p.name == name);
    var k := FirstWhere(playlists, (p: PlaylistInfo) => p.name == name);
    if k == |playlists| {
      forall p | p in playlists
        ensures p.name != name
      {
        var j :| 0 <= j < |playlists| && playlists[j] == p;
      }
    }
  }

  /** The requests of handling group `key` when nothing fails: extend the
      playlist of that name, or create one. */
  function GroupPlan(owner: UserId, playlists: seq<PlaylistInfo>, key: Genre, uris: seq<Uri>,
                     contents: map<PlaylistId, seq<Track>>, nextId: PlaylistId): seq<Request>
  {
    match FindByName(playlists, key)
    case Some(p) => ExtendPlan(p.id, uris, contents)
    case None => CreatePlan(owner, key, nextId, uris)
  }

  /** The first request of handling group `key`. */
  function OpeningRequest(owner: UserId, playlists: seq<PlaylistInfo>, key: Genre): Request
  {
    match FindByName(playlists, key)
    case Some(p) => GetPlaylist(p.id)
    case None => CreatePlaylist(owner, key, DefaultDescription, true)
  }

  /** Handling a group always sends its opening request first. */
  lemma GroupPlanOpens(owner: UserId, playlists: seq<PlaylistInfo>, key: Genre, uris: seq<Uri>,
                       contents: map<PlaylistId, seq<Track>>, nextId: PlaylistId)
    ensures |GroupPlan(owner, playlists, key, uris, contents, nextId)| > 0
    ensures GroupPlan(owner, playlists, key, uris, contents, nextId)[0] == OpeningRequest(owner, playlists, key)
  {
  }

  /** Creating opens with the creation request. */
  lemma CreatePlanOpens(owner: UserId, key: Genre, id: PlaylistId, uris: seq<Uri>)
    ensures 0 < |CreatePlan(owner, key, id, uris)|
    ensures CreatePlan(owner, key, id, uris)[..1] == [CreatePlaylist(owner, key, DefaultDescription, true)]
  {
  }

  /** The first `n + 1` requests of creating a playlist: the creation, then
      the first `n` additions. */
  lemma CreatePlanPrefix(owner: UserId, key: Genre, id: PlaylistId, uris: seq<Uri>, n: nat)
    requires n <= |AddPlan(id, uris)|
    ensures |CreatePlan(owner, key, id, uris)| == 1 + |AddPlan(id, uris)|
    ensures CreatePlan(owner, key, id, uris)[..1 + n]
      == [CreatePlaylist(owner, key, DefaultDescription, true)] + AddPlan(id, uris)[..n]
  {
  }

  /** The requests of a reconciler run, group by group: segment `i` opens
      with the opening request of the `i`-th group handled. */
  ghost predicate GroupSegments(owner: UserId, playlists: seq<PlaylistInfo>, order: seq<Genre>, segments: seq<seq<Request>>)
  {
    && |segments| == |order|
    && forall i | 0 <= i < |segments| :: segments[i] != [] && segments[i][0] == OpeningRequest(owner, playlists, order[i])
  }

  lemma GroupSegmentsSnoc(owner: UserId, playlists: seq<PlaylistInfo>, order: seq<Genre>, segments: seq<seq<Request>>,
                          key: Genre, segment: seq<Request>)
    requires GroupSegments(owner, playlists, order, segments)
    requires segment != [] && segment[0] == OpeningRequest(owner, playlists, key)
    ensures GroupSegments(owner, playlists, order + [key], segments + [segment])
  {
  }

  /** The requests of RemoveDuplicateTracksFromPlaylist when nothing fails. */
  function DedupPlan(id: PlaylistId, contents: map<PlaylistId, seq<Track>>): seq<Request>
  {
    [GetPlaylist(id)]
      + if id in contents && DuplicateCandidates(contents[id]) != []
        then [RemoveItems(id, UrisOf(DuplicateCandidates(contents[id])))]
        else []
  }

  /** The requests of a library-wide de-duplication run, playlist by
      playlist: segment `i` holds one or two requests and opens with the
      read of the `i`-th playlist of the listing. */
  ghost predicate DedupSegments(playlists: seq<PlaylistInfo>, segments: seq<seq<Request>>)
  {
    && |segments| <= |playlists|
    && forall i | 0 <= i < |segments| :: 0 < |segments[i]| <= 2 && segments[i][0] == GetPlaylist(playlists[i].id)
  }

  lemma DedupSegmentsSnoc(playlists: seq<PlaylistInfo>, segments: seq<seq<Request>>, segment: seq<Request>)
    requires DedupSegments(playlists, segments) && |segments| < |playlists|
    requires 0 < |segment| <= 2 && segment[0] == GetPlaylist(playlists[|segments|].id)
    ensures DedupSegments(playlists, segments + [segment])
  {
  }

  /** The requests a reconciler run sends before its first group when
      nothing fails: read the listing and the saved tracks, then look up the
      tracks' artists. */
  function Prelude(library: seq<Track>): seq<Request>
  {
    [GetCurrentUsersPlaylists, Request.GetSavedTracks] + ArtistPlan(library)
  }

  /** The first request of the prelude, and its first `2 + k` requests. */
  lemma PreludePrefix(library: seq<Track>, k: nat)
    requires k <= |ArtistPlan(library)|
    ensures |Prelude(library)| == 2 + |ArtistPlan(library)|
    ensures Prelude(library)[..1] == [GetCurrentUsersPlaylists]
    ensures Prelude(library)[..2 + k] == [GetCurrentUsersPlaylists] + ([Request.GetSavedTracks] + ArtistPlan(library)[..k])
  {
    PrefixOfAppend([GetCurrentUsersPlaylists, Request.GetSavedTracks], ArtistPlan(library), k);
  }

  /** The playlist group `key` extends, if any, is one the store holds. */
  predicate TargetKnown(playlists: seq<PlaylistInfo>, key: Genre, contents: map<PlaylistId, seq<Track>>)
  {
    match FindByName(playlists, key)
    case Some(p) => p.id in contents
    case None => true
  }

  /** A group whose requests are numbered from `lo` up to, not including,
      `hi`: it sent at least one, every request but its last went through,
      and its outcome is the store's answer to the last one. */
  ghost predicate SegmentRan(failures: map<nat, string>, lo: nat, hi: nat, o: Outcome)
  {
    && lo < hi
    && NoneFail(failures, lo, hi - 1)
    && o == Verdict(failures, hi - 1, true)
  }

  /** Every group of a run whose requests follow the requests `before` ran
      on its own requests alone: its outcome depends on no other group's. */
  ghost predicate SegmentsRan(failures: map<nat, string>, before: seq<Request>, outcomes: seq<Outcome>, segments: seq<seq<Request>>)
    decreases segments
  {
    && |outcomes| == |segments|
    && (segments != [] ==>
          && SegmentRan(failures, |before|, |before| + |segments[0]|, outcomes[0])
          && SegmentsRan(failures, before + segments[0], outcomes[1..], segments[1..]))
  }

  /** The parts of a sequence of parts are its first part and then the
      rest. */
  lemma FlattenCons<T>(ss: seq<seq<T>>)
    requires ss != []
    ensures Flatten(ss) == ss[0] + Flatten(ss[1..])
  {
    assert ss == [ss[0]] + ss[1..];
    FlattenAppend([ss[0]], ss[1..]);
    FlattenSingle(ss[0]);
  }

  lemma {:induction false} SegmentsRanSnoc(failures: map<nat, string>, before: seq<Request>, outcomes: seq<Outcome>,
                                           segments: seq<seq<Request>>, o: Outcome, segment: seq<Request>, lo: nat, hi: nat)
    requires SegmentsRan(failures, before, outcomes, segments)
    requires lo == |before + Flatten(segments)| && hi == lo + |segment|
    requires SegmentRan(failures, lo, hi, o)
    ensures SegmentsRan(failures, before, outcomes + [o], segments + [segment])
    decreases segments
  {
    if segments == [] {
      assert outcomes + [o] == [o] && segments + [segment] == [segment];
      assert SegmentsRan(failures, before + segment, [], []);
    } else {
      FlattenCons(segments);
      AppendAssoc(before, segments[0], Flatten(segments[1..]));
      SegmentsRanSnoc(failures, before + segments[0], outcomes[1..], segments[1..], o, segment, lo, hi);
      assert (outcomes + [o])[1..] == outcomes[1..] + [o];
      assert (segments + [segment])[1..] == segments[1..] + [segment];
    }
  }

  /** Group `i` of such a run: its requests follow `before` and the requests
      of the groups before it; all but its last went through, and its
      outcome is the store's answer to the last. */
  lemma {:induction false} SegmentsRanAt(failures: map<nat, string>, before: seq<Request>, outcomes: seq<Outcome>,
                                          segments: seq<seq<Request>>, i: nat)
    requires SegmentsRan(failures, before, outcomes, segments) && i < |segments|
    ensures SegmentRan(failures, |before + Flatten(segments[..i])|, |before + Flatten(segments[..i])| + |segments[i]|, outcomes[i])
    decreases i
  {
    if i == 0 {
      assert segments[..0] == [];
    } else {
      SegmentsRanAt(failures, before + segments[0], outcomes[1..], segments[1..], i - 1);
      assert segments[..i][1..] == segments[1..][..i - 1];
      FlattenCons(segments[..i]);
      AppendAssoc(before, segments[0], Flatten(segments[1..][..i - 1]));
    }
  }

  /** The store's playlists once `uris` were appended to playlist `id`; a
      playlist the store does not hold stays absent. */
  function Added(contents: map<PlaylistId, seq<Track>>, id: PlaylistId, catalog: Uri -> Track, uris: seq<Uri>)
    : map<PlaylistId, seq<Track>>
  {
    if id in contents then contents[id := contents[id] + TracksOf(catalog, uris)] else contents
  }

  /** Appending to a playlist neither adds nor drops a playlist. */
  lemma AddedKeys(contents: map<PlaylistId, seq<Track>>, id: PlaylistId, catalog: Uri -> Track, uris: seq<Uri>)
    ensures Added(contents, id, catalog, uris).Keys == contents.Keys
  {
  }

  lemma AddedNothing(contents: map<PlaylistId, seq<Track>>, id: PlaylistId, catalog: Uri -> Track)
    ensures Added(contents, id, catalog, []) == contents
  {
    if id in contents {
      assert contents[id] + TracksOf(catalog, []) == contents[id];
    }
  }

  lemma AddedTwice(contents: map<PlaylistId, seq<Track>>, id: PlaylistId, catalog: Uri -> Track, a: seq<Uri>, b: seq<Uri>)
    ensures Added(Added(contents, id, catalog, a), id, catalog, b) == Added(contents, id, catalog, a + b)
  {
    if id in contents {
      var once := contents[id := contents[id] + TracksOf(catalog, a)];
      assert TracksOf(catalog, a + b) == TracksOf(catalog, a) + TracksOf(catalog, b);
      assert once[id] + TracksOf(catalog, b) == contents[id] + TracksOf(catalog, a + b);
      assert once[id := once[id] + TracksOf(catalog, b)] == contents[id := contents[id] + TracksOf(catalog, a + b)];
    }
  }

  /** The log lines of one group: its header, then, if its handling failed,
      the skip line with the failure's message. */
  function GroupLog(key: Genre, extend: bool, o: Outcome): seq<LogLine>
  {
    [if extend then Extending(key) else Creating(key)]
      + if o.Fail? then [Skipping(key, o.message)] else []
  }

  /** The log lines of the groups handled in `order` with `outcomes`. */
  function RunLog(playlists: seq<PlaylistInfo>, order: seq<Genre>, outcomes: seq<Outcome>): seq<LogLine>
    requires |order| == |outcomes|
  {
    if order == [] then []
    else
      var n := |order| - 1;
      RunLog(playlists, order[..n], outcomes[..n])
        + GroupLog(order[n], FindByName(playlists, order[n]).Some?, outcomes[n])
  }

  /** Handling one more group appends that group's lines. */
  lemma RunLogSnoc(playlists: seq<PlaylistInfo>, order: seq<Genre>, outcomes: seq<Outcome>, key: Genre, o: Outcome)
    requires |order| == |outcomes|
    ensures RunLog(playlists, order + [key], outcomes + [o])
      == RunLog(playlists, order, outcomes) + GroupLog(key, FindByName(playlists, key).Some?, o)
  {
    assert (order + [key])[..|order|] == order;
    assert (outcomes + [o])[..|outcomes|] == outcomes;
  }

  function Failures(outcomes: seq<Outcome>): nat
  {
    if outcomes == [] then 0
    else Failures(outcomes[..|outcomes| - 1]) + if outcomes[|outcomes| - 1].Fail? then 1 else 0
  }

  /** A group logs its header, which is never a skip line, and one skip line
      exactly when it failed. */
  lemma GroupLogShape(key: Genre, extend: bool, o: Outcome)
    ensures |GroupLog(key, extend, o)| == if o.Fail? then 2 else 1
    ensures SkipLines(GroupLog(key, extend, o)) == if o.Fail? then 1 else 0
  {
    var header := if extend then Extending(key) else Creating(key);
    SkipLineIff(header);
    var lines := [header];
    assert SkipLines(lines) == 0 by {
      assert lines[..0] == [];
    }
    if o.Fail? {
      var more := [Skipping(key, o.message)];
      SkipLineIff(more[0]);
      SkipLinesAppend(lines, more);
      assert more[..0] == [];
    } else {
      assert GroupLog(key, extend, o) == lines;
    }
  }

  /** A run logs one header per handled group and one skip line per failed
      group: a failure is reported and does not stop the run. */
  lemma {:induction false} RunLogShape(playlists: seq<PlaylistInfo>, order: seq<Genre>, outcomes: seq<Outcome>)
    requires |order| == |outcomes|
    ensures |RunLog(playlists, order, outcomes)| == |order| + Failures(outcomes)
    ensures SkipLines(RunLog(playlists, order, outcomes)) == Failures(outcomes)
  {
    if order != [] {
      var n := |order| - 1;
      var earlier := RunLog(playlists, order[..n], outcomes[..n]);
      var last := GroupLog(order[n], FindByName(playlists, order[n]).Some?, outcomes[n]);
      var f := Failures(outcomes[..n]);
      var d := if outcomes[n].Fail? then 1 else 0;
      assert RunLog(playlists, order, outcomes) == earlier + last;
      assert Failures(outcomes) == f + d;
      RunLogShape(playlists, order[..n], outcomes[..n]);
      GroupLogShape(order[n], FindByName(playlists, order[n]).Some?, outcomes[n]);
      SkipLinesAppend(earlier, last);
    }
  }

  /** The batches of a list: none for an empty list, otherwise the fewest
      batches of 50 that hold it; batch `i` is `Skip(i * 50).Take(50)`,
      holds 1 to 50 items, and the batches in order give the list back. */
  lemma BatchesSpec<T>(s: seq<T>)
    ensures |Chunks(s, BatchSize)| == 0 <==> s == []
    ensures s != [] ==> (|Chunks(s, BatchSize)| - 1) * BatchSize < |s| <= |Chunks(s, BatchSize)| * BatchSize
    ensures forall i | 0 <= i < |Chunks(s, BatchSize)| ::
      Chunks(s, BatchSize)[i] == Take(Skip(s, i * BatchSize), BatchSize)
    ensures forall c | c in Chunks(s, BatchSize) :: 0 < |c| <= BatchSize
    ensures Flatten(Chunks(s, BatchSize)) == s
  {
    ChunkCountBounds(s, BatchSize);
    ChunkSizes(s, BatchSize);
    ChunksReassemble(s, BatchSize);
    forall i | 0 <= i < |Chunks(s, BatchSize)|
      ensures Chunks(s, BatchSize)[i] == Take(Skip(s, i * BatchSize), BatchSize)
    {
      ChunkAt(s, BatchSize, i);
    }
  }

  /** The artist lookups ask for every artist of the tracks exactly once, in
      order of first appearance, at most 50 per lookup, and make no lookup
      when the tracks name no artist. */
  lemma ArtistPlanSpec(tracks: seq<Track>)
    ensures ArtistPlan(tracks) == [] <==> ArtistIdsToFetch(tracks) == []
    ensures forall x :: x in AllItems(ArtistPlan(tracks)) <==>
      exists i :: 0 <= i < |tracks| && x in tracks[i].artists
    ensures NoDuplicates(AllItems(ArtistPlan(tracks)))
    ensures forall r | r in ArtistPlan(tracks) :: r.GetSeveralArtists? && 0 < |r.artistIds| <= BatchSize
  {
    var ids := ArtistIdsToFetch(tracks);
    BatchesSpec(ids);
    ArtistRequestsCarry(Chunks(ids, BatchSize));
    ArtistIdsToFetchSpec(tracks);
  }

  /** The additions carry exactly the given URIs, in order, at most 50 per
      request, and there is no request for an empty list. */
  lemma AddPlanSpec(id: PlaylistId, uris: seq<Uri>)
    ensures AddPlan(id, uris) == [] <==> uris == []
    ensures AllItems(AddPlan(id, uris)) == uris
    ensures forall r | r in AddPlan(id, uris) :: r == AddItems(id, r.uris) && 0 < |r.uris| <= BatchSize
  {
    BatchesSpec(uris);
    AddRequestsCarry(id, Chunks(uris, BatchSize));
  }

  /** Extending a playlist reads it first and then adds exactly the
      requested URIs it does not hold yet, each once, in batches of at most 50. */
  lemma ExtendPlanSpec(id: PlaylistId, uris: seq<Uri>, contents: map<PlaylistId, seq<Track>>)
    requires id in contents
    ensures ExtendPlan(id, uris, contents)[0] == GetPlaylist(id)
    ensures forall u :: u in AllItems(ExtendPlan(id, uris, contents)) <==>
      u in uris && u !in UrisOf(contents[id])
    ensures NoDuplicates(AllItems(ExtendPlan(id, uris, contents)))
    ensures forall r | r in ExtendPlan(id, uris, contents)[1..] :: r == AddItems(id, r.uris) && 0 < |r.uris| <= BatchSize
  {
    var plan := AddPlan(id, NewUris(uris, contents[id]));
    AddPlanSpec(id, NewUris(uris, contents[id]));
    ExceptSpec(uris, UrisOf(contents[id]));
    AllItemsAppend([GetPlaylist(id)], plan);
    assert AllItems([GetPlaylist(id)]) == [] by {
      assert [GetPlaylist(id)][..0] == [];
    }
    assert ExtendPlan(id, uris, contents)[1..] == plan;
  }

  /** Once an extension has gone through, extending the playlist again with
      the same URIs only reads it: no URI is added twice. */
  lemma ExtendAgainAddsNothing(id: PlaylistId, uris: seq<Uri>, contents: map<PlaylistId, seq<Track>>, catalog: Uri -> Track)
    requires id in contents
    requires forall u :: catalog(u).uri == u
    ensures ExtendPlan(id, uris, Added(contents, id, catalog, NewUris(uris, contents[id]))) == [GetPlaylist(id)]
  {
    var added := NewUris(uris, contents[id]);
    var existing := UrisOf(contents[id]);
    assert UrisOf(contents[id] + TracksOf(catalog, added)) == existing + added by {
      UrisOfTracksOf(catalog, added);
      assert UrisOf(contents[id] + TracksOf(catalog, added)) == existing + UrisOf(TracksOf(catalog, added));
    }
    ExceptAfterAdding(uris, existing, added);
    assert Chunks(NewUris(uris, contents[id] + TracksOf(catalog, added)), BatchSize) == [];
  }

  /** A playlist is read and left alone exactly when no track identity repeats
      in it; otherwise one removal names the URIs of the later occurrences,
      as many as there are tracks beyond each identity's first. */
  lemma DedupPlanSpec(id: PlaylistId, contents: map<PlaylistId, seq<Track>>)
    requires id in contents
    ensures DedupPlan(id, contents)[0] == GetPlaylist(id)
    ensures |DedupPlan(id, contents)| == 1 <==> NoDuplicates(IdsOf(contents[id]))
    ensures |DedupPlan(id, contents)| == 2 ==>
      && DedupPlan(id, contents)[1].RemoveItems?
      && |DedupPlan(id, contents)[1].uris| == |contents[id]| - |Distinct(IdsOf(contents[id]))|
      && forall k | 0 <= k < |DedupPlan(id, contents)[1].uris| ::
           exists t | t in contents[id] :: t.uri == DedupPlan(id, contents)[1].uris[k]
  {
    NoCandidatesIff(contents[id]);
    CandidateCount(contents[id]);
    var c := DuplicateCandidates(contents[id]);
    CandidatesAreTracks(contents[id]);
    assert forall k | 0 <= k < |c| :: c[k] in c;
  }
}
