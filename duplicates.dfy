/** The duplicate remover's selection: group a playlist's tracks by track
    identity and keep, for every identity, all occurrences after the first. */
module Duplicates {
  import opened Types
  import opened Sequences

  /** The identities of the tracks, in playlist order. */
  function IdsOf(tracks: seq<Track>): seq<TrackId>
  {
    seq(|tracks|, i requires 0 <= i < |tracks| => tracks[i].id)
  }

  /** The occurrences of identity `id`, in playlist order: one group of the
      `GroupBy` on the track identity. */
  function Occurrences(tracks: seq<Track>, id: TrackId): (r: seq<Track>)
    ensures |r| <= |tracks|
  {
    if tracks == [] then []
    else
      var p, last := tracks[..|tracks| - 1], tracks[|tracks| - 1];
      var o := Occurrences(p, id);
      if last.id == id then o + [last] else o
  }

  /** A group holds exactly the tracks with its identity. */
  lemma {:induction false} OccurrencesSpec(tracks: seq<Track>, id: TrackId)
    ensures forall t | t in Occurrences(tracks, id) :: t in tracks && t.id == id
    ensures forall t | t in tracks && t.id == id :: t in Occurrences(tracks, id)
  {
    if tracks != [] {
      var p, last := tracks[..|tracks| - 1], tracks[|tracks| - 1];
      assert tracks == p + [last];
      OccurrencesSpec(p, id);
    }
  }

  /** `Where(g => g.Count() > 1)` followed by `Skip(1)`: a group's
      occurrences after its first one. */
  function AfterFirst(group: seq<Track>): seq<Track>
  {
    if |group| > 1 then group[1..] else []
  }

  /** The later occurrences of each identity in `keys`, group after group. */
  function LaterOccurrences(keys: seq<TrackId>, tracks: seq<Track>): seq<Track>
  {
    if keys == [] then []
    else LaterOccurrences(keys[..|keys| - 1], tracks) + AfterFirst(Occurrences(tracks, keys[|keys| - 1]))
  }

  /** The removal candidates: the groups are taken in the order in which
      their identity first appears, each contributing its occurrences after
      the first, in playlist order. */
  function DuplicateCandidates(tracks: seq<Track>): seq<Track>
  {
    LaterOccurrences(Distinct(IdsOf(tracks)), tracks)
  }

  lemma {:induction false} LaterOccurrencesAreTracks(keys: seq<TrackId>, tracks: seq<Track>)
    ensures forall t | t in LaterOccurrences(keys, tracks) :: t in tracks
  {
    if keys != [] {
      LaterOccurrencesAreTracks(keys[..|keys| - 1], tracks);
      OccurrencesSpec(tracks, keys[|keys| - 1]);
    }
  }

  /** Every removal candidate is a track of the playlist. */
  lemma CandidatesAreTracks(tracks: seq<Track>)
    ensures forall t | t in DuplicateCandidates(tracks) :: t in tracks
  {
    LaterOccurrencesAreTracks(Distinct(IdsOf(tracks)), tracks);
  }

  lemma {:induction false} OccurrencesAppend(a: seq<Track>, b: seq<Track>, id: TrackId)
    ensures Occurrences(a + b, id) == Occurrences(a, id) + Occurrences(b, id)
  {
    if b == [] {
      assert a + b == a;
    } else {
      var b', z := b[..|b| - 1], b[|b| - 1];
      assert (a + b)[..|a + b| - 1] == a + b';
      OccurrencesAppend(a, b', id);
    }
  }

  lemma {:induction false} OccurrencesOfOneId(s: seq<Track>, k: TrackId, id: TrackId)
    requires forall t | t in s :: t.id == k
    ensures Occurrences(s, id) == if k == id then s else []
  {
    if s != [] {
      var p, last := s[..|s| - 1], s[|s| - 1];
      assert forall t | t in p :: t in s;
      OccurrencesOfOneId(p, k, id);
      assert s == p + [last];
    }
  }

  /** The later occurrences of one identity hold no other identity. */
  lemma AfterFirstOfOneId(tracks: seq<Track>, k: TrackId, id: TrackId)
    ensures Occurrences(AfterFirst(Occurrences(tracks, k)), id)
      == if k == id then AfterFirst(Occurrences(tracks, k)) else []
  {
    var g := AfterFirst(Occurrences(tracks, k));
    OccurrencesSpec(tracks, k);
    assert forall t | t in g :: t.id == k;
    OccurrencesOfOneId(g, k, id);
  }

  lemma {:induction false} LaterOccurrencesOf(keys: seq<TrackId>, tracks: seq<Track>, id: TrackId)
    requires NoDuplicates(keys)
    ensures Occurrences(LaterOccurrences(keys, tracks), id)
      == if id in keys then AfterFirst(Occurrences(tracks, id)) else []
  {
    if keys != [] {
      var p, k := keys[..|keys| - 1], keys[|keys| - 1];
      assert keys == p + [k];
      assert NoDuplicates(p);
      LaterOccurrencesOf(p, tracks, id);
      var g := AfterFirst(Occurrences(tracks, k));
      var earlier := LaterOccurrences(p, tracks);
      AfterFirstOfOneId(tracks, k, id);
      assert LaterOccurrences(keys, tracks) == earlier + g;
      OccurrencesAppend(earlier, g, id);
      if id == k {
        assert k !in p;
        assert Occurrences(earlier, id) == [];
        assert [] + g == g;
      } else {
        assert id in keys <==> id in p;
        assert Occurrences(earlier, id) + [] == Occurrences(earlier, id);
      }
    }
  }

  /** For every identity, the candidates hold exactly the occurrences after
      its first one: Skip(1) of the identity's group, in playlist order. */
  lemma CandidatesPerId(tracks: seq<Track>, id: TrackId)
    ensures Occurrences(DuplicateCandidates(tracks), id) == AfterFirst(Occurrences(tracks, id))
  {
    var keys := Distinct(IdsOf(tracks));
    DistinctSpec(IdsOf(tracks));
    LaterOccurrencesOf(keys, tracks, id);
    OccurringIdsAreKeys(tracks, id);
  }

  /** Tracks ordered by their keys stay so when the tracks of one new, last
      key follow them. */
  lemma KeyOrderSnoc(p: seq<TrackId>, k: TrackId, earlier: seq<Track>, g: seq<Track>)
    requires k !in p
    requires forall t | t in earlier :: t.id in p
    requires forall i, j | 0 <= i < j < |earlier| && earlier[i].id != earlier[j].id ::
      FirstIndex(p, earlier[i].id) < FirstIndex(p, earlier[j].id)
    requires forall t | t in g :: t.id == k
    ensures forall t | t in earlier + g :: t.id in p + [k]
    ensures forall i, j | 0 <= i < j < |earlier + g| && (earlier + g)[i].id != (earlier + g)[j].id ::
      FirstIndex(p + [k], (earlier + g)[i].id) < FirstIndex(p + [k], (earlier + g)[j].id)
  {
    var keys, all := p + [k], earlier + g;
    forall x | x in p
      ensures FirstIndex(keys, x) == FirstIndex(p, x) < |p|
    {
      FirstIndexInPrefix(p, keys, x);
    }
    assert FirstIndex(keys, k) == |p|;
    assert forall m | |earlier| <= m < |all| :: all[m] == g[m - |earlier|] && all[m].id == k;
    forall i, j | 0 <= i < j < |all| && all[i].id != all[j].id
      ensures FirstIndex(keys, all[i].id) < FirstIndex(keys, all[j].id)
    {
      // Both in the last key's group would give them the same identity.
      if j < |earlier| {
        assert all[i] == earlier[i] && all[j] == earlier[j];
      } else if i < |earlier| {
        assert all[i] == earlier[i];
        assert earlier[i] in earlier;
      }
    }
  }

  /** Over distinct keys, the selection holds only tracks whose identity is a
      key, and takes the keys in order: a track of an earlier key never
      follows a track of a later one. */
  lemma {:induction false} LaterOccurrencesOrder(keys: seq<TrackId>, tracks: seq<Track>)
    requires NoDuplicates(keys)
    ensures forall t | t in LaterOccurrences(keys, tracks) :: t.id in keys
    ensures forall i, j | 0 <= i < j < |LaterOccurrences(keys, tracks)|
                          && LaterOccurrences(keys, tracks)[i].id != LaterOccurrences(keys, tracks)[j].id ::
      FirstIndex(keys, LaterOccurrences(keys, tracks)[i].id) < FirstIndex(keys, LaterOccurrences(keys, tracks)[j].id)
  {
    if keys != [] {
      var p, k := keys[..|keys| - 1], keys[|keys| - 1];
      assert keys == p + [k];
      assert NoDuplicates(p) && k !in p;
      LaterOccurrencesOrder(p, tracks);
      var g := AfterFirst(Occurrences(tracks, k));
      assert LaterOccurrences(keys, tracks) == LaterOccurrences(p, tracks) + g;
      OccurrencesSpec(tracks, k);
      KeyOrderSnoc(p, k, LaterOccurrences(p, tracks), g);
    }
  }

  /** Of two removal candidates with different identities, the earlier one's
      identity first appears earlier in the playlist: the groups are taken in
      order of first appearance. */
  lemma CandidatesFollowFirstAppearance(tracks: seq<Track>)
    ensures forall t | t in DuplicateCandidates(tracks) :: t.id in IdsOf(tracks)
    ensures forall i, j | 0 <= i < j < |DuplicateCandidates(tracks)|
                          && DuplicateCandidates(tracks)[i].id != DuplicateCandidates(tracks)[j].id ::
      FirstIndex(IdsOf(tracks), DuplicateCandidates(tracks)[i].id) < FirstIndex(IdsOf(tracks), DuplicateCandidates(tracks)[j].id)
  {
    var ids := IdsOf(tracks);
    var keys := Distinct(ids);
    var c := DuplicateCandidates(tracks);
    DistinctSpec(ids);
    LaterOccurrencesOrder(keys, tracks);
    DistinctKeepsFirstOccurrenceOrder(ids);
    forall i, j | 0 <= i < j < |c| && c[i].id != c[j].id
      ensures FirstIndex(ids, c[i].id) < FirstIndex(ids, c[j].id)
    {
      var a, b := FirstIndex(keys, c[i].id), FirstIndex(keys, c[j].id);
      assert keys[a] == c[i].id && keys[b] == c[j].id;
    }
  }

  lemma OccurringIdsAreKeys(tracks: seq<Track>, id: TrackId)
    ensures Occurrences(tracks, id) != [] ==> id in IdsOf(tracks)
  {
    if Occurrences(tracks, id) != [] {
      var t := Occurrences(tracks, id)[0];
      OccurrencesSpec(tracks, id);
      assert t in tracks;
      var i :| 0 <= i < |tracks| && tracks[i] == t;
      assert IdsOf(tracks)[i] == id;
    }
  }

  /** Sum, over the identities in `keys`, of the number of occurrences. */
  function OccurrenceCount(keys: seq<TrackId>, tracks: seq<Track>): nat
  {
    if keys == [] then 0
    else OccurrenceCount(keys[..|keys| - 1], tracks) + |Occurrences(tracks, keys[|keys| - 1])|
  }

  lemma {:induction false} OccurrenceCountAppend(keys: seq<TrackId>, s: seq<Track>, t: Track)
    requires NoDuplicates(keys)
    ensures OccurrenceCount(keys, s + [t]) == OccurrenceCount(keys, s) + if t.id in keys then 1 else 0
  {
    if keys != [] {
      var p, k := keys[..|keys| - 1], keys[|keys| - 1];
      assert keys == p + [k];
      assert NoDuplicates(p);
      OccurrenceCountAppend(p, s, t);
      assert (s + [t])[..|s|] == s;
      assert k !in p;
    }
  }

  /** When the keys are distinct and cover every track, the groups together
      hold every track once. */
  lemma {:induction false} OccurrenceCountCovers(keys: seq<TrackId>, s: seq<Track>)
    requires NoDuplicates(keys)
    requires forall t | t in s :: t.id in keys
    ensures OccurrenceCount(keys, s) == |s|
  {
    if s == [] {
      OccurrenceCountOfNothing(keys);
    } else {
      var p, last := s[..|s| - 1], s[|s| - 1];
      assert s == p + [last];
      assert forall t | t in p :: t in s;
      OccurrenceCountCovers(keys, p);
      OccurrenceCountAppend(keys, p, last);
    }
  }

  lemma {:induction false} OccurrenceCountOfNothing(keys: seq<TrackId>)
    ensures OccurrenceCount(keys, []) == 0
  {
    if keys != [] {
      OccurrenceCountOfNothing(keys[..|keys| - 1]);
    }
  }

  lemma {:induction false} LaterOccurrencesLength(keys: seq<TrackId>, tracks: seq<Track>)
    requires forall k | k in keys :: Occurrences(tracks, k) != []
    ensures |LaterOccurrences(keys, tracks)| + |keys| == OccurrenceCount(keys, tracks)
  {
    if keys != [] {
      var p, k := keys[..|keys| - 1], keys[|keys| - 1];
      assert forall x | x in p :: x in keys;
      LaterOccurrencesLength(p, tracks);
    }
  }

  /** There are as many candidates as tracks beyond the first occurrence of
      each identity. */
  lemma CandidateCount(tracks: seq<Track>)
    ensures |DuplicateCandidates(tracks)| == |tracks| - |Distinct(IdsOf(tracks))|
  {
    var keys := Distinct(IdsOf(tracks));
    DistinctSpec(IdsOf(tracks));
    forall k | k in keys
      ensures Occurrences(tracks, k) != []
    {
      var i :| 0 <= i < |tracks| && IdsOf(tracks)[i] == k;
      OccurrencesSpec(tracks, k);
      assert tracks[i] in Occurrences(tracks, k);
    }
    LaterOccurrencesLength(keys, tracks);
    forall t | t in tracks
      ensures t.id in keys
    {
      var i :| 0 <= i < |tracks| && tracks[i] == t;
      assert IdsOf(tracks)[i] == t.id;
    }
    OccurrenceCountCovers(keys, tracks);
  }

  /** No removal is requested exactly when no identity repeats. */
  lemma NoCandidatesIff(tracks: seq<Track>)
    ensures DuplicateCandidates(tracks) == [] <==> NoDuplicates(IdsOf(tracks))
  {
    CandidateCount(tracks);
    DistinctLengthIff(IdsOf(tracks));
  }

  /** A playlist A, B, A, C, A (by identity): the second and third A are the
      candidates, so one removal request names A's URI twice. */
  lemma FiveTrackExample()
    ensures DuplicateCandidates(FiveTracks) == [TrackA, TrackA]
  {
    DistinctOfIds();
    ExampleOccurrences();
    assert ["a", "b", "c"][..2] == ["a", "b"];
    assert ["a", "b"][..1] == ["a"];
    assert ["a"][..0] == [];
    assert LaterOccurrences(["a"], FiveTracks) == [TrackA, TrackA];
    assert LaterOccurrences(["a", "b"], FiveTracks) == [TrackA, TrackA];
  }

  const TrackA := Track("a", "uri:a", [])
  const TrackB := Track("b", "uri:b", [])
  const TrackC := Track("c", "uri:c", [])
  const FiveTracks := [TrackA, TrackB, TrackA, TrackC, TrackA]

  lemma DistinctOfIds()
    ensures Distinct(IdsOf(FiveTracks)) == ["a", "b", "c"]
  {
    assert IdsOf(FiveTracks) == ["a", "b", "a", "c", "a"];
    assert ["a", "b", "a", "c", "a"][..4] == ["a", "b", "a", "c"];
    assert ["a", "b", "a", "c"][..3] == ["a", "b", "a"];
    assert ["a", "b", "a"][..2] == ["a", "b"];
    assert ["a", "b"][..1] == ["a"];
    assert ["a"][..0] == [];
    assert Distinct(["a"]) == ["a"];
    assert Distinct(["a", "b"]) == ["a", "b"];
    assert Distinct(["a", "b", "a"]) == ["a", "b"];
    assert Distinct(["a", "b", "a", "c"]) == ["a", "b", "c"];
  }

  lemma ExampleOccurrences()
    ensures Occurrences(FiveTracks, "a") == [TrackA, TrackA, TrackA]
    ensures Occurrences(FiveTracks, "b") == [TrackB]
    ensures Occurrences(FiveTracks, "c") == [TrackC]
  {
    ExampleOccurrencesOf("a", [TrackA], [TrackA], [TrackA, TrackA], [TrackA, TrackA], [TrackA, TrackA, TrackA]);
    ExampleOccurrencesOf("b", [], [TrackB], [TrackB], [TrackB], [TrackB]);
    ExampleOccurrencesOf("c", [], [], [], [TrackC], [TrackC]);
  }

  /** Occurrences of `id` in the growing prefixes of the example playlist. */
  lemma ExampleOccurrencesOf(id: TrackId, o1: seq<Track>, o2: seq<Track>, o3: seq<Track>, o4: seq<Track>, o5: seq<Track>)
    requires o1 == if id == "a" then [TrackA] else []
    requires o2 == o1 + if id == "b" then [TrackB] else []
    requires o3 == o2 + if id == "a" then [TrackA] else []
    requires o4 == o3 + if id == "c" then [TrackC] else []
    requires o5 == o4 + if id == "a" then [TrackA] else []
    ensures Occurrences(FiveTracks, id) == o5
  {
    var a, b, c := TrackA, TrackB, TrackC;
    assert [a, b, a, c, a][..4] == [a, b, a, c];
    assert [a, b, a, c][..3] == [a, b, a];
    assert [a, b, a][..2] == [a, b];
    assert [a, b][..1] == [a];
    assert [a][..0] == [];
    assert Occurrences([a], id) == o1;
    assert Occurrences([a, b], id) == o2;
    assert Occurrences([a, b, a], id) == o3;
    assert Occurrences([a, b, a, c], id) == o4;
  }
}
