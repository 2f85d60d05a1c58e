/** Entities the playlist organiser works with, the remote requests it can
    issue, and the error-carrying results of those requests. Identifiers,
    URIs and genre tags are opaque strings compared by exact equality;
    playlist identifiers are allocated by the remote store and are modelled
    as naturals. */
module Types {

  type Uri = string
  type TrackId = string
  type ArtistId = string
  type UserId = string
  type Genre = string
  type PlaylistId = nat

  /** A saved track: its identity, the URI used for playlist membership
      requests, and the identities of its artists in order. */
  datatype Track = Track(id: TrackId, uri: Uri, artists: seq<ArtistId>)

  /** An artist with its genre tags (an absent tag list is the empty one). */
  datatype Artist = Artist(id: ArtistId, genres: seq<Genre>)

  /** An entry of the user's playlist listing. */
  datatype PlaylistInfo = PlaylistInfo(id: PlaylistId, name: string)

  datatype Option<+T> = None | Some(value: T)

  /** The value of a remote call, or the message of the exception it raised. */
  datatype Result<+T> = Ok(value: T) | Err(message: string)

  /** Completion of an operation that returns nothing, or its exception message. */
  datatype Outcome = Pass | Fail(message: string)

  /** One request issued to the streaming service. */
  datatype Request =
    | GetSavedTracks
    | GetCurrentUsersPlaylists
    | GetPlaylist(playlistId: PlaylistId)
    | GetSeveralArtists(artistIds: seq<ArtistId>)
    | CreatePlaylist(ownerId: UserId, name: string, description: string, isPublic: bool)
    | AddItems(playlistId: PlaylistId, uris: seq<Uri>)
    | RemoveItems(playlistId: PlaylistId, uris: seq<Uri>)

  /** Largest number of items the organiser puts into one artist lookup or
      one playlist addition. */
  const BatchSize: nat := 50

  /** The URIs of the given tracks, in order. */
  function UrisOf(tracks: seq<Track>): seq<Uri>
  {
    seq(|tracks|, i requires 0 <= i < |tracks| => tracks[i].uri)
  }
}
