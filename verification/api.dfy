/**
 * Value types shared by the playlist context, the player bar and the welcome
 * section: the playlist and track records the client receives from the REST
 * API, the outcome of an API call, and the calls themselves.
 */
module Api {

  datatype Option<+T> = None | Some(value: T) {
    function GetOr(default: T): T {
      match this
      case Some(v) => v
      case None => default
    }
  }

  /** What an awaited call threw: an `Error` instance carries a message; any other value does not. */
  datatype Thrown = ErrorInstance(message: string) | OtherValue

  /** The settled state of an awaited API promise. */
  datatype ApiResult<+T> = Resolved(value: T) | Rejected(reason: Thrown)

  /** `err instanceof Error ? err.message : fallback` */
  function MessageOf(reason: Thrown, fallback: string): (m: string)
    ensures reason.ErrorInstance? ==> m == reason.message
    ensures reason.OtherValue? ==> m == fallback
  {
    match reason
    case ErrorInstance(m) => m
    case OtherValue => fallback
  }

  /** A track as listed inside a playlist (only `id` matters to the playlist logic). */
  datatype Track = Track(id: int, title: string, artistId: int, duration: int, isFavorited: bool)

  /** Summary record of a playlist (creation and update timestamps are not modelled). */
  datatype Playlist = Playlist(id: int, title: string, creatorId: int, coverUrl: Option<string>, privacy: string)

  /** A playlist together with its ordered tracks, as returned for the selected playlist. */
  datatype PlaylistWithTracks = PlaylistWithTracks(info: Playlist, tracks: seq<Track>)

  /**
   * The object returned by the update endpoint, as seen by an object spread:
   * a field that is present overrides the old value, an absent one keeps it.
   */
  datatype PlaylistPatch = PlaylistPatch(
    id: Option<int>, title: Option<string>, creatorId: Option<int>,
    coverUrl: Option<Option<string>>, privacy: Option<string>)

  /** One request to the API client. */
  datatype ApiCall =
    | GetUserPlaylists
    | GetPlaylist(playlistId: int)
    | CreateCall(title: string, privacy: string)
    | UpdateCall(playlistId: int, newTitle: Option<string>, newPrivacy: Option<string>)
    | DeleteCall(playlistId: int)
    | AddTrackCall(playlistId: int, trackId: int)
    | RemoveTrackCall(playlistId: int, trackId: int)
    | LikeTrack(trackId: int)
    | UnlikeTrack(trackId: int)
}
