/**
 * The playlist state coordinator: the four pieces of state the provider holds
 * (`playlists`, `selectedPlaylist`, `isLoading`, `error`) and its handlers.
 * Each handler is one atomic step that receives the outcome of its API calls
 * as parameters and returns the calls it issued, in order.
 */
module PlaylistContext {
  import opened Api
  import opened PlaylistOps

  const FetchPlaylistsFallback := "Failed to fetch playlists"
  const CreateFallback := "Failed to create playlist"
  const FetchPlaylistFallback := "Failed to fetch playlist"
  const UpdateFallback := "Failed to update playlist"
  const DeleteFallback := "Failed to delete playlist"
  const AddTrackFallback := "Failed to add track"
  const RemoveTrackFallback := "Failed to remove track"

  /** The error text a rejected call leaves behind. */
  function ErrorAfter<T>(response: ApiResult<T>, fallback: string): (e: Option<string>)
    ensures e == None <==> response.Resolved?
    ensures response.Rejected? && response.reason.ErrorInstance? ==> e == Some(response.reason.message)
    ensures response.Rejected? && response.reason.OtherValue? ==> e == Some(fallback)
  {
    if response.Rejected? then Some(MessageOf(response.reason, fallback)) else None
  }

  /** The ids whose add request was rejected, in request order (what the batch logs). */
  function FailedIds(trackIds: seq<int>, results: seq<ApiResult<()>>): (r: seq<int>)
    requires |results| == |trackIds|
    ensures |r| <= |trackIds|
    ensures forall t :: t in r <==> exists i :: 0 <= i < |trackIds| && trackIds[i] == t && results[i].Rejected?
    ensures r == [] <==> forall i :: 0 <= i < |results| ==> results[i].Resolved?
    decreases |trackIds|
  {
    if trackIds == [] then []
    else
      var n := |trackIds| - 1;
      FailedIds(trackIds[..n], results[..n]) + (if results[n].Rejected? then [trackIds[n]] else [])
  }

  /**
   * The loop of the batch add: one add request per id, in the order of
   * `trackIds`, whatever the earlier requests returned.
   */
  method SendAdds(playlistId: int, trackIds: seq<int>, results: seq<ApiResult<()>>)
    returns (calls: seq<ApiCall>, failed: seq<int>)
    requires |results| == |trackIds|
    ensures |calls| == |trackIds|
    ensures forall i :: 0 <= i < |trackIds| ==> calls[i] == AddTrackCall(playlistId, trackIds[i])
    ensures failed == FailedIds(trackIds, results)
  {
    calls, failed := [], [];
    for i := 0 to |trackIds|
      invariant |calls| == i
      invariant forall j :: 0 <= j < i ==> calls[j] == AddTrackCall(playlistId, trackIds[j])
      invariant failed == FailedIds(trackIds[..i], results[..i])
    {
      calls := calls + [AddTrackCall(playlistId, trackIds[i])];
      if results[i].Rejected? {
        failed := failed + [trackIds[i]];
      }
      assert trackIds[..i + 1][..i] == trackIds[..i];
      assert results[..i + 1][..i] == results[..i];
    }
    assert trackIds[..|trackIds|] == trackIds;
    assert results[..|results|] == results;
  }

  class PlaylistProvider {
    var playlists: seq<Playlist>
    var selectedPlaylist: Option<PlaylistWithTracks>
    var isLoading: bool
    var error: Option<string>

    constructor ()
      ensures playlists == [] && selectedPlaylist == None && !isLoading && error == None
    {
      playlists := [];
      selectedPlaylist := None;
      isLoading := false;
      error := None;
    }

    method ClearError()
      modifies this
      ensures error == None
      ensures playlists == old(playlists) && selectedPlaylist == old(selectedPlaylist)
      ensures isLoading == old(isLoading)
    {
      error := None;
    }

    method FetchUserPlaylists(response: ApiResult<seq<Playlist>>) returns (calls: seq<ApiCall>)
      modifies this
      ensures calls == [GetUserPlaylists]
      ensures playlists == (if response.Resolved? then response.value else old(playlists))
      ensures error == ErrorAfter(response, FetchPlaylistsFallback)
      ensures !isLoading
      ensures selectedPlaylist == old(selectedPlaylist)
    {
      isLoading := true;
      error := None;
      calls := [GetUserPlaylists];
      match response {
        case Resolved(data) =>
          playlists := data;
        case Rejected(reason) =>
          error := Some(MessageOf(reason, FetchPlaylistsFallback));
      }
      isLoading := false;
    }

    /** The mount effect: the playlists are loaded only for an authenticated user. */
    method Mount(authenticated: bool, response: ApiResult<seq<Playlist>>) returns (calls: seq<ApiCall>)
      modifies this
      ensures authenticated ==> calls == [GetUserPlaylists] && !isLoading
      ensures authenticated ==> playlists == (if response.Resolved? then response.value else old(playlists))
      ensures authenticated ==> error == ErrorAfter(response, FetchPlaylistsFallback)
      ensures !authenticated ==> calls == [] && playlists == old(playlists)
      ensures !authenticated ==> error == old(error) && isLoading == old(isLoading)
      ensures selectedPlaylist == old(selectedPlaylist)
    {
      calls := [];
      if authenticated {
        calls := FetchUserPlaylists(response);
      }
    }

    method CreatePlaylist(title: string, privacy: Option<string>, response: ApiResult<Playlist>)
      returns (outcome: ApiResult<Playlist>, calls: seq<ApiCall>)
      modifies this
      ensures calls == [CreateCall(title, privacy.GetOr("public"))]
      ensures outcome == response
      ensures response.Resolved? ==> playlists == [response.value] + old(playlists)
      ensures response.Rejected? ==> playlists == old(playlists)
      ensures error == ErrorAfter(response, CreateFallback)
      ensures selectedPlaylist == old(selectedPlaylist) && isLoading == old(isLoading)
    {
      error := None;
      calls := [CreateCall(title, privacy.GetOr("public"))];
      match response
      case Resolved(newPlaylist) =>
        playlists := [newPlaylist] + playlists;
        outcome := Resolved(newPlaylist);
      case Rejected(reason) =>
        error := Some(MessageOf(reason, CreateFallback));
        outcome := Rejected(reason);
    }

    method SelectPlaylist(playlistId: int, response: ApiResult<PlaylistWithTracks>) returns (calls: seq<ApiCall>)
      modifies this
      ensures calls == [GetPlaylist(playlistId)]
      ensures selectedPlaylist == (if response.Resolved? then Some(response.value) else old(selectedPlaylist))
      ensures error == ErrorAfter(response, FetchPlaylistFallback)
      ensures !isLoading
      ensures playlists == old(playlists)
    {
      isLoading := true;
      error := None;
      calls := [GetPlaylist(playlistId)];
      match response {
        case Resolved(data) =>
          selectedPlaylist := Some(data);
        case Rejected(reason) =>
          error := Some(MessageOf(reason, FetchPlaylistFallback));
      }
      isLoading := false;
    }

    method UpdatePlaylist(playlistId: int, title: Option<string>, privacy: Option<string>,
                          response: ApiResult<PlaylistPatch>)
      returns (outcome: ApiResult<()>, calls: seq<ApiCall>)
      modifies this
      ensures calls == [UpdateCall(playlistId, title, privacy)]
      ensures response.Resolved? ==> outcome.Resolved?
      ensures response.Rejected? ==> outcome == Rejected(response.reason)
      ensures response.Resolved? ==> playlists == MergeById(old(playlists), playlistId, response.value)
      ensures response.Resolved? && IsSelected(old(selectedPlaylist), playlistId) ==>
        selectedPlaylist == Some(old(selectedPlaylist).value.(info := ApplyPatch(old(selectedPlaylist).value.info, response.value)))
      ensures response.Rejected? || !IsSelected(old(selectedPlaylist), playlistId) ==>
        selectedPlaylist == old(selectedPlaylist)
      ensures response.Rejected? ==> playlists == old(playlists)
      ensures error == ErrorAfter(response, UpdateFallback)
      ensures isLoading == old(isLoading)
    {
      error := None;
      calls := [UpdateCall(playlistId, title, privacy)];
      match response
      case Resolved(updated) =>
        playlists := MergeById(playlists, playlistId, updated);
        if IsSelected(selectedPlaylist, playlistId) {
          selectedPlaylist := Some(selectedPlaylist.value.(info := ApplyPatch(selectedPlaylist.value.info, updated)));
        }
        outcome := Resolved(());
      case Rejected(reason) =>
        error := Some(MessageOf(reason, UpdateFallback));
        outcome := Rejected(reason);
    }

    method DeletePlaylist(playlistId: int, response: ApiResult<()>)
      returns (outcome: ApiResult<()>, calls: seq<ApiCall>)
      modifies this
      ensures calls == [DeleteCall(playlistId)]
      ensures outcome == response
      ensures response.Resolved? ==> playlists == WithoutKey(old(playlists), PlaylistKey, playlistId)
      ensures response.Resolved? ==>
        selectedPlaylist == (if IsSelected(old(selectedPlaylist), playlistId) then None else old(selectedPlaylist))
      ensures response.Rejected? ==> playlists == old(playlists) && selectedPlaylist == old(selectedPlaylist)
      ensures error == ErrorAfter(response, DeleteFallback)
      ensures isLoading == old(isLoading)
    {
      error := None;
      calls := [DeleteCall(playlistId)];
      match response
      case Resolved(_) =>
        playlists := WithoutKey(playlists, PlaylistKey, playlistId);
        if IsSelected(selectedPlaylist, playlistId) {
          selectedPlaylist := None;
        }
        outcome := response;
      case Rejected(reason) =>
        error := Some(MessageOf(reason, DeleteFallback));
        outcome := Rejected(reason);
    }

    /**
     * Adds one track; on success the selected playlist is refetched when it is
     * the one changed, and a failed refetch is swallowed.
     */
    method AddTrackToPlaylist(playlistId: int, trackId: int, response: ApiResult<()>,
                              refetch: ApiResult<PlaylistWithTracks>)
      returns (outcome: ApiResult<()>, calls: seq<ApiCall>)
      modifies this
      ensures outcome == response
      ensures calls == [AddTrackCall(playlistId, trackId)] +
        (if response.Resolved? && IsSelected(old(selectedPlaylist), playlistId) then [GetPlaylist(playlistId)] else [])
      ensures selectedPlaylist ==
        (if response.Resolved? then Refetched(old(selectedPlaylist), playlistId, refetch) else old(selectedPlaylist))
      ensures error == ErrorAfter(response, AddTrackFallback)
      ensures playlists == old(playlists) && isLoading == old(isLoading)
    {
      error := None;
      calls := [AddTrackCall(playlistId, trackId)];
      match response
      case Resolved(_) =>
        if IsSelected(selectedPlaylist, playlistId) {
          calls := calls + [GetPlaylist(playlistId)];
          if refetch.Resolved? {
            selectedPlaylist := Some(refetch.value);
          }
        }
        outcome := response;
      case Rejected(reason) =>
        error := Some(MessageOf(reason, AddTrackFallback));
        outcome := Rejected(reason);
    }

    /**
     * Adds several tracks one request at a time, carrying on past failures,
     * then refetches the selected playlist once if it is the one changed.
     * Nothing here can reject, so the handler always resolves.
     */
    method AddTracksToPlaylist(playlistId: int, trackIds: seq<int>, results: seq<ApiResult<()>>,
                               refetch: ApiResult<PlaylistWithTracks>)
      returns (calls: seq<ApiCall>, failed: seq<int>)
      requires |results| == |trackIds|
      modifies this
      ensures var refetched := IsSelected(old(selectedPlaylist), playlistId);
        |calls| == |trackIds| + (if refetched then 1 else 0) &&
        (refetched ==> calls[|trackIds|] == GetPlaylist(playlistId))
      ensures forall i :: 0 <= i < |trackIds| ==> calls[i] == AddTrackCall(playlistId, trackIds[i])
      ensures failed == FailedIds(trackIds, results)
      ensures selectedPlaylist == Refetched(old(selectedPlaylist), playlistId, refetch)
      ensures error == None
      ensures playlists == old(playlists) && isLoading == old(isLoading)
    {
      error := None;
      calls, failed := SendAdds(playlistId, trackIds, results);
      if IsSelected(selectedPlaylist, playlistId) {
        calls := calls + [GetPlaylist(playlistId)];
        if refetch.Resolved? {
          selectedPlaylist := Some(refetch.value);
        }
      }
    }

    method RemoveTrackFromPlaylist(playlistId: int, trackId: int, response: ApiResult<()>)
      returns (outcome: ApiResult<()>, calls: seq<ApiCall>)
      modifies this
      ensures outcome == response
      ensures calls == [RemoveTrackCall(playlistId, trackId)]
      ensures selectedPlaylist ==
        (if response.Resolved? then RemoveTrackFromSelection(old(selectedPlaylist), playlistId, trackId)
         else old(selectedPlaylist))
      ensures error == ErrorAfter(response, RemoveTrackFallback)
      ensures playlists == old(playlists) && isLoading == old(isLoading)
    {
      error := None;
      calls := [RemoveTrackCall(playlistId, trackId)];
      match response
      case Resolved(_) =>
        if IsSelected(selectedPlaylist, playlistId) {
          selectedPlaylist := Some(selectedPlaylist.value.(tracks := WithoutKey(selectedPlaylist.value.tracks, TrackKey, trackId)));
        }
        outcome := response;
      case Rejected(reason) =>
        error := Some(MessageOf(reason, RemoveTrackFallback));
        outcome := Rejected(reason);
    }
  }
}
