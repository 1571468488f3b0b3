/**
 * The list transformations the playlist context applies once an API call has
 * succeeded: filtering out an id, merging an update into the entries with a
 * given id, and the resulting changes to the selected playlist.
 */
module PlaylistOps {
  import opened Api

  function PlaylistKey(p: Playlist): int { p.id }

  function TrackKey(t: Track): int { t.id }

  /** `s.filter(x => key(x) !== k)` */
  function WithoutKey<T(!new)>(s: seq<T>, key: T -> int, k: int): (r: seq<T>)
    ensures |r| <= |s|
    ensures forall x :: x in r <==> x in s && key(x) != k
  {
    if s == [] then []
    else (if key(s[0]) == k then [] else [s[0]]) + WithoutKey(s[1..], key, k)
  }

  /** Filtering distributes over concatenation: the survivors keep their relative order. */
  lemma {:induction false} WithoutKeyConcat<T(!new)>(a: seq<T>, b: seq<T>, key: T -> int, k: int)
    ensures WithoutKey(a + b, key, k) == WithoutKey(a, key, k) + WithoutKey(b, key, k)
  {
    if a == [] {
      assert a + b == b;
    } else {
      assert (a + b)[1..] == a[1..] + b;
      WithoutKeyConcat(a[1..], b, key, k);
    }
  }

  /** When no entry carries the key, filtering changes nothing. */
  lemma {:induction false} WithoutAbsentKey<T(!new)>(s: seq<T>, key: T -> int, k: int)
    requires forall x :: x in s ==> key(x) != k
    ensures WithoutKey(s, key, k) == s
  {
    if s != [] {
      WithoutAbsentKey(s[1..], key, k);
    }
  }

  /** Removing the same id twice is the same as removing it once. */
  lemma WithoutKeyIdempotent<T(!new)>(s: seq<T>, key: T -> int, k: int)
    ensures WithoutKey(WithoutKey(s, key, k), key, k) == WithoutKey(s, key, k)
  {
    WithoutAbsentKey(WithoutKey(s, key, k), key, k);
  }

  /** Two removals by id give the same list in either order. */
  lemma {:induction false} WithoutKeyCommutes<T(!new)>(s: seq<T>, key: T -> int, k1: int, k2: int)
    ensures WithoutKey(WithoutKey(s, key, k1), key, k2) == WithoutKey(WithoutKey(s, key, k2), key, k1)
  {
    if s != [] {
      var h := if key(s[0]) == k1 then [] else [s[0]];
      WithoutKeyConcat(h, WithoutKey(s[1..], key, k1), key, k2);
      var g := if key(s[0]) == k2 then [] else [s[0]];
      WithoutKeyConcat(g, WithoutKey(s[1..], key, k2), key, k1);
      WithoutKeyCommutes(s[1..], key, k1, k2);
    }
  }

  /** `{ ...p, ...u }` on a summary record. */
  function ApplyPatch(p: Playlist, u: PlaylistPatch): (r: Playlist)
    ensures u.id.Some? ==> r.id == u.id.value
    ensures u.id.None? ==> r.id == p.id
    ensures u.title.Some? ==> r.title == u.title.value
    ensures u.title.None? ==> r.title == p.title
    ensures u.creatorId.Some? ==> r.creatorId == u.creatorId.value
    ensures u.creatorId.None? ==> r.creatorId == p.creatorId
    ensures u.coverUrl.Some? ==> r.coverUrl == u.coverUrl.value
    ensures u.coverUrl.None? ==> r.coverUrl == p.coverUrl
    ensures u.privacy.Some? ==> r.privacy == u.privacy.value
    ensures u.privacy.None? ==> r.privacy == p.privacy
  {
    Playlist(u.id.GetOr(p.id), u.title.GetOr(p.title), u.creatorId.GetOr(p.creatorId),
             u.coverUrl.GetOr(p.coverUrl), u.privacy.GetOr(p.privacy))
  }

  /** Applying the same update twice is the same as applying it once. */
  lemma ApplyPatchIdempotent(p: Playlist, u: PlaylistPatch)
    ensures ApplyPatch(ApplyPatch(p, u), u) == ApplyPatch(p, u)
  {
  }

  /** `ps.map(p => p.id === id ? { ...p, ...u } : p)` */
  function MergeById(ps: seq<Playlist>, id: int, u: PlaylistPatch): (r: seq<Playlist>)
    ensures |r| == |ps|
    ensures forall i :: 0 <= i < |ps| && ps[i].id != id ==> r[i] == ps[i]
    ensures forall i :: 0 <= i < |ps| && ps[i].id == id ==> r[i] == ApplyPatch(ps[i], u)
  {
    if ps == [] then []
    else [if ps[0].id == id then ApplyPatch(ps[0], u) else ps[0]] + MergeById(ps[1..], id, u)
  }

  /** `selectedPlaylist?.id === id` */
  predicate IsSelected(sel: Option<PlaylistWithTracks>, id: int)
    ensures IsSelected(sel, id) ==> sel.Some?
    ensures sel.Some? ==> (IsSelected(sel, id) <==> sel.value.info.id == id)
  {
    sel.Some? && sel.value.info.id == id
  }

  /** The selected playlist after a successful removal of `trackId` from `playlistId`. */
  function RemoveTrackFromSelection(sel: Option<PlaylistWithTracks>, playlistId: int, trackId: int)
    : (r: Option<PlaylistWithTracks>)
    ensures !IsSelected(sel, playlistId) ==> r == sel
    ensures IsSelected(sel, playlistId) ==>
      r.Some? && r.value.info == sel.value.info &&
      (forall t :: t in r.value.tracks <==> t in sel.value.tracks && t.id != trackId)
  {
    if IsSelected(sel, playlistId)
    then Some(sel.value.(tracks := WithoutKey(sel.value.tracks, TrackKey, trackId)))
    else sel
  }

  /** A second identical removal finds nothing left to remove. */
  lemma RemoveTrackTwiceIsOnce(sel: Option<PlaylistWithTracks>, playlistId: int, trackId: int)
    ensures var once := RemoveTrackFromSelection(sel, playlistId, trackId);
            RemoveTrackFromSelection(once, playlistId, trackId) == once
  {
    if IsSelected(sel, playlistId) {
      WithoutKeyIdempotent(sel.value.tracks, TrackKey, trackId);
    }
  }

  /** Two removals from the selected playlist commute. */
  lemma RemoveTracksCommute(sel: Option<PlaylistWithTracks>, playlistId: int, t1: int, t2: int)
    ensures RemoveTrackFromSelection(RemoveTrackFromSelection(sel, playlistId, t1), playlistId, t2)
         == RemoveTrackFromSelection(RemoveTrackFromSelection(sel, playlistId, t2), playlistId, t1)
  {
    if IsSelected(sel, playlistId) {
      WithoutKeyCommutes(sel.value.tracks, TrackKey, t1, t2);
    }
  }

  /** The selected playlist after a refetch of `playlistId` that was issued only if it is selected. */
  function Refetched(sel: Option<PlaylistWithTracks>, playlistId: int, refetch: ApiResult<PlaylistWithTracks>)
    : (r: Option<PlaylistWithTracks>)
    ensures r != sel ==> IsSelected(sel, playlistId) && refetch.Resolved? && r == Some(refetch.value)
    ensures IsSelected(sel, playlistId) && refetch.Resolved? ==> r == Some(refetch.value)
  {
    if IsSelected(sel, playlistId) && refetch.Resolved? then Some(refetch.value) else sel
  }
}
