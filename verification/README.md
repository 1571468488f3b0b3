# Music app client: playlist coordinator, player bar and welcome dialog

A Dafny model of three pieces of the music-streaming web client:

- **The playlist provider** (`frontend/contexts/playlist-context.tsx`). It holds the user's
  playlists, the selected playlist with its tracks, a loading flag and an error message. Its
  handlers clear the error, call the REST API, and on success apply one list change: prepend,
  merge by id, filter by id, or refetch. On failure they record a message and, except for
  the two fetches, rethrow. The batch add sends one request per track id and carries on past
  failures. Here it is the class `PlaylistContext.PlaylistProvider`. Each handler takes the
  outcome of its API calls as parameters (`ApiResult`: resolved value or rejection) and
  returns the calls it issued, in order. The list changes are pure functions in
  `PlaylistOps`, with lemmas about them: order is kept, removal is idempotent, two removals
  commute.
- **The player bar** (`frontend/components/player/music-player-bar.tsx`). This covers
  `formatTime` over JavaScript numbers (NaN, the infinities and finite reals, with the
  truncating `%` written out). It also covers the progress and seek conversions, the volume
  slider, the choice of volume icon, and the like button. The like button changes `isLiked`
  only after the API call succeeds.
- **The welcome section** (`frontend/components/home/welcome-section.tsx`). This covers the
  greeting for the hour of the day and the create-playlist dialog. The dialog is the class
  `Welcome.WelcomeSection`. Each of its handlers is specified by a pure transition on the
  `Dialog` value, and its submit goes through the playlist provider.

Modules: `Api` (shared records, API results and calls), `PlaylistOps`, `PlaylistContext`,
`PlayerBar`, `Welcome`.

The like toggle and the playlist mutations are not optimistic: `isLiked` and every list
change happen only after the awaited call has resolved, and nothing is rolled back. The batch
add does not return a per-item result: it only logs the failed ids to the console and always
resolves. The model returns that log (`failed`) and never rejects.

## Model

| member | source | states |
|---|---|---|
| `PlaylistOps.WithoutKey` | frontend/contexts/playlist-context.tsx:114 | the filtered list holds exactly the entries whose id differs from the removed one, and is no longer than the input |
| `PlaylistOps.WithoutKeyConcat` | frontend/contexts/playlist-context.tsx:114 | filtering distributes over concatenation, so the surviving entries keep their relative order |
| `PlaylistOps.WithoutAbsentKey` | frontend/contexts/playlist-context.tsx:114 | removing an id that no entry carries leaves the list unchanged |
| `PlaylistOps.WithoutKeyIdempotent` | frontend/contexts/playlist-context.tsx:192 | removing the same id twice gives the same list as removing it once |
| `PlaylistOps.WithoutKeyCommutes` | frontend/contexts/playlist-context.tsx:192 | two removals by id give the same list in either order |
| `PlaylistOps.ApplyPatch` | frontend/contexts/playlist-context.tsx:93-99 | the object spread `{ ...p, ...updated }`: each field the update response carries overrides the old value, and each field it omits keeps the old one |
| `PlaylistOps.IsSelected` | frontend/contexts/playlist-context.tsx:95 | `selectedPlaylist?.id === playlistId`: a null selection never matches; a present one matches exactly when its id is the given one |
| `PlaylistOps.ApplyPatchIdempotent` | frontend/contexts/playlist-context.tsx:93-99 | spreading the same update response over a playlist twice is the same as spreading it once |
| `PlaylistOps.MergeById` | frontend/contexts/playlist-context.tsx:92-94 | the merged list keeps its length; entries whose id equals the updated id get the response's fields, all others are unchanged |
| `PlaylistOps.RemoveTrackFromSelection` | frontend/contexts/playlist-context.tsx:187-195 | a non-matching or absent selection is left alone; a matching one keeps its playlist fields and keeps exactly the tracks whose id differs |
| `PlaylistOps.RemoveTrackTwiceIsOnce` | frontend/contexts/playlist-context.tsx:186-196 | a second removal of the same track from the selection changes nothing |
| `PlaylistOps.RemoveTracksCommute` | frontend/contexts/playlist-context.tsx:186-196 | removing two tracks from the selection gives the same result in either order |
| `PlaylistOps.Refetched` | frontend/contexts/playlist-context.tsx:131-139 | the selection changes only when it has the refetched id and the refetch resolved, and then becomes the fetched playlist; a failed refetch keeps the old selection |
| `Api.MessageOf` | frontend/contexts/playlist-context.tsx:43 | `err instanceof Error ? err.message : fallback`: an `Error` gives its own message, any other thrown value gives the fallback text |
| `PlaylistContext.ErrorAfter` | frontend/contexts/playlist-context.tsx:102 | the error a handler leaves: none iff the call resolved; on a rejection the `Error`'s message, or the handler's fallback text for any other thrown value |
| `PlaylistContext.FailedIds` | frontend/contexts/playlist-context.tsx:154-161 | an id is logged as failed iff some request for it was rejected; the log is empty iff every request resolved |
| `PlaylistContext.SendAdds` | frontend/contexts/playlist-context.tsx:154-161 | exactly one add request per id, in the order of `trackIds`, whatever earlier requests returned; the failure log is `FailedIds` |
| `PlaylistContext.PlaylistProvider.constructor` | frontend/contexts/playlist-context.tsx:27-30 | starts with no playlists, no selection, not loading, no error |
| `PlaylistContext.PlaylistProvider.ClearError` | frontend/contexts/playlist-context.tsx:32-34 | the error becomes null and nothing else changes |
| `PlaylistContext.PlaylistProvider.FetchUserPlaylists` | frontend/contexts/playlist-context.tsx:36-48 | one fetch call; on success the list is replaced, on failure it is kept and the message (or the fallback text) is stored; always ends not loading; the selection is untouched |
| `PlaylistContext.PlaylistProvider.Mount` | frontend/contexts/playlist-context.tsx:51-55 | the playlists are fetched on mount only when a user is authenticated; otherwise nothing happens |
| `PlaylistContext.PlaylistProvider.CreatePlaylist` | frontend/contexts/playlist-context.tsx:57-71 | one create call with privacy defaulting to "public"; on success the new playlist is at index 0 followed by the old list in order and the error is cleared; on failure the list is unchanged, the error set and the rejection rethrown |
| `PlaylistContext.PlaylistProvider.SelectPlaylist` | frontend/contexts/playlist-context.tsx:73-85 | one fetch call; on success the selection is replaced, on failure it is kept and the error set; always ends not loading; the list is untouched |
| `PlaylistContext.PlaylistProvider.UpdatePlaylist` | frontend/contexts/playlist-context.tsx:87-108 | on success the list is `MergeById` of the old list and the selection is merged only when its id matches; on failure list and selection are unchanged, the error set and the rejection rethrown |
| `PlaylistContext.PlaylistProvider.DeletePlaylist` | frontend/contexts/playlist-context.tsx:110-123 | on success no entry with the id remains, the others stay in order, and the selection becomes null iff it had that id; on failure list and selection are untouched, the error set and the rejection rethrown |
| `PlaylistContext.PlaylistProvider.AddTrackToPlaylist` | frontend/contexts/playlist-context.tsx:125-147 | after a successful add the refetch call is issued iff the selected id matches; a failed refetch neither sets the error nor rethrows and keeps the old selection; a failed add sets the error and rethrows |
| `PlaylistContext.PlaylistProvider.AddTracksToPlaylist` | frontend/contexts/playlist-context.tsx:149-180 | one add per id in order, then at most one refetch, issued only for the selected playlist; failures are logged per id, never set the error, never stop later ids |
| `PlaylistContext.PlaylistProvider.RemoveTrackFromPlaylist` | frontend/contexts/playlist-context.tsx:182-204 | on success the selection becomes `RemoveTrackFromSelection` of the old one; on failure it is untouched, the error set and the rejection rethrown; the list and loading flag never change |
| `PlayerBar.Decimal` | frontend/components/player/music-player-bar.tsx:65 | the decimal text of a number is non-empty and all digits; one digit iff below 10, two digits from 10 to 99 |
| `PlayerBar.DecimalRoundTrip` | frontend/components/player/music-player-bar.tsx:65 | reading the decimal text back gives the number |
| `PlayerBar.IntText` | frontend/components/player/music-player-bar.tsx:65 | the text of a whole number: a non-negative one is all digits and reads back as the number; a negative one is a minus sign followed by the digits of its magnitude |
| `PlayerBar.PadStart2` | frontend/components/player/music-player-bar.tsx:65 | `padStart(2, '0')`: the result has length at least 2 and ends with the input, and everything in front of the input is '0' |
| `PlayerBar.LeadingZero` | frontend/components/player/music-player-bar.tsx:65 | a '0' put in front of a digit string does not change the number it reads as |
| `PlayerBar.Remainder60` | frontend/components/player/music-player-bar.tsx:64 | JavaScript's `seconds % 60`: the result has the sign of `seconds`, is less than 60 in size, and differs from `seconds` by a whole multiple of 60 |
| `PlayerBar.FormatTime` | frontend/components/player/music-player-bar.tsx:60-66 | NaN and the infinities format as "0:00"; any finite non-negative time formats as the `m:ss` clock of its whole seconds |
| `PlayerBar.FloorSplit` | frontend/components/player/music-player-bar.tsx:63-64 | for non-negative seconds, the floored minutes and the floored JavaScript remainder are the whole seconds divided by 60 and their remainder |
| `PlayerBar.ClockRoundTrip` | frontend/components/player/music-player-bar.tsx:63-65 | the label is `mins:ss` with a two-digit seconds field below 60, and `mins*60 + ss` gives back the seconds |
| `PlayerBar.FormatTimeRoundTrip` | frontend/components/player/music-player-bar.tsx:60-66 | the label of any finite non-negative time reads back as its whole seconds |
| `PlayerBar.Progress` | frontend/components/player/music-player-bar.tsx:88 | progress is 0 when the duration is not positive, and between 0 and 100 when the current time lies within the duration |
| `PlayerBar.SeekTime` | frontend/components/player/music-player-bar.tsx:90-93 | a slider value between 0 and 100 seeks to a time within the duration |
| `PlayerBar.SeekInvertsProgress` | frontend/components/player/music-player-bar.tsx:88-92 | with a positive duration, seeking to the current progress value targets the current time |
| `PlayerBar.ProgressInvertsSeek` | frontend/components/player/music-player-bar.tsx:88-92 | with a positive duration, the progress of the seek target is the slider value dragged to |
| `PlayerBar.VolumeSliderValue` | frontend/components/player/music-player-bar.tsx:235 | the volume slider shows 0 when muted, and a value within 0 to 100 for a volume within 0 to 1 |
| `PlayerBar.VolumeFromSlider` | frontend/components/player/music-player-bar.tsx:95-97 | dragging within 0 to 100 sets a volume within 0 to 1 |
| `PlayerBar.VolumeSliderRoundTrip` | frontend/components/player/music-player-bar.tsx:95-97 | when unmuted, the slider value and the volume set by dragging are inverse to each other |
| `PlayerBar.ChooseVolumeIcon` | frontend/components/player/music-player-bar.tsx:99-103 | VolumeX iff muted or volume 0; Volume1 iff unmuted with a non-zero volume below 0.5; Volume2 iff unmuted with volume at least 0.5; so exactly one applies |
| `PlayerBar.SilentIconIffSliderAtZero` | frontend/components/player/music-player-bar.tsx:99-103 | the crossed-out icon shows exactly when the volume slider sits at 0 |
| `PlayerBar.IconMonotone` | frontend/components/player/music-player-bar.tsx:99-103 | when unmuted, a louder non-negative volume never shows a quieter icon |
| `PlayerBar.LikeButton.constructor` | frontend/components/player/music-player-bar.tsx:29-30 | the button starts with the track id and the track's liked flag |
| `PlayerBar.LikeButton.HandleLikeToggle` | frontend/components/player/music-player-bar.tsx:32-46 | the unlike call is made iff currently liked; on success `isLiked` flips, on failure it is unchanged and an error toast is shown |
| `Welcome.Greeting` | frontend/components/home/welcome-section.tsx:29-36 | "Good morning" iff hour < 12, "Good afternoon" iff 12 <= hour < 18, "Good evening" iff hour >= 18; exactly one applies |
| `Welcome.GreetingChangesAtNoonAndSix` | frontend/components/home/welcome-section.tsx:29-36 | from one hour of the day to the next, the greeting changes exactly at 12 and at 18 |
| `Welcome.TrimStart` | frontend/components/home/welcome-section.tsx:56 | the result is a suffix of the input whose first character is not white space, and everything dropped is white space |
| `Welcome.TrimEnd` | frontend/components/home/welcome-section.tsx:56 | the result is a prefix of the input whose last character is not white space, and everything dropped is white space |
| `Welcome.Trim` | frontend/components/home/welcome-section.tsx:56 | `name.trim()`: no longer than the input, and a non-empty result neither starts nor ends with white space |
| `Welcome.TrimStartEmptyIffAllWhitespace` | frontend/components/home/welcome-section.tsx:56 | dropping the leading white space leaves nothing exactly when the text is all white space |
| `Welcome.TrimEmptyIffAllWhitespace` | frontend/components/home/welcome-section.tsx:56 | a name trims to the empty string exactly when all its characters are white space |
| `Welcome.SubmitDisabled` | frontend/components/home/welcome-section.tsx:166 | the create button is disabled exactly when a create is in flight or the name is all white space |
| `Welcome.Opened` | frontend/components/home/welcome-section.tsx:50-53 | the dialog shows iff the auth gate passes or it was already open; a failing gate changes nothing; name and creating flag are kept |
| `Welcome.Closed` | frontend/components/home/welcome-section.tsx:68-71 | closing hides the dialog and empties the name, keeping the creating flag |
| `Welcome.CloseIdempotent` | frontend/components/home/welcome-section.tsx:68-71 | closing twice equals closing once |
| `Welcome.Submitted` | frontend/components/home/welcome-section.tsx:55-66 | an all-white-space name changes nothing; otherwise no create is in flight afterwards, a success empties the name and hides the dialog, and a failure keeps both |
| `Welcome.KeyPressed` | frontend/components/home/welcome-section.tsx:73-79 | Enter submits, Escape closes, any other key leaves the dialog unchanged |
| `Welcome.WelcomeSection.constructor` | frontend/components/home/welcome-section.tsx:23-25 | the dialog starts closed, with an empty name, not creating |
| `Welcome.WelcomeSection.HandleCreatePlaylist` | frontend/components/home/welcome-section.tsx:50-53 | the new state is `Opened` of the old one |
| `Welcome.WelcomeSection.HandleNameChange` | frontend/components/home/welcome-section.tsx:151 | only the name changes, to the typed value |
| `Welcome.WelcomeSection.HandleDialogClose` | frontend/components/home/welcome-section.tsx:68-71 | the new state is `Closed` of the old one |
| `Welcome.WelcomeSection.HandleSubmit` | frontend/components/home/welcome-section.tsx:55-66 | the new state is `Submitted` of the old one; a blank name makes no call and leaves the provider untouched, and while nothing is in flight a call is made iff the button is enabled; otherwise one create call goes out with the untrimmed name and privacy "public", the provider prepends on success, and a rejection propagates |
| `Welcome.WelcomeSection.HandleKeyPress` | frontend/components/home/welcome-section.tsx:73-79 | the new state is `KeyPressed` of the old one; other keys, and Enter on a blank name, make no call and leave the provider untouched; Enter on a real name makes the one create call of the submit handler, the provider prepends on success or records the error, and the rejection is what the un-awaited submit promise rejects with |

## Left out

- The playback engine (player context, queue, load tokens) is not part of this model. The player bar only reads its fields and forwards its callbacks (`usePlayer()`), so `seek`, `setVolume`, `toggleMute`, `togglePlay`, `nextTrack` and `previousTrack` appear only as the values the bar computes for them.
- The API client (`lib/api`) is not part of this model. Each call is a returned `ApiCall` value, and its outcome is a parameter.
- The user-visible error messages come from the thrown value (`Thrown`). An `Error` gives its `message`; any other value gives the handler's fallback text.
- Toasts are modelled only for the like button, as a returned value. Console logging is modelled only as the batch add's `failed` list. Other logging is left out.
- Concurrency is left out. Each handler is one atomic step, so overlapping calls are not modelled, for example two `selectPlaylist` calls resolving out of order. Stale `selectedPlaylist` values captured by a handler's closure are not modelled either.
- For the same reason, intermediate states inside a handler are not observable. These are `isLoading = true` while a fetch is in flight, `isCreating = true` while a create is in flight, and the error cleared before the call. The early clearing shows only as `error == None` after a success.
- `PlaylistContext.PlaylistProvider.AddTracksToPlaylist` has no rejection path. Its outer `catch` (frontend/contexts/playlist-context.tsx:173-177) cannot be reached, because every awaited call inside is caught.
- `PlayerBar.FormatTime` for negative times follows the JavaScript operators (floored minutes, truncating remainder). No property is proved for that case. Exponential notation for minute counts of 10^21 and above is not modelled, and neither is `-0`.
- `PlayerBar.Progress`, `PlayerBar.SeekTime`, `PlayerBar.VolumeSliderValue`, `PlayerBar.VolumeFromSlider`, `PlayerBar.ChooseVolumeIcon` and `PlayerBar.IconMonotone` use exact reals. Floating-point rounding is not modelled, and neither are NaN or infinite durations and volumes. In JavaScript a NaN volume selects `Volume2`, because `NaN === 0` and `NaN < 0.5` are both false; the model has no such value.
- The wall clock, `setInterval` and the formatted date line of the welcome section are left out. The hour is an input to `Welcome.Greeting`.
- `requireAuth()` is only a boolean input to `Welcome.WelcomeSection.HandleCreatePlaylist`. Its redirect to sign-in is not modelled.
- Rendering is left out: which buttons are shown or disabled, class names, icons drawn. The one exception is the create button's disabled rule, `Welcome.SubmitDisabled`.
- `Playlist` omits the creation and update timestamps. `Track` keeps only a few fields, since only `id` matters to the logic. The `usePlaylist` guard against use outside the provider is React plumbing.
- The Go backend (HTTP handlers, database, routing) and the other frontend components (navbar, album cards, featured albums, build configuration) are not part of this model.
