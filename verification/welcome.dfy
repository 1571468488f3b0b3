/**
 * The welcome section of the home page: the greeting chosen from the hour of
 * the day, and the create-playlist dialog (`showDialog`, `playlistName`,
 * `isCreating`), whose submit goes through the playlist provider.
 */
module Welcome {
  import opened Api
  import opened PlaylistContext

  /** The greeting shown for an hour of the local clock. */
  function Greeting(hour: int): (g: string)
    ensures g == "Good morning" <==> hour < 12
    ensures g == "Good afternoon" <==> 12 <= hour < 18
    ensures g == "Good evening" <==> 18 <= hour
  {
    if hour < 12 then "Good morning"
    else if hour < 18 then "Good afternoon"
    else "Good evening"
  }

  /** Over the hours of a day the greeting changes exactly twice: at noon and at six in the evening. */
  lemma GreetingChangesAtNoonAndSix(hour: int)
    requires 0 <= hour < 23
    ensures Greeting(hour) != Greeting(hour + 1) <==> hour + 1 == 12 || hour + 1 == 18
  {
  }

  /** ECMAScript WhiteSpace and LineTerminator code points, the set `String.prototype.trim` strips. */
  predicate IsJsWhitespace(c: char) {
    var k := c as int;
    k == 0x09 || k == 0x0A || k == 0x0B || k == 0x0C || k == 0x0D || k == 0x20 || k == 0xA0
    || k == 0x1680 || (0x2000 <= k <= 0x200A) || k == 0x2028 || k == 0x2029 || k == 0x202F
    || k == 0x205F || k == 0x3000 || k == 0xFEFF
  }

  predicate AllWhitespace(s: string) {
    forall i :: 0 <= i < |s| ==> IsJsWhitespace(s[i])
  }

  /** Drops leading white space. */
  function TrimStart(s: string): (r: string)
    ensures |r| <= |s| && r == s[|s| - |r|..]
    ensures r != [] ==> !IsJsWhitespace(r[0])
    ensures AllWhitespace(s[..|s| - |r|])
  {
    if s != [] && IsJsWhitespace(s[0]) then TrimStart(s[1..]) else s
  }

  /** Drops trailing white space. */
  function TrimEnd(s: string): (r: string)
    ensures |r| <= |s| && r == s[..|r|]
    ensures r != [] ==> !IsJsWhitespace(r[|r| - 1])
    ensures AllWhitespace(s[|r|..])
  {
    if s != [] && IsJsWhitespace(s[|s| - 1]) then TrimEnd(s[..|s| - 1]) else s
  }

  /**
   * `s.trim()`: the input with the white space at both ends dropped; what is
   * left neither starts nor ends with white space.
   */
  function Trim(s: string): (r: string)
    ensures |r| <= |s|
    ensures r != [] ==> !IsJsWhitespace(r[0]) && !IsJsWhitespace(r[|r| - 1])
  {
    var t := TrimStart(s);
    var r := TrimEnd(t);
    assert r != [] ==> r[0] == t[0];
    r
  }

  /** A name is refused (`!name.trim()`) exactly when every character of it is white space. */
  lemma TrimEmptyIffAllWhitespace(s: string)
    ensures Trim(s) == "" <==> AllWhitespace(s)
  {
    var t := TrimStart(s);
    TrimStartEmptyIffAllWhitespace(s);
    TrimEndKeepsLeadingText(t);
  }

  /** Dropping leading white space leaves nothing exactly when there was nothing else. */
  lemma TrimStartEmptyIffAllWhitespace(s: string)
    ensures TrimStart(s) == [] <==> AllWhitespace(s)
  {
    var t := TrimStart(s);
    var k := |s| - |t|;
    if t == [] {
      assert s[..k] == s;
    } else {
      assert s[k] == t[0];
    }
  }

  /** A text that starts with a character other than white space keeps some of it after `TrimEnd`. */
  lemma TrimEndKeepsLeadingText(t: string)
    requires t == [] || !IsJsWhitespace(t[0])
    ensures TrimEnd(t) == [] <==> t == []
  {
    assert t[0..] == t;
  }

  /** The dialog's state. */
  datatype Dialog = Dialog(showDialog: bool, playlistName: string, isCreating: bool)

  /** The create button is disabled while a create is in flight or while the name is all white space. */
  predicate SubmitDisabled(d: Dialog)
    ensures SubmitDisabled(d) <==> d.isCreating || AllWhitespace(d.playlistName)
  {
    TrimEmptyIffAllWhitespace(d.playlistName);
    d.isCreating || Trim(d.playlistName) == ""
  }

  /** `handleCreatePlaylist`: the gate decides; a passing gate shows the dialog, a failing one changes nothing. */
  function Opened(d: Dialog, authPassed: bool): (r: Dialog)
    ensures r.showDialog <==> authPassed || d.showDialog
    ensures !authPassed ==> r == d
    ensures r.playlistName == d.playlistName && r.isCreating == d.isCreating
  {
    if authPassed then d.(showDialog := true) else d
  }

  /** `handleDialogClose`: hides the dialog and empties the name. */
  function Closed(d: Dialog): (r: Dialog)
    ensures !r.showDialog && r.playlistName == ""
    ensures r.isCreating == d.isCreating
  {
    d.(showDialog := false, playlistName := "")
  }

  /** A second close changes nothing. */
  lemma CloseIdempotent(d: Dialog)
    ensures Closed(Closed(d)) == Closed(d)
  {
  }

  /**
   * `handleSubmit`, given whether the create call resolved: an all-white-space
   * name changes nothing; otherwise no create is in flight afterwards, a
   * success empties the name and hides the dialog, and a failure keeps both.
   */
  function Submitted(d: Dialog, created: bool): (r: Dialog)
    ensures AllWhitespace(d.playlistName) ==> r == d
    ensures !AllWhitespace(d.playlistName) ==> !r.isCreating
    ensures !AllWhitespace(d.playlistName) && created ==> !r.showDialog && r.playlistName == ""
    ensures !created ==> r.showDialog == d.showDialog && r.playlistName == d.playlistName
  {
    TrimEmptyIffAllWhitespace(d.playlistName);
    if Trim(d.playlistName) == "" then d
    else if created then d.(playlistName := "", showDialog := false, isCreating := false)
    else d.(isCreating := false)
  }

  /** `handleKeyPress`: Enter submits, Escape closes, any other key leaves the dialog alone. */
  function KeyPressed(d: Dialog, key: string, created: bool): (r: Dialog)
    ensures key == "Enter" ==> r == Submitted(d, created)
    ensures key == "Escape" ==> r == Closed(d)
    ensures key != "Enter" && key != "Escape" ==> r == d
  {
    if key == "Enter" then Submitted(d, created)
    else if key == "Escape" then Closed(d)
    else d
  }

  class WelcomeSection {
    var showDialog: bool
    var playlistName: string
    var isCreating: bool

    function State(): Dialog
      reads this
    {
      Dialog(showDialog, playlistName, isCreating)
    }

    constructor ()
      ensures State() == Dialog(false, "", false)
    {
      showDialog := false;
      playlistName := "";
      isCreating := false;
    }

    /** `authPassed` is what `requireAuth()` returned (it redirects to sign-in otherwise). */
    method HandleCreatePlaylist(authPassed: bool)
      modifies this
      ensures State() == Opened(old(State()), authPassed)
    {
      if !authPassed {
        return;
      }
      showDialog := true;
    }

    /** The name input's change handler. */
    method HandleNameChange(value: string)
      modifies this
      ensures State() == old(State()).(playlistName := value)
    {
      playlistName := value;
    }

    method HandleDialogClose()
      modifies this
      ensures State() == Closed(old(State()))
    {
      showDialog := false;
      playlistName := "";
    }

    /**
     * Creates a playlist named by the (untrimmed) input through the provider;
     * the provider's rejection propagates out as `thrown`.
     */
    method HandleSubmit(provider: PlaylistProvider, response: ApiResult<Playlist>)
      returns (calls: seq<ApiCall>, thrown: Option<Thrown>)
      modifies this, provider
      ensures State() == Submitted(old(State()), response.Resolved?)
      ensures Trim(old(playlistName)) == "" ==> calls == [] && thrown == None && unchanged(provider)
      ensures !old(isCreating) ==> (calls == [] <==> old(SubmitDisabled(State())))
      ensures Trim(old(playlistName)) != "" ==>
        && calls == [CreateCall(old(playlistName), "public")]
        && thrown == (if response.Rejected? then Some(response.reason) else None)
        && provider.playlists == (if response.Resolved? then [response.value] + old(provider.playlists)
                                  else old(provider.playlists))
        && provider.error == ErrorAfter(response, CreateFallback)
        && provider.selectedPlaylist == old(provider.selectedPlaylist)
        && provider.isLoading == old(provider.isLoading)
    {
      calls, thrown := [], None;
      ghost var before := State();
      assert SubmitDisabled(before) <==> before.isCreating || Trim(before.playlistName) == "";
      if Trim(playlistName) == "" {
        return;
      }
      isCreating := true;
      var outcome;
      outcome, calls := provider.CreatePlaylist(playlistName, None, response);
      if outcome.Resolved? {
        playlistName := "";
        showDialog := false;
      } else {
        thrown := Some(outcome.reason);
      }
      isCreating := false;
      assert State() == Submitted(before, response.Resolved?);
    }

    /**
     * Enter runs the submit handler and Escape the close handler. The submit's
     * promise is not awaited here, so `thrown` is its rejection, which nothing
     * catches.
     */
    method HandleKeyPress(key: string, provider: PlaylistProvider, response: ApiResult<Playlist>)
      returns (calls: seq<ApiCall>, thrown: Option<Thrown>)
      modifies this, provider
      ensures State() == KeyPressed(old(State()), key, response.Resolved?)
      ensures key != "Enter" || Trim(old(playlistName)) == "" ==>
        calls == [] && thrown == None && unchanged(provider)
      ensures key == "Enter" && Trim(old(playlistName)) != "" ==>
        && calls == [CreateCall(old(playlistName), "public")]
        && thrown == (if response.Rejected? then Some(response.reason) else None)
        && provider.playlists == (if response.Resolved? then [response.value] + old(provider.playlists)
                                  else old(provider.playlists))
        && provider.error == ErrorAfter(response, CreateFallback)
        && provider.selectedPlaylist == old(provider.selectedPlaylist)
        && provider.isLoading == old(provider.isLoading)
    {
      calls, thrown := [], None;
      if key == "Enter" {
        calls, thrown := HandleSubmit(provider, response);
      } else if key == "Escape" {
        HandleDialogClose();
      }
    }
  }
}
