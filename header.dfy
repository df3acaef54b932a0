/** The dashboard header of `src/components/Header/Header.jsx`: the avatar
    initial and name shown for the signed-in user, and the profile menu. */
module Header {
  import opened Js
  import opened Json
  import opened BrowserStorage
  import opened AuthContext

  const FallbackInitial := "U"
  const FallbackName := "User"

  /** What the profile button shows. */
  datatype DisplayInfo = DisplayInfo(initial: string, name: string)

  /** `{ initial: name.charAt(0).toUpperCase(), name }` for a non-empty name. */
  function InfoFor(name: string): (r: DisplayInfo)
    requires name != ""
    ensures r.name == name && |r.initial| == 1 && r.initial[0] == UpperAscii(name[0])
  {
    DisplayInfo([UpperAscii(name[0])], name)
  }

  /** The name a user record can be shown under, if it has a truthy one. */
  function ShownName(user: Option<User>): (r: Option<string>)
    ensures r.Some? <==> user.Some? && TruthyOpt(user.value.name)
    ensures r.Some? ==> r == user.value.name && r.value != ""
  {
    if user.Some? && TruthyOpt(user.value.name) then user.value.name else None
  }

  /** `getUserDisplayInfo`, with the stored `user` text as `storedUser`: the
      current user's name first, then the parsed stored record's, and `U` /
      `User` when neither has one (a stored text that does not parse
      included). */
  function UserDisplayInfo(currentUser: Option<User>, storedUser: Option<string>, json: JsonCodec): (r: DisplayInfo)
    ensures r.name != "" && |r.initial| == 1 && r.initial[0] == UpperAscii(r.name[0])
  {
    var stored := ParseStored(storedUser, json.parseUser);
    if ShownName(currentUser).Some? then InfoFor(ShownName(currentUser).value)
    else if stored.Value? && ShownName(Some(stored.value)).Some? then InfoFor(ShownName(Some(stored.value)).value)
    else DisplayInfo(FallbackInitial, FallbackName)
  }

  /** The three sources, in priority order. */
  lemma DisplayInfoPriority(currentUser: Option<User>, storedUser: Option<string>, json: JsonCodec)
    ensures var r := UserDisplayInfo(currentUser, storedUser, json);
      var stored := ParseStored(storedUser, json.parseUser);
      (ShownName(currentUser).Some? ==>
        r.name == currentUser.value.name.value && r.initial == [UpperAscii(r.name[0])]) &&
      (ShownName(currentUser).None? && stored.Value? && ShownName(Some(stored.value)).Some? ==>
        r.name == stored.value.name.value && r.initial == [UpperAscii(r.name[0])]) &&
      (ShownName(currentUser).None? && !(stored.Value? && ShownName(Some(stored.value)).Some?) ==>
        r == DisplayInfo("U", "User"))
  {
  }

  /** The header shows the same thing whatever the stored text holds as
      long as the current user has a name. */
  lemma CurrentUserWins(currentUser: Option<User>, stored1: Option<string>, stored2: Option<string>, json: JsonCodec)
    requires ShownName(currentUser).Some?
    ensures UserDisplayInfo(currentUser, stored1, json) == UserDisplayInfo(currentUser, stored2, json)
  {
  }

  class HeaderMenu {
    const auth: AuthSession
    var isDropdownOpen: bool
    /** Where `handleSignOut` sent the browser. */
    var navigation: Option<string>

    constructor (auth: AuthSession)
      ensures this.auth == auth && !isDropdownOpen && navigation == None
    {
      this.auth := auth;
      isDropdownOpen := false;
      navigation := None;
    }

    /** What the header displays now. */
    function Shown(): DisplayInfo
      reads this, auth, auth.storage
    {
      UserDisplayInfo(auth.currentUser, auth.storage.GetItem(UserKey), auth.json)
    }

    /** `toggleDropdown` flips the menu open or closed. */
    method ToggleDropdown()
      modifies this
      ensures isDropdownOpen == !old(isDropdownOpen) && navigation == old(navigation)
    {
      isDropdownOpen := !isDropdownOpen;
    }

    /** A click on the menu's sign-out entry. `handleSignOut` signs the
        session out and the browser goes to `/`. The entry sits inside the
        profile area whose own click handler is `toggleDropdown`, and the
        click is not stopped there, so the same click also closes the menu.
        The header then shows the fallback. */
    method HandleSignOut(serverCallFailed: bool)
      requires isDropdownOpen
      modifies this, auth, auth.storage
      ensures auth.storage.items == old(auth.storage.items) - {TokenKey, UserKey}
      ensures auth.currentUser == None && !auth.isAuthenticated
      ensures auth.isLoading == old(auth.isLoading) && auth.error == old(auth.error)
      ensures auth.isInGoogleSignupFlow == old(auth.isInGoogleSignupFlow) && auth.meFetchPending == old(auth.meFetchPending)
      ensures navigation == Some("/") && !isDropdownOpen
      ensures Shown() == DisplayInfo(FallbackInitial, FallbackName)
    {
      auth.SignOut(serverCallFailed);
      ToggleDropdown();
      navigation := Some("/");
    }
  }
}
