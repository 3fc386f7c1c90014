/** The root component of the web client: the signed-in user kept in the browser's
    local storage under one key, the startup restore of that user, sign-in and
    sign-out, and the open/closed flags of the four dialogs.

    Local storage is a map from keys to strings that outlives a page load. JSON
    serialisation and parsing are parameters (`parse` answers `None` where `JSON.parse`
    throws); that they round-trip is a hypothesis of the lemmas that need it. */
module App {
  import opened Wrappers
  import opened Auth

  const UserKey := "sahayataUser"

  type Storage = map<string, string>

  /** A snapshot of the component's state together with local storage. */
  datatype Shell = Shell(
    user: Option<UserInfo>,
    storage: Storage,
    eligibilityOpen: bool,
    authOpen: bool,
    chatbotOpen: bool,
    detailsOpen: bool,
    selectedSchemeId: Option<int>)

  /** A fresh page: nothing signed in and every dialog closed, over whatever local
      storage already holds. */
  function Fresh(storage: Storage): Shell {
    Shell(None, storage, false, false, false, false, None)
  }

  /** The mount effect: a missing or empty stored value leaves no user; a value that
      parses becomes the user; one that does not parse is removed. */
  function Restore(s: Shell, parse: string -> Option<UserInfo>): (r: Shell)
    ensures r.eligibilityOpen == s.eligibilityOpen && r.authOpen == s.authOpen
    ensures r.chatbotOpen == s.chatbotOpen && r.detailsOpen == s.detailsOpen
    ensures r.selectedSchemeId == s.selectedSchemeId
  {
    if UserKey !in s.storage || s.storage[UserKey] == "" then s
    else match parse(s.storage[UserKey])
      case Some(u) => s.(user := Some(u))
      case None => s.(storage := s.storage - {UserKey})
  }

  /** `handleAuthSuccess`. */
  function SignIn(s: Shell, u: UserInfo, serialize: UserInfo -> string): Shell {
    s.(user := Some(u), storage := s.storage[UserKey := serialize(u)])
  }

  /** `handleLogout`. */
  function SignOut(s: Shell): Shell {
    s.(user := None, storage := s.storage - {UserKey})
  }

  /** The three startup cases. */
  lemma RestoreCases(storage: Storage, parse: string -> Option<UserInfo>)
    ensures UserKey !in storage ==> Restore(Fresh(storage), parse) == Fresh(storage)
    ensures UserKey in storage && storage[UserKey] != "" && parse(storage[UserKey]).Some? ==>
      Restore(Fresh(storage), parse).user == parse(storage[UserKey])
      && Restore(Fresh(storage), parse).storage == storage
    ensures UserKey in storage && storage[UserKey] != "" && parse(storage[UserKey]).None? ==>
      Restore(Fresh(storage), parse).user.None?
      && Restore(Fresh(storage), parse).storage == storage - {UserKey}
  {
  }

  /** Signing in and then reloading the page brings back the same user, when the
      stored text parses back to what was serialised. */
  lemma SignInSurvivesReload(s: Shell, u: UserInfo, serialize: UserInfo -> string,
                             parse: string -> Option<UserInfo>)
    requires parse(serialize(u)) == Some(u) && serialize(u) != ""
    ensures Restore(Fresh(SignIn(s, u, serialize).storage), parse).user == Some(u)
  {
    var stored := SignIn(s, u, serialize).storage;
    assert stored[UserKey] == serialize(u);
  }

  /** Signing out and then reloading leaves nobody signed in, whatever the parser. */
  lemma SignOutSurvivesReload(s: Shell, parse: string -> Option<UserInfo>)
    ensures Restore(Fresh(SignOut(s).storage), parse).user.None?
    ensures UserKey !in SignOut(s).storage
  {
  }

  /** Signing in touches only the user and its stored key; signing out likewise. */
  lemma SessionKeepsOtherKeys(s: Shell, u: UserInfo, serialize: UserInfo -> string, key: string)
    requires key != UserKey
    ensures key in SignIn(s, u, serialize).storage <==> key in s.storage
    ensures key in s.storage ==> SignIn(s, u, serialize).storage[key] == s.storage[key]
    ensures key in SignOut(s).storage <==> key in s.storage
    ensures key in s.storage ==> SignOut(s).storage[key] == s.storage[key]
  {
  }

  class AppShell {
    var user: Option<UserInfo>
    var storage: Storage
    var eligibilityOpen: bool
    var authOpen: bool
    var chatbotOpen: bool
    var detailsOpen: bool
    var selectedSchemeId: Option<int>

    function State(): Shell
      reads this
    {
      Shell(user, storage, eligibilityOpen, authOpen, chatbotOpen, detailsOpen, selectedSchemeId)
    }

    /** A page load over the browser's existing local storage. */
    constructor (saved: Storage)
      ensures State() == Fresh(saved)
    {
      user := None;
      storage := saved;
      eligibilityOpen, authOpen, chatbotOpen, detailsOpen := false, false, false, false;
      selectedSchemeId := None;
    }

    /** The mount effect. */
    method LoadUser(parse: string -> Option<UserInfo>)
      modifies this
      ensures State() == Restore(old(State()), parse)
    {
      if UserKey in storage && storage[UserKey] != "" {
        var parsed := parse(storage[UserKey]);
        if parsed.Some? {
          user := parsed;
        } else {
          storage := storage - {UserKey};
        }
      }
    }

    method HandleAuthSuccess(u: UserInfo, serialize: UserInfo -> string)
      modifies this
      ensures State() == SignIn(old(State()), u, serialize)
    {
      user := Some(u);
      storage := storage[UserKey := serialize(u)];
    }

    method HandleLogout()
      modifies this
      ensures State() == SignOut(old(State()))
    {
      user := None;
      storage := storage - {UserKey};
    }

    /** `handleSchemeClick`: the details dialog opens on the chosen scheme. */
    method HandleSchemeClick(schemeId: int)
      modifies this
      ensures State() == old(State()).(selectedSchemeId := Some(schemeId), detailsOpen := true)
    {
      selectedSchemeId := Some(schemeId);
      detailsOpen := true;
    }

    /** Closing the details dialog also forgets the scheme. */
    method CloseSchemeDetails()
      modifies this
      ensures State() == old(State()).(selectedSchemeId := None, detailsOpen := false)
    {
      detailsOpen := false;
      selectedSchemeId := None;
    }

    method SetEligibilityOpen(open: bool)
      modifies this
      ensures State() == old(State()).(eligibilityOpen := open)
    {
      eligibilityOpen := open;
    }

    method SetAuthOpen(open: bool)
      modifies this
      ensures State() == old(State()).(authOpen := open)
    {
      authOpen := open;
    }

    method SetChatbotOpen(open: bool)
      modifies this
      ensures State() == old(State()).(chatbotOpen := open)
    {
      chatbotOpen := open;
    }
  }
}
