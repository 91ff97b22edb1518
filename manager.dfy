/** manager.py: the process-wide manager that owns the session client and
    the plugin's preference map. The source's manager inherits from the
    client; here it holds one, and every "manager field" that is really a
    client field (credentials, logged flag, session ids) lives on `client`. */
module Manager {
  import opened Common
  import opened Client

  /** A station the user last played: a service type and its parameter. */
  datatype Station = Station(kind: int, parm: string)

  /** A stored preference: a text (credentials) or the per-user map of
      last-played stations. */
  datatype Pref = Text(s: string) | Stations(m: map<string, Station>)

  /** The text a preference holds, or `default` when the key is absent or
      holds something other than text. */
  function TextOr(p: Option<Pref>, default: string): string {
    if p.Some? && p.value.Text? then p.value.s else default
  }

  class Manager {
    const client: Client
    var prefs: map<string, Pref>
    /** Whether scrobbling is on. The source sets this attribute only from
        the settings screen and never initialises it; the model starts it
        off. */
    var scrobbleEnabled: bool

    /** JamendoManager(): a logged-out client whose credentials come from
        the stored preferences, defaulting to the empty string. */
    constructor (stored: map<string, Pref>)
      ensures prefs == stored && !scrobbleEnabled && fresh(client)
      ensures client.username == TextOr(if "username" in stored then Some(stored["username"]) else None, "")
      ensures client.password == TextOr(if "password" in stored then Some(stored["password"]) else None, "")
      ensures !client.logged && client.sessionId == None && client.postSessionId == None
      ensures Synced()
    {
      prefs := stored;
      scrobbleEnabled := false;
      var username := TextOr(if "username" in stored then Some(stored["username"]) else None, "");
      var password := TextOr(if "password" in stored then Some(stored["password"]) else None, "");
      client := new Client(username, password);
    }

    /** JamendoManager.is_logged. */
    function IsLogged(): (b: bool)
      reads client
      ensures b <==> client.logged
    {
      client.logged
    }

    /** JamendoManager.has_preference: whether `get_preference` finds a
        stored value rather than falling back to its default. */
    function HasPreference(name: string): (b: bool)
      reads this
      ensures b <==> GetPreference(name, None) != None
    {
      name in prefs
    }

    /** JamendoManager.get_preference: the stored value, or `default` when
        nothing is stored under `name`. */
    function GetPreference(name: string, default: Option<Pref>): (r: Option<Pref>)
      reads this
      ensures name in prefs ==> r == Some(prefs[name])
      ensures name !in prefs ==> r == default
    {
      if name in prefs then Some(prefs[name]) else default
    }

    /** JamendoManager.set_preference (saving to disk is not modelled):
        afterwards the key is present with the new value and every other
        key is as it was. */
    method SetPreference(name: string, value: Pref)
      modifies this`prefs
      ensures HasPreference(name) && GetPreference(name, None) == Some(value)
      ensures forall k :: k != name ==> GetPreference(k, None) == old(GetPreference(k, None))
      ensures prefs == old(prefs)[name := value]
      ensures name != "username" && name != "password" ==> (Synced() <==> old(Synced()))
    {
      prefs := prefs[name := value];
    }

    /** The client's credentials agree with the stored preferences (a
        missing or non-text preference reading as the empty string). The
        constructor establishes this and the credential setters keep it. */
    predicate Synced()
      reads this, client
    {
      && client.username == TextOr(GetPreference("username", None), "")
      && client.password == TextOr(GetPreference("password", None), "")
    }

    /** JamendoManager.get_username: while the manager is in step, the
        stored `username` preference. */
    function GetUsername(): (u: string)
      reads this, client
      ensures Synced() ==> u == TextOr(GetPreference("username", None), "")
    {
      client.username
    }

    /** JamendoManager.get_password: likewise for the password. */
    function GetPassword(): (p: string)
      reads this, client
      ensures Synced() ==> p == TextOr(GetPreference("password", None), "")
    {
      client.password
    }

    /** JamendoManager.set_username: the client's credential and the stored
        preference both change; nothing else does. */
    method SetUsername(value: string)
      modifies this`prefs, client`username
      ensures GetUsername() == value
      ensures GetPreference("username", None) == Some(Text(value))
      ensures prefs == old(prefs)["username" := Text(value)]
      ensures old(Synced()) ==> Synced()
    {
      client.username := value;
      SetPreference("username", Text(value));
    }

    /** JamendoManager.set_password, likewise for the password. */
    method SetPassword(value: string)
      modifies this`prefs, client`password
      ensures GetPassword() == value
      ensures GetPreference("password", None) == Some(Text(value))
      ensures prefs == old(prefs)["password" := Text(value)]
      ensures old(Synced()) ==> Synced()
    {
      client.password := value;
      SetPreference("password", Text(value));
    }
  }

  /** A manager built from the preferences its setters wrote reads the same
      credentials back: what `set_username`/`set_password` store is what a
      later `JamendoManager()` starts with. */
  method CredentialsPersist(stored: map<string, Pref>, user: string, pass: string)
    returns (m1: Manager, m2: Manager)
    ensures m1.GetUsername() == user && m1.GetPassword() == pass
    ensures m2.GetUsername() == user && m2.GetPassword() == pass && !m2.IsLogged()
  {
    m1 := new Manager(stored);
    m1.SetUsername(user);
    m1.SetPassword(pass);
    m2 := new Manager(m1.prefs);
  }
}
