/** model.py, the parts that are decisions rather than framework glue:
    how the "Play now" folder replays the last station, how service
    folders are rebuilt from history, how a fetched track becomes a media
    model, and the settings items for login and scrobbling. The module-level
    manager the source refers to is passed in explicitly. */
module Model {
  import opened Common
  import opened Client
  import opened Manager

  /** The service types, numbered as `range(4)` numbers them. */
  const ServicePersonal: int := 0
  const ServiceSimilarArtists: int := 1
  const ServiceTag: int := 2
  const ServiceRadio: int := 3

  /** Preference key of the per-user last-played station map. */
  const TagLastPlayed: string := "last_played_songs"

  predicate IsService(kind: int) {
    kind == ServicePersonal || kind == ServiceSimilarArtists || kind == ServiceTag || kind == ServiceRadio
  }

  // ---------------------------------------------------------------------
  // Play now: replaying the last station.

  /** The last-played map held by a preference, if it holds one. */
  function LastPlayed(p: Option<Pref>): Option<map<string, Station>> {
    if p.Some? && p.value.Stations? then Some(p.value.m) else None
  }

  /** The station `PlayNowModelFolder.do_search` replays for `username`:
      the entry stored under the lower-cased name, if there is a map and
      such an entry. */
  function PlayNowStation(lastPlayed: Option<Pref>, username: string): (r: Option<Station>)
    ensures LastPlayed(lastPlayed).None? ==> r.None?
    ensures r.Some? <==> LastPlayed(lastPlayed).Some? && Lower(username) in LastPlayed(lastPlayed).value
    ensures r.Some? ==> r.value == LastPlayed(lastPlayed).value[Lower(username)]
  {
    var lst := LastPlayed(lastPlayed);
    if lst.None? then None
    else if Lower(username) !in lst.value then None
    else Some(lst.value[Lower(username)])
  }

  /** The station URL `PlayNowModelFolder.do_search` tunes to for a stored
      station; `None` for an unknown service type, which tunes nothing. */
  function PlayNowUrl(st: Station): (r: Option<string>)
    ensures r.None? <==> !IsService(st.kind)
  {
    if st.kind == ServicePersonal then Some(UserStation(st.parm, "personal"))
    else if st.kind == ServiceTag then Some("lastfm://globaltags/" + st.parm)
    else if st.kind == ServiceRadio then Some("lastfm://group/" + st.parm)
    else if st.kind == ServiceSimilarArtists then Some("lastfm://artist/" + st.parm)
    else None
  }

  /** PlayNowModelFolder.do_search up to the track fetch: looks up the
      user's last station and tunes to it through the client (the personal
      station through `tune_user`). Without a station, or for an unknown
      type, it returns before any tuning. */
  method PlayNowSearch(mgr: Manager, loginReply: seq<string>, reply: seq<string>)
    returns (err: Option<Error>, requested: Option<string>)
    modifies mgr.client`logged, mgr.client`sessionId, mgr.client`streamUrl, mgr.client`baseUrl,
             mgr.client`basePath, mgr.client`userUrl, mgr.client`stationName, mgr.client`discovery
    ensures var st := PlayNowStation(old(mgr.GetPreference(TagLastPlayed, None)), old(mgr.GetUsername()));
            var loginErr := CheckLoginErr(old(mgr.client.logged), mgr.client.username, mgr.client.password, loginReply);
            if st.None? || PlayNowUrl(st.value).None? then
              err.None? && requested.None? && unchanged(mgr.client)
            else
              && (requested.Some? <==> mgr.IsLogged())
              && (requested.Some? <==> loginErr.None?)
              && (requested.Some? ==> requested == PlayNowUrl(st.value) && err == TuneErr(reply)
                                      && mgr.client.TunedOf() == AfterTune(old(mgr.client.TunedOf()), reply))
              && (requested.None? ==> err == loginErr && mgr.client.TunedOf() == old(mgr.client.TunedOf()))
  {
    var st := PlayNowStation(mgr.GetPreference(TagLastPlayed, None), mgr.GetUsername());
    if st.None? {
      return None, None;
    }
    var station := st.value;
    if station.kind == ServicePersonal {
      err, requested := mgr.client.TuneUser(station.parm, "personal", loginReply, reply);
    } else if station.kind == ServiceTag {
      err, requested := mgr.client.Tune("lastfm://globaltags/" + station.parm, loginReply, reply);
    } else if station.kind == ServiceRadio {
      err, requested := mgr.client.Tune("lastfm://group/" + station.parm, loginReply, reply);
    } else if station.kind == ServiceSimilarArtists {
      err, requested := mgr.client.Tune("lastfm://artist/" + station.parm, loginReply, reply);
    } else {
      return None, None;
    }
  }

  // ---------------------------------------------------------------------
  // History: service folders and the last-played map.

  /** A service folder as the history rebuilds it. `username` is the
      personal station's owner (for the other folders, the manager's user
      at creation); `query` is `None` for the personal folder, which has
      none. */
  datatype Folder = Folder(kind: int, name: string, username: string,
                           query: Option<string>, promptBased: bool)

  /** The default folder names of `create_model_from_type`. */
  function DefaultName(kind: int, parm: string): string {
    if kind == ServicePersonal then parm + "'s radio station"
    else if kind == ServiceTag then parm + " tag radio"
    else if kind == ServiceRadio then parm + " radio"
    else parm + " similar artists"
  }

  /** HistoryModelFolder.create_model_from_type: a folder of the given type
      named `name` (the default name when `name` is empty), never prompt
      based; `None` for an unknown type. */
  function CreateModelFromType(kind: int, parm: string, name: string, currentUser: string)
    : (r: Option<Folder>)
    ensures r.None? <==> !IsService(kind)
    ensures r.Some? ==> r.value.kind == kind && !r.value.promptBased
    ensures r.Some? ==> r.value.name == if name != "" then name else DefaultName(kind, parm)
    ensures r.Some? && kind == ServicePersonal ==> r.value.username == parm && r.value.query.None?
    ensures r.Some? && kind != ServicePersonal ==> r.value.query == Some(parm)
  {
    var n := if name != "" then name else DefaultName(kind, parm);
    if kind == ServicePersonal then Some(Folder(kind, n, parm, None, false))
    else if IsService(kind) then Some(Folder(kind, n, currentUser, Some(parm), false))
    else None
  }

  /** Python's `"%s" % query`: a missing query prints as `None`. */
  function Format(query: Option<string>): string {
    if query.Some? then query.value else "None"
  }

  /** The station URL a service folder's own `do_search` tunes to: the one
      "Play now" tunes for what the folder records in the history. */
  function FolderUrl(f: Folder): (url: string)
    requires IsService(f.kind)
    ensures PlayNowUrl(HistoryEntry(f)) == Some(url)
  {
    if f.kind == ServicePersonal then UserStation(f.username, "personal")
    else if f.kind == ServiceTag then "lastfm://globaltags/" + Format(f.query)
    else if f.kind == ServiceRadio then "lastfm://group/" + Format(f.query)
    else "lastfm://artist/" + Format(f.query)
  }

  /** What a service folder's `update_history` records: its type and its
      user (personal) or query (the others). A named folder as the history
      builds them is rebuilt from the row it records. */
  function HistoryEntry(f: Folder): (row: Station)
    requires IsService(f.kind)
    ensures row.kind == f.kind
    ensures && f.name != "" && !f.promptBased && (f.kind == ServicePersonal <==> f.query.None?) ==>
            CreateModelFromType(row.kind, row.parm, f.name, f.username) == Some(f)
  {
    if f.kind == ServicePersonal then Station(f.kind, f.username) else Station(f.kind, Format(f.query))
  }

  /** Rebuilding a folder from a history row and recording it again gives
      back the same row, and "Play now" replays that row through the very
      URL the folder itself tunes to. */
  lemma HistoryRoundTrip(kind: int, parm: string, name: string, currentUser: string)
    requires IsService(kind)
    ensures var f := CreateModelFromType(kind, parm, name, currentUser).value;
            && HistoryEntry(f) == Station(kind, parm)
            && PlayNowUrl(Station(kind, parm)) == Some(FolderUrl(f))
  {
  }

  /** HistoryModelFolder.insert, the last-played part: the user's entry (by
      lower-cased name) becomes the station, the map being created when
      absent; other users' entries and all other preferences stay. */
  method HistoryInsert(mgr: Manager, kind: int, parm: string)
    modifies mgr`prefs
    ensures PlayNowStation(mgr.GetPreference(TagLastPlayed, None), mgr.GetUsername()) == Some(Station(kind, parm))
    ensures forall u :: Lower(u) != Lower(mgr.GetUsername()) ==>
              PlayNowStation(mgr.GetPreference(TagLastPlayed, None), u)
              == PlayNowStation(old(mgr.GetPreference(TagLastPlayed, None)), u)
    ensures forall k :: k != TagLastPlayed ==> mgr.GetPreference(k, None) == old(mgr.GetPreference(k, None))
  {
    var username := mgr.GetUsername();
    var lst := LastPlayed(mgr.GetPreference(TagLastPlayed, None));
    var m := if lst.None? then map[] else lst.value;
    m := m[Lower(username) := Station(kind, parm)];
    mgr.SetPreference(TagLastPlayed, Stations(m));
  }

  // ---------------------------------------------------------------------
  // Tracks fetched from a station.

  /** A track of a station's playlist, as the client fills it in. `album`
      and `artist` are the names of the album and artist objects, absent
      when the objects are. */
  datatype Track = Track(mbid: Option<string>, name: string, url: Option<string>,
                         album: Option<string>, artist: Option<string>,
                         playcount: int, duration: int, image: Option<string>)

  /** The media model made from a track. */
  datatype AudioModel = AudioModel(id: Option<string>, uri: Option<string>, remoteUri: Option<string>,
                                   title: string, album: Option<string>, artist: Option<string>,
                                   playcount: int, durationfm: int, remoteThumbnail: Option<string>)

  /** The cover to download for a track: none for a missing or empty image
      or the service's "no image" placeholder, the image otherwise. */
  function RemoteThumbnail(image: Option<string>): (r: Option<string>)
    ensures r.None? <==> image.None? || image.value == "" || Contains(image.value, "/noimage/cover")
    ensures r.Some? ==> r == image
  {
    if image.None? || image.value == "" || Contains(image.value, "/noimage/cover") then None else image
  }

  /** ServiceModelFolder._create_model_from_entry. */
  function CreateModelFromEntry(data: Track): (m: AudioModel)
    ensures m.uri == data.url && m.remoteUri == data.url && m.title == data.name
    ensures m.album == data.album && m.artist == data.artist
    ensures m.remoteThumbnail == RemoteThumbnail(data.image)
  {
    AudioModel(data.mbid, data.url, data.url, data.name, data.album, data.artist,
               data.playcount, data.duration, RemoteThumbnail(data.image))
  }

  // ---------------------------------------------------------------------
  // Settings items.

  /** UserPassOptionsModel.get_title. */
  function Title(logged: bool, username: string): string {
    if !logged then "Login to Last.fm" else "Logged as " + username
  }

  /** UserPassOptionsModel.get_left_button_text. */
  function LeftButtonText(logged: bool): (t: string)
    ensures t == "Log off" <==> logged
    ensures !logged ==> t == "Log on"
  {
    if !logged then "Log on" else "Log off"
  }

  /** The title tells the two states apart and, when logged in, names the
      user exactly: two users get the same title only if they are the same
      user; logged out, the title does not depend on the user. */
  lemma TitleNamesUser(u: string, v: string)
    ensures Title(true, u) != Title(false, v)
    ensures Title(true, u) == Title(true, v) <==> u == v
    ensures Title(false, u) == Title(false, v)
  {
    assert Title(true, u)[3] == 'g' && Title(false, v)[3] == 'i';
    if Title(true, u) == Title(true, v) {
      assert u == Title(true, u)[10..] && v == Title(true, v)[10..];
    }
  }

  class UserPassOptions {
    const mgr: Manager
    var username: string
    var password: string

    /** UserPassOptionsModel(): the dialog starts from the stored
        credentials. */
    constructor (mgr: Manager)
      ensures this.mgr == mgr && username == mgr.GetUsername() && password == mgr.GetPassword()
    {
      this.mgr := mgr;
      username := mgr.GetUsername();
      password := mgr.GetPassword();
    }

    /** UserPassOptionsModel.get_title: the logged-out title appears
        exactly when the manager is logged out; logged in, it reads
        "Logged as " followed by the user name. */
    function GetTitle(): (t: string)
      reads mgr, mgr.client
      ensures t == "Login to Last.fm" <==> !mgr.IsLogged()
      ensures mgr.IsLogged() ==> |t| >= 10 && t[..10] == "Logged as " && t[10..] == mgr.GetUsername()
    {
      TitleNamesUser(mgr.GetUsername(), "");
      Title(mgr.IsLogged(), mgr.GetUsername())
    }

    /** UserPassOptionsModel.on_left_button_clicked: logged out, it reloads
        the stored credentials and opens the login dialog; logged in, it
        logs out. */
    method OnLeftButtonClicked() returns (opensDialog: bool)
      modifies this, mgr.client`logged
      ensures opensDialog <==> !old(mgr.IsLogged())
      ensures !mgr.IsLogged()
      ensures opensDialog ==> username == mgr.GetUsername() && password == mgr.GetPassword()
      ensures !opensDialog ==> username == old(username) && password == old(password)
    {
      if !mgr.IsLogged() {
        username := mgr.GetUsername();
        password := mgr.GetPassword();
        opensDialog := true;
      } else {
        mgr.client.Logout();
        opensDialog := false;
      }
    }

    /** UserPassOptionsModel.on_right_button_clicked: "Change user" opens
        the login dialog with both fields cleared. */
    method OnRightButtonClicked()
      modifies this
      ensures username == "" && password == ""
    {
      username := "";
      password := "";
    }
  }

  class ScrobblerOptions {
    const mgr: Manager

    constructor (mgr: Manager)
      ensures this.mgr == mgr
    {
      this.mgr := mgr;
    }

    /** ScrobblerOptionsModel.set_scrobbler. */
    method SetScrobbler(enable: bool)
      modifies mgr`scrobbleEnabled
      ensures mgr.scrobbleEnabled == enable
    {
      mgr.scrobbleEnabled := enable;
    }

    /** ScrobblerOptionsModel.on_clicked: flips scrobbling; two clicks
        restore it. */
    method OnClicked()
      modifies mgr`scrobbleEnabled
      ensures mgr.scrobbleEnabled == !old(mgr.scrobbleEnabled)
    {
      SetScrobbler(!mgr.scrobbleEnabled);
    }
  }
}
