/** client.py: the session client of the Audioscrobbler submission protocol
    1.2 and of the radio service. Network replies are parameters (the lines
    the server sent back, already stripped); everything else is the
    client's own decision logic and state. */
module Client {
  import opened Common

  /** The exceptions the client raises. `NameError` is what Python raises
      where client.py names `LastfmException`, a class it never defines. */
  datatype Error =
    | ValueError(msg: string)
    | KeyError(key: string)
    | IndexError
    | TypeError(msg: string)
    | HandshakeError(msg: string)
    | AuthenticationError(msg: string)
    | TuningError(msg: string)
    | NameError(name: string)
    | AttributeError(name: string)

  datatype Result<T> = Ok(value: T) | Err(error: Error)

  /** urllib2's `Request` strips its URL first, so a target URL that was
      never set (`None`) raises `AttributeError` before anything is sent. */
  function RequestUrlError(url: Option<string>): (e: Option<Error>)
    ensures e.None? <==> url.Some?
    ensures e.Some? ==> e.value.AttributeError?
  {
    if url.None? then Some(AttributeError("strip")) else None
  }

  /** A dynamically typed Python argument, as far as the client looks at
      it: an integer, a string, or `None`. */
  datatype Value = IntV(i: int) | StrV(s: string) | NoneV

  /** Python truthiness of an argument. */
  predicate IsTruthy(v: Value) {
    match v
    case IntV(i) => i != 0
    case StrV(s) => s != ""
    case NoneV => false
  }

  // ---------------------------------------------------------------------
  // make_dict: `key=value` lines.

  /** Python's message when `key, val = line.split("=", 1)` finds no `=`. */
  const UnpackMessage := "need more than 1 value to unpack"

  /** Position of the first `=` in `line`. */
  function FirstEq(line: string): (i: nat)
    requires '=' in line
    ensures i < |line| && line[i] == '='
    ensures forall k :: 0 <= k < i ==> line[k] != '='
  {
    if line[0] == '=' then 0 else 1 + FirstEq(line[1..])
  }

  /** The part of the line before its first `=`. */
  function Key(line: string): string
    requires '=' in line
  {
    line[..FirstEq(line)]
  }

  /** The part of the line after its first `=`, unstripped. */
  function RawValue(line: string): string
    requires '=' in line
  {
    line[FirstEq(line) + 1..]
  }

  /** Splitting at the first `=` loses nothing, and the key holds no `=`. */
  lemma SplitAtFirstEq(line: string)
    requires '=' in line
    ensures line == Key(line) + "=" + RawValue(line)
    ensures '=' !in Key(line)
  {
    assert line == line[..FirstEq(line)] + [line[FirstEq(line)]] + line[FirstEq(line) + 1..];
  }

  predicate AllHaveEq(lines: seq<string>) {
    forall i :: 0 <= i < |lines| ==> '=' in lines[i]
  }

  /** The dictionary the lines describe, later lines overriding earlier
      ones. */
  function DictOf(lines: seq<string>): map<string, string>
    requires AllHaveEq(lines)
  {
    if lines == [] then map[]
    else
      var last := lines[|lines| - 1];
      DictOf(lines[..|lines| - 1])[Key(last) := Strip(RawValue(last))]
  }

  lemma DictOfSnoc(lines: seq<string>, line: string)
    requires AllHaveEq(lines) && '=' in line
    ensures AllHaveEq(lines + [line])
    ensures DictOf(lines + [line]) == DictOf(lines)[Key(line) := Strip(RawValue(line))]
  {
    assert (lines + [line])[..|lines|] == lines;
  }

  /** Client.make_dict. */
  method MakeDict(lines: seq<string>) returns (r: Result<map<string, string>>)
    ensures r.Err? <==> !AllHaveEq(lines)
    ensures r.Err? ==> r.error == ValueError(UnpackMessage)
    ensures r.Ok? ==> AllHaveEq(lines) && r.value == DictOf(lines)
  {
    var result := map[];
    for i := 0 to |lines|
      invariant AllHaveEq(lines[..i])
      invariant result == DictOf(lines[..i])
    {
      var line := lines[i];
      if '=' !in line {
        return Err(ValueError(UnpackMessage));
      }
      assert lines[..i + 1] == lines[..i] + [line];
      DictOfSnoc(lines[..i], line);
      result := result[Key(line) := Strip(RawValue(line))];
    }
    assert lines[..|lines|] == lines;
    return Ok(result);
  }

  /** The keys of the dictionary are exactly the keys of the lines. */
  lemma {:induction false} DictOfKeys(lines: seq<string>, k: string)
    requires AllHaveEq(lines)
    ensures k in DictOf(lines) <==> exists i :: 0 <= i < |lines| && Key(lines[i]) == k
  {
    if lines != [] {
      var init := lines[..|lines| - 1];
      DictOfKeys(init, k);
      if k in DictOf(init) {
        var i :| 0 <= i < |init| && Key(init[i]) == k;
        assert Key(lines[i]) == k;
      }
      if exists i :: 0 <= i < |lines| && Key(lines[i]) == k {
        var i :| 0 <= i < |lines| && Key(lines[i]) == k;
        if i < |init| {
          assert Key(init[i]) == k;
        }
      }
    }
  }

  /** A key maps to the stripped value of the last line that carries it:
      later duplicates overwrite earlier ones. */
  lemma {:induction false} DictOfLastWins(lines: seq<string>, i: nat)
    requires AllHaveEq(lines) && i < |lines|
    requires forall j :: i < j < |lines| ==> Key(lines[j]) != Key(lines[i])
    ensures Key(lines[i]) in DictOf(lines)
    ensures DictOf(lines)[Key(lines[i])] == Strip(RawValue(lines[i]))
  {
    if i < |lines| - 1 {
      var init := lines[..|lines| - 1];
      assert init[i] == lines[i];
      DictOfLastWins(init, i);
    }
  }

  // ---------------------------------------------------------------------
  // _check_response: reply tokens.

  /** How `_check_response` reads a reply. */
  datatype Status = BadAuth | Banned | BadTime | Failed | BadSession | Other

  /** The reply tokens in the order `_check_response` tests them. */
  const Tokens: seq<string> := ["BADAUTH", "BANNED", "BADTIME", "FAILED", "BADSESSION"]
  const Statuses: seq<Status> := [BadAuth, Banned, BadTime, Failed, BadSession, Other]

  /** Whole-line membership tests, first match wins. */
  function StatusOf(response: seq<string>): Status {
    if "BADAUTH" in response then BadAuth
    else if "BANNED" in response then Banned
    else if "BADTIME" in response then BadTime
    else if "FAILED" in response then Failed
    else if "BADSESSION" in response then BadSession
    else Other
  }

  /** Index of the first of `tokens` that is a whole line of the reply, or
      `|tokens|` when none is. */
  function FirstPresent(tokens: seq<string>, response: seq<string>): (i: nat)
    ensures i <= |tokens|
    ensures forall k :: 0 <= k < i ==> tokens[k] !in response
    ensures i < |tokens| ==> tokens[i] in response
  {
    if tokens == [] then 0
    else if tokens[0] in response then 0
    else 1 + FirstPresent(tokens[1..], response)
  }

  /** The classification is "the first token of the precedence list that
      the reply contains": a token earlier in `Tokens` wins over any later
      one, whatever else the reply holds. */
  lemma StatusByPrecedence(response: seq<string>)
    ensures StatusOf(response) == Statuses[FirstPresent(Tokens, response)]
  {
    var i := FirstPresent(Tokens, response);
    assert i < 1 || Tokens[0] !in response;
    assert i < 2 || Tokens[1] !in response;
    assert i < 3 || Tokens[2] !in response;
    assert i < 4 || Tokens[3] !in response;
    assert i < 5 || Tokens[4] !in response;
    if i < 5 {
      assert Tokens[i] in response;
    }
  }

  /** The exception `_check_response` raises for a reply, if any. */
  function ResponseError(response: seq<string>): (e: Option<Error>)
    ensures e.Some? ==> e.value.AuthenticationError?
    ensures e.None? <==> StatusOf(response) in {BadTime, Other}
    ensures StatusOf(response) == Failed ==>
              e == Some(AuthenticationError("Authentication failed. Reason: " + response[0]))
  {
    match StatusOf(response)
    case BadAuth => Some(AuthenticationError("Invalid username or password"))
    case Banned => Some(AuthenticationError("You have been banned from this server"))
    case BadTime => None
    case Failed => Some(AuthenticationError("Authentication failed. Reason: " + response[0]))
    case BadSession => Some(AuthenticationError("Bad session error"))
    case Other => None
  }

  /** `_check_userpass`: the error raised before any request when a
      credential is empty. */
  function CredentialsError(username: string, password: string): (e: Option<Error>)
    ensures e.None? <==> username != "" && password != ""
    ensures username == "" ==> e == Some(ValueError("Username cannot be empty."))
    ensures username != "" && password == "" ==> e == Some(ValueError("Password cannot be empty."))
  {
    if username == "" then Some(ValueError("Username cannot be empty."))
    else if password == "" then Some(ValueError("Password cannot be empty."))
    else None
  }

  // ---------------------------------------------------------------------
  // Argument checks of now_playing and submit.

  /** `now_playing`: a length or track number that is given (truthy) must
      be an int. */
  function NowPlayingArgsError(trackno: Value, length: Value): (e: Option<Error>)
    ensures e.None? <==> (!IsTruthy(length) || length.IntV?) && (!IsTruthy(trackno) || trackno.IntV?)
    ensures e.Some? ==> e.value.TypeError?
  {
    if IsTruthy(length) && !length.IntV? then Some(TypeError("Length must be int"))
    else if IsTruthy(trackno) && !trackno.IntV? then Some(TypeError("Trackno must be int"))
    else None
  }

  /** `submit`: only source `p`/`P` with a length is accepted, and the start
      time must be an int. The two source checks raise the undefined
      `LastfmException`, which surfaces as a NameError. */
  function SubmitArgsError(length: Value, time: Value, source: string): (e: Option<Error>)
    ensures e.None? <==> (source == "p" || source == "P") && IsTruthy(length) && time.IntV?
    ensures source != "p" && source != "P" ==> e == Some(NameError("LastfmException"))
    ensures (source == "p" || source == "P") && !IsTruthy(length) ==> e == Some(NameError("LastfmException"))
  {
    if source == "p" || source == "P" then
      if !IsTruthy(length) then Some(NameError("LastfmException"))
      else if !time.IntV? then Some(TypeError("Time must be int"))
      else None
    else Some(NameError("LastfmException"))
  }

  /** The station URL `tune_user` tunes to. */
  function UserStation(user: string, feature: string): string {
    "lastfm://user/" + user + "/" + feature
  }

  // ---------------------------------------------------------------------
  // The outcomes of the handshake, of `check_login` and of a tune reply,
  // as functions of the state before and the reply.

  /** The four fields the radio handshake sets. */
  datatype Session = Session(sessionId: Option<string>, streamUrl: Option<string>,
                             baseUrl: Option<string>, basePath: Option<string>)

  /** The exception `handshake` raises for a reply, if any. */
  function HandshakeErr(username: string, password: string, reply: seq<string>): Option<Error> {
    if CredentialsError(username, password).Some? then CredentialsError(username, password)
    else if !AllHaveEq(reply) then Some(ValueError(UnpackMessage))
    else
      var d := DictOf(reply);
      if "session" !in d then Some(KeyError("session"))
      else if d["session"] == "FAILED" then Some(if "msg" in d then HandshakeError(d["msg"]) else KeyError("msg"))
      else if "stream_url" !in d then Some(KeyError("stream_url"))
      else if "base_url" !in d then Some(KeyError("base_url"))
      else if "base_path" !in d then Some(KeyError("base_path"))
      else None
  }

  /** The session fields after `handshake`, from those before: assigned in
      order until a key is missing. */
  function AfterHandshake(s: Session, username: string, password: string, reply: seq<string>): Session {
    if CredentialsError(username, password).Some? || !AllHaveEq(reply) then s
    else
      var d := DictOf(reply);
      if "session" !in d || d["session"] == "FAILED" then s
      else
        var s1 := s.(sessionId := Some(d["session"]));
        if "stream_url" !in d then s1
        else
          var s2 := s1.(streamUrl := Some(d["stream_url"]));
          if "base_url" !in d then s2
          else
            var s3 := s2.(baseUrl := Some(d["base_url"]));
            if "base_path" !in d then s3 else s3.(basePath := Some(d["base_path"]))
  }

  /** A handshake succeeds exactly when the credentials are present and the
      reply parses into a non-FAILED session with all three stream keys;
      the session then comes entirely from the reply, whatever it was
      before. */
  lemma HandshakeSucceeds(s: Session, username: string, password: string, reply: seq<string>)
    ensures HandshakeErr(username, password, reply).None? <==>
              && username != "" && password != "" && AllHaveEq(reply)
              && "session" in DictOf(reply) && DictOf(reply)["session"] != "FAILED"
              && "stream_url" in DictOf(reply) && "base_url" in DictOf(reply) && "base_path" in DictOf(reply)
    ensures HandshakeErr(username, password, reply).None? ==>
              var d := DictOf(reply);
              AfterHandshake(s, username, password, reply)
              == Session(Some(d["session"]), Some(d["stream_url"]), Some(d["base_url"]), Some(d["base_path"]))
    ensures HandshakeErr(username, password, reply).Some? ==>
              AfterHandshake(s, username, password, reply).basePath == s.basePath
  {
  }

  /** The error the `check_login` wrapper raises before the wrapped call:
      none when already logged in, the handshake's otherwise. */
  function CheckLoginErr(wasLogged: bool, username: string, password: string, loginReply: seq<string>)
    : Option<Error>
  {
    if wasLogged then None else HandshakeErr(username, password, loginReply)
  }

  /** The session fields after the `check_login` wrapper. */
  function AfterCheckLogin(wasLogged: bool, s: Session, username: string, password: string,
                           loginReply: seq<string>): Session
  {
    if wasLogged then s else AfterHandshake(s, username, password, loginReply)
  }

  /** The three fields a successful tune sets. */
  datatype Tuned = Tuned(userUrl: Option<string>, stationName: Option<string>, discovery: Option<string>)

  /** The exception `tune` raises for the server's reply, if any. */
  function TuneErr(reply: seq<string>): Option<Error> {
    if !AllHaveEq(reply) then Some(ValueError(UnpackMessage))
    else
      var d := DictOf(reply);
      if "response" in d && d["response"] == "OK" then
        if "url" !in d then Some(KeyError("url"))
        else if "stationname" !in d then Some(KeyError("stationname"))
        else None
      else Some(TuningError(if "response" in d && d["response"] != "" then d["response"] else "Unknown error"))
  }

  /** The tuned-station fields after `tune`, from those before. */
  function AfterTune(t: Tuned, reply: seq<string>): Tuned {
    if !AllHaveEq(reply) then t
    else
      var d := DictOf(reply);
      if !("response" in d && d["response"] == "OK") || "url" !in d then t
      else if "stationname" !in d then t.(userUrl := Some(d["url"]))
      else Tuned(Some(d["url"]), Some(d["stationname"]), if "discovery" in d then Some(d["discovery"]) else None)
  }

  /** A tune reply either tunes the station completely (an `OK` reply with
      URL and station name) or leaves the station name and discovery as
      they were; a reply without `OK` always raises a `TuningError`. */
  lemma TuneOutcome(t: Tuned, reply: seq<string>)
    ensures TuneErr(reply).None? <==>
              AllHaveEq(reply) && "response" in DictOf(reply) && DictOf(reply)["response"] == "OK"
              && "url" in DictOf(reply) && "stationname" in DictOf(reply)
    ensures TuneErr(reply).None? ==> AfterTune(t, reply).userUrl.Some? && AfterTune(t, reply).stationName.Some?
    ensures TuneErr(reply).Some? ==>
              AfterTune(t, reply).stationName == t.stationName && AfterTune(t, reply).discovery == t.discovery
    ensures AllHaveEq(reply) && !("response" in DictOf(reply) && DictOf(reply)["response"] == "OK") ==>
              TuneErr(reply).Some? && TuneErr(reply).value.TuningError? && AfterTune(t, reply) == t
  {
  }

  // ---------------------------------------------------------------------
  // The client object.

  class Client {
    var logged: bool
    var nowUrl: Option<string>
    var postUrl: Option<string>
    var sessionId: Option<string>
    var postSessionId: Option<string>
    var username: string
    var password: string
    var baseUrl: Option<string>
    var basePath: Option<string>
    var streamUrl: Option<string>
    var userUrl: Option<string>
    var stationName: Option<string>
    /** `None` stands for the integer 0 the client starts with; a tuned
        station stores the server's text. */
    var discovery: Option<string>

    /** A new client is logged out and holds no session. A missing
        credential (`None` in the source) is the empty string here: both
        are only ever tested for truthiness. */
    constructor (username: string, password: string)
      ensures !logged && this.username == username && this.password == password
      ensures nowUrl == None && postUrl == None && sessionId == None && postSessionId == None
      ensures baseUrl == None && basePath == None && streamUrl == None
      ensures userUrl == None && stationName == None && discovery == None
    {
      logged := false;
      nowUrl, postUrl := None, None;
      sessionId, postSessionId := None, None;
      this.username, this.password := username, password;
      baseUrl, basePath, streamUrl := None, None, None;
      userUrl, stationName, discovery := None, None, None;
    }

    function SessionOf(): Session
      reads this
    {
      Session(sessionId, streamUrl, baseUrl, basePath)
    }

    function TunedOf(): Tuned
      reads this
    {
      Tuned(userUrl, stationName, discovery)
    }

    /** Client._check_response: the reply's exception, and a BADSESSION
        reply (with no token of higher precedence) logs the client out. */
    method CheckResponse(response: seq<string>) returns (err: Option<Error>)
      modifies this`logged
      ensures err == ResponseError(response)
      ensures logged == (if StatusOf(response) == BadSession then false else old(logged))
    {
      if "BADAUTH" in response {
        err := Some(AuthenticationError("Invalid username or password"));
      } else if "BANNED" in response {
        err := Some(AuthenticationError("You have been banned from this server"));
      } else if "BADTIME" in response {
        err := None;
      } else if "FAILED" in response {
        err := Some(AuthenticationError("Authentication failed. Reason: " + response[0]));
      } else if "BADSESSION" in response {
        logged := false;
        err := Some(AuthenticationError("Bad session error"));
      } else {
        err := None;
      }
    }

    /** Client.handshake, the radio handshake, given the reply lines. An
        empty credential fails before any request. A `FAILED` session
        raises the server's message and changes nothing; otherwise the
        four session fields are set in order, a missing key stopping the
        assignments where it is met. */
    method Handshake(reply: seq<string>) returns (err: Option<Error>)
      modifies this`sessionId, this`streamUrl, this`baseUrl, this`basePath
      ensures err == HandshakeErr(username, password, reply)
      ensures SessionOf() == AfterHandshake(old(SessionOf()), username, password, reply)
      ensures CredentialsError(username, password).Some? ==>
                err == CredentialsError(username, password) && unchanged(this)
      ensures CredentialsError(username, password).None? && !AllHaveEq(reply) ==>
                err == Some(ValueError(UnpackMessage)) && unchanged(this)
      ensures CredentialsError(username, password).None? && AllHaveEq(reply) ==>
                var d := DictOf(reply);
                if "session" !in d then err == Some(KeyError("session")) && unchanged(this)
                else if d["session"] == "FAILED" then
                  err == Some(if "msg" in d then HandshakeError(d["msg"]) else KeyError("msg"))
                  && unchanged(this)
                else
                  && sessionId == Some(d["session"])
                  && streamUrl == (if "stream_url" in d then Some(d["stream_url"]) else old(streamUrl))
                  && baseUrl == (if "stream_url" in d && "base_url" in d then Some(d["base_url"])
                                 else old(baseUrl))
                  && basePath == (if "stream_url" in d && "base_url" in d && "base_path" in d
                                  then Some(d["base_path"]) else old(basePath))
                  && err == (if "stream_url" !in d then Some(KeyError("stream_url"))
                             else if "base_url" !in d then Some(KeyError("base_url"))
                             else if "base_path" !in d then Some(KeyError("base_path"))
                             else None)
    {
      err := CredentialsError(username, password);
      if err.Some? {
        return;
      }
      var parsed := MakeDict(reply);
      if parsed.Err? {
        return Some(parsed.error);
      }
      var params := parsed.value;
      if "session" !in params {
        return Some(KeyError("session"));
      }
      if params["session"] == "FAILED" {
        if "msg" !in params {
          return Some(KeyError("msg"));
        }
        return Some(HandshakeError(params["msg"]));
      }
      sessionId := Some(params["session"]);
      if "stream_url" !in params {
        return Some(KeyError("stream_url"));
      }
      streamUrl := Some(params["stream_url"]);
      if "base_url" !in params {
        return Some(KeyError("base_url"));
      }
      baseUrl := Some(params["base_url"]);
      if "base_path" !in params {
        return Some(KeyError("base_path"));
      }
      basePath := Some(params["base_path"]);
    }

    /** Client.login: the client is logged in exactly when the handshake
        succeeds; the handshake's error is re-raised unchanged and its
        effect on the session stays. */
    method Login(reply: seq<string>) returns (err: Option<Error>)
      modifies this`logged, this`sessionId, this`streamUrl, this`baseUrl, this`basePath
      ensures logged <==> err.None?
      ensures err == HandshakeErr(username, password, reply)
      ensures SessionOf() == AfterHandshake(old(SessionOf()), username, password, reply)
      ensures CredentialsError(username, password).Some? ==> err == CredentialsError(username, password)
      ensures err.None? ==> CredentialsError(username, password).None? && AllHaveEq(reply)
                            && "session" in DictOf(reply) && DictOf(reply)["session"] != "FAILED"
                            && sessionId == Some(DictOf(reply)["session"])
    {
      err := Handshake(reply);
      logged := err.None?;
    }

    /** Client.logout: only the flag changes. */
    method Logout()
      modifies this`logged
      ensures !logged
    {
      logged := false;
    }

    /** Client.second_handshake, the submission handshake, given the reply
        lines. With an `OK` line anywhere in the reply, lines 1 to 3 become
        the post session id, now-playing URL and submission URL (a short
        reply stops with an IndexError where it runs out); otherwise the
        post session id is cleared and the reply is checked for errors. */
    method SecondHandshake(reply: seq<string>) returns (err: Option<Error>)
      modifies this`postSessionId, this`nowUrl, this`postUrl, this`logged
      ensures CredentialsError(username, password).Some? ==>
                err == CredentialsError(username, password) && unchanged(this)
      ensures CredentialsError(username, password).None? && "OK" in reply ==>
                && logged == old(logged)
                && postSessionId == (if |reply| > 1 then Some(reply[1]) else old(postSessionId))
                && nowUrl == (if |reply| > 2 then Some(reply[2]) else old(nowUrl))
                && postUrl == (if |reply| > 3 then Some(reply[3]) else old(postUrl))
                && err == (if |reply| > 3 then None else Some(IndexError))
      ensures CredentialsError(username, password).None? && "OK" !in reply ==>
                && postSessionId == None && nowUrl == old(nowUrl) && postUrl == old(postUrl)
                && err == ResponseError(reply)
                && logged == (if StatusOf(reply) == BadSession then false else old(logged))
    {
      err := CredentialsError(username, password);
      if err.Some? {
        return;
      }
      if "OK" in reply {
        if |reply| < 2 {
          return Some(IndexError);
        }
        postSessionId := Some(reply[1]);
        if |reply| < 3 {
          return Some(IndexError);
        }
        nowUrl := Some(reply[2]);
        if |reply| < 4 {
          return Some(IndexError);
        }
        postUrl := Some(reply[3]);
      } else {
        postSessionId := None;
        err := CheckResponse(reply);
      }
    }

    /** The `check_login` wrapper: logs in first when not logged in; a
        failed login is the wrapped call's error, and the wrapped call runs
        exactly when the client is then logged in. */
    method CheckLogin(loginReply: seq<string>) returns (err: Option<Error>)
      modifies this`logged, this`sessionId, this`streamUrl, this`baseUrl, this`basePath
      ensures old(logged) ==> err.None? && unchanged(this)
      ensures logged <==> err.None?
      ensures err == CheckLoginErr(old(logged), username, password, loginReply)
      ensures SessionOf() == AfterCheckLogin(old(logged), old(SessionOf()), username, password, loginReply)
    {
      if !logged {
        err := Login(loginReply);
      } else {
        err := None;
      }
    }

    /** Client.tune, behind `check_login`, given the login reply (used only
        when not logged in) and the tune reply. `requested` is the station
        URL sent to the server, `None` when no request was made. */
    method Tune(url: string, loginReply: seq<string>, reply: seq<string>)
      returns (err: Option<Error>, requested: Option<string>)
      modifies this`logged, this`sessionId, this`streamUrl, this`baseUrl, this`basePath,
              this`userUrl, this`stationName, this`discovery
      ensures requested.Some? <==> CheckLoginErr(old(logged), username, password, loginReply).None?
      ensures requested.None? ==> err == CheckLoginErr(old(logged), username, password, loginReply)
      ensures requested.Some? ==> err == TuneErr(reply) && TunedOf() == AfterTune(old(TunedOf()), reply)
      ensures SessionOf() == AfterCheckLogin(old(logged), old(SessionOf()), username, password, loginReply)
      ensures old(logged) ==> sessionId == old(sessionId) && streamUrl == old(streamUrl)
      ensures requested.Some? <==> logged
      ensures requested.Some? ==> requested == Some(url)
      ensures requested.None? ==> err.Some? && userUrl == old(userUrl)
                                  && stationName == old(stationName) && discovery == old(discovery)
      ensures requested.Some? && !AllHaveEq(reply) ==> err == Some(ValueError(UnpackMessage))
      ensures requested.Some? && AllHaveEq(reply) ==>
                var d := DictOf(reply);
                if "response" in d && d["response"] == "OK" then
                  && userUrl == (if "url" in d then Some(d["url"]) else old(userUrl))
                  && stationName == (if "url" in d && "stationname" in d then Some(d["stationname"])
                                     else old(stationName))
                  && discovery == (if "url" in d && "stationname" in d
                                   then (if "discovery" in d then Some(d["discovery"]) else None)
                                   else old(discovery))
                  && err == (if "url" !in d then Some(KeyError("url"))
                             else if "stationname" !in d then Some(KeyError("stationname"))
                             else None)
                else
                  && userUrl == old(userUrl) && stationName == old(stationName)
                  && discovery == old(discovery)
                  && err == Some(TuningError(if "response" in d && d["response"] != "" then d["response"]
                                             else "Unknown error"))
    {
      requested := None;
      err := CheckLogin(loginReply);
      if err.Some? {
        return;
      }
      requested := Some(url);
      var parsed := MakeDict(reply);
      if parsed.Err? {
        return Some(parsed.error), requested;
      }
      var params := parsed.value;
      var response := if "response" in params then Some(params["response"]) else None;
      if response == Some("OK") {
        if "url" !in params {
          return Some(KeyError("url")), requested;
        }
        userUrl := Some(params["url"]);
        if "stationname" !in params {
          return Some(KeyError("stationname")), requested;
        }
        stationName := Some(params["stationname"]);
        discovery := if "discovery" in params then Some(params["discovery"]) else None;
      } else if Truthy(response) {
        err := Some(TuningError(response.value));
      } else {
        err := Some(TuningError("Unknown error"));
      }
    }

    /** Client.tune_user: tunes to the user's station for `feature`. */
    method TuneUser(user: string, feature: string, loginReply: seq<string>, reply: seq<string>)
      returns (err: Option<Error>, requested: Option<string>)
      modifies this`logged, this`sessionId, this`streamUrl, this`baseUrl, this`basePath,
              this`userUrl, this`stationName, this`discovery
      ensures requested.Some? <==> logged
      ensures requested.Some? <==> CheckLoginErr(old(logged), username, password, loginReply).None?
      ensures requested.Some? ==> requested == Some(UserStation(user, feature))
      ensures requested.None? ==> err == CheckLoginErr(old(logged), username, password, loginReply)
                                  && TunedOf() == old(TunedOf())
      ensures requested.Some? ==> err == TuneErr(reply) && TunedOf() == AfterTune(old(TunedOf()), reply)
      ensures SessionOf() == AfterCheckLogin(old(logged), old(SessionOf()), username, password, loginReply)
    {
      err, requested := Tune(UserStation(user, feature), loginReply, reply);
    }

    /** Client.now_playing behind `check_login`: `requested` tells whether
        the announcement was sent, which needs the now-playing URL of the
        submission handshake; the reply is then checked for errors. */
    method NowPlaying(trackno: Value, length: Value, loginReply: seq<string>, reply: seq<string>)
      returns (err: Option<Error>, requested: bool)
      modifies this`logged, this`sessionId, this`streamUrl, this`baseUrl, this`basePath
      ensures var loginErr := CheckLoginErr(old(logged), username, password, loginReply);
              && (requested <==> loginErr.None? && NowPlayingArgsError(trackno, length).None? && nowUrl.Some?)
              && (loginErr.Some? ==> err == loginErr)
              && (loginErr.None? ==> err == if requested then ResponseError(reply)
                                            else if NowPlayingArgsError(trackno, length).Some? then NowPlayingArgsError(trackno, length)
                                            else RequestUrlError(nowUrl))
              && (logged <==> loginErr.None? && !(requested && StatusOf(reply) == BadSession))
      ensures SessionOf() == AfterCheckLogin(old(logged), old(SessionOf()), username, password, loginReply)
      ensures !requested ==> err.Some?
    {
      requested := false;
      err := CheckLogin(loginReply);
      if err.Some? {
        return;
      }
      err := NowPlayingArgsError(trackno, length);
      if err.Some? {
        return;
      }
      err := RequestUrlError(nowUrl);
      if err.Some? {
        return;
      }
      requested := true;
      err := CheckResponse(reply);
    }

    /** Client.submit behind `check_login`: `requested` tells whether the
        submission was sent, which needs the submission URL of the
        submission handshake; the reply is then checked for errors. */
    method Submit(length: Value, time: Value, source: string, loginReply: seq<string>, reply: seq<string>)
      returns (err: Option<Error>, requested: bool)
      modifies this`logged, this`sessionId, this`streamUrl, this`baseUrl, this`basePath
      ensures var loginErr := CheckLoginErr(old(logged), username, password, loginReply);
              && (requested <==> loginErr.None? && SubmitArgsError(length, time, source).None? && postUrl.Some?)
              && (loginErr.Some? ==> err == loginErr)
              && (loginErr.None? ==> err == if requested then ResponseError(reply)
                                            else if SubmitArgsError(length, time, source).Some? then SubmitArgsError(length, time, source)
                                            else RequestUrlError(postUrl))
              && (logged <==> loginErr.None? && !(requested && StatusOf(reply) == BadSession))
      ensures SessionOf() == AfterCheckLogin(old(logged), old(SessionOf()), username, password, loginReply)
      ensures !requested ==> err.Some?
    {
      requested := false;
      err := CheckLogin(loginReply);
      if err.Some? {
        return;
      }
      err := SubmitArgsError(length, time, source);
      if err.Some? {
        return;
      }
      err := RequestUrlError(postUrl);
      if err.Some? {
        return;
      }
      requested := true;
      err := CheckResponse(reply);
    }
  }

  /** Without the submission handshake neither URL is ever set, so on a
      new client an announcement and a submission both fail: with the
      login's error, the argument check's, or, when both pass, the
      `AttributeError` of building the request. Nothing is sent. */
  method NewClientNeverSends(username: string, password: string, trackno: Value, length: Value,
                             time: Value, source: string, loginReply: seq<string>, reply: seq<string>)
    returns (nowErr: Option<Error>, nowSent: bool, subErr: Option<Error>, subSent: bool)
    ensures !nowSent && !subSent && nowErr.Some? && subErr.Some?
    ensures HandshakeErr(username, password, loginReply).None? && NowPlayingArgsError(trackno, length).None? ==>
              nowErr == Some(AttributeError("strip"))
    ensures HandshakeErr(username, password, loginReply).None? && SubmitArgsError(length, time, source).None? ==>
              subErr == Some(AttributeError("strip"))
  {
    var c := new Client(username, password);
    nowErr, nowSent := c.NowPlaying(trackno, length, loginReply, reply);
    subErr, subSent := c.Submit(length, time, source, loginReply, reply);
  }

  /** Client.ban_track / Client.love_track: the RPC succeeded exactly when
      the server answered `OK`. */
  function RpcSucceeded(answer: string): (ok: bool)
    ensures ok <==> answer == "OK"
  {
    answer == "OK"
  }
}
