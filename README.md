# canola-jamendo core, modelled in Dafny

The model covers the parts of the Canola media-player plugin that make decisions:

- **Client** (`client.dfy`, client.py): the session client for the Audioscrobbler protocol 1.2 and the radio service. It covers:
  - parsing `key=value` replies;
  - classifying error replies;
  - the radio and submission handshakes;
  - login and logout;
  - the `check_login` wrapper;
  - station tuning;
  - the argument checks of `now_playing` and `submit`.
- **Manager** (`manager.dfy`, manager.py): the manager that owns the client and the plugin's preference map. It holds the stored credentials and the scrobbling switch.
- **Scrobbler** (`scrobbler.dfy`, audio_scrobbler.py): the player hook. It covers:
  - the eligibility checks of `_validate_cmd`;
  - the submission timer: its deadline, pause and resume;
  - the now-playing announcement;
  - the durable submission cache, capped at 200 entries, and the drain that sends it.
- **Utils** (`utils.dfy`, utils.py):
  - `normalize_path`, the cover file-name sanitiser;
  - the choice of covers that `remove_old_covers` deletes.
- **Model** (`model.dfy`, model.py): the plugin's browsing and settings logic. It covers:
  - how "Play now" replays the user's last station;
  - how history rows become service folders;
  - how a fetched track becomes a media model;
  - the login and scrobbler settings items.
- **Common** (`common.dfy`): the Python 2 string operations the code relies on (`strip`, `lower`, `find`, whitespace), restricted to ASCII.

How the model stands in for the running program:

- Network replies are parameters, given as the reply lines (already stripped, as `_request_lines` returns them).
- The clocks are parameters: `ecore.time_get()` is `now` and `mktime(localtime())` is `wallNow`.
- The network status (`network and network.status > 0.0`) is the parameter `online`.
- Exceptions become an `Option<Error>` result.
- Work that the source hands to a `ThreadedFunction` is split in two:
  - `Submit` reports that a drain was started;
  - the environment then runs the drain (`CacheSubmitSend`) and its completion callback (`DrainFinished`) as separate steps.
- `JamendoManager` inherits from `Client` in the source. Here the manager holds its client as a field, and every client attribute that the source reads through the manager is read through `mgr.client`.
- audio_scrobbler.py imports `LastfmManager`, and model.py calls an undefined `lastfm_manager`. Both are read as this one manager instance, passed in explicitly.

Four behaviours of the code that a reader might not expect. The model follows the code as written:

- **The drain empties the cache.** After each entry is visited, the drain drops the front of the cache (audio_scrobbler.py:145), whether the entry was skipped, sent, or failed to send. So a drain always leaves the cache empty. Failed submissions are not kept for a later attempt.
- **`LastfmException` does not exist.** `submit` raises `LastfmException` when the source is not `p`/`P` or the length is missing (client.py:371-375), but that class is never defined. Python raises `NameError` there, and the model returns `NameError("LastfmException")`.
- **A replaced timer is not cleared.** `media_changed` deletes the old timer but keeps the reference to it (audio_scrobbler.py:68-70). The model keeps the timer with state `Deleted`.
- **The submission handshake is never performed.** Nothing in the plugin calls `second_handshake` (client.py:247-263), which alone sets the post session id and the now-playing and submission URLs (client.py:257-260). So nothing is ever sent to the submission server:
  - Before any login, `_validate_cmd` lets a command through (audio_scrobbler.py:97). `check_login` then logs in, but building the request on the unset URL (client.py:364, 393) raises `AttributeError`. `Client.NewClientNeverSends` shows this.
  - After a successful login the radio session id is set and the post session id stays unset. `_validate_cmd` then ignores every announcement and every submission (audio_scrobbler.py:97-100). `Scrobbler.LoginBlocksScrobbling` shows this.

## Model

| member | source | states |
|---|---|---|
| `Common.StripSpec` | canola-jamendo/client.py:318 | `strip()` returns a contiguous slice of its input; only whitespace is cut, on both sides; the result neither starts nor ends with whitespace |
| `Common.LowerIdempotent` | canola-jamendo/model.py:282 | lower-casing a user name a second time changes nothing, and no upper-case letter survives |
| `Utils.NormalizePath` | canola-jamendo/utils.py:36-41 | the name has no special character; no whitespace at either end; no whitespace but single spaces; it keeps exactly the non-special, non-blank characters of the input, in order; its words are the input's words once special characters are read as blanks |
| `Utils.NormalizePathIdempotent` | canola-jamendo/utils.py:36-41 | normalising a normalised name gives it back unchanged |
| `Utils.SplitJoin` | canola-jamendo/utils.py:40 | `split()` of `" ".join(words)` gives back the words, for words without whitespace (the round trip inside normalisation) |
| `Utils.TranslateNoSpecials` | canola-jamendo/utils.py:37-39 | the translation table leaves a string without special characters unchanged |
| `Utils.InsertByAge` | canola-jamendo/utils.py:72 | inserting into an age-sorted list keeps it sorted and is a permutation of the list plus the new cover |
| `Utils.SortByAge` | canola-jamendo/utils.py:72 | the `cmp` sort on truncated ages returns a list sorted by age that is a permutation of its input |
| `Utils.RemoveOldCovers` | canola-jamendo/utils.py:58-75 | 100 covers or fewer: nothing is removed; more: exactly `count - 100` paths are removed, namely the paths of the sorted list beyond position 100 |
| `Utils.EvictionKeepsYoungest` | canola-jamendo/utils.py:65-75 | kept and removed covers together are exactly the cached covers, and every kept cover was read no longer ago (truncated seconds) than every removed one |
| `Client.SplitAtFirstEq` | canola-jamendo/client.py:317 | `split("=", 1)` loses nothing: key, `=`, value rebuild the line, and the key holds no `=` |
| `Client.MakeDict` | canola-jamendo/client.py:314-319 | fails with the unpacking `ValueError` exactly when some line lacks `=`; otherwise returns the dictionary of the lines, each value stripped |
| `Client.DictOfKeys` | canola-jamendo/client.py:314-319 | a key is in the dictionary if and only if some line carries it |
| `Client.DictOfLastWins` | canola-jamendo/client.py:316-318 | a key maps to the stripped value of the last line that carries it |
| `Client.StatusByPrecedence` | canola-jamendo/client.py:265-277 | a reply is classified by the first token of the order BADAUTH, BANNED, BADTIME, FAILED, BADSESSION that appears as a whole line |
| `Client.ResponseError` | canola-jamendo/client.py:265-277 | only authentication errors are raised; nothing is raised exactly for BADTIME or no token at all; a FAILED reply quotes its first line |
| `Client.CredentialsError` | canola-jamendo/client.py:201-212 | the call goes ahead if and only if both credentials are non-empty; otherwise the username's error takes precedence over the password's |
| `Client.NowPlayingArgsError` | canola-jamendo/client.py:347-352 | accepted if and only if the length and track number are each falsy or an int; every rejection is a `TypeError` |
| `Client.SubmitArgsError` | canola-jamendo/client.py:368-378 | accepted if and only if the source is `p`/`P`, the length is truthy and the time is an int; a bad source or missing length raises the undefined exception's `NameError` |
| `Client.RequestUrlError` | canola-jamendo/client.py:364 | building a request fails, with `AttributeError`, exactly when its URL is unset |
| `Client.Client.constructor` | canola-jamendo/client.py:72-85 | a new client is logged out and has no session ids, URLs or station; credentials as given |
| `Client.HandshakeSucceeds` | canola-jamendo/client.py:229-244 | the handshake raises nothing if and only if the credentials are present and the reply parses to a non-FAILED session with all three stream keys; the session then comes wholly from the reply; a failed handshake never sets the base path |
| `Client.TuneOutcome` | canola-jamendo/client.py:298-308 | a tune raises nothing if and only if the reply parses to `OK` with URL and station name, which are then set; a failed tune keeps station name and discovery; a reply without `OK` raises `TuningError` and changes nothing |
| `Client.Client.CheckResponse` | canola-jamendo/client.py:265-277 | raises the reply's error; a BADSESSION reply (no earlier token) logs the client out; no other state changes |
| `Client.Client.Handshake` | canola-jamendo/client.py:228-244 | empty credentials fail first and change nothing; a FAILED session raises the server message (KeyError without one) and changes nothing; otherwise the session fields are assigned in order, and a missing key stops there with its `KeyError` |
| `Client.Client.Login` | canola-jamendo/client.py:214-222 | logged in if and only if the handshake raised nothing; the handshake's error is re-raised unchanged and its effect on the session stays |
| `Client.Client.Logout` | canola-jamendo/client.py:224-226 | the client is logged out |
| `Client.Client.SecondHandshake` | canola-jamendo/client.py:246-263 | with an `OK` line, lines 1-3 become post session id, now-playing URL and submission URL, a short reply stopping with `IndexError`; without, the post session id is cleared and the reply's error raised, BADSESSION logging out |
| `Client.Client.CheckLogin` | canola-jamendo/client.py:118-125 | logged in already: nothing changes and the call proceeds; otherwise the error and session are those of a login; the wrapped call proceeds if and only if the client is then logged in |
| `Client.Client.Tune` | canola-jamendo/client.py:279-308 | the request is sent (with the given URL) if and only if the `check_login` wrapper raised nothing, whose error is raised otherwise; `OK` stores URL, station name and discovery (missing keys raise in order); any other response raises `TuningError` with it, or "Unknown error"; only login, session and station fields change |
| `Client.Client.TuneUser` | canola-jamendo/client.py:310-312 | tunes to `lastfm://user/<user>/<feature>` with the same login rule, reply outcome and frame as `tune` |
| `Client.Client.NowPlaying` | canola-jamendo/client.py:346-365 | sent if and only if the `check_login` wrapper and the argument check pass and the now-playing URL is set; the error is the login's, else the argument check's, else the unset URL's `AttributeError`, else the reply's; the client ends logged in unless the login failed or a sent announcement met BADSESSION |
| `Client.Client.Submit` | canola-jamendo/client.py:367-394 | sent if and only if the `check_login` wrapper and the argument check pass and the submission URL is set; the error is the login's, else the argument check's, else the unset URL's `AttributeError`, else the reply's; the client ends logged in unless the login failed or a sent submission met BADSESSION |
| `Client.NewClientNeverSends` | canola-jamendo/client.py:346-394 | a new client sends neither an announcement nor a submission; with a successful login and accepted arguments, each fails with the unset URL's `AttributeError` |
| `Manager.Manager.constructor` | canola-jamendo/manager.py:32-38 | credentials are read from the stored preferences (default empty), so client and preferences start in step; the client is fresh and logged out |
| `Manager.Manager.HasPreference` | canola-jamendo/manager.py:43-44 | true exactly when `get_preference` finds a stored value instead of its default |
| `Manager.Manager.GetPreference` | canola-jamendo/manager.py:46-47 | the stored value when the key is present, the default otherwise |
| `Manager.Manager.SetPreference` | canola-jamendo/manager.py:49-51 | afterwards the key is present with the new value and every other key reads as before; a key other than the credentials keeps client and preferences in step |
| `Manager.Manager.GetUsername` | canola-jamendo/manager.py:53-54 | while client and preferences are in step, the username is the stored `username` preference (default empty) |
| `Manager.Manager.SetUsername` | canola-jamendo/manager.py:56-58 | the client's username and the stored `username` preference both become the value, and client and preferences stay in step |
| `Manager.Manager.GetPassword` | canola-jamendo/manager.py:60-61 | while client and preferences are in step, the password is the stored `password` preference (default empty) |
| `Manager.Manager.SetPassword` | canola-jamendo/manager.py:63-65 | likewise for the password |
| `Manager.CredentialsPersist` | canola-jamendo/manager.py:36-65 | credentials set through the setters are what a manager rebuilt from the same preferences starts with, logged out |
| `Scrobbler.Validate` | canola-jamendo/audio_scrobbler.py:78-108 | send if and only if credentials are present, scrobbling is on, a radio session has a submission session, and a submission has a length; empty credentials always win |
| `Scrobbler.MergeKeepsNewest` | canola-jamendo/audio_scrobbler.py:122-128 | merging the queue into a cache within capacity yields the newest 200 entries of cache followed by queue, in FIFO order |
| `Scrobbler.MergeBounded` | canola-jamendo/audio_scrobbler.py:123-128 | after a merge the cache holds at most 200 entries |
| `Scrobbler.Deadline` | canola-jamendo/audio_scrobbler.py:209-214 | no timer under 30 s; exactly 240 s for tracks over 240 s; otherwise half the duration, rounded down |
| `Scrobbler.AudioScrobbler.constructor` | canola-jamendo/audio_scrobbler.py:54-62 | no media, timer or start time; not paused or sending; empty queue; the stored cache |
| `Scrobbler.AudioScrobbler.Submittable` | canola-jamendo/audio_scrobbler.py:138-142 | the entries the drain submits are eligible ones taken from the cache, no more of them than it holds |
| `Scrobbler.AudioScrobbler.MediaChanged` | canola-jamendo/audio_scrobbler.py:64-76 | the old timer is deleted and its pause cleared; new media with length 0 and no start time |
| `Scrobbler.AudioScrobbler.CreateTimer` | canola-jamendo/audio_scrobbler.py:164-171 | a running timer of the given interval replaces any previous one; start time and total are recorded |
| `Scrobbler.AudioScrobbler.PauseTimer` | canola-jamendo/audio_scrobbler.py:173-179 | no timer: nothing changes; otherwise the stop time is recorded, the timer stopped and the pause noted |
| `Scrobbler.AudioScrobbler.ResumeTimer` | canola-jamendo/audio_scrobbler.py:181-184 | a running timer for the remaining interval, started now, pause cleared |
| `Scrobbler.PauseResumeKeepsTotal` | canola-jamendo/audio_scrobbler.py:173-184 | across two pauses, the time the timer ran before each pause plus the interval finally scheduled equal the interval first scheduled |
| `Scrobbler.AudioScrobbler.NowPlaying` | canola-jamendo/audio_scrobbler.py:110-115 | the track is announced if and only if the validator accepts and the network is up, with the track's fields and length |
| `Scrobbler.AudioScrobbler.Playing` | canola-jamendo/audio_scrobbler.py:186-195 | a paused timer resumes, otherwise the timer is untouched; the first `playing` of a track records its start and announces the current track's name, artist, album, track number and length if and only if the validator accepts and the network is up; later ones do neither |
| `Scrobbler.AudioScrobbler.Paused` | canola-jamendo/audio_scrobbler.py:197-201 | the same effect as pausing the timer |
| `Scrobbler.AudioScrobbler.DurationUpdated` | canola-jamendo/audio_scrobbler.py:203-216 | the length is always recorded; a timer is created for the deadline when there is one, otherwise the timer is untouched |
| `Scrobbler.AudioScrobbler.Submit` | canola-jamendo/audio_scrobbler.py:150-162 | the current track is always queued; a drain starts if and only if the network is up and none is in flight |
| `Scrobbler.AudioScrobbler.DrainFinished` | canola-jamendo/audio_scrobbler.py:158-159 | the in-flight flag is cleared |
| `Scrobbler.AudioScrobbler.TimerFired` | canola-jamendo/audio_scrobbler.py:216 | a running timer fires once: it is spent and the track is submitted; a stopped or deleted one does nothing |
| `Scrobbler.AudioScrobbler.RefreshCache` | canola-jamendo/audio_scrobbler.py:117-128 | the cache is created if missing and becomes the merge of cache and queue; the queue is empty |
| `Scrobbler.AudioScrobbler.CacheSubmitSend` | canola-jamendo/audio_scrobbler.py:117-148 | the saved cache is the merge; exactly its eligible entries are submitted, in order; the cache ends empty |
| `Scrobbler.SubmittableAll` | canola-jamendo/audio_scrobbler.py:138-142 | when every entry is eligible the whole cache is submitted in order |
| `Scrobbler.SubmittableNone` | canola-jamendo/audio_scrobbler.py:138-145 | when none is eligible nothing is submitted |
| `Scrobbler.SubmittableCount` | canola-jamendo/audio_scrobbler.py:138-142 | every eligible entry is submitted exactly as many times as the cache holds it, and no ineligible entry is submitted |
| `Scrobbler.SubmittableAppend` | canola-jamendo/audio_scrobbler.py:138-145 | submission keeps cache order: a cache split in two is submitted as its first part's entries, then its second's |
| `Scrobbler.DrainTwice` | canola-jamendo/audio_scrobbler.py:133-145 | a second drain with nothing queued submits nothing and leaves the cache empty |
| `Scrobbler.LoginBlocksScrobbling` | canola-jamendo/audio_scrobbler.py:97-100 | after a successful login with a non-empty session, a submission is ignored for want of a post session, even with scrobbling on |
| `Model.PlayNowStation` | canola-jamendo/model.py:277-286 | a station is found if and only if a last-played map exists and holds the lower-cased user name; it is that entry |
| `Model.PlayNowUrl` | canola-jamendo/model.py:288-297 | no URL exactly for an unknown service type |
| `Model.PlayNowSearch` | canola-jamendo/model.py:277-297 | no station or an unknown type: nothing is tuned and the client is untouched; otherwise the station's URL is requested if and only if the `check_login` wrapper passes, with the tune's reply outcome, or the login error |
| `Model.CreateModelFromType` | canola-jamendo/model.py:494-515 | none exactly for an unknown type; the given name or the type's default name; personal folders own the user, the others carry the query; never prompt based |
| `Model.FolderUrl` | canola-jamendo/model.py:313-381 | the URL a service folder tunes is the one "Play now" tunes for the row the folder records |
| `Model.HistoryEntry` | canola-jamendo/model.py:320-384 | the recorded row keeps the folder's type, and a named folder as the history builds them is rebuilt from its own row |
| `Model.HistoryRoundTrip` | canola-jamendo/model.py:306-384 | a folder rebuilt from a history row records the same row again, and "Play now" tunes that row to the same URL as the folder |
| `Model.HistoryInsert` | canola-jamendo/model.py:449-464 | "Play now" afterwards finds this station for the user; other users' stations and every other preference are unchanged |
| `Model.RemoteThumbnail` | canola-jamendo/model.py:257-262 | no cover exactly for a missing or empty image or the no-image placeholder; the image otherwise |
| `Model.CreateModelFromEntry` | canola-jamendo/model.py:243-264 | URI, remote URI and title from the track; album and artist names only when present; the thumbnail rule |
| `Model.LeftButtonText` | canola-jamendo/model.py:593-597 | reads "Log off" if and only if logged in, and "Log on" otherwise |
| `Model.TitleNamesUser` | canola-jamendo/model.py:587-591 | the title tells logged in from logged out, and when logged in names the user unambiguously |
| `Model.UserPassOptions.GetTitle` | canola-jamendo/model.py:587-591 | the logged-out title appears exactly when the manager is logged out; logged in, the title is "Logged as " followed by the user's name |
| `Model.UserPassOptions.constructor` | canola-jamendo/model.py:582-585 | the item starts from the stored credentials |
| `Model.UserPassOptions.OnLeftButtonClicked` | canola-jamendo/model.py:606-614 | logged out: reloads the credentials and opens the dialog; logged in: logs out; either way the client ends logged out |
| `Model.UserPassOptions.OnRightButtonClicked` | canola-jamendo/model.py:616-619 | both credential fields are cleared |
| `Model.ScrobblerOptions.SetScrobbler` | canola-jamendo/model.py:643-644 | scrobbling is switched to the value given |
| `Model.ScrobblerOptions.constructor` | canola-jamendo/model.py:633-634 | the item acts on the manager it is given |
| `Model.ScrobblerOptions.OnClicked` | canola-jamendo/model.py:639-641 | scrobbling flips |

## Left out

- HTTP and XML-RPC I/O (`_request`, `_request_lines`, `urlopen`, the `xmlrpclib` proxy): replies are inputs.
- XSPF and user-feed parsing (`get_xspf_tracks`, `get_friends`, `get_neighbours`): the XML parser is not part of this model. The friends and neighbours folders, which only list those results, are left out with them.
- `get_token_timestamp`: an MD5 hash of the password plus the wall clock.
- Threads, ecore timers and clocks: these are inputs and explicit steps.
- Saving preferences to disk: `prefs.save()` is not modelled.
- The SQLite history table: `HistoryModelFolder.insert`'s row insert and update, `select_model_all`, and deleting history.
- The cover download and the filesystem:
  - `get_cover_path`;
  - `request_cover`;
  - glob, stat and unlink in `remove_old_covers`.
  - `RemoveOldCovers` takes the file list with access times and the clock, and returns the paths it would unlink.
- ui.py and options.py: the UI layer. So are the framework parts of model.py: child lists, `search`'s threading and error messages, and `MainModelFolder.do_load`.
- `Utils.SortByAge`: the contract proves sorted order and a permutation but does not state stability. The definition inserts stably, as Python's sort does.
- `Utils.Age`: lifetimes are exact reals, whereas `nw - st.st_atime` is a floating-point subtraction. Its rounding can move `int()` across an integer boundary, which the model does not reproduce.
- `Scrobbler.AudioScrobbler.CacheSubmitSend`: lists the submissions it hands to the client but does not replay their effect on the session. A `check_login` login or a BADSESSION logout during the drain, and the exceptions the drain catches, are not modelled. Eligibility is evaluated on the state at the start of the drain.
- `Model.PlayNowSearch`: does not restate the session fields a triggered login changes; `Client.Client.Tune` states them. The playlist fetch after tuning is not modelled.
- `Client.RpcSucceeded`: `ban_track`/`love_track` return only the comparison of the server's answer with `OK`. The XML-RPC call and its token are not modelled, so the contract is that comparison and nothing more.
- `Manager.Manager.IsLogged`: reads the client's flag, because the manager holds its client instead of inheriting from it. What the flag means is stated by `Client.Client.Login`, `Logout` and `CheckLogin`.
- `Scrobbler.AudioScrobbler.ValidateCmd`: only hands the manager's state to `Scrobbler.Validate`, which carries the checks.
- `Scrobbler.Remaining`: the interval arithmetic of `resume_timer`. Its property is `Scrobbler.PauseResumeKeepsTotal`.
- `Manager.Manager.constructor`: starts `scrobbleEnabled` at `false`. In the source the attribute is never assigned until the settings item sets it. Reading it before that raises `AttributeError` (audio_scrobbler.py:92; model.py:637 and 640).
  - For a drain this matters. In the model, with credentials present, the drain reads scrobbling as off, skips every entry and empties the cache.
  - The source's drain would instead abort at the first entry's check. That is before line 145 drops anything, so the cache saved at line 131 stays.
- `Model.HistoryInsert` and `Model.PlayNowStation`: a `last_played_songs` preference that holds something other than a station map is read as absent. The source would fail on it.
- `Model.CreateModelFromEntry`: a track's album and artist objects are represented by their names.
- Strings are ASCII byte strings: there is no Unicode `lower` or whitespace beyond the six ASCII blanks.
