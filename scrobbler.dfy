/** audio_scrobbler.py: the player hook that turns playback events into
    now-playing announcements and scrobble submissions. The clocks
    (`ecore.time_get()`, `mktime(localtime())`) and the network status
    (`network and network.status > 0.0`) are parameters; work the source
    hands to a worker thread is reported to the caller, which runs it (the
    drain) or performs it (the announcement) as a separate step. */
module Scrobbler {
  import opened Common
  import opened Client
  import opened Manager

  /** Longest wait before a track counts: `time_cons`. */
  const TimeCons: int := 240
  /** Shortest track that is ever submitted. */
  const MinDuration: int := 30
  /** Capacity of the durable submission cache: `max_cached`. */
  const MaxCached: nat := 200

  /** The player's current media, as far as the hook reads it. */
  datatype Media = Media(name: string, artist: string, album: string, trackno: int)

  /** One queued submission: the tuple `_submit` builds, (name, artist,
      album, trackno, length, start_time). */
  datatype Entry = Entry(name: string, artist: string, album: string, trackno: int,
                         length: int, startTime: Option<int>)

  /** A now-playing announcement handed to the client. */
  datatype Announcement = Announcement(name: string, artist: string, album: string,
                                       trackno: int, length: int)

  /** The ecore timer object. The source deletes a timer without dropping
      its reference, so a deleted timer is still "a timer". */
  datatype TimerState = Running | Stopped | Deleted
  datatype Timer = Timer(interval: int, state: TimerState)

  // ---------------------------------------------------------------------
  // _validate_cmd

  /** The outcome of `_validate_cmd`: send, or the reason it is ignored. */
  datatype Verdict = Send | NoCredentials | ScrobbleDisabled | NoPostSession | NoLength

  /** The eligibility checks of `_validate_cmd`, first failing check wins:
      credentials, the user's scrobbling switch, a radio session without a
      submission session, and a submission of unknown length. */
  function Validate(username: string, password: string, enabled: bool,
                    sessionId: Option<string>, postSessionId: Option<string>,
                    submit: bool, length: int): (v: Verdict)
    ensures username == "" || password == "" ==> v == NoCredentials
    ensures v == Send <==> && username != "" && password != "" && enabled
                           && !(Truthy(sessionId) && !Truthy(postSessionId))
                           && !(submit && length == 0)
    ensures v == ScrobbleDisabled ==> !enabled
    ensures v == NoPostSession ==> Truthy(sessionId) && !Truthy(postSessionId)
    ensures v == NoLength <==> && username != "" && password != "" && enabled
                               && !(Truthy(sessionId) && !Truthy(postSessionId))
                               && submit && length == 0
  {
    if username == "" || password == "" then NoCredentials
    else if !enabled then ScrobbleDisabled
    else if Truthy(sessionId) && !Truthy(postSessionId) then NoPostSession
    else if submit && length == 0 then NoLength
    else Send
  }

  // ---------------------------------------------------------------------
  // The durable cache.

  /** One step of the merge loop: a full cache keeps its newest
      `MaxCached - 1` entries, then the entry is appended. */
  function Push(cache: seq<Entry>, e: Entry): seq<Entry> {
    (if |cache| >= MaxCached then cache[|cache| - (MaxCached - 1)..] else cache) + [e]
  }

  /** The cache after the pending queue is merged in, oldest pending entry
      first. */
  function Merge(cache: seq<Entry>, queue: seq<Entry>): seq<Entry>
    decreases |queue|
  {
    if queue == [] then cache else Merge(Push(cache, queue[0]), queue[1..])
  }

  /** The last `n` entries of `s` (all of them when there are fewer). */
  function Newest(s: seq<Entry>, n: nat): (r: seq<Entry>)
    ensures |r| <= n && |r| <= |s|
  {
    if |s| <= n then s else s[|s| - n..]
  }

  /** What merging does, in closed form: starting from a cache within its
      capacity, the merged cache is the newest `MaxCached` entries of the
      old cache followed by the queue. So it never exceeds the capacity,
      keeps FIFO order, and only ever drops the oldest entries. */
  lemma {:induction false} MergeKeepsNewest(cache: seq<Entry>, queue: seq<Entry>)
    requires |cache| <= MaxCached
    ensures Merge(cache, queue) == Newest(cache + queue, MaxCached)
    decreases |queue|
  {
    if queue != [] {
      var next := Push(cache, queue[0]);
      assert cache + queue == cache + [queue[0]] + queue[1..];
      MergeKeepsNewest(next, queue[1..]);
      NewestPush(cache, queue[0]);
      NewestAppend(cache + [queue[0]], queue[1..]);
    }
  }

  lemma NewestPush(cache: seq<Entry>, e: Entry)
    requires |cache| <= MaxCached
    ensures Push(cache, e) == Newest(cache + [e], MaxCached)
  {
    if |cache| == MaxCached {
      assert cache[|cache| - (MaxCached - 1)..] + [e] == (cache + [e])[|cache| + 1 - MaxCached..];
    }
  }

  /** Keeping the newest `n` of a prefix and then the newest `n` of the
      whole is the same as keeping the newest `n` of the whole. */
  lemma NewestAppend(s: seq<Entry>, t: seq<Entry>)
    ensures Newest(Newest(s, MaxCached) + t, MaxCached) == Newest(s + t, MaxCached)
  {
    if |s| > MaxCached {
      var cut := |s| - MaxCached;
      assert s + t == s[..cut] + (s[cut..] + t);
      assert Newest(s, MaxCached) + t == (s + t)[cut..];
    }
  }

  /** The cache never grows past its capacity once anything is merged in. */
  lemma {:induction false} MergeBounded(cache: seq<Entry>, queue: seq<Entry>)
    requires queue != [] || |cache| <= MaxCached
    ensures |Merge(cache, queue)| <= MaxCached
    decreases |queue|
  {
    if queue != [] {
      MergeBounded(Push(cache, queue[0]), queue[1..]);
    }
  }

  // ---------------------------------------------------------------------
  // The timer deadline of duration_updated.

  /** When the submission timer fires for a track of `duration` seconds:
      never for tracks under 30 s, at 240 s for tracks over 240 s, at half
      the duration otherwise (Python 2 integer division). */
  function Deadline(duration: int): (r: Option<int>)
    ensures r.None? <==> duration < MinDuration
    ensures r.Some? ==> MinDuration / 2 <= r.value <= TimeCons && r.value <= duration
    ensures duration > TimeCons ==> r == Some(TimeCons)
    ensures MinDuration <= duration <= TimeCons ==> r.Some? && 2 * r.value <= duration < 2 * r.value + 2
  {
    if duration < MinDuration then None
    else if duration > TimeCons then Some(TimeCons)
    else Some(duration / 2)
  }

  /** The interval `resume_timer` schedules: what was left of the interval
      when the timer was paused. */
  function Remaining(total: int, start: int, stop: int): (r: int)
    ensures start <= stop ==> r <= total
    ensures r + (stop - start) == total
  {
    total - (stop - start)
  }

  // ---------------------------------------------------------------------
  // The hook.

  class AudioScrobbler {
    const mgr: Manager
    var media: Option<Media>
    var timer: Option<Timer>
    var timerPaused: bool
    var startTime: Option<int>
    var length: int
    var startTimer: int
    var stopTimer: int
    var totalTime: int
    /** `prefs['submit_cache']`, `None` while the preference does not
        exist. */
    var submitCache: Option<seq<Entry>>
    var sendingSubmits: bool
    /** `pending_submits`, front first. */
    var pending: seq<Entry>

    /** AudioScrobbler(), with the submission cache as stored by an earlier
        run (if any). */
    constructor (mgr: Manager, storedCache: Option<seq<Entry>>)
      ensures this.mgr == mgr && media == None && timer == None && startTime == None
      ensures !timerPaused && !sendingSubmits && pending == [] && submitCache == storedCache
    {
      this.mgr := mgr;
      media, timer, timerPaused, startTime := None, None, false, None;
      length, startTimer, stopTimer, totalTime := 0, 0, 0, 0;
      submitCache := storedCache;
      sendingSubmits, pending := false, [];
    }

    /** AudioScrobbler._validate_cmd; with no length given it uses the
        current track's. The name and album it is passed are only logged. */
    function ValidateCmd(submit: bool, len: Option<int>): (v: Verdict)
      reads this, mgr, mgr.client
      ensures v == Validate(mgr.client.username, mgr.client.password, mgr.scrobbleEnabled,
                            mgr.client.sessionId, mgr.client.postSessionId,
                            submit, if len.Some? then len.value else length)
    {
      Validate(mgr.client.username, mgr.client.password, mgr.scrobbleEnabled,
               mgr.client.sessionId, mgr.client.postSessionId,
               submit, if len.Some? then len.value else length)
    }

    /** Whether the drain submits a cached entry: the validator run with the
        entry's own length. */
    predicate Eligible(e: Entry)
      reads mgr, mgr.client
    {
      Validate(mgr.client.username, mgr.client.password, mgr.scrobbleEnabled,
               mgr.client.sessionId, mgr.client.postSessionId, true, e.length) == Send
    }

    /** The entries of `s` the drain hands to `submit`, in order. */
    function Submittable(s: seq<Entry>): (r: seq<Entry>)
      reads mgr, mgr.client
      ensures |r| <= |s|
      ensures forall k :: 0 <= k < |r| ==> Eligible(r[k]) && r[k] in s
    {
      if s == [] then []
      else
        var init := Submittable(s[..|s| - 1]);
        var last := s[|s| - 1];
        init + (if Eligible(last) then [last] else [])
    }

    /** AudioScrobbler.media_changed: any timer is deleted (its reference
        kept) and its pause cleared; the new track starts with no length
        and no start time. */
    method MediaChanged(m: Media)
      modifies this`timer, this`timerPaused, this`media, this`length, this`startTime
      ensures timer == (if old(timer).Some? then Some(old(timer).value.(state := Deleted)) else None)
      ensures timerPaused == (old(timer).None? && old(timerPaused))
      ensures media == Some(m) && length == 0 && startTime == None
    {
      if timer.Some? {
        timer := Some(timer.value.(state := Deleted));
        timerPaused := false;
      }
      media := Some(m);
      length := 0;
      startTime := None;
    }

    /** AudioScrobbler.create_timer: any previous timer is replaced by a
        running one of `time` seconds started `now`. */
    method CreateTimer(time: int, now: int)
      modifies this`timer, this`startTimer, this`totalTime
      ensures timer == Some(Timer(time, Running)) && startTimer == now && totalTime == time
    {
      startTimer := now;
      totalTime := time;
      timer := Some(Timer(time, Running));
    }

    /** AudioScrobbler.pause_timer: nothing without a timer; otherwise the
        stop time is recorded, the timer stopped and the pause noted. */
    method PauseTimer(now: int)
      modifies this`stopTimer, this`timer, this`timerPaused
      ensures old(timer).None? ==> unchanged(this)
      ensures old(timer).Some? ==>
                && stopTimer == now && timerPaused
                && timer == Some(if old(timer).value.state == Running
                                 then old(timer).value.(state := Stopped) else old(timer).value)
    {
      if timer.None? {
        return;
      }
      stopTimer := now;
      if timer.value.state == Running {
        timer := Some(timer.value.(state := Stopped));
      }
      timerPaused := true;
    }

    /** AudioScrobbler.resume_timer: a new timer for what was left of the
        interval when it was paused. */
    method ResumeTimer(now: int)
      modifies this`timer, this`startTimer, this`totalTime, this`timerPaused
      ensures !timerPaused
      ensures totalTime == Remaining(old(totalTime), old(startTimer), old(stopTimer))
      ensures timer == Some(Timer(totalTime, Running)) && startTimer == now
    {
      timerPaused := false;
      CreateTimer(Remaining(totalTime, startTimer, stopTimer), now);
    }

    /** AudioScrobbler._now_playing: the announcement handed to the client,
        when the validator accepts it and the network is up. */
    method NowPlaying(online: bool) returns (sent: Option<Announcement>)
      requires media.Some?
      ensures sent.Some? <==> ValidateCmd(false, None) == Send && online
      ensures sent.Some? ==> sent.value == Announcement(media.value.name, media.value.artist,
                                                        media.value.album, media.value.trackno, length)
    {
      if ValidateCmd(false, None) == Send && online {
        var m := media.value;
        sent := Some(Announcement(m.name, m.artist, m.album, m.trackno, length));
      } else {
        sent := None;
      }
    }

    /** AudioScrobbler.playing: a paused timer resumes; the first `playing`
        of a track records its start (wall-clock `wallNow`) and announces
        it. */
    method Playing(now: int, wallNow: int, online: bool) returns (sent: Option<Announcement>)
      requires media.Some?
      modifies this`timer, this`startTimer, this`totalTime, this`timerPaused, this`startTime
      ensures !timerPaused
      ensures old(timerPaused) ==>
                totalTime == Remaining(old(totalTime), old(startTimer), old(stopTimer))
                && timer == Some(Timer(totalTime, Running)) && startTimer == now
      ensures !old(timerPaused) ==>
                timer == old(timer) && totalTime == old(totalTime) && startTimer == old(startTimer)
      ensures old(startTime).Some? ==> startTime == old(startTime) && sent.None?
      ensures old(startTime).None? ==>
                startTime == Some(wallNow)
                && (sent.Some? <==> ValidateCmd(false, None) == Send && online)
      ensures sent.Some? ==> sent.value == Announcement(media.value.name, media.value.artist,
                                                        media.value.album, media.value.trackno, length)
    {
      if timerPaused {
        ResumeTimer(now);
      }
      sent := None;
      if startTime.None? {
        startTime := Some(wallNow);
        sent := NowPlaying(online);
      }
    }

    /** AudioScrobbler.paused. */
    method Paused(now: int)
      modifies this`stopTimer, this`timer, this`timerPaused
      ensures old(timer).None? ==> unchanged(this)
      ensures old(timer).Some? ==>
                && stopTimer == now && timerPaused
                && timer == Some(if old(timer).value.state == Running
                                 then old(timer).value.(state := Stopped) else old(timer).value)
    {
      PauseTimer(now);
    }

    /** AudioScrobbler.duration_updated: the length is always recorded, and
        a timer is (re)created for the track's deadline, if it has one. */
    method DurationUpdated(duration: int, now: int)
      modifies this`length, this`timer, this`startTimer, this`totalTime
      ensures length == duration
      ensures Deadline(duration).None? ==>
                timer == old(timer) && startTimer == old(startTimer) && totalTime == old(totalTime)
      ensures Deadline(duration).Some? ==>
                timer == Some(Timer(Deadline(duration).value, Running))
                && totalTime == Deadline(duration).value && startTimer == now
    {
      length := duration;
      var time: int;
      if duration < MinDuration {
        return;
      } else if duration > TimeCons {
        time := TimeCons;
      } else {
        time := duration / 2;
      }
      CreateTimer(time, now);
    }

    /** The entry `_submit` queues for the current track. */
    function CurrentEntry(): Entry
      reads this
      requires media.Some?
    {
      Entry(media.value.name, media.value.artist, media.value.album, media.value.trackno,
            length, startTime)
    }

    /** AudioScrobbler._submit: the current track is always queued; a drain
        is started (and `started` reported) only when the network is up and
        none is in flight. Only `DrainFinished` clears the flag. */
    method Submit(online: bool) returns (started: bool)
      requires media.Some?
      modifies this`pending, this`sendingSubmits
      ensures pending == old(pending) + [old(CurrentEntry())]
      ensures started <==> online && !old(sendingSubmits)
      ensures sendingSubmits <==> old(sendingSubmits) || started
    {
      pending := pending + [CurrentEntry()];
      started := online && !sendingSubmits;
      if started {
        sendingSubmits := true;
      }
    }

    /** The completion callback of a drain. */
    method DrainFinished()
      modifies this`sendingSubmits
      ensures !sendingSubmits
    {
      sendingSubmits := false;
    }

    /** The one-shot submission timer fires: a running timer is spent and
        the track is submitted. A stopped or deleted timer does nothing. */
    method TimerFired(online: bool) returns (started: bool)
      requires media.Some?
      modifies this`timer, this`pending, this`sendingSubmits
      ensures old(timer).Some? && old(timer).value.state == Running ==>
                && timer == Some(old(timer).value.(state := Deleted))
                && pending == old(pending) + [old(CurrentEntry())]
                && (started <==> online && !old(sendingSubmits))
      ensures !(old(timer).Some? && old(timer).value.state == Running) ==> unchanged(this) && !started
    {
      started := false;
      if timer.Some? && timer.value.state == Running {
        timer := Some(timer.value.(state := Deleted));
        started := Submit(online);
      }
    }

    /** The first half of AudioScrobbler._cache_submit_send: the cache
        preference is created if missing and the pending queue is moved
        into it, front first, a full cache keeping only its newest
        `MaxCached - 1` entries before each append. */
    method RefreshCache()
      modifies this`submitCache, this`pending
      ensures pending == []
      ensures submitCache == Some(Merge(if old(submitCache).Some? then old(submitCache).value else [],
                                        old(pending)))
    {
      if submitCache.None? {
        submitCache := Some([]);
      }
      ghost var merged := Merge(submitCache.value, pending);
      while |pending| > 0
        invariant submitCache.Some?
        invariant Merge(submitCache.value, pending) == merged
        decreases |pending|
      {
        var cache := submitCache.value;
        if |cache| >= MaxCached {
          cache := cache[|cache| - (MaxCached - 1)..];
        }
        var args := pending[0];
        pending := pending[1..];
        submitCache := Some(cache + [args]);
      }
    }

    /** AudioScrobbler._cache_submit_send, the drain. The pending queue is
        merged into the cache (`saved` is what is then written to disk);
        every cached entry is then visited once, in order: it is handed to
        `submit` (listed in `submitted`) when the validator accepts it, and
        the front of the cache is dropped after each visit, whether the
        entry was skipped, sent, or failed. */
    method CacheSubmitSend() returns (saved: seq<Entry>, submitted: seq<Entry>)
      modifies this`submitCache, this`pending
      ensures pending == []
      ensures saved == Merge(if old(submitCache).Some? then old(submitCache).value else [], old(pending))
      ensures submitted == Submittable(saved)
      ensures submitCache == Some([])
    {
      RefreshCache();
      saved := submitCache.value;
      submitted := [];
      if saved == [] {
        return;
      }
      var i := 0;
      while i < |saved|
        invariant 0 <= i <= |saved|
        invariant submitCache == Some(saved[i..]) && pending == []
        invariant submitted == Submittable(saved[..i])
      {
        var args := saved[i];
        assert saved[..i + 1][..i] == saved[..i];
        if Eligible(args) {
          submitted := submitted + [args];
        }
        submitCache := Some(submitCache.value[1..]);
        i := i + 1;
      }
      assert saved[..|saved|] == saved;
    }
  }

  /** With every entry eligible, the drain submits the whole cache, each
      entry once and in cache order. */
  lemma {:induction false} SubmittableAll(sc: AudioScrobbler, s: seq<Entry>)
    requires forall k :: 0 <= k < |s| ==> sc.Eligible(s[k])
    ensures sc.Submittable(s) == s
  {
    if s != [] {
      SubmittableAll(sc, s[..|s| - 1]);
    }
  }

  /** With no entry eligible (say, the credentials were cleared), the drain
      submits nothing; the cache is emptied all the same. */
  lemma {:induction false} SubmittableNone(sc: AudioScrobbler, s: seq<Entry>)
    requires forall k :: 0 <= k < |s| ==> !sc.Eligible(s[k])
    ensures sc.Submittable(s) == []
  {
    if s != [] {
      SubmittableNone(sc, s[..|s| - 1]);
    }
  }

  /** The drain submits every eligible entry exactly as many times as the
      cache holds it, and no other entry. */
  lemma {:induction false} SubmittableCount(sc: AudioScrobbler, s: seq<Entry>, e: Entry)
    ensures multiset(sc.Submittable(s))[e] == if sc.Eligible(e) then multiset(s)[e] else 0
  {
    if s != [] {
      var init := s[..|s| - 1];
      SubmittableCount(sc, init, e);
      assert s == init + [s[|s| - 1]];
    }
  }

  /** The drain keeps cache order: the entries of a cache split in two are
      submitted as those of the first part, then those of the second. */
  lemma {:induction false} SubmittableAppend(sc: AudioScrobbler, a: seq<Entry>, b: seq<Entry>)
    ensures sc.Submittable(a + b) == sc.Submittable(a) + sc.Submittable(b)
    decreases |b|
  {
    if b == [] {
      assert a + b == a;
    } else {
      var init := b[..|b| - 1];
      assert (a + b)[..|a + b| - 1] == a + init;
      assert (a + b)[|a + b| - 1] == b[|b| - 1];
      SubmittableAppend(sc, a, init);
    }
  }

  /** Pause and resume lose no time: across two pauses of a track already
      announced, the time the timer ran before each pause plus the interval
      finally scheduled add up to the interval first scheduled. */
  method PauseResumeKeepsTotal(sc: AudioScrobbler, pause1: int, resume1: int, pause2: int, resume2: int)
    requires sc.media.Some? && sc.startTime.Some? && sc.timer.Some?
    modifies sc`stopTimer, sc`timer, sc`timerPaused, sc`startTimer, sc`totalTime, sc`startTime
    ensures sc.totalTime + (pause1 - old(sc.startTimer)) + (pause2 - resume1) == old(sc.totalTime)
    ensures sc.timer == Some(Timer(sc.totalTime, Running)) && sc.startTimer == resume2 && !sc.timerPaused
    ensures sc.startTime == old(sc.startTime)
  {
    sc.Paused(pause1);
    var sent := sc.Playing(resume1, 0, true);
    sc.Paused(pause2);
    sent := sc.Playing(resume2, 0, true);
  }

  /** The plugin never performs the submission handshake, so after a
      successful login the radio session is set and the post session id is
      not: every submission (and every announcement) is then ignored for
      want of a post session, even with scrobbling switched on. */
  method LoginBlocksScrobbling(stored: map<string, Pref>, loginReply: seq<string>, len: int)
    returns (loginErr: Option<Error>, v: Verdict)
    ensures loginErr.None? && AllHaveEq(loginReply) && "session" in DictOf(loginReply)
            && DictOf(loginReply)["session"] != "" ==>
              v == NoPostSession
  {
    var mgr := new Manager(stored);
    mgr.scrobbleEnabled := true;
    var sc := new AudioScrobbler(mgr, None);
    loginErr := mgr.client.Login(loginReply);
    v := sc.ValidateCmd(true, Some(len));
  }

  /** A drain run right after another, with nothing queued in between,
      submits nothing and leaves the cache empty. */
  method DrainTwice(sc: AudioScrobbler) returns (first: seq<Entry>, second: seq<Entry>)
    modifies sc
    ensures second == [] && sc.submitCache == Some([]) && sc.pending == []
  {
    var saved;
    saved, first := sc.CacheSubmitSend();
    saved, second := sc.CacheSubmitSend();
  }

  /** A 200-second track schedules its submission at 100 s; paused 30 s in
      and resumed later, the new timer runs for the remaining 70 s. Tracks
      of 10, 100 and 300 seconds get no timer, a 50 s and a 240 s timer. */
  method TimerScenario() {
    var m := new Manager(map[]);
    var sc := new AudioScrobbler(m, None);
    sc.MediaChanged(Media("Song", "Band", "Album", 1));
    sc.DurationUpdated(200, 1000);
    assert sc.timer == Some(Timer(100, Running));
    sc.Paused(1030);
    assert sc.timerPaused && sc.timer == Some(Timer(100, Stopped));
    var sent := sc.Playing(1045, 5000, true);
    assert sc.timer == Some(Timer(70, Running)) && !sc.timerPaused;
    assert sc.startTime == Some(5000);
    assert sent == None;  // the fresh manager has no credentials
    assert Deadline(10) == None && Deadline(100) == Some(50) && Deadline(300) == Some(240);
  }
}
