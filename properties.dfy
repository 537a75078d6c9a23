/** Properties of the download pipeline: step order, error wrapping, verification, and
    memoisation of the downloader across any sequence of calls on one download. */
module DownloadProperties {
  import opened Wrappers
  import opened CaskDownload

  /** Every quarantine event of the trace comes before every verification event. */
  ghost predicate QuarantineFirst(t: seq<Event>)
  {
    forall i, j :: 0 <= i < |t| && 0 <= j < |t| && t[i].OnQuarantine() && t[j].OnVerification() ==> i < j
  }

  /** Every downloader event of the trace comes before every quarantine or verification event. */
  ghost predicate TransferFirst(t: seq<Event>)
  {
    forall i, j :: 0 <= i < |t| && 0 <= j < |t| && t[i].OnDownloader() && (t[j].OnQuarantine() || t[j].OnVerification()) ==> i < j
  }

  /** The trace contains a verification event (the skip warning or the checksum check). */
  ghost predicate Verifies(t: seq<Event>)
  {
    exists j :: 0 <= j < |t| && t[j].OnVerification()
  }

  /** Whether it succeeds or not, a transfer only builds and calls the downloader. */
  lemma TransferEventsOnDownloader(cask: Cask, detect: Detector, memo: Option<Downloader>, env: Collaborators)
    ensures var t := TransferSpec(cask, detect, memo, env).events;
      forall i :: 0 <= i < |t| ==> t[i].OnDownloader()
  {
  }

  /** A transfer failure ends `fetch` with a `DownloadFailed` naming the cask: no quarantine
      call, no verification and no cache clearing follow it. */
  lemma TransferFailureStopsFetch(cask: Cask, intent: Option<bool>, detect: Detector, memo: Option<Downloader>,
                                  verify: bool, env: Collaborators)
    requires TransferSpec(cask, detect, memo, env).result.Failure?
    ensures var s := FetchSpec(cask, intent, detect, memo, verify, env);
      s.result.Failure? && s.result.error.DownloadFailed? && s.result.error.token == cask.token &&
      forall i :: 0 <= i < |s.events| ==> s.events[i].OnDownloader() && !s.events[i].Cleared?
  {
  }

  /** A fetch whose transfer succeeded makes exactly the transfer's calls, then exactly the
      quarantine call the intent and the platform dictate, then the verification when it was
      asked for, and nothing else. */
  lemma FetchEvents(cask: Cask, intent: Option<bool>, detect: Detector, memo: Option<Downloader>,
                    verify: bool, env: Collaborators)
    requires TransferSpec(cask, detect, memo, env).result.Success?
    ensures FetchSpec(cask, intent, detect, memo, verify, env).events ==
      TransferSpec(cask, detect, memo, env).events +
      QuarantineEffect(intent, env.quarantineAvailable, cask, env.location.value) +
      (if verify then VerifyIntegrity(cask, env.location.value, env.check, env.actual).events else [])
  {
  }

  /** Downloader events followed by events on no downloader keep the downloader first. */
  lemma TransferFirstAppend(a: seq<Event>, b: seq<Event>)
    requires forall i :: 0 <= i < |a| ==> a[i].OnDownloader()
    requires forall i :: 0 <= i < |b| ==> !b[i].OnDownloader()
    ensures TransferFirst(a + b)
  {
    assert forall i :: |a| <= i < |a + b| ==> (a + b)[i] == b[i - |a|];
  }

  /** In a fetch whose transfer succeeded, the transfer (building the downloader, fetching,
      asking for the cached location) comes before any quarantine call or verification. */
  lemma {:induction false} TransferBeforeQuarantine(cask: Cask, intent: Option<bool>, detect: Detector,
                                                    memo: Option<Downloader>, verify: bool, env: Collaborators)
    requires TransferSpec(cask, detect, memo, env).result.Success?
    ensures TransferFirst(FetchSpec(cask, intent, detect, memo, verify, env).events)
  {
    var t := TransferSpec(cask, detect, memo, env).events;
    var path := env.location.value;
    var q := QuarantineEffect(intent, env.quarantineAvailable, cask, path);
    var tail := if verify then VerifyIntegrity(cask, path, env.check, env.actual).events else [];
    FetchEvents(cask, intent, detect, memo, verify, env);
    TransferEventsOnDownloader(cask, detect, memo, env);
    assert t + q + tail == t + (q + tail);
    TransferFirstAppend(t, q + tail);
  }

  /** In a fetch whose transfer succeeded, the quarantine step comes before verification;
      verification happens exactly when it was asked for; the cache is never cleared; and
      a file that fails verification has already been marked or released as the intent and
      the platform dictate. */
  lemma {:induction false} QuarantineBeforeVerification(cask: Cask, intent: Option<bool>, detect: Detector,
                                                         memo: Option<Downloader>, verify: bool, env: Collaborators)
    requires TransferSpec(cask, detect, memo, env).result.Success?
    ensures var s := FetchSpec(cask, intent, detect, memo, verify, env);
      QuarantineFirst(s.events) &&
      (Verifies(s.events) <==> verify) &&
      (forall i :: 0 <= i < |s.events| ==> !s.events[i].Cleared?) &&
      (s.result.Failure? ==>
        forall e :: e in QuarantineEffect(intent, env.quarantineAvailable, cask, env.location.value) ==> e in s.events)
  {
    var t := TransferSpec(cask, detect, memo, env);
    var path := env.location.value;
    var q := QuarantineEffect(intent, env.quarantineAvailable, cask, path);
    var v := VerifyIntegrity(cask, path, env.check, env.actual);
    var s := FetchSpec(cask, intent, detect, memo, verify, env);
    var tail := if verify then v.events else [];
    TransferEventsOnDownloader(cask, detect, memo, env);
    assert s.events == t.events + q + tail;
    assert forall i :: 0 <= i < |tail| ==> tail[i].OnVerification();
    forall i, j | 0 <= i < |s.events| && 0 <= j < |s.events| && s.events[i].OnQuarantine() && s.events[j].OnVerification()
      ensures i < j
    {
      assert |t.events| <= i < |t.events| + |q|;
      assert |t.events| + |q| <= j;
    }

    if verify {
      assert s.events[|t.events| + |q|] == v.events[0];
    } else {
      assert !Verifies(s.events);
    }
    forall e | e in q && s.result.Failure?
      ensures e in s.events
    {
      assert s.events[|t.events|] == q[0];
    }
  }

  /** A `:no_check` cask whose transfer succeeds is always returned: verification only
      warns, and the checksum is never checked, whatever the file holds. */
  lemma NoCheckAlwaysSucceeds(cask: Cask, intent: Option<bool>, detect: Detector, memo: Option<Downloader>,
                              env: Collaborators)
    requires cask.sha256 == NoCheck
    requires TransferSpec(cask, detect, memo, env).result.Success?
    ensures var s := FetchSpec(cask, intent, detect, memo, true, env);
      s.result == Success(env.location.value) &&
      s.events[|s.events| - 1] == Warn(cask.token) &&
      forall i :: 0 <= i < |s.events| ==> !s.events[i].Checked?
  {
  }

  /** With a declared (or absent) checksum, a verified fetch returns the cached file when the
      check passes, and otherwise fails with the cask-level error carrying the token, the
      declared checksum and the file's actual digest. */
  lemma ChecksumOutcome(cask: Cask, intent: Option<bool>, detect: Detector, memo: Option<Downloader>,
                        env: Collaborators)
    requires cask.sha256 != NoCheck
    requires TransferSpec(cask, detect, memo, env).result.Success?
    ensures var s := FetchSpec(cask, intent, detect, memo, true, env);
      var path := env.location.value;
      s.events[|s.events| - 1] == Checked(path, cask.sha256) &&
      (env.check == ChecksumOk ==> s.result == Success(path)) &&
      (env.check == ChecksumMissing ==> s.result == Failure(Sha256Missing(cask.token, cask.sha256, env.actual))) &&
      (env.check == ChecksumMismatch ==> s.result == Failure(Sha256Mismatch(cask.token, cask.sha256, env.actual, path)))
  {
  }

  /** A call on a download. */
  datatype Call =
    | FetchCall(verify: bool, env: Collaborators)
    | ClearCacheCall
    | CachedDownloadCall(location: Result<Path, string>)

  /** One call on a download whose memoised downloader is `memo`. */
  function Perform(cask: Cask, intent: Option<bool>, detect: Detector, memo: Option<Downloader>, call: Call)
    : (Option<Downloader>, seq<Event>)
  {
    match call
    case FetchCall(verify, env) =>
      var s := FetchSpec(cask, intent, detect, memo, verify, env); (s.memo, s.events)
    case ClearCacheCall =>
      var s := ClearCacheSpec(cask, detect, memo); (s.memo, s.events)
    case CachedDownloadCall(location) =>
      var s := CachedDownloadSpec(cask, detect, memo, location); (s.memo, s.events)
  }

  /** A sequence of calls on one download: its final memo and the concatenated trace. */
  function Session(cask: Cask, intent: Option<bool>, detect: Detector, memo: Option<Downloader>, calls: seq<Call>)
    : (Option<Downloader>, seq<Event>)
    decreases |calls|
  {
    if calls == [] then (memo, [])
    else
      var first := Perform(cask, intent, detect, memo, calls[0]);
      var rest := Session(cask, intent, detect, first.0, calls[1..]);
      (rest.0, first.1 + rest.1)
  }

  /** After the construction of its downloader, `fetch` builds nothing and calls only that
      downloader: its events are the construction (if new) followed by `rest`. */
  lemma {:induction false} FetchCallsOnlyResolved(cask: Cask, intent: Option<bool>, detect: Detector,
                                                  memo: Option<Downloader>, verify: bool, env: Collaborators, d: Downloader)
    returns (rest: seq<Event>)
    requires Resolve(cask, detect, memo) == Success(d)
    ensures FetchSpec(cask, intent, detect, memo, verify, env).events == Creation(memo, d) + rest
    ensures forall i :: 0 <= i < |rest| ==> !rest[i].Created? && (rest[i].OnDownloader() ==> rest[i].dl == d)
  {
    if TransferSpec(cask, detect, memo, env).result.Success? {
      var path := env.location.value;
      var q := QuarantineEffect(intent, env.quarantineAvailable, cask, path);
      var tail := if verify then VerifyIntegrity(cask, path, env.check, env.actual).events else [];
      rest := [Fetched(d), Located(d)] + q + tail;
      assert forall i :: 2 <= i < |rest| ==> !rest[i].OnDownloader();
    } else if env.fetchRaises.Some? {
      rest := [Fetched(d)];
    } else {
      rest := [Fetched(d), Located(d)];
    }
  }

  /** `fetch` keeps the memoisation invariant. */
  lemma {:induction false} FetchKeepsMemoised(cask: Cask, intent: Option<bool>, detect: Detector,
                                              memo: Option<Downloader>, t: seq<Event>, verify: bool, env: Collaborators)
    requires Memoised(cask, detect, memo, t)
    ensures var s := FetchSpec(cask, intent, detect, memo, verify, env);
      Memoised(cask, detect, s.memo, t + s.events)
  {
    var s := FetchSpec(cask, intent, detect, memo, verify, env);
    match Resolve(cask, detect, memo)
    case Failure(_) =>
      assert t + s.events == t;
    case Success(d) =>
      var rest := FetchCallsOnlyResolved(cask, intent, detect, memo, verify, env, d);
      ResolvedStepKeepsMemoised(cask, detect, memo, t, d, rest);
      assert t + s.events == t + Creation(memo, d) + rest;
  }

  /** `clear_cache` keeps the memoisation invariant. */
  lemma {:induction false} ClearCacheKeepsMemoised(cask: Cask, detect: Detector, memo: Option<Downloader>, t: seq<Event>)
    requires Memoised(cask, detect, memo, t)
    ensures var s := ClearCacheSpec(cask, detect, memo);
      Memoised(cask, detect, s.memo, t + s.events)
  {
    var s := ClearCacheSpec(cask, detect, memo);
    match Resolve(cask, detect, memo)
    case Failure(_) =>
      assert t + s.events == t;
    case Success(d) =>
      ResolvedStepKeepsMemoised(cask, detect, memo, t, d, [Cleared(d)]);
      assert t + s.events == t + Creation(memo, d) + [Cleared(d)];
  }

  /** `cached_download` keeps the memoisation invariant. */
  lemma {:induction false} CachedDownloadKeepsMemoised(cask: Cask, detect: Detector, memo: Option<Downloader>,
                                                       t: seq<Event>, location: Result<Path, string>)
    requires Memoised(cask, detect, memo, t)
    ensures var s := CachedDownloadSpec(cask, detect, memo, location);
      Memoised(cask, detect, s.memo, t + s.events)
  {
    var s := CachedDownloadSpec(cask, detect, memo, location);
    match Resolve(cask, detect, memo)
    case Failure(_) =>
      assert t + s.events == t;
    case Success(d) =>
      ResolvedStepKeepsMemoised(cask, detect, memo, t, d, [Located(d)]);
      assert t + s.events == t + Creation(memo, d) + [Located(d)];
  }

  /** Every call keeps the memoisation invariant. */
  lemma PerformKeepsMemoised(cask: Cask, intent: Option<bool>, detect: Detector,
                             memo: Option<Downloader>, t: seq<Event>, call: Call)
    requires Memoised(cask, detect, memo, t)
    ensures var p := Perform(cask, intent, detect, memo, call);
      Memoised(cask, detect, p.0, t + p.1)
  {
    match call
    case FetchCall(verify, env) => FetchKeepsMemoised(cask, intent, detect, memo, t, verify, env);
    case ClearCacheCall => ClearCacheKeepsMemoised(cask, detect, memo, t);
    case CachedDownloadCall(location) => CachedDownloadKeepsMemoised(cask, detect, memo, t, location);
  }

  /** The trace of a non-empty session, appended to `t`, is the trace of its first call
      appended to `t`, followed by the trace of the remaining calls. */
  lemma SessionCons(cask: Cask, intent: Option<bool>, detect: Detector, memo: Option<Downloader>,
                    t: seq<Event>, calls: seq<Call>)
    requires calls != []
    ensures var first := Perform(cask, intent, detect, memo, calls[0]);
      var rest := Session(cask, intent, detect, first.0, calls[1..]);
      Session(cask, intent, detect, memo, calls) == (rest.0, first.1 + rest.1) &&
      t + first.1 + rest.1 == t + Session(cask, intent, detect, memo, calls).1
  {
    var first := Perform(cask, intent, detect, memo, calls[0]);
    var rest := Session(cask, intent, detect, first.0, calls[1..]);
    assert t + first.1 + rest.1 == t + (first.1 + rest.1);
  }

  /** The invariant holds after any sequence of calls. */
  lemma {:induction false} SessionKeepsMemoised(cask: Cask, intent: Option<bool>, detect: Detector,
                                                memo: Option<Downloader>, t: seq<Event>, calls: seq<Call>)
    requires Memoised(cask, detect, memo, t)
    ensures var s := Session(cask, intent, detect, memo, calls);
      Memoised(cask, detect, s.0, t + s.1)
    decreases |calls|
  {
    if calls != [] {
      var first := Perform(cask, intent, detect, memo, calls[0]);
      var rest := Session(cask, intent, detect, first.0, calls[1..]);
      PerformKeepsMemoised(cask, intent, detect, memo, t, calls[0]);
      SessionKeepsMemoised(cask, intent, detect, first.0, t + first.1, calls[1..]);
      SessionCons(cask, intent, detect, memo, t, calls);
    } else {
      assert t + [] == t;
    }
  }

  /** The trace calls a single downloader, built from the strategy detected for the cask's
      URL: built exactly once if it is used at all, and before any call on it. */
  ghost predicate OneDownloader(cask: Cask, detect: Detector, t: seq<Event>)
  {
    CountCreated(t) <= 1 &&
    ((exists i :: 0 <= i < |t| && t[i].OnDownloader()) ==> CountCreated(t) == 1) &&
    (forall i, j :: 0 <= i < |t| && 0 <= j < |t| && t[i].OnDownloader() && t[j].OnDownloader() ==>
      t[i].dl == t[j].dl && (t[i].Created? ==> i <= j)) &&
    forall i :: 0 <= i < |t| && t[i].OnDownloader() ==>
      detect(cask.url.location, cask.url.using) == Success(t[i].dl.strategy) &&
      t[i].dl == Instantiate(t[i].dl.strategy, cask)
  }

  /** A trace that keeps the memoisation invariant calls a single downloader. */
  lemma MemoisedTrace(cask: Cask, detect: Detector, memo: Option<Downloader>, t: seq<Event>)
    requires Memoised(cask, detect, memo, t)
    ensures OneDownloader(cask, detect, t)
  {
    if memo.None? {
      CountCreatedNone(t);
    }
  }

  /** Whatever calls are made on a fresh download, at most one downloader is ever built, it
      is built before any call on it (on first use), and every fetch, cache clearing and
      location lookup goes to that one downloader, built from the strategy detected for the
      cask's URL. */
  lemma DownloaderBuiltOnce(cask: Cask, intent: Option<bool>, detect: Detector, calls: seq<Call>)
    ensures OneDownloader(cask, detect, Session(cask, intent, detect, None, calls).1)
  {
    SessionKeepsMemoised(cask, intent, detect, None, [], calls);
    var s := Session(cask, intent, detect, None, calls);
    assert [] + s.1 == s.1;
    MemoisedTrace(cask, detect, s.0, s.1);
  }
}
