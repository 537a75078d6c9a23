/** The download-quarantine-verify pipeline of a cask (Cask::Download).

    The work itself is done by collaborators this module does not see: the download
    strategy (transfer, cache location, cache clearing), the quarantine facility and the
    checksum check of the downloaded file. Their outcomes are inputs here; what this module
    decides is the order of the steps, which of them run, and how their errors are turned
    into cask-level errors. Every effect is recorded in a trace of events. */
module CaskDownload {
  import opened Wrappers

  type Path = string

  /** The checksum a cask declares: the `:no_check` sentinel, none at all (`nil`), or a
      hexadecimal SHA-256 digest. */
  datatype Sha256 = NoCheck | Unset | Declared(hex: string)

  /** The cask's `url` stanza: the locator, the optional `using:` strategy hint and the
      strategy-specific options. */
  datatype Url = Url(location: string, using: Option<string>, specs: map<string, string>)

  /** The fields of a cask that a download reads. */
  datatype Cask = Cask(token: string, version: string, url: Url, sha256: Sha256)

  /** A download strategy instance: the strategy the detector chose and the arguments it
      was built with. */
  datatype Downloader = Downloader(
    strategy: string, url: string, token: string, version: string, specs: map<string, string>)

  /** Strategy detection from the locator and the `using:` hint. Detection is deterministic,
      so it is a total function; a `Failure` is the error detection or construction raises. */
  type Detector = (string, Option<string>) -> Result<string, string>

  /** What the checksum check of a file reports against an expected digest. */
  datatype ChecksumResult = ChecksumOk | ChecksumMissing | ChecksumMismatch

  /** The outcomes of the collaborators during one `fetch`:
      - fetchRaises: the message `downloader.fetch` raised, if it did;
      - location: the path `downloader.cached_location` returns, or the message it raised;
      - quarantineAvailable: what the quarantine availability probe answers;
      - check: what the checksum check of the cached file reports;
      - actual: the SHA-256 digest of the cached file. */
  datatype Collaborators = Collaborators(
    fetchRaises: Option<string>,
    location: Result<Path, string>,
    quarantineAvailable: bool,
    check: ChecksumResult,
    actual: string)

  /** Errors leaving a download. `Raised` is a collaborator's error that passes through
      unchanged; the others are the cask-level errors this module raises itself. */
  datatype Error =
    | Raised(message: string)
    | DownloadFailed(token: string, cause: string)
    | Sha256Missing(token: string, expected: Sha256, actual: string)
    | Sha256Mismatch(token: string, expected: Sha256, actual: string, path: Path)

  /** The effects a download has on its collaborators, in the order it has them. */
  datatype Event =
    | Created(dl: Downloader)
    | Fetched(dl: Downloader)
    | Located(dl: Downloader)
    | Cleared(dl: Downloader)
    | QuarantineMark(cask: Cask, path: Path)
    | QuarantineRelease(path: Path)
    | Warn(token: string)
    | Checked(path: Path, expected: Sha256)
  {
    /** The event is the construction of, or a call on, a downloader. */
    predicate OnDownloader() { Created? || Fetched? || Located? || Cleared? }

    /** The event is a call into the quarantine facility. */
    predicate OnQuarantine() { QuarantineMark? || QuarantineRelease? }

    /** The event belongs to integrity verification: the skip warning or the check. */
    predicate OnVerification() { Warn? || Checked? }
  }

  /** The memoised downloader, the events and the result of one call on a download. */
  datatype Step<T> = Step(memo: Option<Downloader>, events: seq<Event>, result: Result<T, Error>)

  /** The outcome of integrity verification: the events it had and the error it raised. */
  datatype Verification = Verification(events: seq<Event>, raised: Option<Error>)

  /** The downloader built for `cask` by the strategy `strategy`. */
  function Instantiate(strategy: string, cask: Cask): Downloader
  {
    Downloader(strategy, cask.url.location, cask.token, cask.version, cask.url.specs)
  }

  /** The downloader a call uses: the memoised one if there is one, otherwise a new one
      from the detected strategy. */
  function Resolve(cask: Cask, detect: Detector, memo: Option<Downloader>): (r: Result<Downloader, string>)
    ensures memo.Some? ==> r == Success(memo.value)
    ensures memo.None? && r.Success? ==>
      detect(cask.url.location, cask.url.using) == Success(r.value.strategy) &&
      r.value == Instantiate(r.value.strategy, cask)
    ensures memo.None? && r.Failure? ==> detect(cask.url.location, cask.url.using) == Failure(r.error)
  {
    if memo.Some? then Success(memo.value)
    else
      match detect(cask.url.location, cask.url.using)
      case Success(s) => Success(Instantiate(s, cask))
      case Failure(m) => Failure(m)
  }

  /** The construction event of `d`, when it is new. */
  function Creation(memo: Option<Downloader>, d: Downloader): seq<Event>
  {
    if memo.None? then [Created(d)] else []
  }

  /** The memo after resolving: the resolved downloader, or no change on failure. */
  function NextMemo(memo: Option<Downloader>, r: Result<Downloader, string>): Option<Downloader>
  {
    if r.Success? then Some(r.value) else memo
  }

  /** The quarantine step: nothing when no intent was given or quarantine is unavailable;
      otherwise exactly one call, marking the file for intent true and releasing it for
      intent false. */
  function QuarantineEffect(intent: Option<bool>, available: bool, cask: Cask, path: Path): (e: seq<Event>)
    ensures |e| <= 1
    ensures e == [] <==> intent.None? || !available
    ensures e == [QuarantineMark(cask, path)] <==> intent == Some(true) && available
    ensures e == [QuarantineRelease(path)] <==> intent == Some(false) && available
    ensures forall i :: 0 <= i < |e| ==> e[i].OnQuarantine()
  {
    if intent.None? then []
    else if !available then []
    else if intent.value then [QuarantineMark(cask, path)]
    else [QuarantineRelease(path)]
  }

  /** Integrity verification of `path`: a `:no_check` cask only warns and never fails,
      whatever the file holds; any other cask has its checksum checked, and a missing or
      mismatching checksum becomes the cask-level error carrying the token, the declared
      checksum and the file's actual digest. */
  function VerifyIntegrity(cask: Cask, path: Path, check: ChecksumResult, actual: string): (v: Verification)
    ensures cask.sha256 == NoCheck ==> v == Verification([Warn(cask.token)], None)
    ensures cask.sha256 != NoCheck ==> v.events == [Checked(path, cask.sha256)]
    ensures v.raised.None? <==> cask.sha256 == NoCheck || check == ChecksumOk
    ensures cask.sha256 != NoCheck && check == ChecksumMissing ==>
      v.raised == Some(Sha256Missing(cask.token, cask.sha256, actual))
    ensures cask.sha256 != NoCheck && check == ChecksumMismatch ==>
      v.raised == Some(Sha256Mismatch(cask.token, cask.sha256, actual, path))
  {
    if cask.sha256 == NoCheck then Verification([Warn(cask.token)], None)
    else
      var events := [Checked(path, cask.sha256)];
      match check
      case ChecksumOk => Verification(events, None)
      case ChecksumMissing => Verification(events, Some(Sha256Missing(cask.token, cask.sha256, actual)))
      case ChecksumMismatch => Verification(events, Some(Sha256Mismatch(cask.token, cask.sha256, actual, path)))
  }

  /** The transfer block of `fetch`: obtain the downloader, fetch, then ask for the cached
      location. Whichever of the three raises a `StandardError`, it is rescued and becomes
      one `DownloadFailed` naming the cask and carrying the original message, and nothing
      further is called. Errors outside `StandardError` are not modelled. */
  function TransferSpec(cask: Cask, detect: Detector, memo: Option<Downloader>, env: Collaborators): (s: Step<Path>)
    ensures s.result.Success? <==>
      Resolve(cask, detect, memo).Success? && env.fetchRaises.None? && env.location.Success?
    ensures s.result.Success? ==> s.result.value == env.location.value
    ensures Resolve(cask, detect, memo).Failure? ==>
      s == Step(memo, [], Failure(DownloadFailed(cask.token, Resolve(cask, detect, memo).error)))
    ensures Resolve(cask, detect, memo).Success? ==>
      var d := Resolve(cask, detect, memo).value;
      s.memo == Some(d) &&
      (env.fetchRaises.Some? ==>
        s.events == Creation(memo, d) + [Fetched(d)] &&
        s.result == Failure(DownloadFailed(cask.token, env.fetchRaises.value))) &&
      (env.fetchRaises.None? ==> s.events == Creation(memo, d) + [Fetched(d), Located(d)]) &&
      (env.fetchRaises.None? && env.location.Failure? ==>
        s.result == Failure(DownloadFailed(cask.token, env.location.error)))
  {
    match Resolve(cask, detect, memo)
    case Failure(m) => Step(memo, [], Failure(DownloadFailed(cask.token, m)))
    case Success(d) =>
      var created := Creation(memo, d);
      if env.fetchRaises.Some? then
        Step(Some(d), created + [Fetched(d)], Failure(DownloadFailed(cask.token, env.fetchRaises.value)))
      else if env.location.Failure? then
        Step(Some(d), created + [Fetched(d), Located(d)], Failure(DownloadFailed(cask.token, env.location.error)))
      else
        Step(Some(d), created + [Fetched(d), Located(d)], Success(env.location.value))
  }

  /** `fetch(verify_download_integrity: verify)` on a download whose memoised downloader is
      `memo`: the transfer, then the quarantine step, then (when asked) verification. A
      failed transfer ends the call; a file that fails verification has already been through
      the quarantine step. */
  function FetchSpec(cask: Cask, intent: Option<bool>, detect: Detector, memo: Option<Downloader>,
                     verify: bool, env: Collaborators): (s: Step<Path>)
    ensures s.result.Success? <==>
      Resolve(cask, detect, memo).Success? && env.fetchRaises.None? && env.location.Success? &&
      (!verify || cask.sha256 == NoCheck || env.check == ChecksumOk)
    ensures s.result.Success? ==> s.result.value == env.location.value
    ensures TransferSpec(cask, detect, memo, env).result.Failure? ==> s == TransferSpec(cask, detect, memo, env)
    ensures memo.Some? ==> s.memo == memo
  {
    var t := TransferSpec(cask, detect, memo, env);
    if t.result.Failure? then t
    else
      var path := t.result.value;
      var marked := t.events + QuarantineEffect(intent, env.quarantineAvailable, cask, path);
      if !verify then Step(t.memo, marked, t.result)
      else
        var v := VerifyIntegrity(cask, path, env.check, env.actual);
        Step(t.memo, marked + v.events, if v.raised.Some? then Failure(v.raised.value) else t.result)
  }

  /** `clear_cache`: obtain the downloader and clear its cache. */
  function ClearCacheSpec(cask: Cask, detect: Detector, memo: Option<Downloader>): (s: Step<()>)
    ensures s.result.Success? <==> Resolve(cask, detect, memo).Success?
    ensures Resolve(cask, detect, memo).Failure? ==>
      s == Step(memo, [], Failure(Raised(Resolve(cask, detect, memo).error)))
    ensures Resolve(cask, detect, memo).Success? ==>
      var d := Resolve(cask, detect, memo).value;
      s.memo == Some(d) && s.events == Creation(memo, d) + [Cleared(d)]
  {
    var r := Resolve(cask, detect, memo);
    match r
    case Failure(m) => Step(memo, [], Failure(Raised(m)))
    case Success(d) => Step(Some(d), Creation(memo, d) + [Cleared(d)], Success(()))
  }

  /** `cached_download`: obtain the downloader and ask it for its cached location; errors
      pass through unchanged. */
  function CachedDownloadSpec(cask: Cask, detect: Detector, memo: Option<Downloader>,
                              location: Result<Path, string>): (s: Step<Path>)
    ensures s.result.Success? <==> Resolve(cask, detect, memo).Success? && location.Success?
    ensures s.result.Success? ==> s.result.value == location.value
    ensures Resolve(cask, detect, memo).Failure? ==>
      s == Step(memo, [], Failure(Raised(Resolve(cask, detect, memo).error)))
    ensures Resolve(cask, detect, memo).Success? ==>
      var d := Resolve(cask, detect, memo).value;
      s.memo == Some(d) && s.events == Creation(memo, d) + [Located(d)] &&
      (location.Failure? ==> s.result == Failure(Raised(location.error)))
  {
    var r := Resolve(cask, detect, memo);
    match r
    case Failure(m) => Step(memo, [], Failure(Raised(m)))
    case Success(d) =>
      var result := if location.Success? then Success(location.value) else Failure(Raised(location.error));
      Step(Some(d), Creation(memo, d) + [Located(d)], result)
  }

  /** The number of downloader constructions in a trace. */
  function CountCreated(t: seq<Event>): nat
  {
    if t == [] then 0 else (if t[0].Created? then 1 else 0) + CountCreated(t[1..])
  }

  lemma {:induction false} CountCreatedAppend(a: seq<Event>, b: seq<Event>)
    ensures CountCreated(a + b) == CountCreated(a) + CountCreated(b)
  {
    if a == [] {
      assert a + b == b;
    } else {
      assert (a + b)[1..] == a[1..] + b;
      CountCreatedAppend(a[1..], b);
    }
  }

  lemma {:induction false} CountCreatedNone(t: seq<Event>)
    requires forall i :: 0 <= i < |t| ==> !t[i].Created?
    ensures CountCreated(t) == 0
  {
    if t != [] {
      assert forall i :: 0 <= i < |t[1..]| ==> t[1..][i] == t[i + 1];
      CountCreatedNone(t[1..]);
    }
  }

  /** The memoisation invariant of a download over its trace: with no downloader yet, no
      downloader was ever built or called; once there is one, it was built exactly once,
      before any call on it, it is the one the detector selects for the cask, and every
      downloader event is about it. */
  ghost predicate Memoised(cask: Cask, detect: Detector, memo: Option<Downloader>, t: seq<Event>)
  {
    match memo
    case None => forall i :: 0 <= i < |t| ==> !t[i].OnDownloader()
    case Some(d) =>
      detect(cask.url.location, cask.url.using) == Success(d.strategy) &&
      d == Instantiate(d.strategy, cask) &&
      CountCreated(t) == 1 &&
      (forall i :: 0 <= i < |t| && t[i].OnDownloader() ==> t[i].dl == d) &&
      forall i, j :: 0 <= i < |t| && 0 <= j < |t| && t[i].Created? && t[j].OnDownloader() ==> i <= j
  }

  /** Appending the events of one call, built on the resolved downloader, keeps the
      memoisation invariant. */
  lemma {:induction false} ResolvedStepKeepsMemoised(cask: Cask, detect: Detector, memo: Option<Downloader>,
                                                     t: seq<Event>, d: Downloader, rest: seq<Event>)
    requires Memoised(cask, detect, memo, t)
    requires Resolve(cask, detect, memo) == Success(d)
    requires forall i :: 0 <= i < |rest| ==> !rest[i].Created? && (rest[i].OnDownloader() ==> rest[i].dl == d)
    ensures Memoised(cask, detect, Some(d), t + Creation(memo, d) + rest)
  {
    var t' := t + Creation(memo, d) + rest;
    CountCreatedNone(rest);
    CountCreatedAppend(t + Creation(memo, d), rest);
    CountCreatedAppend(t, Creation(memo, d));
    if memo.None? {
      CountCreatedNone(t);
      assert CountCreated([Created(d)]) == 1;
    }
    forall i | 0 <= i < |t'| && t'[i].OnDownloader()
      ensures t'[i].dl == d
    {
      if i < |t| {
        assert t'[i] == t[i];
      } else if i < |t| + |Creation(memo, d)| {
        assert t'[i] == Created(d);
      } else {
        assert t'[i] == rest[i - |t| - |Creation(memo, d)|];
      }
    }
    var k := |t| + |Creation(memo, d)|;
    assert forall i :: 0 <= i < |t| ==> t'[i] == t[i];
    assert forall i :: k <= i < |t'| ==> t'[i] == rest[i - k];
    assert memo.None? ==> t'[|t|] == Created(d);
  }

  /** Appending events that build nothing, and call only the memoised downloader, keeps the
      memoisation invariant. */
  lemma {:induction false} KeepMemoised(cask: Cask, detect: Detector, memo: Option<Downloader>,
                                        t: seq<Event>, rest: seq<Event>)
    requires Memoised(cask, detect, memo, t)
    requires forall i :: 0 <= i < |rest| ==> !rest[i].Created?
    requires forall i :: 0 <= i < |rest| && rest[i].OnDownloader() ==> memo == Some(rest[i].dl)
    ensures Memoised(cask, detect, memo, t + rest)
  {
    CountCreatedNone(rest);
    CountCreatedAppend(t, rest);
    var t' := t + rest;
    assert forall i :: |t| <= i < |t'| ==> t'[i] == rest[i - |t|];
    assert forall i :: 0 <= i < |t| ==> t'[i] == t[i];
  }

  /** A download. `downloader` is the lazily built strategy instance and `trace` records
      every effect the download has had. */
  class Download {
    const cask: Cask
    const quarantine: Option<bool>
    const detect: Detector
    var downloader: Option<Downloader>
    ghost var trace: seq<Event>

    ghost predicate Valid()
      reads this
    {
      Memoised(cask, detect, downloader, trace)
    }

    constructor (cask: Cask, detect: Detector, quarantine: Option<bool> := None)
      ensures Valid()
      ensures this.cask == cask && this.quarantine == quarantine && this.detect == detect
      ensures downloader == None && trace == []
    {
      this.cask := cask;
      this.quarantine := quarantine;
      this.detect := detect;
      downloader := None;
      trace := [];
    }

    /** `downloader`: the memoised strategy instance, built on first use. A failed
        detection leaves nothing memoised. */
    method GetDownloader() returns (r: Result<Downloader, string>)
      requires Valid()
      modifies this
      ensures Valid()
      ensures r == Resolve(cask, detect, old(downloader))
      ensures downloader == NextMemo(old(downloader), r)
      ensures trace == old(trace) + (if r.Success? then Creation(old(downloader), r.value) else [])
    {
      if downloader.Some? {
        return Success(downloader.value);
      }
      var strategy := detect(cask.url.location, cask.url.using);
      if strategy.Failure? {
        return Failure(strategy.error);
      }
      var d := Instantiate(strategy.value, cask);
      ResolvedStepKeepsMemoised(cask, detect, downloader, trace, d, []);
      assert trace + [Created(d)] + [] == trace + [Created(d)];
      downloader := Some(d);
      trace := trace + [Created(d)];
      return Success(d);
    }

    /** The transfer block of `fetch` (the part whose errors are rescued and wrapped). */
    method Transfer(env: Collaborators) returns (r: Result<Path, Error>)
      requires Valid()
      modifies this
      ensures Valid()
      ensures var s := TransferSpec(cask, detect, old(downloader), env);
        r == s.result && downloader == s.memo && trace == old(trace) + s.events
    {
      var resolved := GetDownloader();
      if resolved.Failure? {
        return Failure(DownloadFailed(cask.token, resolved.error));
      }
      var d := resolved.value;
      ghost var start := trace;
      trace := trace + [Fetched(d)];
      if env.fetchRaises.Some? {
        KeepMemoised(cask, detect, downloader, start, [Fetched(d)]);
        return Failure(DownloadFailed(cask.token, env.fetchRaises.value));
      }
      trace := trace + [Located(d)];
      assert trace == start + [Fetched(d), Located(d)];
      KeepMemoised(cask, detect, downloader, start, [Fetched(d), Located(d)]);
      if env.location.Failure? {
        return Failure(DownloadFailed(cask.token, env.location.error));
      }
      return Success(env.location.value);
    }

    /** `fetch`: transfer, then quarantine, then verification when `verify` holds. */
    method Fetch(env: Collaborators, verify: bool := true) returns (r: Result<Path, Error>)
      requires Valid()
      modifies this
      ensures Valid()
      ensures var s := FetchSpec(cask, quarantine, detect, old(downloader), verify, env);
        r == s.result && downloader == s.memo && trace == old(trace) + s.events
    {
      r := Transfer(env);
      if r.Failure? {
        return;
      }
      var path := r.value;
      ghost var transferred := trace;
      Quarantine(path, env.quarantineAvailable);
      if verify {
        var raised := VerifyDownloadIntegrity(path, env.check, env.actual);
        assert trace == transferred + QuarantineEffect(quarantine, env.quarantineAvailable, cask, path)
          + VerifyIntegrity(cask, path, env.check, env.actual).events;
        if raised.Some? {
          return Failure(raised.value);
        }
      }
    }

    /** `clear_cache`: clear the memoised downloader's cache. */
    method ClearCache() returns (r: Result<(), Error>)
      requires Valid()
      modifies this
      ensures Valid()
      ensures var s := ClearCacheSpec(cask, detect, old(downloader));
        r == s.result && downloader == s.memo && trace == old(trace) + s.events
    {
      var resolved := GetDownloader();
      if resolved.Failure? {
        return Failure(Raised(resolved.error));
      }
      var d := resolved.value;
      KeepMemoised(cask, detect, downloader, trace, [Cleared(d)]);
      trace := trace + [Cleared(d)];
      return Success(());
    }

    /** `cached_download`: the memoised downloader's cached location. */
    method CachedDownload(location: Result<Path, string>) returns (r: Result<Path, Error>)
      requires Valid()
      modifies this
      ensures Valid()
      ensures var s := CachedDownloadSpec(cask, detect, old(downloader), location);
        r == s.result && downloader == s.memo && trace == old(trace) + s.events
    {
      var resolved := GetDownloader();
      if resolved.Failure? {
        return Failure(Raised(resolved.error));
      }
      var d := resolved.value;
      KeepMemoised(cask, detect, downloader, trace, [Located(d)]);
      trace := trace + [Located(d)];
      if location.Failure? {
        return Failure(Raised(location.error));
      }
      return Success(location.value);
    }

    /** `verify_download_integrity`: skip with a warning for a `:no_check` cask, otherwise
        check the file and translate a failed check into a cask-level error. */
    method VerifyDownloadIntegrity(path: Path, check: ChecksumResult, actual: string) returns (raised: Option<Error>)
      requires Valid()
      modifies this`trace
      ensures Valid()
      ensures var v := VerifyIntegrity(cask, path, check, actual);
        raised == v.raised && trace == old(trace) + v.events
    {
      if cask.sha256 == NoCheck {
        KeepMemoised(cask, detect, downloader, trace, [Warn(cask.token)]);
        trace := trace + [Warn(cask.token)];
        return None;
      }
      var expected := cask.sha256;
      KeepMemoised(cask, detect, downloader, trace, [Checked(path, expected)]);
      trace := trace + [Checked(path, expected)];
      match check
      case ChecksumOk => raised := None;
      case ChecksumMissing => raised := Some(Sha256Missing(cask.token, expected, actual));
      case ChecksumMismatch => raised := Some(Sha256Mismatch(cask.token, expected, actual, path));
    }

    /** The private quarantine step on the downloaded `path`. */
    method Quarantine(path: Path, available: bool)
      requires Valid()
      modifies this`trace
      ensures Valid()
      ensures trace == old(trace) + QuarantineEffect(quarantine, available, cask, path)
    {
      if quarantine.None? {
        return;
      }
      if !available {
        return;
      }
      var e := if quarantine.value then QuarantineMark(cask, path) else QuarantineRelease(path);
      KeepMemoised(cask, detect, downloader, trace, [e]);
      trace := trace + [e];
    }
  }
}
