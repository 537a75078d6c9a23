# Cask download pipeline, modelled in Dafny

This project models `Cask::Download`, the object Homebrew Cask uses to obtain a cask's
artifact. A download holds the cask, the quarantine intent (`nil`, `true` or `false`)
and a lazily built downloader (the strategy instance chosen from the cask's URL and
`using:` hint). Its `fetch` runs three steps in a fixed order:

1. transfer: the downloader is obtained, fetches, then reports its cached location; an
   error raised here and rescued (a `StandardError`) becomes one `CaskError` naming the
   cask and carrying the original message;
2. quarantine: mark the file (intent `true`) or release it (intent `false`), only when an
   intent was given and quarantine is available;
3. verification, when asked for: a `:no_check` cask only warns; any other has its
   checksum checked, and a missing or mismatching checksum becomes a cask-level error
   carrying the token, the declared checksum and the file's actual digest.

`clear_cache` and `cached_download` act on the same memoised downloader.

Files:

- `wrappers.dfy`: `Option` and `Result`.
- `download.dfy`, module `CaskDownload`: the data model (cask, checksum declaration,
  downloader, collaborator outcomes, errors, effect events). It also holds the
  specification functions of each operation. Each returns the new memoised downloader,
  the events the call causes and its result. The `Download` class keeps the memoised
  downloader in a field and the effects in a ghost `trace`. Each method is proved against
  its specification function and keeps the invariant `Memoised`.
- `properties.dfy`, module `DownloadProperties`: step order, error wrapping, the outcomes
  of verification, and memoisation over any sequence of calls on one download.

Collaborators are inputs. Strategy detection (and construction) is a total function
value `Detector` from the URL and the `using:` hint, so it is deterministic. The outcomes
of `downloader.fetch`, `downloader.cached_location`, the quarantine availability probe,
the checksum check and the file's digest form a `Collaborators` record.

Points of the source worth noting:

- `fetch` wraps a strategy-detection error like a transfer error, because the
  `downloader` call sits inside the rescued block (download.rb:23-30). `clear_cache` and
  `cached_download` let the same error through unchanged (`Raised`).
- A checksum that is absent (`nil`) is handed to the checksum check like a declared one
  and is never skipped; only `:no_check` skips verification, with a warning.
- The defaults of the source are kept: `Download.constructor` takes the intent as
  `quarantine := None`, and `Download.Fetch` verifies unless told otherwise
  (`verify := true`).

## Model

| member | source | states |
|---|---|---|
| CaskDownload.Resolve | Library/Homebrew/cask/download.rb:36-41 | a memoised downloader is reused as is; otherwise the downloader is the one built from the strategy detected for the cask's URL and `using:` hint, and a detection error is returned as such |
| CaskDownload.QuarantineEffect | Library/Homebrew/cask/download.rb:73-82 | no quarantine call iff the intent is nil or quarantine is unavailable; exactly one call otherwise: mark the cask's file for intent true, release it for intent false |
| CaskDownload.VerifyIntegrity | Library/Homebrew/cask/download.rb:51-69 | `:no_check` gives only a warning and never an error; otherwise exactly one checksum check, no error iff it passes, a missing checksum becomes Sha256Missing(token, expected, actual) and a mismatch Sha256Mismatch(token, expected, actual, path) |
| CaskDownload.TransferSpec | Library/Homebrew/cask/download.rb:23-30 | the transfer succeeds iff the downloader is obtained, fetch does not raise and the cached location is known, and then yields that location; each failure becomes DownloadFailed(token, original message) and stops the calls that would follow it |
| CaskDownload.FetchSpec | Library/Homebrew/cask/download.rb:22-34 | fetch succeeds iff the transfer succeeds and verification is off, skipped for `:no_check`, or passes; it then returns the cached location; a failed transfer is the whole outcome of fetch; a memoised downloader is kept (its exact events after a successful transfer are stated by FetchEvents, their order by TransferBeforeQuarantine and QuarantineBeforeVerification) |
| CaskDownload.ClearCacheSpec | Library/Homebrew/cask/download.rb:43-45 | clear_cache succeeds iff the downloader is obtained; it then memoises that downloader and its only effects are building it (if new) and clearing its cache; otherwise the detection error passes through unchanged, nothing happens and nothing is memoised |
| CaskDownload.CachedDownloadSpec | Library/Homebrew/cask/download.rb:47-49 | cached_download returns the downloader's cached location when both exist; a detection error passes through unchanged with no effect; otherwise the downloader is memoised, its only effects are building it (if new) and asking it for its location, and a location error passes through unchanged |
| CaskDownload.ResolvedStepKeepsMemoised | Library/Homebrew/cask/download.rb:36-41 | building the downloader on first use and then calling only it keeps the invariant: one construction, all calls on the one downloader |
| CaskDownload.Download.constructor | Library/Homebrew/cask/download.rb:17-20 | a new download holds the cask and the quarantine intent (nil by default), no downloader and an empty trace |
| CaskDownload.Download.GetDownloader | Library/Homebrew/cask/download.rb:36-41 | the memoised field is set on first successful use and reused afterwards; construction is recorded once |
| CaskDownload.Download.Transfer | Library/Homebrew/cask/download.rb:23-30 | the rescued block of fetch, proved against TransferSpec: same result, same memo, trace extended by exactly its events |
| CaskDownload.Download.Fetch | Library/Homebrew/cask/download.rb:22-34 | fetch (verifying by default), proved against FetchSpec: same result, same memo, trace extended by exactly its events, invariant kept |
| CaskDownload.Download.ClearCache | Library/Homebrew/cask/download.rb:43-45 | clear_cache, proved against ClearCacheSpec |
| CaskDownload.Download.CachedDownload | Library/Homebrew/cask/download.rb:47-49 | cached_download, proved against CachedDownloadSpec |
| CaskDownload.Download.VerifyDownloadIntegrity | Library/Homebrew/cask/download.rb:51-69 | verify_download_integrity, proved against VerifyIntegrity: same raised error, trace extended by its events only |
| CaskDownload.Download.Quarantine | Library/Homebrew/cask/download.rb:73-82 | the private quarantine step, proved against QuarantineEffect |
| DownloadProperties.TransferFailureStopsFetch | Library/Homebrew/cask/download.rb:23-30 | after a transfer failure fetch raises DownloadFailed naming the cask, and only downloader events happen: no quarantine call, no verification, no cache clearing |
| DownloadProperties.FetchEvents | Library/Homebrew/cask/download.rb:22-34 | after a successful transfer, fetch's events are exactly the transfer's, then exactly the quarantine call the intent and platform dictate, then the verification events when verification is asked for |
| DownloadProperties.TransferBeforeQuarantine | Library/Homebrew/cask/download.rb:23-32 | after a successful transfer every downloader event (construction, fetch, location) precedes every quarantine and every verification event |
| DownloadProperties.QuarantineBeforeVerification | Library/Homebrew/cask/download.rb:31-32 | after a successful transfer every quarantine event precedes every verification event, verification happens iff it was requested, the cache is not cleared, and a fetch that fails verification has already had its quarantine call |
| DownloadProperties.NoCheckAlwaysSucceeds | Library/Homebrew/cask/download.rb:52-55 | a `:no_check` cask whose transfer succeeds is returned whatever the file holds, with a warning as last effect and no checksum check |
| DownloadProperties.ChecksumOutcome | Library/Homebrew/cask/download.rb:59-68 | with a checksum declared or absent, a verified fetch ends with the check; it returns the file when the check passes and otherwise raises the missing or mismatch error with token, expected checksum and actual digest |
| DownloadProperties.FetchKeepsMemoised | Library/Homebrew/cask/download.rb:22-41 | fetch keeps the memoisation invariant |
| DownloadProperties.FetchCallsOnlyResolved | Library/Homebrew/cask/download.rb:22-41 | after building its downloader (if new), fetch builds nothing more and calls only that downloader |
| DownloadProperties.ClearCacheKeepsMemoised | Library/Homebrew/cask/download.rb:43-45 | clear_cache keeps the memoisation invariant |
| DownloadProperties.CachedDownloadKeepsMemoised | Library/Homebrew/cask/download.rb:47-49 | cached_download keeps the memoisation invariant |
| DownloadProperties.PerformKeepsMemoised | Library/Homebrew/cask/download.rb:22-49 | any one public call keeps the memoisation invariant |
| DownloadProperties.SessionKeepsMemoised | Library/Homebrew/cask/download.rb:36-49 | the invariant holds after any sequence of calls |
| DownloadProperties.MemoisedTrace | Library/Homebrew/cask/download.rb:36-41 | a trace that keeps the memoisation invariant has at most one construction, exactly one when the downloader is called at all, placed before every call, and all its calls go to the one downloader detected for the cask's URL |
| DownloadProperties.DownloaderBuiltOnce | Library/Homebrew/cask/download.rb:36-49 | on any sequence of fetch, clear_cache and cached_download calls on one download, at most one downloader is built, exactly one if any call reaches the downloader, on first use (before any call on it), and every call goes to that one, the one detected for the cask's URL |

## Left out

- Strategy detection and the transfers themselves (network I/O): detection is the `Detector` function value, and transfer outcomes are inputs.
- The SHA-256 computation and the checksum comparison, which live in a file-path extension that is not part of this model. The check's outcome and the digest are inputs; the model does not relate them to each other.
- The quarantine facility's attribute handling and its availability probe (platform calls): recorded as events and an input.
- An error raised by the quarantine calls or by the downloader's cache clearing, which would propagate unchanged: not modelled; those calls always succeed here.
- TransferSpec, Download.Transfer: `rescue => e` catches only `StandardError`. An exception outside it, such as an `Interrupt`, raised by detection, `downloader.fetch` or `cached_location` escapes unwrapped. The model has no such outcome: every transfer error is a rescued one.
- VerifyIntegrity, Download.VerifyDownloadIntegrity: the file's digest (`fn.sha256`) is computed before the check, and an error it raises escapes unchanged. The same holds for an error of the checksum check other than the missing and mismatch errors. The model's digest and `ChecksumResult` cannot raise, so neither path is modelled.
- Log text and verbosity: the skip warning is a `Warn` event; the verbose progress message is not modelled.
- Backtrace copying onto the wrapped error and the global cache path passed to the strategy: runtime detail. The wrapped error keeps the cask token and the original message, not the formatted text.
- Cache behaviour between calls: each call's cached location is an input. So "clearing the cache, then asking for its location, finds nothing" is not modelled.
- Concurrent downloads of the same cask contending on one cache location: a concern of the cache layer.
