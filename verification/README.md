# Verification of the code provider

This project models the parts of the provider whose correctness is hardest to see from
one function at a time, and proves what the rest of the system relies on.

Three cores:

- **The GitHub request gate** (`RequestState`, `RequestGate`, `GateSafety`, `GateData`,
  `GatePages`, `GateOutcomes`, `GateProgress`, `ResponseCache`). Many goroutines share one state
  for each credential and host: a one-token gate, a user count, a throttle deadline with
  exponential backoff, a bounded cache and single-flight listing refreshes that run without
  holding the gate; states are evicted under pressure. `RequestState` is the class with its
  imperative methods; `RequestGate` is the transition system of all interleavings, with a history
  of what listings were returned; `GateSafety` and `GateData` hold the invariants, `GatePages` and
  `GateOutcomes` say what callers get, and `GateProgress` shows that it never seizes up.
- **The commit protocol** (`GitTree`, `TreeEntries`, `Trailer`, `CommitProtocol`, `CommitSafety`,
  `CommitOnce`, `CommitEffects`, `CommitLifecycle`). `TreeEntries` builds and fills the shared
  entry objects; `CommitProtocol` interleaves attempts and foreign writers, one host call a step
  except that uploads, and the reads of a raced head, are taken together and counted; the last
  module is the controller that drives it.
- **Source bundles and checkouts** (`Strings`, `Paths`, `Base64`, `DigestFraming`,
  `DigestSharing`, `Ordering`, `Sequences`, `Utf8`, `Bundle`, `BundleStore`, `Checkout`).

Four smaller machines: `PackageSync`, `FullListReader`, `LatestRefresh`, and the pagers
`CursorPager` and `TablePages`.

A Go string is a sequence of bytes, so a `string` here holds one byte in each character where
bytes matter. Code that updates fields, slices or maps is modelled by classes and methods with
loops, each proved equal to a specification function or to a stated property; the lemmas are
about those. SHA-256 is taken to be injective, so a digest is modelled by what was hashed. Every
lemma carries `{:induction false}`: its proof is what its body says.

Where the code does less than its comments or callers suggest, the exact condition is proved:

- storing a response that is too large leaves the older one in place, so a hit is the last value
  stored exactly when that one fits (`ResponseCache.LookupNeverLies`);
- the digest of an upsert-only bundle is shared by another one that the store accepts exactly when
  the hashed bytes can be cut into other files within the caps
  (`DigestSharing.SharedExactlyWhenRecut`); for contents without zero bytes that is exactly when
  two neighbours in path order fit the caps as one file, if the total cap has room for one more path
  or no content is itself a stored path (`DigestSharing.SharedExactlyWhenPairFits`), and
  `DigestSharing.ContentTakenForPath` is a request at the total cap where a content is one;
- a search for the key that the host refuses with a 404 or a 409 counts as having found nothing, so a
  commit is made at most once in runs whose searches are answered (`CommitOnce.AtMostOnce`), and
  a refused one goes on whatever is on the branch (`CommitOnce.RefusedSearchGoesOn`);
- a first attempt never commits a tree that its base already has, but an attempt that has lost a race is
  not tested for that again (`CommitEffects.FirstCommitChanges`, `CommitEffects.RetryCommitsAnyway`);
- a commit message that mentions the trailer without carrying the key loses the key, and so does a
  key of more than one line (`Trailer.PrintedKeyIsFound`, at a concrete message
  `Trailer.MentionLosesKey`);
- the path of a stored file is cleaned to itself by the bundle store, and by the committer, exactly
  when it has no white space at its edges (`Paths.StoredPathIsStable`, at a concrete path
  `Paths.EdgeSpaceIsUnstable`);
- a package pass converges exactly when no foreign object holds a name that it needs, and no needed
  object already has the listed fields with a Ready condition that is not true: the new status shares
  that condition with the old one, so once it is set the two compare equal and nothing is written
  (`PackageSync.SyncConverges`, at a concrete object `PackageSync.StuckStaysStuck`). The second cannot
  arise while the controller is the only writer (`PackageSync.SoleWriterConverges`).

## Model

| member | source | states |
|---|---|---|
| RequestState.RequestState.Observe | backend/github/request_cache.go:218-253 | Whether a response throttles, by its fields; the deadline keeps to its reset and Retry-After, is ahead if it throttles, and is the old one or one of the times asked for; the backoff |
| RequestState.DeadlineIsLatestAsked | backend/github/request_cache.go:218-252 | After any responses the deadline is exactly the latest time that one of them asks for: its reset plus a second, its Retry-After seconds or date, or the backoff |
| RequestState.RequestState.Expire | backend/github/request_cache.go:255-262 | Exactly the unexpired responses stay, and the byte count stays the sum of their bodies |
| RequestState.RequestState.Store | backend/github/request_cache.go:264-278 | The new cache contents, within 256 entries and 1 MiB, with an exact byte count |
| RequestState.ExchangeObservesOnce | backend/github/request_cache.go:175-199 | Observing the headers and then the body advances the backoff once |
| RequestState.BackoffCounts | backend/github/request_cache.go:226-245 | The backoff is 1, 2, 4, 8, then 15 minutes by the number of throttled responses since the last success |
| RequestState.ThrottledWaits | backend/github/request_cache.go:218-253 | A throttled response always moves the deadline into the future, by min(2^(k-1), 15) minutes without a usable Retry-After |
| ResponseCache.FastIsBounded | backend/github/request_cache.go:264-278 | Over any run the cache has at most 256 entries and 1 MiB of bodies |
| ResponseCache.FastRefinesSimple | backend/github/request_cache.go:255-278 | Every hit of the bounded cache is a hit of an unbounded map with expiry, with the same value |
| ResponseCache.LookupNeverLies | backend/github/request_cache.go:161-168 | A lookup after expiry returns the last unexpired value stored that fits; it is the last stored at all exactly when that one fits |
| ResponseCache.OversizedStoreLeavesOldValue | backend/github/request_cache.go:264-267 | A concrete run in which a hit is not the last value stored |
| ResponseCache.ForgetsOnlyWhenFull | backend/github/request_cache.go:270-275 | As long as the unbounded map stays within the bounds, nothing is forgotten |
| GateSafety.RunSafe | backend/github/request_cache.go:90-150 | In every reachable state each request state has one gate token, free or held; its user count is the number of admitted goroutines; and every holder, waiter and leader works on the state now in the map |
| GateSafety.OneRequestPerIdentity | backend/github/request_cache.go:152-183 | At most one HTTP request per credential and host is in flight, even across evictions |
| GateSafety.EvictionIsSafe | backend/github/request_cache.go:95-122 | A state leaves the map only without users, flights and a running deadline, and nobody works with it afterwards |
| GateSafety.AdmissionOutcome | backend/github/request_cache.go:90-135 | Admission fails exactly at capacity with nothing evictable found, and then removes nothing; otherwise it reserves the state, evicting at most the least recently used idle one |
| GateSafety.SparedWasBusy | backend/github/request_cache.go:96-117 | The scan spares a state only if it was in use, pinned or throttled when visited |
| GateSafety.StepSafe | backend/github/request_cache.go:90-203 | Every single step keeps the joint invariant and evicts only what is evictable |
| GateData.SingleFlight | backend/github/package_cache.go:57-75 | At most one refresh runs at a time for a listing of an identity |
| GateData.FlightEndsOnce | backend/github/package_cache.go:77-101 | A finished refresh is final, and nothing can join it any more |
| GateData.HitIsRecentRefresh | backend/github/package_cache.go:46-56 | A cached listing is the value of one whole refresh, published less than two minutes before |
| GateData.RefreshOutcome | backend/github/package_cache.go:77-101 | Only a fetch without a failed page is published, its leader returns the outcome, and a failed refresh leaves every snapshot alone |
| GateOutcomes.RefreshIsCached | backend/github/package_cache.go:82-101 | A refresh that ends well is cached for two minutes; one that fails reports the deadline exactly while that is ahead |
| GateOutcomes.ListingDecision | backend/github/package_cache.go:46-75 | A listing is answered from the cache exactly if a live snapshot is there and no fresh one was asked for; else it joins the refresh that runs; else it leads one, unless too many run |
| GatePages.PublishedIsComplete | backend/github/package_cache.go:77-101 | Every page request that a published refresh ever made was answered and is one of its pages |
| GateData.ListingAnswers | backend/github/package_cache.go:46-101 | Every listing returned by a hit, a leader or a joiner is the body of one published refresh of the same identity and listing, with no failed page; every failure returned is that of an abandoned one |
| GateData.WakingReturnsOutcome | backend/github/package_cache.go:57-68 | A joiner wakes only once its refresh is over, and returns the outcome of the refresh it joined |
| GateData.PagesAreFresh | backend/github/package_cache.go:69-80 | The pages of a refresh were requested after it began, and by no other refresh |
| GateData.NoSendBeforeDeadline | backend/github/request_cache.go:169-174 | In every run, a request sent after a moment is not sent before the deadline that any state of its identity had at that moment, even if that state was evicted and replaced in between |
| GateOutcomes.HeadersBind | backend/github/request_cache.go:218-253 | In every run, after the headers of a response no request of its identity is sent before its reset, if its budget is used up, nor before its Retry-After, if it says to slow down |
| GateOutcomes.BodyBinds | backend/github/request_cache.go:184-199 | A 403 whose body mentions a rate limit stops its identity for a minute or more |
| GateOutcomes.AskedTimeBinds | backend/github/request_cache.go:169-174 | Whatever any response seen asks for binds every later request of the identity, across evictions |
| GateData.DeadlineNeverMovesBack | backend/github/request_cache.go:246-252 | The deadline of a state never decreases while the state lives |
| GateData.BackoffCountsResponses | backend/github/request_cache.go:175-199 | However goroutines interleave, the throttle is that of the observed responses, each counted once |
| GateOutcomes.RequestDecision | backend/github/request_cache.go:159-181 | A request is replayed exactly if a live response is cached for it, else refused with the deadline exactly while that is ahead, else sent |
| GateOutcomes.BodyOutcome | backend/github/request_cache.go:184-203 | A response that says to slow down is never handed over; the caller gets the deadline, which is ahead; any other response is handed over |
| GateOutcomes.CachedPageWasRead | backend/github/request_cache.go:184-203 | Every cached page is the whole body of a successful GET read earlier in the run for its key, with that call's time to live |
| GateOutcomes.ReadPageIsCached | backend/github/request_cache.go:184-203 | Every successful GET with a time to live is cached, if its body is within the bound |
| GateOutcomes.ScanRemovesIdle | backend/github/request_cache.go:95-117 | A scan removes a state exactly if it is unused, unpinned, not throttled and idle for an hour |
| GateOutcomes.UseIsNoted | backend/github/request_cache.go:123-150 | A state counts as used when it is reserved and when its user leaves |
| GateData.RunSound | backend/github/package_cache.go:39-101 | In every reachable state cached listings come from published flights, and waiters from flights of their own listing |
| GateProgress.NeverStuck | backend/github/request_cache.go:90-203 | In every reachable state with a goroutine in a call or leading a refresh, some goroutine can take a step that carries work on |
| Trailer.ParserAcceptsPrintedKey | backend/github/backend.go:553-600 | The parser finds in a printed message exactly the key that was printed |
| Trailer.PrintedKeyIsFound | backend/github/backend.go:553-600 | When a printed key can be found again, for all messages and keys |
| Trailer.MentionLosesKey | backend/github/backend.go:589-600 | A concrete message with the trailer text in it, to which no key is added |
| Trailer.KeyedLine | backend/github/backend.go:589-600 | A keyed message holds the trailer text, and the key is one line |
| Trailer.MessageKeepsText | backend/github/backend.go:228-232 | The message starts with the caller's text, and only the key's own line is added |
| Paths.StoredPathIsPlain | commitbundle/store.go:480-499 | A stored path is relative, NUL-free, at most 1024 bytes, and made of plain components |
| Paths.StoredPathIsStable | backend/github/backend.go:1020-1041 | Cleaning a stored path again, on either side, changes it exactly when it has white space at its edges |
| Paths.EdgeSpaceIsUnstable | commitbundle/store.go:480-499 | A concrete path that is stored under a name which is cleaned to another |
| Paths.CleanPartsTidy | commitbundle/store.go:495-498 | Cleaning leaves parent components only at the front, and no empty or dot component |
| Paths.StoredExactlyWhenInside | commitbundle/store.go:480-499 | A path is stored exactly if it is given, short, without NUL, relative, never leads above its start and ends below it |
| Paths.ParentCancelsName | commitbundle/store.go:495 | A name and the parent component after it cancel anywhere |
| Paths.DotsDropOut | commitbundle/store.go:495 | Dots and empty components can be left out anywhere |
| Paths.CommittedExactlyWhenNamed | backend/github/backend.go:1020-1041 | A commit takes a path exactly if it is relative, without parent components and NUL, and names something; the names stay |
| Paths.CleanShrinks | commitbundle/store.go:484-495 | Cleaning never makes a path longer, so the length limit holds for the stored path too |
| Base64.DecodeIsInverse | commitbundle/store.go:104-109 | Strict decoding accepts exactly one string for each byte sequence, its encoding |
| Base64.DecodeEncode | backend/github/checkout.go:155-158 | Decoding what was encoded gives the bytes back |
| Base64.Rfc4648Vectors | commitbundle/store.go:104-109 | The encoding at the test vectors of RFC 4648 |
| Base64.LengthTestIsSafe | commitbundle/store.go:522-525 | The length test before decoding refuses no payload within the cap |
| DigestFraming.BundleDigester.Add | commitbundle/store.go:548-563 | The bytes that one file adds to the running hash |
| DigestFraming.ShortFileFormat | commitbundle/store.go:548-563 | The format of a short file, byte by byte |
| DigestFraming.DeletionFrameInjective | commitbundle/store.go:535-563 | With a deletion in the bundle, the hashed bytes determine every path, operation and content |
| DigestFraming.UpsertFrameInjective | commitbundle/store.go:535-563 | Without deletions they do if no content has a zero byte |
| DigestFraming.FramingsNeverMeet | commitbundle/store.go:535-563 | No such upsert-only bundle has the hashed bytes of a bundle with deletions |
| DigestFraming.UpsertFrameAmbiguous | commitbundle/store.go:548-563 | Before any cap is looked at: the bytes of such an upsert-only list are those of another upsert-only list exactly when it has two files or more |
| DigestFraming.MergedCollides | commitbundle/store.go:548-563 | The other list: two files read as one whose content holds the second path |
| DigestSharing.SharedExactlyWhenRecut | commitbundle/store.go:407-478 | For every acceptable upsert-only request: another acceptable upsert-only request with other contents has its digest exactly when the pieces between zero bytes can be regrouped into other files that the store accepts |
| DigestSharing.SharedExactlyWhenPairFits | commitbundle/store.go:407-478 | For contents without zero bytes, if the total cap has room for one more path or no content is a stored path: another acceptable request with other contents has the digest exactly when two neighbours in path order fit the file cap and the total cap as one file |
| DigestSharing.FittingPairIsShared | commitbundle/store.go:407-478 | For every acceptable upsert-only request, two neighbours that fit the caps as one file give such a request |
| DigestSharing.ContentTakenForPath | commitbundle/store.go:407-478 | A concrete request of 48 MiB in which no neighbours fit, but a content is taken for a path, and the digest is shared |
| Bundle.DecodedContentIsExact | commitbundle/store.go:514-533 | A file yields given bytes exactly when they are within the cap of its class and spelled canonically |
| Bundle.CanonicalExactly | commitbundle/store.go:415-443 | Which files are taken before decoding, and what is kept of them |
| Bundle.CanonicalFiles | commitbundle/store.go:415-443 | The first pass succeeds exactly for distinct clean paths, known encodings and empty deletions |
| Bundle.FinishFiles | commitbundle/store.go:448-468 | The second pass succeeds exactly if all files decode and the decoded sum is at most 48 MiB, and hashes them in order |
| Bundle.BuildBundle | commitbundle/store.go:407-478 | The request is accepted exactly if it is acceptable, and yields its bundle |
| Bundle.BundlePermuted | commitbundle/store.go:407-478 | Verdict, name, digest, size and file order are the same for every permutation of the request |
| Bundle.BundlePaths | commitbundle/store.go:444-446 | Stored paths increase strictly, are relative and free of parent components |
| Bundle.EncodingDoesNotMatter | commitbundle/store.go:450-467 | The same bytes sent as text or as base64 give the same digest, name and size |
| Bundle.DigestDeterminesContents | commitbundle/store.go:535-567 | Equal digests mean equal paths, operations and bytes, for contents with a deletion or without zero bytes |
| BundleStore.FileStore.Put | commitbundle/store.go:191-246 | What is stored; storing again only makes the file younger |
| BundleStore.FileStore.Get | commitbundle/store.go:249-284 | Found exactly if it is stored under the name with the given digest, not found exactly if nothing is, else refused |
| BundleStore.FileStore.Delete | commitbundle/store.go:288-318 | Only a bundle with the given digest goes; one that is gone counts as deleted |
| BundleStore.FileStore.Sweep | commitbundle/store.go:324-362 | Exactly the files older than the given age go, and they are counted |
| BundleStore.SweepHidesTheOld | commitbundle/store.go:324-362 | After a sweep exactly the bundles older than the age are not found, and all others are as before |
| BundleStore.StoredBundleStays | commitbundle/store.go:191-362 | A stored bundle can be fetched by name and digest through any run that neither deletes nor outlives it, with the stored contents |
| Checkout.CheckoutFiles | backend/github/checkout.go:101-163 | It fails exactly for an unreadable blob; otherwise the files and the skip list are those of blobs that each met the fate it was due, within the caps |
| Checkout.FatesAreDue | backend/github/checkout.go:116-154 | Every blob is taken, skipped for the count, its size, the total or being binary, or unreadable, each exactly when the files before it, its reported size and its bytes say so; there is one such sequence of fates |
| Checkout.FittingTreeIsTaken | backend/github/checkout.go:101-163 | A tree of readable text blobs within all caps, by reported and actual sizes, is returned whole with nothing skipped |
| Checkout.ControllerTakesText | controller/repositorycheckout/controller.go:45-80 | The same at the controller's own bounds, with and without the annotation |
| Checkout.BinaryIsNotText | backend/github/checkout.go:165-177 | Binary is what holds a zero byte or spells no sequence of Unicode characters |
| Utf8.ValidExactlyWhenSpelled | backend/github/checkout.go:165-177 | The accepted strings are exactly the encodings of sequences of scalar values |
| Checkout.TruncationIsShown | backend/github/checkout.go:97-100 | A truncated tree is reported first in the skip list |
| Checkout.JustifiedUnique | backend/github/checkout.go:116-152 | The fate of every blob is determined by the blobs before it, the bounds, and both its reported and its actual size |
| Checkout.CapsHold | backend/github/checkout.go:116-154 | Byte total, file count and per-class caps hold by the actual bytes, whatever sizes the host reports |
| Checkout.CheckoutKeepsCaps | backend/github/checkout.go:101-163 | What a checkout returns: no more files and bytes than asked for, and every file holds exactly the bytes of a blob of the tree, within the cap of its class |
| Checkout.EachBlobOnce | backend/github/checkout.go:116-163 | Each blob is taken or skipped, once |
| Checkout.FilesInPathOrder | backend/github/checkout.go:103-112 | Files come out in path order, no path twice |
| Checkout.AppendSkipShown | backend/github/checkout.go:179-188 | The skip list is the first 99 skips and then a marker, whatever comes after |
| Checkout.FileRoundTrips | backend/github/checkout.go:155-160 | The bytes of a taken blob survive the file's encoding and the bundle's decoding |
| Checkout.CheckoutFitsBundle | controller/repositorycheckout/controller.go:52-80 | Under bounds within the store's, the bundle store refuses what a checkout returns only for being empty or for its paths; sizes and bytes are kept |
| Checkout.BoundsAreWithinStore | controller/repositorycheckout/controller.go:45-80 | The controller's bounds, and the defaults, are within the store's |
| GitTree.ApplyMeans | backend/github/backend.go:296-303 | Applying a request gives the one tree that satisfies it and keeps every other path |
| GitTree.FilterKeepsMeaning | backend/github/backend.go:384-436 | Dropping no-op deletions changes the effect on no base tree, drops no write, and leaves no deletion of an absent path |
| GitTree.NothingLeft | backend/github/backend.go:283-295 | Nothing is left exactly when the base already satisfies a request of deletions |
| TreeEntries.IndexFiles | backend/github/backend.go:930-956 | Which requests are refused, and the index by clean path of the others |
| TreeEntries.ValidExactly | backend/github/backend.go:930-956 | Which files a commit takes: a path inside, no content if deleted, text or the encoding of some bytes |
| TreeEntries.RequestSays | backend/github/backend.go:929-980 | Every file has its entry and every entry its file: the clean path, and no content, the text, or the bytes that were encoded |
| TreeEntries.GitTreeEntries | backend/github/backend.go:929-980 | The entries in path order before upload, and exactly the pending blobs of base64 files |
| TreeEntries.CreatePendingBlobs | backend/github/backend.go:996-1018 | Each payload is uploaded once, and every entry gets the id of its own bytes |
| TreeEntries.FilterNoop | backend/github/backend.go:384-436 | The kept entries are those of the filter, with the file list still aligned |
| TreeEntries.FillEntries | backend/github/backend.go:996-1018 | After the upload the entries stand for the request, and exactly the deletions have neither id nor content |
| TreeEntries.PrepareEntries | backend/github/backend.go:237-282 | The complete list kept for a retry shares its objects with the filtered one, so it too stands for the whole request |
| TreeEntries.FilteredRequest | backend/github/backend.go:278-282 | The filtered entries of a valid request have its effect on every base tree |
| CommitSafety.RunGood | backend/github/backend.go:224-505 | What every step of every attempt and writer keeps |
| CommitSafety.MoveReplacesBase | backend/github/backend.go:334-344 | A non-forced ref update succeeds only if the branch is still at the head that the commit was built on |
| CommitSafety.NoLostUpdate | backend/github/backend.go:224-505 | Every ref move installs a commit on exactly the head it replaced, with the original request applied to that head's tree, and the commit stays on the branch |
| CommitSafety.MovesAreRecorded | backend/github/backend.go:334-505 | The moves spoken of are all the ref changes that attempts make |
| CommitSafety.SuccessSatisfies | backend/github/backend.go:224-505 | A success returns a commit on the branch; unless a key or id decided it, its tree has every write and no deleted path |
| CommitEffects.FirstCommitChanges | backend/github/backend.go:331-338 | A commit made before a lost race has a tree other than its parent's |
| CommitEffects.RepeatIsIdle | backend/github/backend.go:283-338 | In every run an attempt that reads a head whose tree already has all it asks for makes no commit and no move; if it succeeds it returns that head or a commit with its key |
| CommitEffects.RetryCommitsAnyway | backend/github/backend.go:442-505 | After a lost race a tree equal to the base's is committed all the same |
| CommitEffects.AloneSucceeds | backend/github/backend.go:224-505 | From every reachable state an attempt that starts, or has lost its first race, can succeed if it is left alone |
| CommitSafety.AttemptIsBounded | backend/github/backend.go:224-378 | An attempt makes at most thirteen host calls and one upload for each distinct payload, and moves the ref at most once |
| CommitOnce.WindowCovers | backend/github/backend.go:561-587 | In a linear history a keyed commit with at most 49 commits above it is found |
| CommitOnce.WindowRunIsCalm | backend/github/backend.go:561-587 | With a linear history and at most 49 commits above the keyed one, every answered search of every run lists it |
| CommitOnce.RefusedSearchGoesOn | backend/github/backend.go:571-575 | A listing refused with a 404 or a 409 takes the attempt on to commit, whatever is on the branch |
| CommitOnce.AtMostOnce | backend/github/backend.go:275-288 | On a linear history, with attempts one after another whose searches are answered with at most 49 commits above the keyed one, at most one commit with the key is ever on the branch, also after a lost response or a lost race |
| CommitOnce.LaterAttemptReturnsIt | controller/repositorycommit/controller.go:146-159 | In such a run an attempt that starts or searches after the commit landed fails or returns that commit |
| CommitOnce.RequestIsKeyed | backend/github/backend.go:224-233 | Every commit made for a one-line key and a text free of the trailer carries the key |
| CommitLifecycle.RetryInsideWindow | controller/repositorycommit/controller.go:189-202 | A retry is at least a second ahead and inside the window, and refused exactly when that is impossible |
| CommitLifecycle.Reconciler.Reconcile | controller/repositorycommit/controller.go:56-184 | The status, bundle and requeue after one reconcile |
| CommitLifecycle.EndsExactlyWhen | controller/repositorycommit/controller.go:56-216 | With Kubernetes working a request ends Succeeded exactly if everything is in place and the host answers with a commit, which is recorded, and Failed exactly if something cannot end well |
| CommitLifecycle.SucceededIsAnswered | controller/repositorycommit/controller.go:144-178 | In every run a succeeded request shows the commit that the host answered with in the reconcile that ended it |
| CommitLifecycle.UnrecordedKeepsBundle | controller/repositorycommit/controller.go:173-245 | If the end cannot be recorded the request does not end and the bundle stays |
| CommitLifecycle.Reconciler.Fail | controller/repositorycommit/controller.go:218-245 | The failure is recorded first, and the bundle deleted only if that worked |
| CommitLifecycle.Reconciler.WaitForRateLimit | controller/repositorycommit/controller.go:206-216 | The request stays running with its start time and bundle, the reason names the rate limit and the retry time, and the requeue is at least a second ahead |
| CommitLifecycle.TerminalIsFinal | controller/repositorycommit/controller.go:70-73 | Succeeded and Failed are absorbing |
| CommitLifecycle.StartedOnce | controller/repositorycommit/controller.go:90-92 | The start time is set once |
| CommitLifecycle.RemovedOnlyWhenTerminal | controller/repositorycommit/controller.go:175-245 | The controller removes a bundle only once its own commit is terminal |
| CommitLifecycle.StillRunning | controller/repositorycommit/controller.go:56-184 | With Kubernetes working, only a bundle still on its way or a rate limit inside the window leaves a request running |
| CommitLifecycle.EndsInEveryRun | controller/repositorycommit/controller.go:56-216 | A reconcile that starts after the window, and whose own Kubernetes calls work, ends the request, however the earlier reconciles were spaced and whichever of their calls failed |
| CommitLifecycle.RequestEnds | controller/repositorycommit/controller.go:56-216 | Of reconciles a second or more apart, at most 900 leave the request running |
| PackageSync.BuildDesired | controller/packages/controller.go:208-211 | The last listing of an object name wins |
| PackageSync.DesiredIsLast | controller/packages/controller.go:208-211 | Exactly the listed names are desired, each with its last listing |
| PackageSync.Sync | controller/packages/controller.go:202-293 | The objects after a pass, whatever order its maps are walked in; it writes nothing exactly when every needed object is settled: as listed, with a Ready condition that is there |
| PackageSync.SyncConverges | controller/packages/controller.go:202-293 | The repository's objects are exactly the desired ones, ready and with the listed status, if and only if no foreign object holds a needed name and no needed object is stuck with a Ready condition that is not true |
| PackageSync.StuckStaysStuck | controller/packages/controller.go:269-293 | A concrete object that no pass makes ready, because the condition is shared |
| PackageSync.SoleWriterConverges | controller/packages/controller.go:202-293 | Over any run of passes from no objects, with no other writer, every pass converges to what was listed last |
| PackageSync.SecondSyncIsIdle | controller/packages/controller.go:202-293 | A second pass over the same listing writes nothing |
| PackageSync.WrittenExactlyWhen | controller/packages/controller.go:269-293 | A status is written exactly when an observed field differs or there is no Ready condition; the sync time alone never causes a write |
| FullListReader.Coordinator.ReadList | portal/src/hybridPagination.ts:26-49 | A read shares the walk of its epoch, waits behind an older one, uses the cache, or starts a walk |
| FullListReader.Coordinator.Settle | portal/src/hybridPagination.ts:36-42 | A walk's result is cached only in the epoch in which it was asked for |
| FullListReader.Coordinator.Finish | portal/src/hybridPagination.ts:30-46 | The slot is freed, sharers are answered, and reads behind an older walk try again |
| FullListReader.SharersGetTheWalk | portal/src/hybridPagination.ts:26-49 | In every run each read that shares a walk is resolved to exactly its items when it succeeds, and rejected when it fails |
| FullListReader.RejectedByItsWalk | portal/src/hybridPagination.ts:26-49 | A read is rejected only by a walk of its epoch or later that ended without a result |
| FullListReader.BehindTriesAgain | portal/src/hybridPagination.ts:27-33 | A read behind an older walk tries again when that is over, and gets nothing of it |
| FullListReader.ReadBegins | portal/src/hybridPagination.ts:26-49 | When a read shares, waits, is answered from the cache without a walk, or starts the one walk |
| FullListReader.SettledIsCached | portal/src/hybridPagination.ts:36-42 | A walk is cached exactly if it succeeds in its own epoch |
| FullListReader.SeedAndClear | portal/src/hybridPagination.ts:51-65 | A seed is what is cached next, and a clear leaves nothing |
| FullListReader.OneWalkAtATime | portal/src/hybridPagination.ts:26-49 | At most one full walk runs at a time |
| FullListReader.CacheIsCurrent | portal/src/hybridPagination.ts:36-65 | The cache holds the last seed or a walk of the current epoch |
| FullListReader.ReadIsNeverOlder | portal/src/hybridPagination.ts:26-49 | A read never resolves to anything from before the epoch in which it was issued, and a forced read only to a walk |
| FullListReader.NoReadIsStranded | portal/src/hybridPagination.ts:43-46 | When no walk is in flight no read waits for one |
| LatestRefresh.Controller.Request | portal/src/refresh.ts:141-160 | A request starts a task, or merges into the queued one |
| LatestRefresh.Controller.Complete | portal/src/refresh.ts:152-159 | The end of a task starts the queued one |
| LatestRefresh.OneTaskAtATime | portal/src/refresh.ts:141-160 | At most one task is active |
| LatestRefresh.MergedMode | portal/src/refresh.ts:143-146 | A task is foreground exactly when one of the requests merged into it was |
| LatestRefresh.RequestIsFollowed | portal/src/refresh.ts:141-160 | A request made during a task is followed by a later start, in its mode, unless stopped |
| LatestRefresh.InvalidationIsFollowed | portal/src/refresh.ts:162-172 | An invalidation during a task fences it and all earlier ones for good, and a foreground task follows unless stopped |
| LatestRefresh.StartsAtOnce | portal/src/refresh.ts:141-151 | An idle controller starts a task in the mode asked for, and it is current |
| LatestRefresh.StopIsFinal | portal/src/refresh.ts:173-177 | Once stopped nothing is current and nothing is started |
| LatestRefresh.CurrentIsLatest | portal/src/refresh.ts:164-180 | The current task is the latest one, if nothing was invalidated or stopped since it began |
| TablePages.PagesAreTheRows | portal/src/portalkit/table.ts:320-333 | Pages 1 to the page count are exactly the rows |
| TablePages.RangeNamesPage | portal/src/portalkit/table.ts:335-341 | The range names the bounds of each page; all pages but the last are full |
| TablePages.OutsidePages | portal/src/portalkit/table.ts:324-333 | A page number outside the table shows its nearest page |
| CursorPager.CreateCursorPager | portal/src/portalkit/table.ts:112-134 | Every field of a new or restored pager: saved cursors padded to the page, the restored cursor on top if there is one, sane page and total |
| CursorPager.UpdateCursorPager | portal/src/portalkit/table.ts:169-201 | Every field afterwards: a changed page size, query or filter resets; otherwise a page or a cursor jumps, and the other saved cursors stay |
| CursorPager.JumpWithCursor | portal/src/portalkit/table.ts:185-200 | A jump with a cursor shows it and saves it for its page, and keeps the others |
| CursorPager.ApplyKeepsPlace | portal/src/portalkit/table.ts:203-217 | A response changes what comes next and the total, and nothing of the place |
| CursorPager.JumpToVisited | portal/src/portalkit/table.ts:169-233 | Jumping to a visited page shows its saved cursor, and the next advance from there leaves a stack again |
| CursorPager.NextCursorPager | portal/src/portalkit/table.ts:218-233 | An advance goes to the next page with the token on top, and keeps every lower saved cursor, the size, query, filters and total; without a next page nothing changes |
| CursorPager.ReturnUndoesNext | portal/src/portalkit/table.ts:218-252 | Returning after an advance gives back the page, its cursor and all saved cursors |
| CursorPager.PagerIsStack | portal/src/portalkit/table.ts:150-252 | Over any run the saved cursors are a stack of height `page` topped by the current cursor, equal to a plain stack machine |
| CursorPager.FreshRun | portal/src/portalkit/table.ts:112-252 | From a new pager every run is that of the stack machine on an empty trail |
| CursorPager.ReturnReplaysAdvance | portal/src/portalkit/table.ts:204-252 | Returning m of n advances shows what n - m advances showed |

## Left out

- RequestGate.Next: the body of a response is an abstract string with a flag for whether it mentions a rate limit; parsing of headers is not modelled.
- RequestGate.QuietMove: that a fetch with a failed page returns an error is taken from the callback that fetches the pages, which is not modelled.
- GateProgress.NeverStuck: says that some goroutine can go on, not that a scheduler lets it.
- GateData.HitIsRecentRefresh: decoding the cached JSON is not modelled.
- RequestState.RequestState.Observe: integers are unbounded, so an overflowing Retry-After is not modelled.
- DigestSharing.SharedExactlyWhenRecut: paths and contents are made of bytes, as every Go string is; stated for other upsert-only requests, since contents with zero bytes could also meet the framing of deletions.
- Bundle.BundlePermuted: error texts depend on the order of the request and are not compared; bundle names are taken to differ when digests do, although they are cut to 24 digits.
- BundleStore.StoredBundleStays: file-system errors, temporary files and the JSON form of a bundle are not modelled, nor is the syntax check of bundle names.
- Checkout.CheckoutFiles: resolving the ref, reading the tree and choosing the client for a large blob are not modelled; blobs are given as a map from id to bytes.
- Checkout.FilesInPathOrder: speaks of trees with distinct paths, as Git has them; the order of equal paths is not fixed by the source.
- TreeEntries.CreatePendingBlobs: a failed upload ends the attempt; which entries were filled by then is not stated.
- CommitProtocol.Creates: each created commit gets a new name, although Git gives equal names to commits that are equal in every byte; a commit object left behind by a failed call is not modelled, since no ref reaches it.
- CommitProtocol.Pushes: foreign writers never rewind or delete the branch.
- CommitOnce.AtMostOnce: speaks of the guarantee's own case, one attempt at a time on a linear history, with pushes that bring no commit with the key, and searches that are answered (not refused with a 404 or a 409) with at most 49 commits above it.
- CommitSafety.AttemptIsBounded: does not count the one lookup of the create-only check, which comes before the protocol.
- CommitLifecycle.RequestEnds: assumes reconciles a second apart, which the controller's own status writes need not leave; `EndsInEveryRun` does not assume it. The whole-second rounding of stored times is not modelled.
- CommitLifecycle.RemovedOnlyWhenTerminal: is about the commit's own reference; two commits with identical content share one bundle file.
- PackageSync.Sync: a pass that fails in the middle is not modelled; the object name is a parameter.
- Git directory and file conflicts, file modes and submodules: trees are flat maps from path to content.
- HTTP transport, the GitHub client, OAuth, App signing, snapshots by Git subprocess and pull request feedback: calls into code that is not part of this model.
- The connection, repository, deploy key, collaborator and build status controllers, authorisation, the MCP tools and the user interface: they would add only simple members.
- The create-only check, the default message and the choice of the branch in CommitFiles: straight-line code before the protocol starts.
