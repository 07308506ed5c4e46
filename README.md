# WebScraping: verified model of the periodic keyword check

The application lets the user pick a URL, a keyword and a check frequency, then
press On. A periodic background job (`WebCheckerWorker`) downloads the page and
tests whether its text contains the keyword, ignoring case. On a match it
increments a counter in the preference store `"WebCheckerPrefs"`, records the
time and posts a notification. Off clears the run flag and cancels the job.

This Dafny project models the two pieces of logic in the application:

- `WebCheckerWorker.doWork`, one tick of the check (`web_checker_worker.dfy`).
  The pure function `WebChecker.Check` describes a whole run: its result, the
  new store and a trace of effects (`Get(url)`, `Commit(count, time)`,
  `Notify(count, time)`). The trace shows whether a download happened and in
  which order the edit and the notification took place. The imperative
  `WebCheckerWorker.DoWork` method reads and edits a shared
  `SharedPreferences` object step by step, with the same early exits as the
  source, and is proved equal to `Check`. The page download, the worker's
  `isStopped` value at each of the three checkpoints, the clock and whether
  posting the notification throws are inputs.
- The start/stop surface of `MainActivity` (`main_activity.dfy`). It covers
  the frequency choice, the On and Off buttons, `stopWork` and the two text
  fields. The scheduler (`work_manager.dfy`) is a table of work records with
  tags, interval and state. Its four operations are cancel by tag, enqueue,
  cancel by id and prune. The activity records each store write and scheduler
  call it issues in a ghost `calls` sequence, so the order of the calls is
  part of its contracts.

Supporting modules:
- `preferences.dfy` is the typed key-value store. Android's `getString` and
  `getInt` throw `ClassCastException` on a value of another type. Inside
  `doWork`'s `try` this becomes `Result.failure()`, and the model keeps that
  path.
- `text_match.dfy` is Kotlin's `contains(word, ignoreCase = true)`: a scan for
  the first position where `regionMatches` succeeds. It is proved equivalent to
  "the lower-cased keyword is a substring of the lower-cased text".

Integer widths are explicit. `"word_count"` is a Kotlin `Int`, so
`currentCount + 1` wraps from 2^31-1 to -2^31 (`WebChecker.Inc`).
`"last_found_date"` is a `Long`.

Behaviour of the code that a reader might not expect, and that the model
keeps:
- The run flag is read once, into a local (WebCheckerWorker.kt:46). The later
  checkpoints re-test that local, not the store. So the "R" that Off stores
  during a download is not seen by that run. Only Off's cancellation of the
  job (`cancelWorkById`, MainActivity.kt:150), arriving as `isStopped`, can
  stop it; in the model that is the `afterFetch` stop signal.
- An empty keyword is not rejected. It matches every page.
- An exception while posting the notification makes the run fail. The
  incremented count stays stored.
- A missing flag, a missing URL or keyword, a stop and every caught exception
  all give the same `Result.failure()`. There is no separate "no-op" or error
  kind.

## Model

| member | source | states |
|---|---|---|
| Preferences.GetString | app/src/main/java/es/juliogtrenard/webscraping/WebCheckerWorker.kt:55-56 | `getString(key, null)`: absent exactly when the key is missing, a value exactly when the key holds a string (that string), otherwise a ClassCastException |
| Preferences.GetInt | app/src/main/java/es/juliogtrenard/webscraping/WebCheckerWorker.kt:70 | `getInt(key, 0)`: the default when the key is missing, the stored Int when it holds one, a ClassCastException exactly when it holds another type |
| Preferences.SharedPreferences.PutString | app/src/main/java/es/juliogtrenard/webscraping/MainActivity.kt:85 | one `putString` edit stores the text under its key and changes no other key |
| Preferences.SharedPreferences.Apply | app/src/main/java/es/juliogtrenard/webscraping/WebCheckerWorker.kt:75-79 | all puts of one edit become visible together, over the old entries |
| TextMatch.IndexOfIgnoreCase | app/src/main/java/es/juliogtrenard/webscraping/WebCheckerWorker.kt:68 | the scan returns the first start position where the keyword matches ignoring case, and -1 exactly when no position matches |
| TextMatch.ContainsIgnoreCase | app/src/main/java/es/juliogtrenard/webscraping/WebCheckerWorker.kt:68 | the containment test holds exactly when the keyword matches the text at some position, ignoring case |
| TextMatch.CharEqualsIgnoreCaseIffSameLower | app/src/main/java/es/juliogtrenard/webscraping/WebCheckerWorker.kt:68 | Kotlin's case-insensitive character test (equal, or equal upper case, or equal lower case of upper case) is, under ASCII case mapping, "same lower-case form" |
| TextMatch.ContainsIgnoreCaseIffFoldedSubstring | app/src/main/java/es/juliogtrenard/webscraping/WebCheckerWorker.kt:68 | the containment test agrees, in both directions, with "the lower-cased keyword is a substring of the lower-cased text" |
| TextMatch.EmptyWordAlwaysContained | app/src/main/java/es/juliogtrenard/webscraping/WebCheckerWorker.kt:68 | an empty keyword is contained in every text |
| TextMatch.FoldedOccurrenceIsContained | app/src/main/java/es/juliogtrenard/webscraping/WebCheckerWorker.kt:68 | an occurrence of the keyword differing at most in letter case is found |
| TextMatch.ContainsIgnoresKeywordCase | app/src/main/java/es/juliogtrenard/webscraping/WebCheckerWorker.kt:68 | lower-casing the keyword does not change the outcome of the test |
| WebChecker.Inc | app/src/main/java/es/juliogtrenard/webscraping/WebCheckerWorker.kt:71 | the new count is the old plus one modulo 2^32, and exactly the old plus one below the Int maximum |
| WebChecker.Check | app/src/main/java/es/juliogtrenard/webscraping/WebCheckerWorker.kt:42-90 | on every input: the store is unchanged unless the trace holds the edit, and then only "word_count" (old count + 1) and "last_found_date" (now) change; the download is first and is of the stored URL; the edit precedes the notification, which carries the stored count; the edit is made exactly when the run passes every gate, the page contains the keyword and the count is readable; a success without an edit is a downloaded page without the keyword, and a success with the edit has posted the notification |
| WebChecker.WebCheckerWorker.DoWork | app/src/main/java/es/juliogtrenard/webscraping/WebCheckerWorker.kt:42-90 | the step-by-step run on the shared store returns the result and effects of `Check` and leaves the store `Check` gives |
| WebChecker.MissingFlagFails | app/src/main/java/es/juliogtrenard/webscraping/WebCheckerWorker.kt:46 | with no "semaforo" entry the run fails with no download, no store change and no notification |
| WebChecker.StoppedAtStartFails | app/src/main/java/es/juliogtrenard/webscraping/WebCheckerWorker.kt:48-52 | stopped at entry, or flag equal to "R": failure, no download, store unchanged |
| WebChecker.MissingConfigFails | app/src/main/java/es/juliogtrenard/webscraping/WebCheckerWorker.kt:55-56 | a missing "url" or "word" fails the run before any download, store unchanged |
| WebChecker.FetchIffGatesPass | app/src/main/java/es/juliogtrenard/webscraping/WebCheckerWorker.kt:46-62 | the page is downloaded exactly when the flag is a string other than "R", url and word are strings, and the first two checkpoints see no stop |
| WebChecker.OnlyRedStops | app/src/main/java/es/juliogtrenard/webscraping/WebCheckerWorker.kt:48-59 | any present flag other than the literal "R" (including "V") lets the run download the configured URL |
| WebChecker.StoppedAfterFetchFails | app/src/main/java/es/juliogtrenard/webscraping/WebCheckerWorker.kt:63-65 | stopped after the download: failure, no edit and no notification, even when the page contains the word |
| WebChecker.FetchErrorFails | app/src/main/java/es/juliogtrenard/webscraping/WebCheckerWorker.kt:62 | a download that throws fails the run with the store unchanged |
| WebChecker.NoMatchSucceedsQuietly | app/src/main/java/es/juliogtrenard/webscraping/WebCheckerWorker.kt:68-89 | no case-insensitive match: success, store unchanged, no notification |
| WebChecker.MatchCountsOnce | app/src/main/java/es/juliogtrenard/webscraping/WebCheckerWorker.kt:68-81 | on a match "word_count" becomes old count (0 if absent) + 1 and "last_found_date" becomes now in one edit, no other key changes, and the notification follows the edit with the new count |
| WebChecker.NotifyFailureKeepsEdit | app/src/main/java/es/juliogtrenard/webscraping/WebCheckerWorker.kt:75-86 | an exception while notifying yields failure but keeps the incremented count and the date |
| WebChecker.UnreadableCountFails | app/src/main/java/es/juliogtrenard/webscraping/WebCheckerWorker.kt:70 | a "word_count" of another type makes `getInt` throw: failure, nothing written, no notification |
| WebChecker.EmptyKeywordMatches | app/src/main/java/es/juliogtrenard/webscraping/WebCheckerWorker.kt:56-68 | an empty keyword is accepted and every downloaded page counts as a match |
| WebChecker.OneRunCount | app/src/main/java/es/juliogtrenard/webscraping/WebCheckerWorker.kt:70-79 | a single run leaves a readable count readable and increments it exactly when it commits a match |
| WebChecker.CountIsNumberOfMatchingRuns | app/src/main/java/es/juliogtrenard/webscraping/WebCheckerWorker.kt:70-79 | over any sequence of runs, the stored count is the initial count incremented once per run that committed a match |
| WebChecker.IncByWraps | app/src/main/java/es/juliogtrenard/webscraping/WebCheckerWorker.kt:71 | n Kotlin Int increments add n modulo 2^32 |
| WebChecker.IncByExact | app/src/main/java/es/juliogtrenard/webscraping/WebCheckerWorker.kt:71 | n increments that do not pass the Int maximum add exactly n |
| WebChecker.CountGrowsByMatches | app/src/main/java/es/juliogtrenard/webscraping/WebCheckerWorker.kt:70-79 | over any sequence of runs the count grows by the number of matching runs modulo 2^32, and exactly when that stays below the Int maximum |
| WebChecker.StopBeforeSecondMatchKeepsOneIncrement | app/src/main/java/es/juliogtrenard/webscraping/WebCheckerWorker.kt:63-79 | two matching runs, the second stopped after its download: one increment and the first run's date remain |
| WorkManagement.CancelledByTag | app/src/main/java/es/juliogtrenard/webscraping/MainActivity.kt:97 | after cancel by tag no enqueued job carries the tag, untagged jobs are untouched, no record disappears |
| WorkManagement.WithEnqueued | app/src/main/java/es/juliogtrenard/webscraping/MainActivity.kt:105 | enqueue adds the request as an enqueued job with its tags and interval and leaves every other job as it was |
| WorkManagement.CancelledById | app/src/main/java/es/juliogtrenard/webscraping/MainActivity.kt:150 | cancel by id marks that job cancelled and keeps its tags and interval, leaves every other job as it was, and an unknown id changes nothing |
| WorkManagement.Pruned | app/src/main/java/es/juliogtrenard/webscraping/MainActivity.kt:151 | prune drops exactly the cancelled records and keeps every enqueued job unchanged |
| WorkManagement.PruneKeepsActive | app/src/main/java/es/juliogtrenard/webscraping/MainActivity.kt:151 | prune does not change which enqueued jobs carry a tag |
| WorkManagement.WorkManager.CancelAllWorkByTag | app/src/main/java/es/juliogtrenard/webscraping/MainActivity.kt:97 | the scheduler's table becomes `CancelledByTag` of the old one |
| WorkManagement.WorkManager.Enqueue | app/src/main/java/es/juliogtrenard/webscraping/MainActivity.kt:105 | the scheduler's table becomes `WithEnqueued` of the old one |
| WorkManagement.WorkManager.CancelWorkById | app/src/main/java/es/juliogtrenard/webscraping/MainActivity.kt:150 | the scheduler's table becomes `CancelledById` of the old one |
| WorkManagement.WorkManager.PruneWork | app/src/main/java/es/juliogtrenard/webscraping/MainActivity.kt:151 | the scheduler's table becomes `Pruned` of the old one |
| Activity.IntervalMinutes | app/src/main/java/es/juliogtrenard/webscraping/MainActivity.kt:89-94 | "10 minutos" gives 10, "30 minutos" 30, "1 hora" 60 (each if and only if), anything else 15; the interval is always one of 10, 15, 30, 60 |
| Activity.OnLeavesOneTaggedJob | app/src/main/java/es/juliogtrenard/webscraping/MainActivity.kt:97-108 | after On exactly one enqueued job carries the tag, the new one, with the chosen interval; jobs without the tag are unchanged |
| Activity.StopWorkCancelsOnlyWorkId | app/src/main/java/es/juliogtrenard/webscraping/MainActivity.kt:149-152 | `stopWork` removes the job `workId`; every other enqueued job survives unchanged and only enqueued jobs remain |
| Activity.OnThenOffLeavesNoTaggedJob | app/src/main/java/es/juliogtrenard/webscraping/MainActivity.kt:97-152 | On followed by Off on the same activity leaves no enqueued job with the tag |
| Activity.OffStopsNextRun | app/src/main/java/es/juliogtrenard/webscraping/MainActivity.kt:113-115 | once Off has stored "R", the worker's next run fails at its first checkpoint with no effect |
| Activity.OnLetsRunFetch | app/src/main/java/es/juliogtrenard/webscraping/MainActivity.kt:83-85 | once On has stored "V" and url and word are set, a run that is not stopped downloads the page |
| Activity.MainActivity.constructor | app/src/main/java/es/juliogtrenard/webscraping/MainActivity.kt:35-41 | a new activity starts with flag field "R", a random `workId` and no calls; it writes nothing to the store |
| Activity.MainActivity.OnClicked | app/src/main/java/es/juliogtrenard/webscraping/MainActivity.kt:82-109 | On sets the field and the stored flag to "V" first, then cancels by tag, then enqueues the new request with the chosen interval, and `workId` becomes its id |
| Activity.MainActivity.OffClicked | app/src/main/java/es/juliogtrenard/webscraping/MainActivity.kt:112-118 | Off sets the field and the stored flag to "R" before any cancellation, then runs `stopWork` |
| Activity.MainActivity.StopWork | app/src/main/java/es/juliogtrenard/webscraping/MainActivity.kt:149-152 | cancels the job `workId`, then prunes; the store and the fields are untouched |
| Activity.MainActivity.UrlChanged | app/src/main/java/es/juliogtrenard/webscraping/MainActivity.kt:124-128 | the URL text is stored verbatim under "url" and no other key changes |
| Activity.MainActivity.WordChanged | app/src/main/java/es/juliogtrenard/webscraping/MainActivity.kt:135-139 | the keyword text is stored verbatim under "word" and no other key changes |
| Activity.FirstMatchOnFreshStore | app/src/main/java/es/juliogtrenard/webscraping/WebCheckerWorker.kt:68-81 | on a fresh store holding only url, word and the flag "V", a page containing the word gives success, stores count 1 and the date, and notifies with 1 after the edit |
| Activity.Session | app/src/main/java/es/juliogtrenard/webscraping/MainActivity.kt:82-140 | on one store shared by the activity and the worker: typing URL and keyword, On with any frequency, a tick on a page containing the keyword, Off and another tick; the first tick counts 0 to 1 and notifies with 1, the second fails with no effect, and no tagged job is left |

## Left out

- The page download and HTML-to-text extraction (Jsoup, WebCheckerWorker.kt:62) are network I/O in a foreign library. They are an input: the text, or an exception.
- TextMatch.IndexOfIgnoreCase: counts positions in Unicode scalar values (Dafny `char`), while Kotlin's `indexOf` counts UTF-16 code units, so the returned index differs on text with characters outside the Basic Multilingual Plane. Whether a match exists, the only thing the worker uses, is not affected.
- TextMatch.ContainsIgnoreCase: uses ASCII case mapping only. Kotlin's `uppercaseChar`/`lowercaseChar` cover all of Unicode, so non-ASCII letters that differ only in case are not matched by the model.
- The notification channel, builder and manager (WebCheckerWorker.kt:98-127) are Android UI. They are the `Notify(count, time)` effect. Whether posting throws is an input.
- `SimpleDateFormat` with the default locale and time zone (WebCheckerWorker.kt:115) is not modelled, and neither is a round trip of the formatted date. `System.currentTimeMillis` (WebCheckerWorker.kt:72) is the input `now`.
- `println("stopped")` (WebCheckerWorker.kt:49) and `e.printStackTrace()` (WebCheckerWorker.kt:85) are console output with no effect on the run.
- The scheduler's internals are not modelled: periodic firing, clamping of the interval to the platform minimum, the class-name tag WorkManager adds to every request, and delivery of `isStopped` to a running worker after a cancel. `isStopped` is an input per checkpoint.
- Concurrency between the activity and a running worker is not modelled. The worker's run is one sequential step over the store, so a store write made by the activity during a download (Off, or an edited keyword) is not interleaved.
- The asynchronous durability of `apply()` is not modelled. Writes are synchronous map updates.
- UI plumbing is not modelled: the notification permission request, layout inflation, the spinner adapter and the no-op `TextWatcher` callbacks (MainActivity.kt:56-79, 122-123, 133-134). The spinner's selection is the `selectedLabel` input.
- `UUID.randomUUID` (MainActivity.kt:38) and the request ids are caller-supplied naturals. An id that collides with an existing job would replace it.
- Losing `workId` when the activity is recreated is lifecycle behaviour and is not modelled. The constructor takes the new random id, and `CancelledById` with an unknown id cancels nothing.
