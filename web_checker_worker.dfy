/**
 * One tick of the periodic check: `WebCheckerWorker.doWork`.
 *
 * The page download, the worker's `isStopped` at each of the three
 * checkpoints, the clock and whether posting the notification throws are
 * inputs. What the run does to the outside world is returned as a trace of
 * effects: the GET of the URL, the store edit, and the notification.
 */
module WebChecker {
  import opened Preferences
  import opened TextMatch

  /** What `Jsoup.connect(url).get().text()` produced: the page text, or an exception. */
  datatype Fetched = Page(text: string) | FetchFailed

  /** The value of `isStopped` at each checkpoint of a run. */
  datatype StopSignals = StopSignals(atStart: bool, afterConfig: bool, afterFetch: bool)

  /** `Result.success()` or `Result.failure()`; every early exit and every caught exception is `Failure`. */
  datatype WorkResult = Success | Failure

  datatype Effect =
    | Get(url: string)                          // the page download was started
    | Commit(count: Int32, foundAt: Int64)      // the single edit of "word_count" and "last_found_date"
    | Notify(count: Int32, foundAt: Int64)      // the notification was posted

  datatype Run = Run(result: WorkResult, store: Store, effects: seq<Effect>)

  /** Kotlin's `currentCount + 1` on `Int`, wrapping from the largest value to the smallest. */
  function Inc(c: Int32): (r: Int32)
    ensures c < MaxInt32 ==> r as int == c as int + 1
    ensures c == MaxInt32 ==> r as int == c as int + 1 - 0x1_0000_0000
  {
    if c == MaxInt32 then MinInt32 else c + 1
  }

  /** The puts of the edit made on a match. */
  function MatchEdit(count: Int32, now: Int64): (edit: Store)
    ensures edit.Keys == {WordCountKey, LastFoundDateKey}
    ensures edit[WordCountKey] == IntVal(count) && edit[LastFoundDateKey] == LongVal(now)
  {
    map[WordCountKey := IntVal(count), LastFoundDateKey := LongVal(now)]
  }

  /** The stored count as `getInt("word_count", 0)` sees it, when it is readable. */
  function CountOf(store: Store): (c: Int32)
    ensures WordCountKey in store && store[WordCountKey].IntVal? ==> c == store[WordCountKey].i
    ensures WordCountKey !in store ==> c == 0
  {
    if WordCountKey in store && store[WordCountKey].IntVal? then store[WordCountKey].i else 0
  }

  /**
   * The whole run as a function of the store it starts from and its inputs.
   * The flag is read once; the later flag tests use that same value.
   */
  function Check(store: Store, fetched: Fetched, now: Int64, stop: StopSignals, notifyThrows: bool): (run: Run)
    // the store changes only through the one match edit, and only when the trace shows it
    ensures |run.effects| <= 1 ==> run.store == store
    ensures |run.effects| >= 2 ==> run.store == store + MatchEdit(Inc(CountOf(store)), now)
    // the download is the first effect, and it is of the stored URL
    ensures |run.effects| <= 3
    ensures run.effects != [] ==>
      run.effects[0].Get? && UrlKey in store && store[UrlKey] == StrVal(run.effects[0].url)
    // the edit comes second and the notification last, carrying the count just stored
    ensures |run.effects| >= 2 ==> run.effects[1] == Commit(Inc(CountOf(store)), now)
    ensures |run.effects| == 3 ==> run.effects[2] == Notify(run.effects[1].count, now)
    ensures |run.effects| == 3 <==> run.result == Success && |run.effects| >= 2
    // a successful run always downloaded the page
    ensures run.result == Success ==> |run.effects| == 1 || |run.effects| == 3
    // a success without an edit is a downloaded page that does not contain the keyword
    ensures run.result == Success && |run.effects| == 1 ==>
      fetched.Page? && WordKey in store && store[WordKey].StrVal? && !ContainsIgnoreCase(fetched.text, store[WordKey].s)
    // the edit is made exactly when the run gets past every gate and the page contains the keyword
    ensures |run.effects| >= 2 <==>
      ReachesFetch(store, stop) && fetched.Page? && !stop.afterFetch
      && ContainsIgnoreCase(fetched.text, store[WordKey].s)
      && (WordCountKey !in store || store[WordCountKey].IntVal?)
  {
    var flag := GetString(store, SemaforoKey);
    if !flag.Got? then Run(Failure, store, [])
    else if stop.atStart || flag.v == Red then Run(Failure, store, [])
    else
      var url := GetString(store, UrlKey);
      var word := GetString(store, WordKey);
      if !url.Got? || !word.Got? then Run(Failure, store, [])
      else if stop.afterConfig || flag.v == Red then Run(Failure, store, [])
      else match fetched
        case FetchFailed => Run(Failure, store, [Get(url.v)])
        case Page(text) =>
          if stop.afterFetch || flag.v == Red then Run(Failure, store, [Get(url.v)])
          else if !ContainsIgnoreCase(text, word.v) then Run(Success, store, [Get(url.v)])
          else
            var current := GetInt(store, WordCountKey, 0);
            if !current.Got? then Run(Failure, store, [Get(url.v)])
            else
              var newCount := Inc(current.v);
              var edited := store + MatchEdit(newCount, now);
              if notifyThrows then Run(Failure, edited, [Get(url.v), Commit(newCount, now)])
              else Run(Success, edited, [Get(url.v), Commit(newCount, now), Notify(newCount, now)])
  }

  class WebCheckerWorker {
    const prefs: SharedPreferences

    constructor (prefs: SharedPreferences)
      ensures this.prefs == prefs
    {
      this.prefs := prefs;
    }

    /** `doWork`, with `isStopped` sampled at each checkpoint from `stop`. */
    method DoWork(fetched: Fetched, now: Int64, stop: StopSignals, notifyThrows: bool)
      returns (result: WorkResult, effects: seq<Effect>)
      modifies prefs
      ensures Run(result, prefs.entries, effects) == Check(old(prefs.entries), fetched, now, stop, notifyThrows)
    {
      effects := [];
      var flag := GetString(prefs.entries, SemaforoKey);
      if !flag.Got? {
        return Failure, effects;
      }
      var semaforo := flag.v;
      if stop.atStart || semaforo == Red {
        return Failure, effects;
      }

      var urlRead := GetString(prefs.entries, UrlKey);
      if !urlRead.Got? {
        return Failure, effects;
      }
      var url := urlRead.v;
      var wordRead := GetString(prefs.entries, WordKey);
      if !wordRead.Got? {
        return Failure, effects;
      }
      var word := wordRead.v;
      if stop.afterConfig || semaforo == Red {
        return Failure, effects;
      }

      effects := effects + [Get(url)];
      if fetched.FetchFailed? {
        return Failure, effects;
      }
      if stop.afterFetch || semaforo == Red {
        return Failure, effects;
      }

      if ContainsIgnoreCase(fetched.text, word) {
        var countRead := GetInt(prefs.entries, WordCountKey, 0);
        if !countRead.Got? {
          return Failure, effects;
        }
        var newCount := Inc(countRead.v);
        var lastFoundDate := now;
        prefs.Apply(MatchEdit(newCount, lastFoundDate));
        effects := effects + [Commit(newCount, lastFoundDate)];
        if notifyThrows {
          return Failure, effects;
        }
        effects := effects + [Notify(newCount, lastFoundDate)];
      }
      return Success, effects;
    }
  }

  // ---------------------------------------------------------------------------
  // Properties of a single run

  /** Without a "semaforo" entry nothing happens. */
  lemma MissingFlagFails(store: Store, fetched: Fetched, now: Int64, stop: StopSignals, notifyThrows: bool)
    requires SemaforoKey !in store
    ensures Check(store, fetched, now, stop, notifyThrows) == Run(Failure, store, [])
  {
  }

  /** Stopped at entry, or the flag is "R": failure before any download. */
  lemma StoppedAtStartFails(store: Store, fetched: Fetched, now: Int64, stop: StopSignals, notifyThrows: bool)
    requires stop.atStart || (SemaforoKey in store && store[SemaforoKey] == StrVal(Red))
    ensures Check(store, fetched, now, stop, notifyThrows) == Run(Failure, store, [])
  {
  }

  /** A missing URL or keyword fails before any download. */
  lemma MissingConfigFails(store: Store, fetched: Fetched, now: Int64, stop: StopSignals, notifyThrows: bool)
    requires UrlKey !in store || WordKey !in store
    ensures Check(store, fetched, now, stop, notifyThrows) == Run(Failure, store, [])
  {
  }

  /** The configuration a run reads before its download, and whether it gets that far. */
  predicate ReachesFetch(store: Store, stop: StopSignals)
  {
    && GetString(store, SemaforoKey).Got?
    && GetString(store, SemaforoKey).v != Red
    && GetString(store, UrlKey).Got?
    && GetString(store, WordKey).Got?
    && !stop.atStart && !stop.afterConfig
  }

  /** A run downloads the page exactly when the gates before the download let it through. */
  lemma FetchIffGatesPass(store: Store, fetched: Fetched, now: Int64, stop: StopSignals, notifyThrows: bool)
    ensures Check(store, fetched, now, stop, notifyThrows).effects != [] <==> ReachesFetch(store, stop)
  {
  }

  /** Any present flag other than the literal "R" (e.g. "V" or "") lets the run download the page. */
  lemma OnlyRedStops(store: Store, flag: string, fetched: Fetched, now: Int64, stop: StopSignals, notifyThrows: bool)
    requires flag != Red
    requires GetString(store, UrlKey).Got? && GetString(store, WordKey).Got?
    requires !stop.atStart && !stop.afterConfig
    ensures Check(store[SemaforoKey := StrVal(flag)], fetched, now, stop, notifyThrows).effects
         == [Get(store[UrlKey].s)] + Check(store[SemaforoKey := StrVal(flag)], fetched, now, stop, notifyThrows).effects[1..]
  {
  }

  /** Stopped after the download: failure, no edit, no notification, whatever the page says. */
  lemma StoppedAfterFetchFails(store: Store, text: string, now: Int64, stop: StopSignals, notifyThrows: bool)
    requires ReachesFetch(store, stop) && stop.afterFetch
    ensures Check(store, Page(text), now, stop, notifyThrows) == Run(Failure, store, [Get(store[UrlKey].s)])
  {
  }

  /** A failed download fails the run and leaves the store alone. */
  lemma FetchErrorFails(store: Store, now: Int64, stop: StopSignals, notifyThrows: bool)
    requires ReachesFetch(store, stop)
    ensures Check(store, FetchFailed, now, stop, notifyThrows) == Run(Failure, store, [Get(store[UrlKey].s)])
  {
  }

  /** No match: success, store unchanged, no notification. */
  lemma NoMatchSucceedsQuietly(store: Store, text: string, now: Int64, stop: StopSignals, notifyThrows: bool)
    requires ReachesFetch(store, stop) && !stop.afterFetch
    requires !ContainsIgnoreCase(text, store[WordKey].s)
    ensures Check(store, Page(text), now, stop, notifyThrows) == Run(Success, store, [Get(store[UrlKey].s)])
  {
  }

  /**
   * A match with a readable count: "word_count" becomes the old count (0 when
   * absent) plus one, "last_found_date" becomes `now`, no other key changes,
   * and the notification, posted after the edit, carries the new count.
   */
  lemma MatchCountsOnce(store: Store, text: string, now: Int64, stop: StopSignals)
    requires ReachesFetch(store, stop) && !stop.afterFetch
    requires ContainsIgnoreCase(text, store[WordKey].s)
    requires WordCountKey !in store || store[WordCountKey].IntVal?
    ensures var run := Check(store, Page(text), now, stop, false);
      && run.result == Success
      && run.store.Keys == store.Keys + {WordCountKey, LastFoundDateKey}
      && run.store[WordCountKey] == IntVal(Inc(CountOf(store)))
      && run.store[LastFoundDateKey] == LongVal(now)
      && (forall k :: k in store && k != WordCountKey && k != LastFoundDateKey ==> run.store[k] == store[k])
      && run.effects == [Get(store[UrlKey].s), Commit(Inc(CountOf(store)), now), Notify(Inc(CountOf(store)), now)]
      && run.effects[2].count == run.store[WordCountKey].i
  {
  }

  /** An exception while notifying still fails the run, but the edit it made stays. */
  lemma NotifyFailureKeepsEdit(store: Store, text: string, now: Int64, stop: StopSignals)
    requires ReachesFetch(store, stop) && !stop.afterFetch
    requires ContainsIgnoreCase(text, store[WordKey].s)
    requires WordCountKey !in store || store[WordCountKey].IntVal?
    ensures var run := Check(store, Page(text), now, stop, true);
      && run.result == Failure
      && run.store == store + MatchEdit(Inc(CountOf(store)), now)
      && run.effects == [Get(store[UrlKey].s), Commit(Inc(CountOf(store)), now)]
  {
  }

  /** A "word_count" of another type makes `getInt` throw: failure, nothing written. */
  lemma UnreadableCountFails(store: Store, text: string, now: Int64, stop: StopSignals, notifyThrows: bool)
    requires ReachesFetch(store, stop) && !stop.afterFetch
    requires ContainsIgnoreCase(text, store[WordKey].s)
    requires WordCountKey in store && !store[WordCountKey].IntVal?
    ensures Check(store, Page(text), now, stop, notifyThrows) == Run(Failure, store, [Get(store[UrlKey].s)])
  {
  }

  /** An empty keyword is accepted and matches every page. */
  lemma EmptyKeywordMatches(store: Store, text: string, now: Int64, stop: StopSignals)
    requires ReachesFetch(store, stop) && !stop.afterFetch
    requires store[WordKey] == StrVal("")
    requires WordCountKey !in store || store[WordCountKey].IntVal?
    ensures Check(store, Page(text), now, stop, false).result == Success
    ensures |Check(store, Page(text), now, stop, false).effects| == 3
  {
  }

  // ---------------------------------------------------------------------------
  // Several runs in a row against the same store

  /** The inputs of one tick. */
  datatype Tick = Tick(fetched: Fetched, now: Int64, stop: StopSignals, notifyThrows: bool)

  /** The store after running the ticks in order, and how many of them committed a match. */
  function RunAll(store: Store, ticks: seq<Tick>): (out: (Store, nat))
    decreases ticks
    ensures out.1 <= |ticks|
  {
    if ticks == [] then (store, 0)
    else
      var t := ticks[0];
      var run := Check(store, t.fetched, t.now, t.stop, t.notifyThrows);
      var rest := RunAll(run.store, ticks[1..]);
      (rest.0, rest.1 + if |run.effects| >= 2 then 1 else 0)
  }

  /** `n` successive Kotlin `Int` increments. */
  function IncBy(c: Int32, n: nat): Int32
    decreases n
  {
    if n == 0 then c else Inc(IncBy(c, n - 1))
  }

  lemma {:induction false} IncByAdds(c: Int32, m: nat, n: nat)
    decreases n
    ensures IncBy(IncBy(c, m), n) == IncBy(c, m + n)
  {
    if n > 0 {
      IncByAdds(c, m, n - 1);
    }
  }

  /** `n` increments add `n` modulo 2^32. */
  lemma {:induction false} IncByWraps(c: Int32, n: nat)
    decreases n
    ensures (IncBy(c, n) as int - c as int - n) % 0x1_0000_0000 == 0
  {
    if n > 0 {
      IncByWraps(c, n - 1);
      var before := IncBy(c, n - 1);
      assert (IncBy(c, n) as int - before as int - 1) % 0x1_0000_0000 == 0;
      CongruenceChains(IncBy(c, n) as int, before as int, c as int, 1, n - 1);
    }
  }

  /** Without reaching the Int maximum, `n` increments add exactly `n`. */
  lemma {:induction false} IncByExact(c: Int32, n: nat)
    decreases n
    requires c as int + n <= MaxInt32 as int
    ensures IncBy(c, n) as int == c as int + n
  {
    if n > 0 {
      IncByExact(c, n - 1);
    }
  }

  lemma CongruenceChains(a: int, b: int, c: int, m: int, n: int)
    requires (a - b - m) % 0x1_0000_0000 == 0 && (b - c - n) % 0x1_0000_0000 == 0
    ensures (a - c - (m + n)) % 0x1_0000_0000 == 0
  {
    var k := 0x1_0000_0000;
    assert a - b - m == k * ((a - b - m) / k);
    assert b - c - n == k * ((b - c - n) / k);
    assert a - c - (m + n) == k * ((a - b - m) / k + (b - c - n) / k);
  }

  /** One run moves a readable count by one exactly when it commits a match, and keeps it readable. */
  lemma OneRunCount(store: Store, t: Tick)
    requires WordCountKey !in store || store[WordCountKey].IntVal?
    ensures var run := Check(store, t.fetched, t.now, t.stop, t.notifyThrows);
      && (WordCountKey !in run.store || run.store[WordCountKey].IntVal?)
      && CountOf(run.store) == IncBy(CountOf(store), if |run.effects| >= 2 then 1 else 0)
  {
    var run := Check(store, t.fetched, t.now, t.stop, t.notifyThrows);
    if |run.effects| >= 2 {
      assert run.store[WordCountKey] == IntVal(Inc(CountOf(store)));
    }
  }

  /**
   * "word_count" counts the runs that committed a match: after any sequence
   * of runs it is the initial count incremented once per such run, however
   * often the keyword appeared on each page.
   */
  lemma {:induction false} CountIsNumberOfMatchingRuns(store: Store, ticks: seq<Tick>)
    decreases ticks
    requires WordCountKey !in store || store[WordCountKey].IntVal?
    ensures var (final, matches) := RunAll(store, ticks);
      && (WordCountKey !in final || final[WordCountKey].IntVal?)
      && CountOf(final) == IncBy(CountOf(store), matches)
  {
    if ticks != [] {
      var t := ticks[0];
      var run := Check(store, t.fetched, t.now, t.stop, t.notifyThrows);
      var step := if |run.effects| >= 2 then 1 else 0;
      OneRunCount(store, t);
      CountIsNumberOfMatchingRuns(run.store, ticks[1..]);
      var (final, rest) := RunAll(run.store, ticks[1..]);
      IncByAdds(CountOf(store), step, rest);
    }
  }

  /** Hence the count grows by the number of matching runs modulo 2^32, and exactly below the Int maximum. */
  lemma CountGrowsByMatches(store: Store, ticks: seq<Tick>)
    requires WordCountKey !in store || store[WordCountKey].IntVal?
    ensures var (final, matches) := RunAll(store, ticks);
      && (CountOf(final) as int - CountOf(store) as int - matches) % 0x1_0000_0000 == 0
      && (CountOf(store) as int + matches <= MaxInt32 as int ==> CountOf(final) as int == CountOf(store) as int + matches)
  {
    CountIsNumberOfMatchingRuns(store, ticks);
    var (final, matches) := RunAll(store, ticks);
    IncByWraps(CountOf(store), matches);
    if CountOf(store) as int + matches <= MaxInt32 as int {
      IncByExact(CountOf(store), matches);
    }
  }

  /**
   * Two matching runs, the second stopped between its download and its
   * match test: only the first increment is stored.
   */
  lemma StopBeforeSecondMatchKeepsOneIncrement(store: Store, text: string, t1: Int64, t2: Int64, stop: StopSignals)
    requires ReachesFetch(store, stop) && !stop.afterFetch
    requires ContainsIgnoreCase(text, store[WordKey].s)
    requires WordCountKey !in store || store[WordCountKey].IntVal?
    ensures var first := Check(store, Page(text), t1, stop, false);
      var second := Check(first.store, Page(text), t2, stop.(afterFetch := true), false);
      && second.result == Failure
      && second.store == first.store
      && second.store[WordCountKey] == IntVal(Inc(CountOf(store)))
      && second.store[LastFoundDateKey] == LongVal(t1)
  {
  }
}
