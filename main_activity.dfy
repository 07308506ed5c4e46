/**
 * The start/stop screen: the On and Off buttons, `stopWork`, the frequency
 * selector and the two text fields. The activity shares the preference
 * store with the worker and drives the scheduler.
 */
module Activity {
  import opened Preferences
  import opened WorkManagement
  import opened WebChecker
  import opened TextMatch

  /** The frequency selector's choice to minutes; an unknown choice falls back to 15. */
  function IntervalMinutes(choice: string): (m: int)
    ensures m == 10 || m == 15 || m == 30 || m == 60
    ensures m == 10 <==> choice == "10 minutos"
    ensures m == 30 <==> choice == "30 minutos"
    ensures m == 60 <==> choice == "1 hora"
  {
    match choice
    case "10 minutos" => 10
    case "30 minutos" => 30
    case "1 hora" => 60
    case _ => 15
  }

  /** The store writes and scheduler calls the activity issues, in order. */
  datatype Call =
    | PutString(key: string, value: string)
    | CancelAllWorkByTag(tag: string)
    | Enqueue(request: WorkRequest)
    | CancelWorkById(id: JobId)
    | PruneWork

  /** The request the On button builds. */
  function OnRequest(tag: string, choice: string, id: JobId): WorkRequest
  {
    WorkRequest(id, {tag}, IntervalMinutes(choice))
  }

  /** The scheduler's table after the On button: cancel by tag, then enqueue. */
  function JobsAfterOn(jobs: Jobs, tag: string, choice: string, id: JobId): Jobs
  {
    WithEnqueued(CancelledByTag(jobs, tag), OnRequest(tag, choice, id))
  }

  /** The scheduler's table after `stopWork`: cancel by id, then prune. */
  function JobsAfterStop(jobs: Jobs, id: JobId): Jobs
  {
    Pruned(CancelledById(jobs, id))
  }

  /**
   * After On exactly one enqueued job carries the tag: the new one, with the
   * chosen interval. Jobs without the tag are left as they were.
   */
  lemma OnLeavesOneTaggedJob(jobs: Jobs, tag: string, choice: string, id: JobId)
    ensures var r := JobsAfterOn(jobs, tag, choice, id);
      && ActiveWithTag(r, tag) == {id}
      && r[id].intervalMinutes == IntervalMinutes(choice)
      && (forall other :: other in jobs && other != id && tag !in jobs[other].tags ==> r[other] == jobs[other])
  {
  }

  /** `stopWork` cancels only the job `id`: every other enqueued job survives the prune unchanged. */
  lemma StopWorkCancelsOnlyWorkId(jobs: Jobs, id: JobId)
    ensures var r := JobsAfterStop(jobs, id);
      && id !in r
      && (forall other :: other in jobs && other != id && jobs[other].state == Enqueued ==> other in r && r[other] == jobs[other])
      && (forall other :: other in r ==> other in jobs && r[other].state == Enqueued)
  {
  }

  /** On followed by Off on the same activity leaves no enqueued job with the tag. */
  lemma OnThenOffLeavesNoTaggedJob(jobs: Jobs, tag: string, choice: string, id: JobId)
    ensures ActiveWithTag(JobsAfterStop(JobsAfterOn(jobs, tag, choice, id), id), tag) == {}
  {
  }

  /** After Off, the worker's next run stops at its first checkpoint. */
  lemma OffStopsNextRun(store: Store, fetched: Fetched, now: Int64, stop: StopSignals, notifyThrows: bool)
    ensures var s := store[SemaforoKey := StrVal(Red)];
      Check(s, fetched, now, stop, notifyThrows) == Run(Failure, s, [])
  {
  }

  /** After On, a run with URL and keyword set and no stop signal downloads the page. */
  lemma OnLetsRunFetch(store: Store, url: string, word: string, stop: StopSignals)
    requires !stop.atStart && !stop.afterConfig
    ensures ReachesFetch(store[UrlKey := StrVal(url)][WordKey := StrVal(word)][SemaforoKey := StrVal(Green)], stop)
  {
  }

  class MainActivity {
    /** The tag every scheduled check carries. */
    const workTag: string := "WebCheckerWork"
    /** The id of the last request this activity enqueued (initially a random id). */
    var workId: JobId
    /** The activity's own copy of the run flag. */
    var semaforo: string
    const prefs: SharedPreferences
    const workManager: WorkManager
    ghost var calls: seq<Call>

    constructor (prefs: SharedPreferences, workManager: WorkManager, initialWorkId: JobId)
      ensures this.prefs == prefs && this.workManager == workManager
      ensures workId == initialWorkId && semaforo == Red && calls == []
    {
      this.prefs := prefs;
      this.workManager := workManager;
      workId := initialWorkId;
      semaforo := Red;
      calls := [];
    }

    /** The On button, with the selector's choice and the id the new request is built with. */
    method OnClicked(selectedLabel: string, requestId: JobId)
      modifies this, prefs, workManager
      ensures semaforo == Green && workId == requestId
      ensures prefs.entries == old(prefs.entries)[SemaforoKey := StrVal(Green)]
      ensures workManager.jobs == JobsAfterOn(old(workManager.jobs), workTag, selectedLabel, requestId)
      ensures calls == old(calls) + [PutString(SemaforoKey, Green), CancelAllWorkByTag(workTag),
                                     Enqueue(OnRequest(workTag, selectedLabel, requestId))]
    {
      semaforo := Green;
      prefs.PutString(SemaforoKey, semaforo);
      calls := calls + [PutString(SemaforoKey, semaforo)];

      var intervalMinutes := IntervalMinutes(selectedLabel);

      workManager.CancelAllWorkByTag(workTag);
      calls := calls + [CancelAllWorkByTag(workTag)];

      var workRequest := WorkRequest(requestId, {workTag}, intervalMinutes);
      workManager.Enqueue(workRequest);
      calls := calls + [Enqueue(workRequest)];

      workId := workRequest.id;
    }

    /** The Off button. */
    method OffClicked()
      modifies this, prefs, workManager
      ensures semaforo == Red && workId == old(workId)
      ensures prefs.entries == old(prefs.entries)[SemaforoKey := StrVal(Red)]
      ensures workManager.jobs == JobsAfterStop(old(workManager.jobs), workId)
      ensures calls == old(calls) + [PutString(SemaforoKey, Red), CancelWorkById(workId), PruneWork]
    {
      semaforo := Red;
      prefs.PutString(SemaforoKey, semaforo);
      calls := calls + [PutString(SemaforoKey, semaforo)];
      StopWork();
    }

    /** `stopWork`: cancel the remembered job, then prune. */
    method StopWork()
      modifies this`calls, workManager
      ensures workManager.jobs == JobsAfterStop(old(workManager.jobs), workId)
      ensures calls == old(calls) + [CancelWorkById(workId), PruneWork]
    {
      workManager.CancelWorkById(workId);
      calls := calls + [CancelWorkById(workId)];
      workManager.PruneWork();
      calls := calls + [PruneWork];
    }

    /** The URL field's `afterTextChanged`. */
    method UrlChanged(text: string)
      modifies this`calls, prefs
      ensures prefs.entries == old(prefs.entries)[UrlKey := StrVal(text)]
      ensures calls == old(calls) + [PutString(UrlKey, text)]
    {
      prefs.PutString(UrlKey, text);
      calls := calls + [PutString(UrlKey, text)];
    }

    /** The keyword field's `afterTextChanged`. */
    method WordChanged(text: string)
      modifies this`calls, prefs
      ensures prefs.entries == old(prefs.entries)[WordKey := StrVal(text)]
      ensures calls == old(calls) + [PutString(WordKey, text)]
    {
      prefs.PutString(WordKey, text);
      calls := calls + [PutString(WordKey, text)];
    }
  }

  /** A fresh store after the user has typed the URL and the keyword and pressed On. */
  function Configured(url: string, word: string): Store
  {
    map[][UrlKey := StrVal(url)][WordKey := StrVal(word)][SemaforoKey := StrVal(Green)]
  }

  /** On that store, a run whose page contains the keyword counts the first match and notifies with 1. */
  lemma FirstMatchOnFreshStore(url: string, word: string, text: string, now: Int64)
    requires ContainsIgnoreCase(text, word)
    ensures var s := Configured(url, word);
      Check(s, Page(text), now, StopSignals(false, false, false), false)
        == Run(Success, s + MatchEdit(1, now), [Get(url), Commit(1, now), Notify(1, now)])
  {
    var s := Configured(url, word);
    KeysDistinct();
    OnLetsRunFetch(map[], url, word, StopSignals(false, false, false));
    assert CountOf(s) == 0 && s[UrlKey].s == url && s[WordKey].s == word;
    MatchCountsOnce(s, text, now, StopSignals(false, false, false));
  }

  /**
   * One session over a fresh store and scheduler: the user types the URL and
   * the keyword, picks a frequency and presses On; a tick finds the keyword;
   * the user presses Off; the next tick stops at once.
   */
  method Session(url: string, word: string, choice: string, text: string, now: Int64, later: Int64)
    returns (first: WorkResult, firstEffects: seq<Effect>, second: WorkResult, secondEffects: seq<Effect>,
             remaining: set<JobId>)
    requires ContainsIgnoreCase(text, word)
    ensures first == Success && firstEffects == [Get(url), Commit(1, now), Notify(1, now)]
    ensures second == Failure && secondEffects == []
    ensures remaining == {}
  {
    var prefs := new SharedPreferences(map[]);
    var workManager := new WorkManager();
    var activity := new MainActivity(prefs, workManager, 0);
    var worker := new WebCheckerWorker(prefs);
    var running := StopSignals(false, false, false);
    FirstMatchOnFreshStore(url, word, text, now);

    activity.UrlChanged(url);
    activity.WordChanged(word);
    activity.OnClicked(choice, 1);
    assert prefs.entries == Configured(url, word);
    first, firstEffects := worker.DoWork(Page(text), now, running, false);

    ghost var afterMatch := prefs.entries;
    activity.OffClicked();
    OnThenOffLeavesNoTaggedJob(map[], activity.workTag, choice, 1);
    remaining := ActiveWithTag(workManager.jobs, activity.workTag);

    OffStopsNextRun(afterMatch, Page(text), later, running, false);
    second, secondEffects := worker.DoWork(Page(text), later, running, false);
  }
}
