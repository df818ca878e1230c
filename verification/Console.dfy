/** How the console page merges snapshots and updates of one socket
    (mdm-server/styly_mdm/static/push-jobs-v1.js). Entries that are no valid job are None. */
module Console {
  import opened PushJobs
  import opened Publication

  datatype Message = Jobs(jobs: seq<Option<Snapshot>>) | Updated(job: Option<Snapshot>)

  datatype View = View(jobs: map<JobId, Snapshot>, buffered: map<JobId, Snapshot>, awaiting: bool)

  /** Keep what is shown unless `s` is strictly newer. */
  function Newer(shown: map<JobId, Snapshot>, s: Option<Snapshot>): map<JobId, Snapshot> {
    if s.None? || (s.value.jobId in shown && shown[s.value.jobId].revision >= s.value.revision) then shown
    else shown[s.value.jobId := s.value]
  }

  function NewerAll(shown: map<JobId, Snapshot>, list: seq<Option<Snapshot>>): map<JobId, Snapshot> {
    if list == [] then shown else Newer(NewerAll(shown, list[..|list| - 1]), list[|list| - 1])
  }

  /** A job of `b` replaces the one of `a` only if strictly newer. */
  function Merged(a: map<JobId, Snapshot>, b: map<JobId, Snapshot>): map<JobId, Snapshot> {
    map j | j in a.Keys + b.Keys :: if j in a && (j !in b || a[j].revision >= b[j].revision) then a[j] else b[j]
  }

  function Connected(v: View): View {
    v.(buffered := map[], awaiting := true)
  }

  function Observed(v: View, msg: Message): View {
    match msg
    case Jobs(list) => View(Merged(NewerAll(map[], list), v.buffered), map[], false)
    case Updated(s) => if v.awaiting then v.(buffered := Newer(v.buffered, s)) else v.(jobs := Newer(v.jobs, s))
  }

  function After(v: View, msgs: seq<Message>): View {
    if msgs == [] then v else Observed(After(v, msgs[..|msgs| - 1]), msgs[|msgs| - 1])
  }

  // ---- What has been received ----

  function Valid(list: seq<Option<Snapshot>>): set<Snapshot> {
    set s | s in list && s.Some? :: s.value
  }

  function In(msg: Message): set<Snapshot> {
    if msg.Jobs? then Valid(msg.jobs) else Valid([msg.job])
  }

  function Received(msgs: seq<Message>): set<Snapshot> {
    if msgs == [] then {} else Received(msgs[..|msgs| - 1]) + In(msgs[|msgs| - 1])
  }

  function Lists(msgs: seq<Message>): nat {
    if msgs == [] then 0 else Lists(msgs[..|msgs| - 1]) + (if msgs[|msgs| - 1].Jobs? then 1 else 0)
  }

  /** What the page may show: everything, except that a second or later list starts afresh. */
  function Counted(msgs: seq<Message>): set<Snapshot> {
    if msgs == [] then {}
    else
      var front, msg := msgs[..|msgs| - 1], msgs[|msgs| - 1];
      if msg.Jobs? && Lists(front) > 0 then In(msg) else Counted(front) + In(msg)
  }

  /** `shown` holds exactly the jobs of `log`, each at the largest revision found there. */
  ghost predicate NewestOf(shown: map<JobId, Snapshot>, log: set<Snapshot>) {
    && (forall s :: s in log ==> s.jobId in shown && s.revision <= shown[s.jobId].revision)
    && (forall j :: j in shown ==> shown[j].jobId == j && shown[j] in log)
  }

  lemma NewerIsNewest(shown: map<JobId, Snapshot>, s: Option<Snapshot>, log: set<Snapshot>)
    requires NewestOf(shown, log)
    ensures NewestOf(Newer(shown, s), log + Valid([s]))
    ensures s.Some? && s.value.jobId in shown && s.value.revision <= shown[s.value.jobId].revision ==>
      Newer(shown, s) == shown
  {
    assert s.Some? ==> Valid([s]) == {s.value};
    assert s.None? ==> Valid([s]) == {};
  }

  lemma {:induction false} NewerAllIsNewest(list: seq<Option<Snapshot>>)
    ensures NewestOf(NewerAll(map[], list), Valid(list))
  {
    if list != [] {
      var front, s := list[..|list| - 1], list[|list| - 1];
      NewerAllIsNewest(front);
      NewerIsNewest(NewerAll(map[], front), s, Valid(front));
      assert forall o :: o in list <==> o in front || o == s;
      assert Valid(list) == Valid(front) + Valid([s]);
    }
  }

  lemma MergedIsNewest(a: map<JobId, Snapshot>, b: map<JobId, Snapshot>, l: set<Snapshot>, r: set<Snapshot>)
    requires NewestOf(a, l) && NewestOf(b, r)
    ensures NewestOf(Merged(a, b), r + l)
    ensures forall j :: j in a && j in b && b[j].revision <= a[j].revision ==> Merged(a, b)[j] == a[j]
  {
  }

  /** While the first list is awaited the page keeps what it showed and the buffer holds the
      newest of what came; afterwards the page shows the newest of what counts. */
  lemma {:induction false} ShowsTheNewest(v: View, msgs: seq<Message>)
    ensures var w := After(Connected(v), msgs);
      && (w.awaiting <==> Lists(msgs) == 0)
      && (w.awaiting ==> w.jobs == v.jobs && NewestOf(w.buffered, Counted(msgs)))
      && (!w.awaiting ==> w.buffered == map[] && NewestOf(w.jobs, Counted(msgs)))
  {
    hide NewestOf, Valid, Newer, NewerAll, Merged;
    if msgs == [] {
      NoneIsNewest();
    } else {
      var front, msg := msgs[..|msgs| - 1], msgs[|msgs| - 1];
      ShowsTheNewest(v, front);
      var w := After(Connected(v), front);
      match msg {
        case Updated(s) => NewerIsNewest(if w.awaiting then w.buffered else w.jobs, s, Counted(front));
        case Jobs(list) =>
          NewerAllIsNewest(list);
          if w.awaiting {
            MergedIsNewest(NewerAll(map[], list), w.buffered, Valid(list), Counted(front));
          } else {
            MergedWithNone(NewerAll(map[], list));
          }
      }
    }
  }

  lemma NoneIsNewest()
    ensures NewestOf(map[], {})
  {
  }

  lemma MergedWithNone(a: map<JobId, Snapshot>)
    ensures Merged(a, map[]) == a
  {
  }

  lemma {:induction false} OneListCountsAll(msgs: seq<Message>)
    requires Lists(msgs) <= 1
    ensures Counted(msgs) == Received(msgs)
  {
    if msgs != [] {
      OneListCountsAll(msgs[..|msgs| - 1]);
    }
  }

  /** On one socket, in whatever order its list and its updates arrive, the page ends with exactly
      the jobs received, each at the largest revision received for it. */
  lemma OneSocketConverges(v: View, msgs: seq<Message>)
    requires Lists(msgs) == 1
    ensures NewestOf(After(Connected(v), msgs).jobs, Received(msgs))
  {
    ShowsTheNewest(v, msgs);
    OneListCountsAll(msgs);
  }

  /** With several lists the same holds exactly when no job received earlier is missing from, or
      newer than all of, what came with the last list and after it. */
  lemma SeveralListsConvergeExactlyWhen(v: View, msgs: seq<Message>)
    requires Lists(msgs) >= 1
    ensures NewestOf(After(Connected(v), msgs).jobs, Received(msgs))
       <==> forall s :: s in Received(msgs) ==>
         exists t :: t in Counted(msgs) && t.jobId == s.jobId && s.revision <= t.revision
  {
    hide After, NewestOf, Counted, Received;
    ShowsTheNewest(v, msgs);
    CountedIsReceived(msgs);
    NewestOfMore(After(Connected(v), msgs).jobs, Counted(msgs), Received(msgs));
  }

  lemma NewestOfMore(shown: map<JobId, Snapshot>, log: set<Snapshot>, more: set<Snapshot>)
    requires NewestOf(shown, log) && log <= more
    ensures NewestOf(shown, more) <==> forall s :: s in more ==>
      exists t :: t in log && t.jobId == s.jobId && s.revision <= t.revision
  {
    if NewestOf(shown, more) {
      forall s | s in more ensures exists t :: t in log && t.jobId == s.jobId && s.revision <= t.revision {
        assert shown[s.jobId] in log;
      }
    }
  }

  lemma {:induction false} CountedIsReceived(msgs: seq<Message>)
    ensures Counted(msgs) <= Received(msgs)
  {
    if msgs != [] {
      CountedIsReceived(msgs[..|msgs| - 1]);
    }
  }

  /** `r` is `a` with the jobs of `b` merged in, except those still in `left`. */
  ghost predicate MergedOn(a: map<JobId, Snapshot>, b: map<JobId, Snapshot>, left: set<JobId>,
                           r: map<JobId, Snapshot>) {
    && r.Keys == a.Keys + (b.Keys - left)
    && forall j :: j in r ==>
         r[j] == if j in a && (j !in b || j in left || a[j].revision >= b[j].revision) then a[j] else b[j]
  }

  lemma MergedOnNone(a: map<JobId, Snapshot>, b: map<JobId, Snapshot>)
    ensures MergedOn(a, b, b.Keys, a)
  {
  }

  lemma MergedOnOne(a: map<JobId, Snapshot>, b: map<JobId, Snapshot>, left: set<JobId>, j: JobId,
                    before: map<JobId, Snapshot>, after: map<JobId, Snapshot>)
    requires MergedOn(a, b, left, before) && j in left && left <= b.Keys
    requires after == if j !in before || before[j].revision < b[j].revision then before[j := b[j]] else before
    ensures MergedOn(a, b, left - {j}, after)
  {
    assert after.Keys == before.Keys + {j};
  }

  lemma MergedOnAll(a: map<JobId, Snapshot>, b: map<JobId, Snapshot>, r: map<JobId, Snapshot>)
    requires MergedOn(a, b, {}, r)
    ensures r == Merged(a, b)
  {
    assert r.Keys == Merged(a, b).Keys;
  }

  /** The page's own variables. */
  class Page {
    var pushJobs: map<JobId, Snapshot>
    var bufferedUpdates: map<JobId, Snapshot>
    var awaitingInitialSnapshot: bool

    function Contents(): View
      reads this
    {
      View(pushJobs, bufferedUpdates, awaitingInitialSnapshot)
    }

    constructor ()
      ensures Contents() == View(map[], map[], false)
    {
      pushJobs, bufferedUpdates, awaitingInitialSnapshot := map[], map[], false;
    }

    method OpenSocket()
      modifies this
      ensures Contents() == Connected(old(Contents()))
    {
      awaitingInitialSnapshot := true;
      bufferedUpdates := map[];
    }

    method ApplyJob(job: Option<Snapshot>)
      modifies this`pushJobs
      ensures pushJobs == Newer(old(pushJobs), job)
    {
      if job.None? || (job.value.jobId in pushJobs && pushJobs[job.value.jobId].revision >= job.value.revision) {
        return;
      }
      pushJobs := pushJobs[job.value.jobId := job.value];
    }

    method BufferJob(job: Option<Snapshot>)
      modifies this`bufferedUpdates
      ensures bufferedUpdates == Newer(old(bufferedUpdates), job)
    {
      if job.None? {
        return;
      }
      if job.value.jobId !in bufferedUpdates || bufferedUpdates[job.value.jobId].revision < job.value.revision {
        bufferedUpdates := bufferedUpdates[job.value.jobId := job.value];
      }
    }

    method ReplaceJobs(jobs: seq<Option<Snapshot>>)
      modifies this`pushJobs, this`bufferedUpdates
      ensures pushJobs == Merged(NewerAll(map[], jobs), old(bufferedUpdates)) && bufferedUpdates == map[]
    {
      var replacement: map<JobId, Snapshot> := map[];
      for i := 0 to |jobs|
        invariant replacement == NewerAll(map[], jobs[..i])
      {
        assert jobs[..i + 1][..i] == jobs[..i];
        var job := jobs[i];
        if job.Some?
           && (job.value.jobId !in replacement || replacement[job.value.jobId].revision < job.value.revision) {
          replacement := replacement[job.value.jobId := job.value];
        }
      }
      assert jobs[..|jobs|] == jobs;
      var merged := MergeBuffered(replacement);
      bufferedUpdates := map[];
      pushJobs := merged;
    }

    /** The second loop of `replaceJobs`. */
    method MergeBuffered(listed: map<JobId, Snapshot>) returns (replacement: map<JobId, Snapshot>)
      ensures replacement == Merged(listed, bufferedUpdates)
    {
      hide MergedOn;
      replacement := listed;
      var buffered := bufferedUpdates;
      var left := buffered.Keys;
      MergedOnNone(listed, buffered);
      while left != {}
        invariant left <= buffered.Keys && MergedOn(listed, buffered, left, replacement)
        decreases |left|
      {
        var j :| j in left;
        ghost var before := replacement;
        if j !in replacement || replacement[j].revision < buffered[j].revision {
          replacement := replacement[j := buffered[j]];
        }
        MergedOnOne(listed, buffered, left, j, before, replacement);
        left := left - {j};
      }
      MergedOnAll(listed, buffered, replacement);
    }

    method ObserveMessage(msg: Message, current: bool)
      modifies this
      ensures Contents() == if current then Observed(old(Contents()), msg) else old(Contents())
    {
      if !current {
        return;
      }
      match msg {
        case Jobs(jobs) =>
          ReplaceJobs(jobs);
          awaitingInitialSnapshot := false;
        case Updated(job) =>
          if awaitingInitialSnapshot {
            BufferJob(job);
          } else {
            ApplyJob(job);
          }
      }
    }
  }
}
