/** Revisioned publication of job snapshots (mdm-server/styly_mdm/push_runtime.py, `publish` and
    `_publication_loop`). Publishers and the loop interleave only where the loop waits. */
module Publication {
  import opened PushJobs

  /** `job` is the whole snapshot; only its identity and revision decide anything. */
  datatype Snapshot = Snapshot(jobId: JobId, revision: nat, job: string)

  datatype Loop = Waiting | Draining | Returned

  /** `offered` and `forwarded` are the history: what was passed to `publish`, and what the loop
      tried to forward, in that order. */
  datatype Board = Board(
    pending: map<JobId, Snapshot>, revisions: map<JobId, nat>, wake: bool, stopping: bool, loop: Loop,
    offered: seq<Snapshot>, forwarded: seq<Snapshot>)

  datatype Step = Publish(snapshot: Snapshot) | Stop | Wakes | Forward(jobId: JobId) | Rests

  const IDLE := Board(map[], map[], false, false, Waiting, [], [])

  function Published(b: Board, s: Snapshot): Board {
    var b := b.(offered := b.offered + [s]);
    if s.jobId in b.revisions && s.revision <= b.revisions[s.jobId] then b
    else b.(revisions := b.revisions[s.jobId := s.revision], pending := b.pending[s.jobId := s], wake := true)
  }

  /** `popitem` and the forward that follows it, delivered or not. */
  function Forwarded(b: Board, j: JobId): Board
    requires j in b.pending
  {
    b.(pending := b.pending - {j}, forwarded := b.forwarded + [b.pending[j]])
  }

  predicate Allowed(b: Board, step: Step) {
    match step
    case Publish(_) => true
    case Stop => true
    case Wakes => b.loop == Waiting && b.wake
    case Forward(j) => b.loop == Draining && j in b.pending
    case Rests => b.loop == Draining && b.pending == map[]
  }

  function Next(b: Board, step: Step): Board
    requires Allowed(b, step)
  {
    match step
    case Publish(s) => Published(b, s)
    case Stop => b.(stopping := true, wake := true)
    case Wakes => b.(wake := false, loop := Draining)
    case Forward(j) => Forwarded(b, j)
    case Rests => b.(loop := if b.stopping then Returned else Waiting)
  }

  ghost predicate Run(bs: seq<Board>, steps: seq<Step>) {
    && |bs| == |steps| + 1 && bs[0] == IDLE
    && forall i :: 0 <= i < |steps| ==> Allowed(bs[i], steps[i]) && bs[i + 1] == Next(bs[i], steps[i])
  }

  /** The last snapshot of a job in a history. */
  function LastOf(log: seq<Snapshot>, j: JobId): Option<Snapshot> {
    if log == [] then None
    else if log[|log| - 1].jobId == j then Some(log[|log| - 1])
    else LastOf(log[..|log| - 1], j)
  }

  ghost predicate Increasing(log: seq<Snapshot>) {
    forall a, b :: 0 <= a < b < |log| && log[a].jobId == log[b].jobId ==> log[a].revision < log[b].revision
  }

  /** `s` is one of the snapshots offered for its job, and none offered is newer. */
  ghost predicate NewestOffered(b: Board, s: Snapshot) {
    s in b.offered && forall o :: o in b.offered && o.jobId == s.jobId ==> o.revision <= s.revision
  }

  ghost predicate RevisionsKept(b: Board) {
    && (forall s :: s in b.offered ==> s.jobId in b.revisions && s.revision <= b.revisions[s.jobId])
    && (forall j :: j in b.revisions ==> exists s :: s in b.offered && s.jobId == j && s.revision == b.revisions[j])
  }

  ghost predicate PendingIsNewest(b: Board) {
    forall j :: j in b.pending ==>
      && b.pending[j].jobId == j && b.pending[j] in b.offered
      && j in b.revisions && b.pending[j].revision == b.revisions[j]
  }

  ghost predicate ForwardedSoFar(b: Board) {
    && Increasing(b.forwarded)
    && (forall s :: s in b.forwarded ==> s in b.offered && s.jobId in b.revisions && s.revision <= b.revisions[s.jobId])
    && (forall s :: s in b.forwarded && s.jobId in b.pending ==> s.revision < b.revisions[s.jobId])
    && (forall j :: j in b.revisions && j !in b.pending ==>
          LastOf(b.forwarded, j).Some? && LastOf(b.forwarded, j).value.revision == b.revisions[j])
  }

  ghost predicate Inv(b: Board) {
    && RevisionsKept(b) && PendingIsNewest(b) && ForwardedSoFar(b)
    && (b.pending != map[] ==> b.wake || b.loop != Waiting)
    && (b.loop == Returned ==> b.stopping)
  }

  lemma {:induction false} LastIsIn(log: seq<Snapshot>, j: JobId)
    ensures LastOf(log, j).Some? ==> LastOf(log, j).value in log && LastOf(log, j).value.jobId == j
  {
    if log != [] {
      LastIsIn(log[..|log| - 1], j);
    }
  }

  lemma LastAfter(log: seq<Snapshot>, s: Snapshot, j: JobId)
    ensures LastOf(log + [s], j) == if s.jobId == j then Some(s) else LastOf(log, j)
  {
    assert (log + [s])[..|log|] == log;
  }

  lemma OfferedAfter(b: Board, s: Snapshot)
    ensures forall o :: o in Published(b, s).offered <==> o in b.offered || o == s
  {
  }

  lemma PublishKeepsRevisions(b: Board, s: Snapshot)
    requires RevisionsKept(b)
    ensures RevisionsKept(Published(b, s))
  {
    var c := Published(b, s);
    OfferedAfter(b, s);
    forall j | j in c.revisions ensures exists o :: o in c.offered && o.jobId == j && o.revision == c.revisions[j] {
      if j in b.revisions && c.revisions[j] == b.revisions[j] {
        var o :| o in b.offered && o.jobId == j && o.revision == b.revisions[j];
        assert o in c.offered;
      } else {
        assert s in c.offered;
      }
    }
  }

  lemma PublishKeepsPending(b: Board, s: Snapshot)
    requires PendingIsNewest(b)
    ensures PendingIsNewest(Published(b, s))
  {
    OfferedAfter(b, s);
  }

  lemma PublishKeepsForwarded(b: Board, s: Snapshot)
    requires ForwardedSoFar(b)
    ensures ForwardedSoFar(Published(b, s))
  {
    hide LastOf;
    OfferedAfter(b, s);
  }

  lemma PublishKeepsInv(b: Board, s: Snapshot)
    requires Inv(b)
    ensures Inv(Published(b, s))
  {
    hide RevisionsKept, ForwardedSoFar, PendingIsNewest;
    PublishKeepsRevisions(b, s);
    PublishKeepsForwarded(b, s);
    PublishKeepsPending(b, s);
  }

  lemma ForwardKeepsInv(b: Board, j: JobId)
    requires Inv(b) && j in b.pending
    ensures Inv(Forwarded(b, j))
  {
    hide LastOf;
    var c, s := Forwarded(b, j), b.pending[j];
    forall i | i in c.revisions && i !in c.pending
      ensures LastOf(c.forwarded, i).Some? && LastOf(c.forwarded, i).value.revision == c.revisions[i]
    {
      LastAfter(b.forwarded, s, i);
    }
  }

  lemma {:induction false} RunsKeepInv(bs: seq<Board>, steps: seq<Step>, i: nat)
    requires Run(bs, steps) && i < |bs|
    ensures Inv(bs[i])
  {
    if i > 0 {
      RunsKeepInv(bs, steps, i - 1);
      var b, step := bs[i - 1], steps[i - 1];
      hide RevisionsKept, PendingIsNewest, ForwardedSoFar, Published;
      match step {
        case Publish(s) => PublishKeepsInv(b, s);
        case Forward(j) => ForwardKeepsInv(b, j);
        case _ => SameBoardKeepsInv(b, Next(b, step));
      }
    }
  }

  lemma SameBoardKeepsInv(b: Board, c: Board)
    requires Inv(b) && c == b.(wake := c.wake, stopping := c.stopping, loop := c.loop)
    requires (c.pending != map[] ==> c.wake || c.loop != Waiting) && (c.loop == Returned ==> c.stopping)
    ensures Inv(c)
  {
    hide LastOf;
  }

  /** For any interleaving, the revisions forwarded for a job strictly increase, and each was
      offered. */
  lemma ForwardedIncreases(bs: seq<Board>, steps: seq<Step>, i: nat)
    requires Run(bs, steps) && i < |bs|
    ensures Increasing(bs[i].forwarded) && forall s :: s in bs[i].forwarded ==> s in bs[i].offered
  {
    RunsKeepInv(bs, steps, i);
  }

  lemma NewestWhenDrained(b: Board, j: JobId)
    requires Inv(b) && b.pending == map[] && j in b.revisions
    ensures LastOf(b.forwarded, j).Some? && NewestOffered(b, LastOf(b.forwarded, j).value)
  {
    LastIsIn(b.forwarded, j);
  }

  /** No update is stranded: whenever nothing is pending, and in particular whenever the loop
      sleeps with no wake-up due, the last snapshot forwarded for a job is the newest ever offered
      for it. */
  lemma DrainedMeansNewest(bs: seq<Board>, steps: seq<Step>, i: nat, j: JobId)
    requires Run(bs, steps) && i < |bs|
    requires bs[i].pending == map[] || (bs[i].loop == Waiting && !bs[i].wake)
    requires exists s :: s in bs[i].offered && s.jobId == j
    ensures LastOf(bs[i].forwarded, j).Some? && NewestOffered(bs[i], LastOf(bs[i].forwarded, j).value)
  {
    RunsKeepInv(bs, steps, i);
    NewestWhenDrained(bs[i], j);
  }

  /** A wake-up is due exactly if a newer revision or the stop came since the loop last woke. */
  lemma WakesExactlyForNews(b: Board, step: Step)
    requires Allowed(b, step)
    ensures Next(b, step).wake <==>
      || (b.wake && step != Wakes) || step == Stop
      || (step.Publish?
          && (step.snapshot.jobId in b.revisions ==> b.revisions[step.snapshot.jobId] < step.snapshot.revision))
  {
  }

  /** The loop ends only when it was told to stop, and a drained loop that was told does end. */
  lemma LoopEndsWhenStopped(bs: seq<Board>, steps: seq<Step>, i: nat)
    requires Run(bs, steps) && i < |bs|
    ensures bs[i].loop == Returned ==> bs[i].stopping
    ensures i < |steps| && steps[i] == Rests ==>
      (bs[i + 1].loop == Returned <==> bs[i].stopping) && bs[i].pending == map[]
  {
    RunsKeepInv(bs, steps, i);
  }

  function Flatten(lists: seq<seq<Snapshot>>): seq<Snapshot> {
    if lists == [] then [] else Flatten(lists[..|lists| - 1]) + lists[|lists| - 1]
  }

  /** The runtime's own fields. */
  class Publisher {
    var pendingPublications: map<JobId, Snapshot>
    var publicationRevisions: map<JobId, nat>
    var publicationWake: bool
    var publicationStopping: bool
    var loop: Loop
    var offered: seq<Snapshot>
    var forwarded: seq<Snapshot>

    function Contents(): Board
      reads this
    {
      Board(pendingPublications, publicationRevisions, publicationWake, publicationStopping, loop, offered, forwarded)
    }

    constructor ()
      ensures Contents() == IDLE
    {
      pendingPublications, publicationRevisions := map[], map[];
      publicationWake, publicationStopping, loop := false, false, Waiting;
      offered, forwarded := [], [];
    }

    method Publish(snapshot: Snapshot)
      modifies this`pendingPublications, this`publicationRevisions, this`publicationWake, this`offered
      ensures Contents() == Published(old(Contents()), snapshot)
    {
      offered := offered + [snapshot];
      if snapshot.jobId in publicationRevisions && snapshot.revision <= publicationRevisions[snapshot.jobId] {
        return;
      }
      publicationRevisions := publicationRevisions[snapshot.jobId := snapshot.revision];
      pendingPublications := pendingPublications[snapshot.jobId := snapshot];
      publicationWake := true;
    }

    method PublishAll(list: seq<Snapshot>)
      requires Inv(Contents()) && loop == Draining
      modifies this`pendingPublications, this`publicationRevisions, this`publicationWake, this`offered
      ensures Inv(Contents()) && offered == old(offered) + list
    {
      hide Inv, Published;
      for i := 0 to |list|
        invariant Inv(Contents()) && loop == Draining && offered == old(offered) + list[..i]
      {
        PublishKeepsInv(Contents(), list[i]);
        OffersOne(Contents(), list[i]);
        Publish(list[i]);
      }
    }

    /** `popitem` and the forward. */
    method ForwardOne()
      requires Inv(Contents()) && pendingPublications != map[]
      modifies this`pendingPublications, this`forwarded
      ensures Inv(Contents()) && |pendingPublications| < |old(pendingPublications)| && old(forwarded) <= forwarded
    {
      hide Inv;
      var j :| j in pendingPublications;
      ForwardKeepsInv(Contents(), j);
      forwarded := forwarded + [pendingPublications[j]];
      pendingPublications := pendingPublications - {j};
    }

    /** One pass of the loop. `arrivals[n]` is what others publish while it awaits its n-th
        forward. The pass ends with nothing pending, and what it forwarded last for each job is
        then the newest offered, by whomever and whenever. */
    method Drain(arrivals: seq<seq<Snapshot>>) returns (seen: nat)
      requires loop == Waiting && publicationWake && Inv(Contents())
      modifies this
      ensures seen <= |arrivals| && offered == old(offered) + Flatten(arrivals[..seen])
      ensures Inv(Contents()) && pendingPublications == map[] && publicationStopping == old(publicationStopping)
      ensures loop == if publicationStopping then Returned else Waiting
      ensures old(forwarded) <= forwarded
      ensures forall j :: j in publicationRevisions ==>
        LastOf(forwarded, j).Some? && NewestOffered(Contents(), LastOf(forwarded, j).value)
    {
      hide Inv, LastOf, NewestOffered, Flatten;
      publicationWake := false;
      loop := Draining;
      SameBoardKeepsInv(old(Contents()), Contents());
      seen := 0;
      FlattenOne(arrivals, 0);
      while pendingPublications != map[]
        invariant seen <= |arrivals| && offered == old(offered) + Flatten(arrivals[..seen])
        invariant Inv(Contents()) && loop == Draining && publicationStopping == old(publicationStopping)
        invariant old(forwarded) <= forwarded
        decreases |arrivals| - seen, |pendingPublications|
      {
        ForwardOne();
        if seen < |arrivals| {
          FlattenOne(arrivals, seen);
          PublishAll(arrivals[seen]);
          seen := seen + 1;
        }
      }
      ghost var drained := Contents();
      loop := if publicationStopping then Returned else Waiting;
      SameBoardKeepsInv(drained, Contents());
      forall j | j in publicationRevisions
        ensures LastOf(forwarded, j).Some? && NewestOffered(Contents(), LastOf(forwarded, j).value)
      {
        NewestWhenDrained(Contents(), j);
      }
    }
  }

  lemma FlattenOne(lists: seq<seq<Snapshot>>, n: nat)
    ensures Flatten(lists[..0]) == []
    ensures n < |lists| ==> Flatten(lists[..n + 1]) == Flatten(lists[..n]) + lists[n]
  {
    if n < |lists| {
      assert lists[..n + 1][..n] == lists[..n];
    }
  }

  lemma OffersOne(b: Board, s: Snapshot)
    ensures Published(b, s).offered == b.offered + [s] && Published(b, s).loop == b.loop
  {
  }
}
