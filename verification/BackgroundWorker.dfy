/** The shared background AI worker. */
module BackgroundWorker {
  import opened Options
  import opened RequestHeap

  // One asyncio task pops jobs off a heap and awaits them one after the other, while any
  // number of coroutines push jobs and wait for their futures. Control changes hands only at
  // an `await`, so each stretch between two awaits is one atomic event.

  datatype Work = Work(lane: string, key: Option<string>)

  type Job = Entry<Work>

  datatype Runner =
    | NotCreated
    | Ready            // created, not yet scheduled
    | Waiting          // inside `queue_changed.wait()`
    | Working(job: Job)

  datatype Future = Pending | Resolved(raised: bool) | Cancelled

  /** `jobs`, `started`, `finished`, `resolutions` and `raised` are the observer's record of
      all submissions, pops, completions, settings of a future, and whether a job's work
      raised. */
  datatype State = State(
    queue: multiset<Job>,
    eventSet: bool,
    runner: Runner,
    counter: nat,
    futures: map<nat, Future>,
    jobs: map<nat, Job>,
    started: seq<nat>,
    finished: seq<nat>,
    resolutions: seq<nat>,
    raised: map<nat, bool>)

  /** `next` is the job popped when the runner reaches the head of its loop, or `None`
      when it finds the queue empty. */
  datatype Event =
    | RunItem(priority: int, work: Work)
    | Resume(next: Option<Job>)
    | Complete(raised: bool, next: Option<Job>)
    | CancelCaller(job: nat)

  function Initial(): State {
    State(multiset{}, false, NotCreated, 0, map[], map[], [], [], [], map[])
  }

  /** The pop takes a minimum whenever there is anything to take. */
  ghost predicate RightChoice(q: multiset<Job>, next: Option<Job>) {
    if q == multiset{} then next.None? else next.Some? && IsMin(q, next.value)
  }

  ghost predicate Enabled(s: State, e: Event) {
    match e
    case RunItem(_, _) => true
    case Resume(next) => (s.runner.Ready? || (s.runner.Waiting? && s.eventSet)) && RightChoice(s.queue, next)
    case Complete(_, next) => s.runner.Working? && RightChoice(s.queue, next)
    case CancelCaller(k) => k in s.futures && s.futures[k].Pending?
  }

  /** The head of the runner's loop: clear the event and wait, or start the next job. */
  ghost function Dispatch(s: State, next: Option<Job>): State {
    match next
    case None => s.(eventSet := false, runner := Waiting)
    case Some(j) => s.(queue := s.queue - multiset{j}, runner := Working(j), started := s.started + [j.order])
  }

  function Settle(s: State, k: nat, raised: bool): State
  {
    if k in s.futures && s.futures[k].Pending? then
      s.(futures := s.futures[k := Resolved(raised)], resolutions := s.resolutions + [k])
    else
      s
  }

  function Submit(s: State, priority: int, work: Work): State {
    var j := Entry(priority, s.counter, work);
    s.(queue := s.queue + multiset{j},
       eventSet := true,
       runner := if s.runner.NotCreated? then Ready else s.runner,
       counter := s.counter + 1,
       futures := s.futures[s.counter := Pending],
       jobs := s.jobs[s.counter := j])
  }

  /** The current job is recorded as finished and its future settled. */
  function AfterCompletion(s: State, raised: bool): State
    requires s.runner.Working?
  {
    var k := s.runner.job.order;
    Settle(s, k, raised).(finished := s.finished + [k], raised := s.raised[k := raised])
  }

  ghost function Step(s: State, e: Event): State
    requires Enabled(s, e)
  {
    match e
    case RunItem(p, w) => Submit(s, p, w)
    case Resume(next) => Dispatch(s, next)
    case Complete(raised, next) => Dispatch(AfterCompletion(s, raised), next)
    case CancelCaller(k) => s.(futures := s.futures[k := Cancelled])
  }

  // ----- Invariant -------------------------------------------------------------------

  ghost predicate Distinct(ks: seq<nat>) {
    forall i, j :: 0 <= i < j < |ks| ==> ks[i] != ks[j]
  }

  /** A submitted job is queued until it is started, and never again after. */
  ghost predicate QueueIsUnstarted(s: State) {
    forall j :: s.queue[j] == if j.order in s.jobs && s.jobs[j.order] == j && j.order !in s.started then 1 else 0
  }

  ghost predicate OneAtATime(s: State) {
    if s.runner.Working?
    then s.runner.job.order in s.jobs && s.started == s.finished + [s.runner.job.order]
    else s.started == s.finished
  }

  ghost predicate Records(s: State) {
    && (forall k: nat :: k in s.jobs <==> k < s.counter)
    && (forall k :: k in s.jobs ==> s.jobs[k].order == k)
    && s.futures.Keys == s.jobs.Keys && |s.jobs| == s.counter
    && Distinct(s.started) && (forall k :: k in s.started ==> k < s.counter)
    && |s.queue| + |s.started| == s.counter
  }

  ghost predicate FuturesMatch(s: State) {
    && Distinct(s.resolutions)
    && (forall k :: k in s.resolutions ==> k in s.finished && k in s.futures && s.futures[k].Resolved?)
    && (forall k :: k in s.futures && s.futures[k].Pending? ==> k !in s.finished)
    && (forall k :: k in s.futures && s.futures[k].Resolved? ==>
          k in s.resolutions && k in s.raised && s.futures[k] == Resolved(s.raised[k]))
    && (forall k :: k in s.finished <==> k in s.raised)
  }

  /** The runner never sleeps on a non-empty queue with the event clear. */
  ghost predicate NeverSleepsOnWork(s: State) {
    && (s.runner.Waiting? && !s.eventSet ==> s.queue == multiset{})
    && (s.runner.NotCreated? ==> s.counter == 0)
  }

  ghost predicate Inv(s: State) {
    Records(s) && QueueIsUnstarted(s) && OneAtATime(s) && FuturesMatch(s) && NeverSleepsOnWork(s)
  }

  lemma StartKeepsQueue(s: State, j: Job)
    requires QueueIsUnstarted(s) && j in s.queue
    ensures QueueIsUnstarted(Dispatch(s, Some(j)))
    ensures j.order in s.jobs && s.jobs[j.order] == j && j.order !in s.started
  {
    var t := Dispatch(s, Some(j));
    assert s.queue[j] == 1;
    forall x ensures t.queue[x] == if x.order in t.jobs && t.jobs[x.order] == x && x.order !in t.started then 1 else 0 {
      assert s.queue[x] == if x.order in s.jobs && s.jobs[x.order] == x && x.order !in s.started then 1 else 0;
    }
  }

  lemma DistinctExtends(ks: seq<nat>, k: nat)
    requires Distinct(ks) && k !in ks
    ensures Distinct(ks + [k])
  {
  }

  lemma DispatchKeepsInv(s: State, next: Option<Job>)
    requires Records(s) && QueueIsUnstarted(s) && FuturesMatch(s)
    requires s.started == s.finished && RightChoice(s.queue, next)
    ensures Inv(Dispatch(s, next))
  {
    if next.Some? {
      StartKeepsQueue(s, next.value);
      DistinctExtends(s.started, next.value.order);
    }
  }

  lemma SettleKeepsFutures(s: State, k: nat, raised: bool)
    requires FuturesMatch(s) && k in s.futures && k !in s.finished
    ensures FuturesMatch(Settle(s, k, raised).(finished := s.finished + [k], raised := s.raised[k := raised]))
  {
    assert k !in s.resolutions;
    DistinctExtends(s.resolutions, k);
  }

  lemma SubmitKeepsQueue(s: State, priority: int, work: Work)
    requires Records(s) && QueueIsUnstarted(s)
    ensures QueueIsUnstarted(Submit(s, priority, work))
  {
    var t := Submit(s, priority, work);
    forall x ensures t.queue[x] == if x.order in t.jobs && t.jobs[x.order] == x && x.order !in t.started then 1 else 0 {
      assert s.queue[x] == if x.order in s.jobs && s.jobs[x.order] == x && x.order !in s.started then 1 else 0;
    }
  }

  lemma SubmitKeepsRecords(s: State, priority: int, work: Work)
    requires Records(s)
    ensures Records(Submit(s, priority, work))
  {
    var t := Submit(s, priority, work);
    assert s.counter !in s.jobs;
    assert t.jobs.Keys == s.jobs.Keys + {s.counter};
  }

  lemma SubmitKeepsFutures(s: State, priority: int, work: Work)
    requires Records(s) && FuturesMatch(s) && OneAtATime(s)
    ensures FuturesMatch(Submit(s, priority, work)) && OneAtATime(Submit(s, priority, work))
  {
    assert s.counter !in s.jobs && s.counter !in s.started;
    assert forall k :: k in s.finished ==> k in s.started;
  }

  lemma CurrentIsUnfinished(s: State)
    requires Records(s) && OneAtATime(s) && s.runner.Working?
    ensures s.runner.job.order !in s.finished
  {
    assert s.started[|s.started| - 1] == s.runner.job.order;
    assert forall i :: 0 <= i < |s.finished| ==> s.finished[i] == s.started[i];
  }

  lemma CompletionKeepsRecords(s: State, raised: bool)
    requires Records(s) && QueueIsUnstarted(s) && OneAtATime(s) && s.runner.Working?
    ensures var u := AfterCompletion(s, raised); Records(u) && QueueIsUnstarted(u) && u.started == u.finished
  {
  }

  lemma CompletionKeepsFutures(s: State, raised: bool)
    requires Records(s) && FuturesMatch(s) && OneAtATime(s) && s.runner.Working?
    ensures FuturesMatch(AfterCompletion(s, raised))
  {
    CurrentIsUnfinished(s);
    SettleKeepsFutures(s, s.runner.job.order, raised);
  }

  lemma CompleteKeepsInv(s: State, raised: bool, next: Option<Job>)
    requires Inv(s) && Enabled(s, Complete(raised, next))
    ensures Inv(Step(s, Complete(raised, next)))
  {
    CompletionKeepsFutures(s, raised);
    CompletionKeepsRecords(s, raised);
    DispatchKeepsInv(AfterCompletion(s, raised), next);
  }

  lemma CancelKeepsInv(s: State, k: nat)
    requires Inv(s) && Enabled(s, CancelCaller(k))
    ensures Inv(Step(s, CancelCaller(k)))
  {
    assert k !in s.resolutions;
  }

  lemma StepKeepsInv(s: State, e: Event)
    requires Inv(s) && Enabled(s, e)
    ensures Inv(Step(s, e))
  {
    match e {
      case RunItem(p, w) =>
        SubmitKeepsQueue(s, p, w);
        SubmitKeepsRecords(s, p, w);
        SubmitKeepsFutures(s, p, w);
      case Resume(next) => DispatchKeepsInv(s, next);
      case Complete(raised, next) => CompleteKeepsInv(s, raised, next);
      case CancelCaller(k) => CancelKeepsInv(s, k);
    }
  }

  // ----- Runs --------------------------------------------------------------------------

  ghost predicate Run(s: State, es: seq<Event>, t: State)
    decreases |es|
  {
    if es == [] then s == t else Enabled(s, es[0]) && Run(Step(s, es[0]), es[1..], t)
  }

  lemma InitialInv()
    ensures Inv(Initial())
  {
  }

  ghost predicate Reachable(t: State) {
    exists es :: Run(Initial(), es, t)
  }

  /** The records only grow, and a settled future keeps its value. A job's work is done once,
      so what is recorded of it stays. */
  ghost predicate Grows(s: State, t: State) {
    && s.started <= t.started && s.finished <= t.finished && s.resolutions <= t.resolutions
    && (forall k :: k in s.jobs ==> k in t.jobs && t.jobs[k] == s.jobs[k])
    && (forall k :: k in s.futures && !s.futures[k].Pending? ==> k in t.futures && t.futures[k] == s.futures[k])
    && (forall k :: k in s.raised ==> k in t.raised && t.raised[k] == s.raised[k])
  }

  lemma SubmitGrows(s: State, priority: int, work: Work)
    requires Records(s)
    ensures Grows(s, Submit(s, priority, work))
  {
    assert s.counter !in s.jobs && s.counter !in s.futures;
  }

  lemma CompletionGrows(s: State, raised: bool)
    requires s.runner.Working? && Records(s) && FuturesMatch(s) && OneAtATime(s)
    ensures Grows(s, AfterCompletion(s, raised))
  {
    CurrentIsUnfinished(s);
  }

  lemma DispatchGrows(s: State, u: State, next: Option<Job>)
    requires Grows(s, u)
    ensures Grows(s, Dispatch(u, next))
  {
  }

  lemma StepGrows(s: State, e: Event)
    requires Inv(s) && Enabled(s, e)
    ensures Grows(s, Step(s, e))
  {
    match e {
      case RunItem(p, w) => SubmitGrows(s, p, w);
      case Resume(_) =>
      case Complete(raised, next) =>
        CompletionGrows(s, raised);
        DispatchGrows(s, AfterCompletion(s, raised), next);
      case CancelCaller(_) =>
    }
  }

  lemma {:induction false} RunKeepsInv(s: State, es: seq<Event>, t: State)
    requires Inv(s) && Run(s, es, t)
    ensures Inv(t) && Grows(s, t)
    decreases |es|
  {
    if es != [] {
      StepKeepsInv(s, es[0]);
      StepGrows(s, es[0]);
      RunKeepsInv(Step(s, es[0]), es[1..], t);
    }
  }

  lemma {:induction false} RunExtends(s: State, es: seq<Event>, t: State, e: Event)
    requires Run(s, es, t) && Enabled(t, e)
    ensures Run(s, es + [e], Step(t, e))
    decreases |es|
  {
    if es == [] {
      assert ([e])[1..] == [];
    } else {
      assert (es + [e])[1..] == es[1..] + [e];
      RunExtends(Step(s, es[0]), es[1..], t, e);
    }
  }

  lemma InitialReachable()
    ensures Reachable(Initial())
  {
    assert Run(Initial(), [], Initial());
  }

  lemma StepIsReachable(t: State, e: Event)
    requires Reachable(t) && Enabled(t, e)
    ensures Reachable(Step(t, e))
  {
    var es :| Run(Initial(), es, t);
    RunExtends(Initial(), es, t, e);
  }

  lemma ReachableInv(t: State)
    requires Reachable(t)
    ensures Inv(t) && Grows(Initial(), t)
  {
    InitialInv();
    var es :| Run(Initial(), es, t);
    RunKeepsInv(Initial(), es, t);
  }

  lemma CurrentHasFuture(t: State)
    requires Reachable(t) && t.runner.Working?
    ensures t.runner.job.order in t.futures && t.runner.job.order !in t.finished
  {
    ReachableInv(t);
    CurrentIsUnfinished(t);
  }

  lemma CompletionIsReachable(t: State, raised: bool, next: Option<Job>)
    requires Reachable(t) && t.runner.Working? && RightChoice(t.queue, next)
    ensures Reachable(Dispatch(AfterCompletion(t, raised), next)) && Enabled(t, Complete(raised, next))
    ensures Step(t, Complete(raised, next)) == Dispatch(AfterCompletion(t, raised), next)
  {
    StepIsReachable(t, Complete(raised, next));
  }

  /** Jobs run one at a time and none of them twice, and no future is set twice. */
  lemma RunsOnceEach(t: State)
    requires Reachable(t)
    ensures Distinct(t.started) && Distinct(t.resolutions)
    ensures t.finished <= t.started && |t.started| <= |t.finished| + 1
    ensures forall k: nat :: k < t.counter ==> k in t.jobs && (k in t.started <==> t.queue[t.jobs[k]] == 0)
  {
    ReachableInv(t);
  }

  /** What a caller gets: the future of a finished job says what its work did, unless the
      caller has cancelled it, and the future of any other job is not resolved. */
  lemma CallerGetsOutcome(t: State, k: nat)
    requires Reachable(t) && k in t.jobs
    ensures k in t.futures && (k in t.finished <==> k in t.raised)
    ensures k in t.finished ==> t.futures[k] == Resolved(t.raised[k]) || t.futures[k] == Cancelled
    ensures k !in t.finished ==> !t.futures[k].Resolved?
  {
    ReachableInv(t);
  }

  ghost predicate SettlesOnly(s: State, t: State, k: nat, raised: bool) {
    && k in s.futures && k !in s.finished && t.raised == s.raised[k := raised]
    && t.futures == if s.futures[k].Pending? then s.futures[k := Resolved(raised)] else s.futures
  }

  /** A completion settles the future of the job at work, and no other. */
  lemma CompletionSettlesCurrent(t: State, raised: bool, next: Option<Job>)
    requires Reachable(t) && Enabled(t, Complete(raised, next))
    ensures SettlesOnly(t, Step(t, Complete(raised, next)), t.runner.job.order, raised)
  {
    CurrentHasFuture(t);
    var u := AfterCompletion(t, raised);
    assert SettlesOnly(t, u, t.runner.job.order, raised);
    assert Step(t, Complete(raised, next)).futures == u.futures;
  }

  lemma {:induction false} Pigeonhole(ks: seq<nat>, room: set<nat>)
    requires Distinct(ks) && forall k :: k in ks ==> k in room
    ensures |ks| <= |room|
  {
    if ks != [] {
      Pigeonhole(ks[1..], room - {ks[0]});
    }
  }

  /** When the worker is idle nothing was lost: every submission has been started once,
      has finished, and its future is settled. */
  lemma IdleMeansDrained(t: State)
    requires Reachable(t) && t.runner.Waiting? && !t.eventSet
    ensures t.queue == multiset{} && |t.started| == t.counter
    ensures forall k: nat :: k < t.counter ==> k in t.finished && k in t.futures && !t.futures[k].Pending?
  {
    ReachableInv(t);
    forall k | k in t.jobs ensures k in t.started {
      if k !in t.started {
        Pigeonhole(t.started, t.jobs.Keys - {k});
      }
    }
  }

  /** Work never waits for ever: a non-empty queue always has a runner that can move, and
      the job it takes is below every other in (priority, order). */
  lemma WorkIsTaken(t: State)
    requires Reachable(t) && t.queue != multiset{}
    ensures t.runner.Ready? || t.runner.Working? || (t.runner.Waiting? && t.eventSet)
    ensures forall next :: Enabled(t, Resume(next)) || (exists r :: Enabled(t, Complete(r, next))) ==>
      next.Some? && forall j :: j in t.queue && j != next.value ==> Less(next.value, j)
  {
    ReachableInv(t);
    forall next, j | RightChoice(t.queue, next) && j in t.queue && j != next.value ensures Less(next.value, j) {
      assert t.queue[j] == 1 && t.queue[next.value] == 1;
    }
  }

  // ----- The worker ----------------------------------------------------------------------

  class AIBackgroundWorker {
    const queue: HeapQueue<Work>
    var queueChanged: bool
    var runnerCreated: bool
    var currentJob: Option<Job>
    var counter: nat
    var futures: map<nat, Future>
    ghost var seen: State

    /** The worker's fields are those of the observer's state `s`. */
    ghost predicate Matches(s: State)
      reads `queueChanged, `runnerCreated, `currentJob, `counter, `futures, queue
    {
      && IsHeap(queue.items)
      && s.queue == multiset(queue.items) && s.eventSet == queueChanged
      && (runnerCreated <==> !s.runner.NotCreated?)
      && currentJob == (if s.runner.Working? then Some(s.runner.job) else None)
      && s.counter == counter && s.futures == futures
    }

    ghost predicate Valid()
      reads this, queue
    {
      Matches(seen) && Reachable(seen)
    }

    constructor ()
      ensures Valid() && seen == Initial() && fresh(queue)
    {
      queue := new HeapQueue<Work>();
      queueChanged, runnerCreated, currentJob, counter, futures := false, false, None, 0, map[];
      seen := Initial();
      new;
      InitialReachable();
    }

    /** `run_item` up to the `await` of its future. */
    method RunItem(priority: int, work: Work) returns (job: Job)
      requires Valid()
      modifies this, queue
      ensures Valid() && seen == Step(old(seen), Event.RunItem(priority, work))
      ensures job == Entry(priority, old(counter), work)
      ensures multiset(queue.items) == multiset(old(queue.items)) + multiset{job}
      ensures futures == old(futures)[old(counter) := Pending] && counter == old(counter) + 1
    {
      ghost var s := seen;
      runnerCreated := true;
      job := Entry(priority, counter, work);
      futures := futures[counter := Pending];
      counter := counter + 1;
      queue.Push(job);
      queueChanged := true;
      assert Matches(Submit(s, priority, work));
      ObserveSubmission(priority, work);
    }

    ghost method ObserveSubmission(priority: int, work: Work)
      requires Reachable(seen) && Matches(Submit(seen, priority, work))
      modifies this`seen
      ensures Valid() && seen == Step(old(seen), Event.RunItem(priority, work))
    {
      StepIsReachable(seen, Event.RunItem(priority, work));
      seen := Submit(seen, priority, work);
    }

    /** The runner gets control back at the head of its loop. */
    method Resume() returns (next: Option<Job>)
      requires Valid() && (seen.runner.Ready? || (seen.runner.Waiting? && seen.eventSet))
      modifies this, queue
      ensures Valid() && Enabled(old(seen), Event.Resume(next)) && seen == Step(old(seen), Event.Resume(next))
    {
      next := LoopHead(seen);
      StepIsReachable(seen, Event.Resume(next));
      seen := Dispatch(seen, next);
    }

    /** Clear the event and wait, or pop the next job. */
    method LoopHead(ghost s: State) returns (next: Option<Job>)
      requires Matches(s.(runner := Ready))
      modifies this`queueChanged, this`currentJob, queue
      ensures RightChoice(s.queue, next) && Matches(Dispatch(s, next))
    {
      if queue.items == [] {
        queueChanged := false;
        next := None;
      } else {
        assert queue.items[0] in multiset(queue.items);
        var item := queue.Pop();
        currentJob := Some(item);
        next := Some(item);
      }
    }

    /** The awaited work returns or raises: the future is settled unless its caller has
        cancelled it, and the runner goes round its loop without yielding. */
    method Complete(raised: bool) returns (next: Option<Job>)
      requires Valid() && currentJob.Some?
      modifies this, queue
      ensures Valid() && Enabled(old(seen), Event.Complete(raised, next))
      ensures seen == Step(old(seen), Event.Complete(raised, next))
      ensures var k := old(currentJob).value.order;
        && k in old(futures)
        && futures == if old(futures)[k].Pending? then old(futures)[k := Resolved(raised)] else old(futures)
    {
      CurrentHasFuture(seen);
      SettleCurrent(raised);
      next := LoopHead(AfterCompletion(seen, raised));
      ObserveCompletion(raised, next);
    }

    ghost method ObserveCompletion(raised: bool, next: Option<Job>)
      requires Reachable(seen) && seen.runner.Working? && RightChoice(seen.queue, next)
      requires Matches(Dispatch(AfterCompletion(seen, raised), next))
      modifies this`seen
      ensures Valid() && Enabled(old(seen), Event.Complete(raised, next))
      ensures seen == Step(old(seen), Event.Complete(raised, next))
    {
      CompletionIsReachable(seen, raised, next);
      seen := Dispatch(AfterCompletion(seen, raised), next);
    }

    method SettleCurrent(raised: bool)
      requires Valid() && currentJob.Some?
      modifies this`futures, this`currentJob
      ensures Matches(AfterCompletion(old(seen), raised).(runner := Ready))
      ensures var k := old(currentJob).value.order;
        && k in old(futures)
        && futures == if old(futures)[k].Pending? then old(futures)[k := Resolved(raised)] else old(futures)
    {
      var k := currentJob.value.order;
      CurrentHasFuture(seen);
      if futures[k].Pending? {
        futures := futures[k := Resolved(raised)];
      }
      currentJob := None;
    }

    method CancelCaller(k: nat)
      requires Valid() && Enabled(seen, Event.CancelCaller(k))
      modifies this`futures, this`seen
      ensures Valid() && seen == Step(old(seen), Event.CancelCaller(k))
      ensures futures == old(futures)[k := Cancelled]
    {
      futures := futures[k := Cancelled];
      StepIsReachable(seen, Event.CancelCaller(k));
      seen := Step(seen, Event.CancelCaller(k));
    }
  }
}
