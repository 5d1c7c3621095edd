/** The request queue before the Ollama runtime. */
module OllamaScheduler {
  import opened RequestHeap

  // A non-preemptive priority queue guarded by a condition variable. Every block that holds
  // the lock is one atomic event. A call of `run` is known by the order number it draws on
  // entry; it is asleep in `wait`, notified but not yet holding the lock again, or running
  // its work.

  type Request = Entry<string>

  datatype Phase = Asleep | Notified | Running

  datatype Call = Call(priority: int, workLabel: string, phase: Phase)

  datatype State = State(
    limit: int,
    queue: multiset<Request>,
    active: int,
    labels: multiset<string>,
    counter: nat,
    calls: map<nat, Call>)

  datatype Event = Enter(priority: int, workLabel: string) | Wake(call: nat) | Finish(call: nat)

  function RequestOf(k: nat, c: Call): Request {
    Entry(c.priority, k, c.workLabel)
  }

  predicate Waits(calls: map<nat, Call>, k: nat) {
    k in calls && !calls[k].phase.Running?
  }

  function RunningCalls(calls: map<nat, Call>): set<nat> {
    set k | k in calls && calls[k].phase.Running?
  }

  function RunningWith(calls: map<nat, Call>, workLabel: string): set<nat> {
    set k | k in calls && calls[k].phase.Running? && calls[k].workLabel == workLabel
  }

  // ----- Events ------------------------------------------------------------------

  function Initial(limit: int): State {
    State(if limit < 1 then 1 else limit, multiset{}, 0, multiset{}, 0, map[])
  }

  predicate Enabled(s: State, e: Event) {
    match e
    case Enter(_, _) => true
    case Wake(k) => k in s.calls && s.calls[k].phase.Notified?
    case Finish(k) => k in s.calls && s.calls[k].phase.Running?
  }

  /** The call leaves the queue exactly when it is at the head and a slot is free. */
  ghost predicate Admissible(s: State, k: nat) {
    k in s.calls && IsMin(s.queue, RequestOf(k, s.calls[k])) && s.active < s.limit
  }

  /** One turn of the waiting loop: take the slot, or sleep. */
  ghost function Check(s: State, k: nat): State
    requires k in s.calls
  {
    var c := s.calls[k];
    if Admissible(s, k) then
      s.(queue := s.queue - multiset{RequestOf(k, c)},
         active := s.active + 1,
         labels := s.labels + multiset{c.workLabel},
         calls := s.calls[k := c.(phase := Running)])
    else
      s.(calls := s.calls[k := c.(phase := Asleep)])
  }

  /** The state in which an entering call makes its first check. */
  function Enqueued(s: State, priority: int, workLabel: string): State {
    s.(queue := s.queue + multiset{Entry(priority, s.counter, workLabel)},
       counter := s.counter + 1,
       calls := s.calls[s.counter := Call(priority, workLabel, Notified)])
  }

  function NotifyAll(calls: map<nat, Call>): map<nat, Call> {
    map k | k in calls :: if calls[k].phase.Asleep? then calls[k].(phase := Notified) else calls[k]
  }

  ghost function Step(s: State, e: Event): State
    requires Enabled(s, e)
  {
    match e
    case Enter(p, l) => Check(Enqueued(s, p, l), s.counter)
    case Wake(k) => Check(s, k)
    case Finish(k) =>
      s.(active := if s.active - 1 < 0 then 0 else s.active - 1,
         labels := s.labels - multiset{s.calls[k].workLabel},
         calls := NotifyAll(s.calls - {k}))
  }

  /** The call an event admits, if any. */
  ghost predicate Admits(s: State, e: Event, k: nat)
    requires Enabled(s, e)
  {
    match e
    case Enter(p, l) => k == s.counter && Admissible(Enqueued(s, p, l), k)
    case Wake(w) => k == w && Admissible(s, k)
    case Finish(_) => false
  }

  // ----- Invariant ---------------------------------------------------------------

  ghost predicate QueueMatchesCalls(s: State) {
    forall r :: s.queue[r] == if Waits(s.calls, r.order) && RequestOf(r.order, s.calls[r.order]) == r then 1 else 0
  }

  ghost predicate LabelsMatchCalls(s: State) {
    forall l :: s.labels[l] == |RunningWith(s.calls, l)|
  }

  /** No lost wake-up: with nothing running, the head of the queue is awake. */
  ghost predicate HeadAwakeWhenIdle(s: State) {
    s.active == 0 ==> forall r :: IsMin(s.queue, r) ==> r.order in s.calls && s.calls[r.order].phase.Notified?
  }

  ghost predicate Inv(s: State) {
    && 1 <= s.limit
    && (forall k :: k in s.calls ==> k < s.counter)
    && QueueMatchesCalls(s)
    && s.active == |RunningCalls(s.calls)| <= s.limit
    && LabelsMatchCalls(s)
    && HeadAwakeWhenIdle(s)
  }

  lemma InitialInv(limit: int)
    ensures Inv(Initial(limit))
  {
    var s := Initial(limit);
    assert RunningCalls(s.calls) == {};
    forall l ensures s.labels[l] == |RunningWith(s.calls, l)| {
      assert RunningWith(s.calls, l) == {};
    }
  }

  lemma StartedCounts(calls: map<nat, Call>, k: nat)
    requires Waits(calls, k)
    ensures var after := calls[k := calls[k].(phase := Running)];
      && |RunningCalls(after)| == |RunningCalls(calls)| + 1
      && forall l :: |RunningWith(after, l)| == |RunningWith(calls, l)| + if l == calls[k].workLabel then 1 else 0
  {
    var after := calls[k := calls[k].(phase := Running)];
    assert RunningCalls(after) == RunningCalls(calls) + {k};
    forall l ensures |RunningWith(after, l)| == |RunningWith(calls, l)| + if l == calls[k].workLabel then 1 else 0 {
      if l == calls[k].workLabel {
        assert RunningWith(after, l) == RunningWith(calls, l) + {k};
      } else {
        assert RunningWith(after, l) == RunningWith(calls, l);
      }
    }
  }

  lemma AdmissionKeepsCounts(s: State, k: nat)
    requires Waits(s.calls, k) && LabelsMatchCalls(s) && s.active == |RunningCalls(s.calls)|
    requires Admissible(s, k)
    ensures Check(s, k).active == |RunningCalls(Check(s, k).calls)| && LabelsMatchCalls(Check(s, k))
  {
    StartedCounts(s.calls, k);
  }

  lemma SleepKeepsCounts(s: State, k: nat)
    requires Waits(s.calls, k) && LabelsMatchCalls(s) && s.active == |RunningCalls(s.calls)|
    requires !Admissible(s, k)
    ensures Check(s, k).active == |RunningCalls(Check(s, k).calls)| && LabelsMatchCalls(Check(s, k))
  {
    var t := Check(s, k);
    assert RunningCalls(t.calls) == RunningCalls(s.calls);
    forall l ensures t.labels[l] == |RunningWith(t.calls, l)| {
      assert RunningWith(t.calls, l) == RunningWith(s.calls, l);
    }
  }

  lemma AdmissionKeepsQueue(s: State, k: nat)
    requires Waits(s.calls, k) && QueueMatchesCalls(s) && Admissible(s, k)
    ensures QueueMatchesCalls(Check(s, k))
  {
    var t, q := Check(s, k), RequestOf(k, s.calls[k]);
    assert t.queue == s.queue - multiset{q} && s.queue[q] == 1;
    forall r
      ensures t.queue[r] == if Waits(t.calls, r.order) && RequestOf(r.order, t.calls[r.order]) == r then 1 else 0
    {
      assert s.queue[r] == if Waits(s.calls, r.order) && RequestOf(r.order, s.calls[r.order]) == r then 1 else 0;
      if r.order != k {
        assert t.queue[r] == s.queue[r];
      }
    }
  }

  lemma CheckKeepsQueue(s: State, k: nat)
    requires Waits(s.calls, k) && QueueMatchesCalls(s)
    ensures QueueMatchesCalls(Check(s, k))
  {
    if Admissible(s, k) {
      AdmissionKeepsQueue(s, k);
    } else {
      var t := Check(s, k);
      forall r
        ensures t.queue[r] == if Waits(t.calls, r.order) && RequestOf(r.order, t.calls[r.order]) == r then 1 else 0
      {
        assert Waits(t.calls, r.order) <==> Waits(s.calls, r.order);
      }
    }
  }

  /** The invariant survives a check by a call that is awake. */
  lemma CheckKeepsInv(s: State, k: nat)
    requires Inv(s) && k in s.calls && s.calls[k].phase.Notified?
    ensures Inv(Check(s, k))
  {
    var t := Check(s, k);
    CheckKeepsQueue(s, k);
    if Admissible(s, k) {
      AdmissionKeepsCounts(s, k);
    } else {
      SleepKeepsCounts(s, k);
      forall r | s.active == 0 && IsMin(t.queue, r) ensures r.order in t.calls && t.calls[r.order].phase.Notified? {
        assert s.queue[r] == t.queue[r] == 1;
        assert r.order != k;
      }
    }
  }

  lemma FinishKeepsCounts(s: State, k: nat)
    requires Inv(s) && Enabled(s, Finish(k))
    ensures var t := Step(s, Finish(k)); t.active == |RunningCalls(t.calls)| && LabelsMatchCalls(t)
    ensures s.active >= 1 && s.calls[k].workLabel in s.labels
  {
    var c := s.calls[k];
    var t := Step(s, Finish(k));
    assert k in RunningCalls(s.calls);
    assert RunningCalls(t.calls) == RunningCalls(s.calls) - {k};
    assert k in RunningWith(s.calls, c.workLabel);
    forall l ensures t.labels[l] == |RunningWith(t.calls, l)| {
      assert RunningWith(t.calls, l) == RunningWith(s.calls, l) - if l == c.workLabel then {k} else {};
    }
  }

  lemma FinishKeepsInv(s: State, k: nat)
    requires Inv(s) && Enabled(s, Finish(k))
    ensures Inv(Step(s, Finish(k)))
    ensures s.active >= 1 && s.calls[k].workLabel in s.labels
  {
    var t := Step(s, Finish(k));
    FinishKeepsCounts(s, k);
    forall r
      ensures t.queue[r] == if Waits(t.calls, r.order) && RequestOf(r.order, t.calls[r.order]) == r then 1 else 0
    {
      assert Waits(t.calls, r.order) <==> Waits(s.calls, r.order);
    }
    forall r | IsMin(t.queue, r) ensures r.order in t.calls && t.calls[r.order].phase.Notified? {
      assert t.queue[r] == 1;
    }
  }

  lemma StepKeepsInv(s: State, e: Event)
    requires Inv(s) && Enabled(s, e)
    ensures Inv(Step(s, e))
  {
    match e {
      case Enter(p, l) =>
        var u := Enqueued(s, p, l);
        assert RunningCalls(u.calls) == RunningCalls(s.calls);
        forall m ensures u.labels[m] == |RunningWith(u.calls, m)| {
          assert RunningWith(u.calls, m) == RunningWith(s.calls, m);
        }
        forall r | s.active == 0 && IsMin(u.queue, r) ensures r.order in u.calls && u.calls[r.order].phase.Notified? {
          if r.order != s.counter {
            assert s.queue[r] == u.queue[r] == 1;
            assert forall y :: y in s.queue ==> y in u.queue;
            assert IsMin(s.queue, r);
          }
        }
        CheckKeepsInv(u, s.counter);
      case Wake(k) => CheckKeepsInv(s, k);
      case Finish(k) => FinishKeepsInv(s, k);
    }
  }

  // ----- Runs --------------------------------------------------------------------

  ghost predicate Run(s: State, es: seq<Event>, t: State)
    decreases |es|
  {
    if es == [] then s == t else Enabled(s, es[0]) && Run(Step(s, es[0]), es[1..], t)
  }

  ghost predicate Reachable(limit: int, t: State) {
    exists es :: Run(Initial(limit), es, t)
  }

  lemma {:induction false} RunKeepsInv(s: State, es: seq<Event>, t: State)
    requires Inv(s) && Run(s, es, t)
    ensures Inv(t) && t.limit == s.limit
    decreases |es|
  {
    if es != [] {
      StepKeepsInv(s, es[0]);
      RunKeepsInv(Step(s, es[0]), es[1..], t);
    }
  }

  lemma {:induction false} RunExtends(s: State, es: seq<Event>, t: State, e: Event)
    requires Run(s, es, t) && Enabled(t, e)
    ensures Run(s, es + [e], Step(t, e))
    decreases |es|
  {
    if es == [] {
      assert ([e])[1..] == [];
    } else {
      assert (es + [e])[1..] == es[1..] + [e];
      RunExtends(Step(s, es[0]), es[1..], t, e);
    }
  }

  lemma ReachableExtends(limit: int, t: State, e: Event)
    requires Reachable(limit, t) && Enabled(t, e)
    ensures Reachable(limit, Step(t, e))
  {
    var es :| Run(Initial(limit), es, t);
    RunExtends(Initial(limit), es, t, e);
  }

  lemma ReachableInv(limit: int, t: State)
    requires Reachable(limit, t)
    ensures Inv(t) && t.limit == Initial(limit).limit
  {
    var es :| Run(Initial(limit), es, t);
    InitialInv(limit);
    RunKeepsInv(Initial(limit), es, t);
  }

  // ----- Order of service --------------------------------------------------------

  /** The queued requests that come before `r`. */
  ghost function Ahead(s: State, r: Request): set<Request> {
    set q | q in s.queue && Less(q, r)
  }

  ghost function Admitted(s: State, e: Event): nat
    requires Enabled(s, e)
  {
    if exists k :: Admits(s, e, k) then 1 else 0
  }

  ghost function Admissions(s: State, es: seq<Event>): nat
    decreases |es|
  {
    if es == [] || !Enabled(s, es[0]) then 0 else Admitted(s, es[0]) + Admissions(Step(s, es[0]), es[1..])
  }

  /** 1 for an arrival of strictly smaller priority number. */
  function Overtaker(e: Event, r: Request): nat {
    if e.Enter? && e.priority < r.priority then 1 else 0
  }

  function Overtakers(es: seq<Event>, r: Request): nat {
    if es == [] then 0 else Overtaker(es[0], r) + Overtakers(es[1..], r)
  }

  lemma AheadAfterAdmission(s: State, k: nat, r: Request)
    requires QueueMatchesCalls(s) && Admissible(s, k)
    requires r in s.queue && r in Check(s, k).queue
    ensures |Ahead(Check(s, k), r)| + 1 == |Ahead(s, r)|
  {
    var q := RequestOf(k, s.calls[k]);
    assert s.queue[r] == 1 && s.queue[q] == 1;
    assert r.order != q.order;
    assert Ahead(s, r) == Ahead(Check(s, k), r) + {q};
  }

  lemma AheadAfterArrival(s: State, e: Event, r: Request)
    requires Inv(s) && e.Enter? && r in s.queue
    ensures |Ahead(Enqueued(s, e.priority, e.workLabel), r)| == |Ahead(s, r)| + Overtaker(e, r)
  {
    var u := Enqueued(s, e.priority, e.workLabel);
    var q := Entry(e.priority, s.counter, e.workLabel);
    assert Less(q, r) <==> e.priority < r.priority by {
      assert s.queue[r] == 1;
    }
    assert q !in s.queue by {
      assert s.queue[q] == 0;
    }
    assert forall x :: x in u.queue <==> x in s.queue || x == q;
    if Less(q, r) {
      assert Ahead(u, r) == Ahead(s, r) + {q};
    } else {
      assert Ahead(u, r) == Ahead(s, r);
    }
  }

  lemma EnqueuedKeepsQueue(s: State, p: int, l: string)
    requires Inv(s)
    ensures QueueMatchesCalls(Enqueued(s, p, l))
  {
  }

  lemma ArrivalStep(s: State, e: Event, r: Request)
    requires Inv(s) && e.Enter? && r in s.queue && r in Step(s, e).queue
    ensures |Ahead(Step(s, e), r)| + Admitted(s, e) == |Ahead(s, r)| + Overtaker(e, r)
  {
    var u := Enqueued(s, e.priority, e.workLabel);
    EnqueuedKeepsQueue(s, e.priority, e.workLabel);
    AheadAfterArrival(s, e, r);
    if Admissible(u, s.counter) {
      assert Admits(s, e, s.counter);
      AheadAfterAdmission(u, s.counter, r);
    } else {
      assert Ahead(Step(s, e), r) == Ahead(u, r);
    }
  }

  lemma ServiceStep(s: State, e: Event, r: Request)
    requires Inv(s) && Enabled(s, e) && r in s.queue && r in Step(s, e).queue
    ensures |Ahead(Step(s, e), r)| + Admitted(s, e) == |Ahead(s, r)| + Overtaker(e, r)
  {
    match e {
      case Enter(_, _) => ArrivalStep(s, e, r);
      case Wake(k) =>
        if Admissible(s, k) {
          assert Admits(s, e, k);
          AheadAfterAdmission(s, k, r);
        } else {
          assert Ahead(Step(s, e), r) == Ahead(s, r);
        }
      case Finish(_) => assert Ahead(Step(s, e), r) == Ahead(s, r);
    }
  }

  lemma StaysGone(s: State, e: Event, r: Request)
    requires Inv(s) && Enabled(s, e) && r.order < s.counter && r !in s.queue
    ensures r !in Step(s, e).queue && Step(s, e).counter >= s.counter
  {
  }

  /** A request that has left the queue never returns to it. */
  lemma {:induction false} GoneStaysGone(s: State, es: seq<Event>, t: State, r: Request)
    requires Inv(s) && Run(s, es, t) && r.order < s.counter && r !in s.queue
    ensures r !in t.queue
    decreases |es|
  {
    if es != [] {
      StepKeepsInv(s, es[0]);
      StaysGone(s, es[0], r);
      GoneStaysGone(Step(s, es[0]), es[1..], t, r);
    }
  }

  lemma StillQueued(s: State, es: seq<Event>, t: State, r: Request)
    requires Inv(s) && es != [] && Run(s, es, t) && r in s.queue && r in t.queue
    ensures r in Step(s, es[0]).queue
  {
    var u := Step(s, es[0]);
    StepKeepsInv(s, es[0]);
    assert s.queue[r] == 1;
    if r !in u.queue {
      GoneStaysGone(u, es[1..], t, r);
    }
  }

  /** While `r` waits, the admissions that pass it are exactly the requests that were
      ahead of it, plus later arrivals of strictly smaller priority number, less those of
      them still queued. */
  lemma {:induction false} OvertakingIsBounded(s: State, es: seq<Event>, t: State, r: Request)
    requires Inv(s) && Run(s, es, t) && r in s.queue && r in t.queue
    ensures |Ahead(t, r)| + Admissions(s, es) == |Ahead(s, r)| + Overtakers(es, r)
    decreases |es|
  {
    if es != [] {
      StepKeepsInv(s, es[0]);
      StillQueued(s, es, t, r);
      ServiceStep(s, es[0], r);
      OvertakingIsBounded(Step(s, es[0]), es[1..], t, r);
    }
  }

  /** An admission that passes a waiting request is of a smaller one, and if it also
      arrived later its priority number is strictly smaller. */
  lemma OvertakerIsMoreUrgent(s: State, e: Event, k: nat, r: Request)
    requires Inv(s) && Enabled(s, e) && Admits(s, e, k) && r in s.queue && r in Step(s, e).queue
    ensures var c := Step(s, e).calls[k];
      Less(RequestOf(k, c), r) && (k > r.order ==> c.priority < r.priority)
  {
    assert s.queue[r] == 1;
    if e.Enter? {
      EnqueuedKeepsQueue(s, e.priority, e.workLabel);
    }
    var u := if e.Enter? then Enqueued(s, e.priority, e.workLabel) else s;
    assert u.queue[r] == 1 && u.queue[RequestOf(k, u.calls[k])] == 1;
  }

  /** A waiting call whose request all other waiting ones come after. */
  ghost predicate First(calls: map<nat, Call>, k: nat) {
    && Waits(calls, k)
    && forall j :: Waits(calls, j) && j != k ==> Less(RequestOf(k, calls[k]), RequestOf(j, calls[j]))
  }

  lemma HeadIsFirst(s: State, k: nat)
    requires QueueMatchesCalls(s) && Waits(s.calls, k)
    ensures IsMin(s.queue, RequestOf(k, s.calls[k])) <==> First(s.calls, k)
  {
    var r := RequestOf(k, s.calls[k]);
    assert s.queue[r] == 1;
    forall j | Waits(s.calls, j) ensures RequestOf(j, s.calls[j]) in s.queue {
      assert s.queue[RequestOf(j, s.calls[j])] == 1;
    }
    forall y | y in s.queue ensures Waits(s.calls, y.order) && RequestOf(y.order, s.calls[y.order]) == y {
      assert s.queue[y] == 1;
    }
  }

  /** A woken call is admitted exactly if fewer calls run than the limit allows and its request
      comes before all others that wait; a new call under the same terms at once. */
  lemma AdmittedIff(limit: int, s: State, priority: int, workLabel: string, k: nat)
    requires Reachable(limit, s)
    ensures Enabled(s, Wake(k)) ==>
      (Admits(s, Wake(k), k) <==> |RunningCalls(s.calls)| < Slots(limit) && First(s.calls, k))
    ensures Admits(s, Enter(priority, workLabel), s.counter) <==>
      && |RunningCalls(s.calls)| < Slots(limit)
      && First(s.calls[s.counter := Call(priority, workLabel, Notified)], s.counter)
  {
    ReachableInv(limit, s);
    if Enabled(s, Wake(k)) {
      HeadIsFirst(s, k);
    }
    EnqueuedKeepsQueue(s, priority, workLabel);
    HeadIsFirst(Enqueued(s, priority, workLabel), s.counter);
  }

  function Slots(limit: int): int {
    if limit <= 1 then 1 else limit
  }

  // ----- Wake-ups ----------------------------------------------------------------

  lemma {:induction false} MinExists(q: multiset<Request>)
    requires q != multiset{}
    ensures exists r :: IsMin(q, r)
    decreases |q|
  {
    var x :| x in q;
    var rest := q - multiset{x};
    if rest == multiset{} {
      assert q == multiset{x};
      assert IsMin(q, x);
    } else {
      MinExists(rest);
      var m :| IsMin(rest, m);
      forall y | y in q ensures y == x || y in rest {
      }
      assert IsMin(q, if Less(x, m) then x else m);
    }
  }

  /** The queue never stalls: a running call will finish and wake everyone, or the head
      is awake and its next check is admitted. */
  lemma QueueNeverStalls(limit: int, s: State)
    requires Reachable(limit, s) && s.queue != multiset{}
    ensures exists k :: Enabled(s, Finish(k)) || (Enabled(s, Wake(k)) && Admits(s, Wake(k), k))
  {
    ReachableInv(limit, s);
    if s.active == 0 {
      MinExists(s.queue);
      var r :| IsMin(s.queue, r);
      assert s.queue[r] == 1;
      assert Admits(s, Wake(r.order), r.order);
    } else {
      assert RunningCalls(s.calls) != {};
      var k :| k in RunningCalls(s.calls);
      assert Enabled(s, Finish(k));
    }
  }

  /** A free slot with its rightful owner asleep. */
  ghost predicate SlotLost(s: State, r: Request) {
    s.active < s.limit && IsMin(s.queue, r) && r.order in s.calls && s.calls[r.order].phase.Asleep?
  }

  lemma {:induction false} FillsUp(limit: int, n: nat) returns (s: State)
    requires n <= limit && 1 <= limit
    ensures Reachable(limit, s) && Inv(s) && s.active == n && s.queue == multiset{}
  {
    if n == 0 {
      s := Initial(limit);
      assert Run(s, [], s);
    } else {
      var u := FillsUp(limit, n - 1);
      ReachableInv(limit, u);
      var e := Enter(0, "");
      var w := Enqueued(u, 0, "");
      assert w.queue == multiset{Entry(0, u.counter, "")};
      assert Admissible(w, u.counter);
      s := Step(u, e);
      ReachableExtends(limit, u, e);
      StepKeepsInv(u, e);
    }
  }

  /** The calls that hold `ra` and `rb` are the whole queue, `ra` first. */
  ghost predicate QueuedPair(s: State, ra: Request, rb: Request) {
    && s.queue == multiset{ra, rb} && Less(ra, rb)
    && ra.order in s.calls && rb.order in s.calls
    && RequestOf(ra.order, s.calls[ra.order]) == ra && RequestOf(rb.order, s.calls[rb.order]) == rb
  }

  lemma QueuesBehind(limit: int, s: State) returns (t: State, r: Request)
    requires Reachable(limit, s) && s.active == s.limit
    ensures Reachable(limit, t) && t.active == s.active && t.limit == s.limit && t.counter == s.counter + 1
    ensures r == Entry(0, s.counter, "") && t.queue == s.queue + multiset{r}
    ensures t.calls == s.calls[s.counter := Call(0, "", Asleep)]
  {
    t := Step(s, Enter(0, ""));
    r := Entry(0, s.counter, "");
    ReachableExtends(limit, s, Enter(0, ""));
  }

  lemma PairBehindFullHouse(limit: int) returns (s: State, ra: Request, rb: Request)
    requires limit >= 2
    ensures Reachable(limit, s) && s.active == s.limit && QueuedPair(s, ra, rb) && ra.order != rb.order
  {
    var full := FillsUp(limit, limit);
    ReachableInv(limit, full);
    var one, r := QueuesBehind(limit, full);
    ra := r;
    s, rb := QueuesBehind(limit, one);
  }

  lemma OneFinishes(limit: int, s: State, ra: Request, rb: Request) returns (t: State)
    requires Reachable(limit, s) && QueuedPair(s, ra, rb) && s.active >= 1
    ensures Reachable(limit, t) && QueuedPair(t, ra, rb) && t.active == s.active - 1 && t.limit == s.limit
    ensures t.calls[ra.order].phase.Notified? && t.calls[rb.order].phase.Notified?
  {
    ReachableInv(limit, s);
    var x :| x in RunningCalls(s.calls);
    t := Step(s, Finish(x));
    ReachableExtends(limit, s, Finish(x));
    assert s.queue[ra] == 1 && s.queue[rb] == 1;
  }

  /** The later one wakes first and goes back to sleep. */
  lemma LaterSleeps(limit: int, s: State, ra: Request, rb: Request) returns (t: State)
    requires Reachable(limit, s) && QueuedPair(s, ra, rb)
    requires s.calls[ra.order].phase.Notified? && s.calls[rb.order].phase.Notified? && ra.order != rb.order
    ensures Reachable(limit, t) && QueuedPair(t, ra, rb) && t.active == s.active && t.limit == s.limit
    ensures t.calls[ra.order].phase.Notified? && t.calls[rb.order].phase.Asleep?
  {
    t := Step(s, Wake(rb.order));
    ReachableExtends(limit, s, Wake(rb.order));
    assert ra in s.queue;
    assert !Admissible(s, rb.order);
  }

  /** The earlier one is admitted, and nobody tells the other. */
  lemma HeadTakesSlot(limit: int, s: State, ra: Request, rb: Request) returns (t: State)
    requires Reachable(limit, s) && QueuedPair(s, ra, rb) && s.active + 1 < s.limit && ra.order != rb.order
    requires s.calls[ra.order].phase.Notified? && s.calls[rb.order].phase.Asleep?
    ensures Reachable(limit, t) && SlotLost(t, rb)
  {
    assert IsMin(s.queue, ra);
    t := Step(s, Wake(ra.order));
    ReachableExtends(limit, s, Wake(ra.order));
    assert t.queue == multiset{rb};
  }

  /** With two or more slots a wake-up can be lost: two requests queue behind a full
      house, two calls finish, the later request wakes first and goes back to sleep, and
      when the earlier one is admitted nobody tells the other that a slot is still free. */
  lemma SecondSlotCanBeLost(limit: int)
    requires limit >= 2
    ensures exists s, r :: Reachable(limit, s) && SlotLost(s, r)
  {
    var two, ra, rb := PairBehindFullHouse(limit);
    ReachableInv(limit, two);
    var three := OneFinishes(limit, two, ra, rb);
    var four := OneFinishes(limit, three, ra, rb);
    var five := LaterSleeps(limit, four, ra, rb);
    ReachableInv(limit, five);
    var six := HeadTakesSlot(limit, five, ra, rb);
  }

  /** No free slot is ever withheld from a sleeping head exactly when there is one slot,
      which is what the module configures. */
  lemma NoSlotLostIffSingle(limit: int)
    ensures (forall s, r :: Reachable(limit, s) ==> !SlotLost(s, r)) <==> limit <= 1
  {
    if limit <= 1 {
      forall s, r | Reachable(limit, s) ensures !SlotLost(s, r) {
        ReachableInv(limit, s);
      }
    } else {
      SecondSlotCanBeLost(limit);
    }
  }

  // ----- The coordinator -----------------------------------------------------------

  /** Under unique orders the root of the heap is the only minimum. */
  lemma RootIsTheMin(s: State, items: seq<Request>, r: Request)
    requires QueueMatchesCalls(s) && IsHeap(items) && multiset(items) == s.queue && r in s.queue
    ensures items != [] && (items[0] == r <==> IsMin(s.queue, r))
  {
    assert r in items;
    HeadIsMin(items);
    assert items[0] in multiset(items);
    assert s.queue[items[0]] == 1 && s.queue[r] == 1;
  }

  class OllamaRequestCoordinator {
    const maxConcurrentRequests: int
    const queue: HeapQueue<string>
    var activeCount: int
    var activeLabels: seq<string>
    var counter: nat
    ghost var calls: map<nat, Call>

    ghost function Abs(): State
      reads this, queue
    {
      State(maxConcurrentRequests, multiset(queue.items), activeCount, multiset(activeLabels), counter, calls)
    }

    ghost predicate Valid()
      reads this, queue
    {
      IsHeap(queue.items) && Inv(Abs())
    }

    constructor (limit: int)
      ensures Valid() && Abs() == Initial(limit) && fresh(queue)
    {
      maxConcurrentRequests := if limit < 1 then 1 else limit;
      queue := new HeapQueue<string>();
      activeCount, activeLabels, counter, calls := 0, [], 0, map[];
      new;
      InitialInv(limit);
    }

    /** Entry to `run`: the lock is held from drawing the order number to the first
        check, after which the call either runs or sleeps in `wait`. */
    method Enter(priority: int, workLabel: string) returns (queued: Request, admitted: bool)
      requires Valid()
      modifies this, queue
      ensures Valid() && Abs() == Step(old(Abs()), Event.Enter(priority, workLabel))
      ensures queued == Entry(priority, old(counter), workLabel)
      ensures admitted <==> Admits(old(Abs()), Event.Enter(priority, workLabel), queued.order)
    {
      StepKeepsInv(Abs(), Event.Enter(priority, workLabel));
      EnqueuedKeepsQueue(Abs(), priority, workLabel);
      queued := Enqueue(priority, workLabel);
      admitted := TurnOfWaitLoop(queued);
    }

    method Enqueue(priority: int, workLabel: string) returns (queued: Request)
      requires IsHeap(queue.items)
      modifies this, queue
      ensures IsHeap(queue.items) && Abs() == Enqueued(old(Abs()), priority, workLabel)
      ensures queued == Entry(priority, old(counter), workLabel)
    {
      queued := Entry(priority, counter, workLabel);
      counter := counter + 1;
      queue.Push(queued);
      calls := calls[queued.order := Call(priority, workLabel, Notified)];
    }

    /** A notified call holds the lock again and repeats its check. */
    method Recheck(queued: Request) returns (admitted: bool)
      requires Valid() && Enabled(Abs(), Wake(queued.order))
      requires RequestOf(queued.order, calls[queued.order]) == queued
      modifies this, queue
      ensures Valid() && Abs() == Step(old(Abs()), Wake(queued.order))
      ensures admitted <==> Admits(old(Abs()), Wake(queued.order), queued.order)
    {
      StepKeepsInv(Abs(), Wake(queued.order));
      admitted := TurnOfWaitLoop(queued);
    }

    method TurnOfWaitLoop(queued: Request) returns (admitted: bool)
      requires IsHeap(queue.items) && QueueMatchesCalls(Abs())
      requires Waits(calls, queued.order) && RequestOf(queued.order, calls[queued.order]) == queued
      modifies this, queue
      ensures IsHeap(queue.items) && Abs() == Check(old(Abs()), queued.order)
      ensures admitted <==> Admissible(old(Abs()), queued.order)
    {
      assert Abs().queue[queued] == 1;
      RootIsTheMin(Abs(), queue.items, queued);
      var isNext := |queue.items| > 0 && queue.items[0] == queued;
      admitted := isNext && activeCount < maxConcurrentRequests;
      if admitted {
        var _ := queue.Pop();
        activeCount := activeCount + 1;
        activeLabels := activeLabels + [queued.payload];
        calls := calls[queued.order := calls[queued.order].(phase := Running)];
      } else {
        calls := calls[queued.order := calls[queued.order].(phase := Asleep)];
      }
    }

    /** The `finally` block, whether the work returned or raised. Neither the clamp at
        zero nor the missing-label branch is ever taken. */
    method Finish(ghost k: nat, workLabel: string) returns (clamped: bool, labelFound: bool)
      requires Valid() && Enabled(Abs(), Event.Finish(k)) && calls[k].workLabel == workLabel
      modifies this
      ensures Valid() && Abs() == Step(old(Abs()), Event.Finish(k))
      ensures !clamped && labelFound
    {
      FinishKeepsInv(Abs(), k);
      clamped := activeCount - 1 < 0;
      activeCount := if clamped then 0 else activeCount - 1;
      activeLabels, labelFound := RemoveFirst(activeLabels, workLabel);
      calls := NotifyAll(calls - {k});
    }
  }

  /** Python's `list.remove`, reporting whether the value was there. */
  method RemoveFirst(xs: seq<string>, x: string) returns (ys: seq<string>, found: bool)
    ensures found <==> x in xs
    ensures multiset(ys) == multiset(xs) - multiset{x}
    ensures !found ==> ys == xs
  {
    for i := 0 to |xs|
      invariant x !in xs[..i]
    {
      if xs[i] == x {
        assert xs == xs[..i] + [x] + xs[i + 1..];
        return xs[..i] + xs[i + 1..], true;
      }
    }
    return xs, false;
  }
}
