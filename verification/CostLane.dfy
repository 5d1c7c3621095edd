/** The lane that serialises Azure cost queries. */
module CostLane {
  import opened Options

  // One claim at a time, export claims before all others, and a minimum gap between the end of
  // one claim and the start of the next one's work. Every block that holds the lock is one
  // atomic event. A claim is known by its arrival number; it is asleep in `wait`, notified but
  // without the lock, sleeping off the gap with the lane in its hands, or working. The clock
  // moves only by ticks.

  const EXPORT := "export"

  datatype Phase = Asleep | Notified | Gap(readyAt: real) | Working(since: real)

  datatype Claim = Claim(caller: string, phase: Phase)

  /** One finished claim: when its work started and the recorded end. */
  datatype Span = Span(start: real, end: real)

  /** `holder`, `openJobs`, `clock` and `log` are the observer's own record; the other
      fields are the coordinator's. */
  datatype State = State(
    active: Option<string>,
    waitingExports: int,
    exportJobs: int,
    minGap: real,
    lastEnd: Option<real>,
    claims: map<nat, Claim>,
    counter: nat,
    holder: Option<nat>,
    openJobs: nat,
    clock: real,
    log: seq<Span>)

  datatype Event =
    | Enter(caller: string)
    | Wake(claim: nat)
    | Start(claim: nat)
    | End(claim: nat)
    | OpenJob
    | CloseJob
    | Tick(seconds: real)

  predicate Waits(c: Claim) {
    c.phase.Asleep? || c.phase.Notified?
  }

  function WaitingExports(claims: map<nat, Claim>): set<nat> {
    set k | k in claims && Waits(claims[k]) && claims[k].caller == EXPORT
  }

  function NonNegative(n: int): int {
    if n < 0 then 0 else n
  }

  // ----- Events --------------------------------------------------------------------

  function Initial(minGap: real, clock: real): State {
    State(None, 0, 0, minGap, None, map[], 0, None, 0, clock, [])
  }

  predicate Enabled(s: State, e: Event) {
    match e
    case Enter(_) => true
    case Wake(k) => k in s.claims && s.claims[k].phase.Notified?
    case Start(k) => k in s.claims && s.claims[k].phase.Gap? && s.claims[k].phase.readyAt <= s.clock
    case End(k) => k in s.claims && s.claims[k].phase.Working?
    case OpenJob => true
    case CloseJob => s.openJobs > 0
    case Tick(d) => d >= 0.0
  }

  /** The guard of the waiting loop. */
  predicate Blocked(s: State, caller: string) {
    s.active.Some? || (caller != EXPORT && s.waitingExports > 0)
  }

  function GapNeeded(s: State): real {
    if s.minGap > 0.0 && s.lastEnd.Some? then
      var remaining := s.minGap - (s.clock - s.lastEnd.value);
      if remaining < 0.0 then 0.0 else remaining
    else
      0.0
  }

  /** One turn of the waiting loop: take the lane, or sleep. */
  function Check(s: State, k: nat): State
    requires k in s.claims
  {
    var c := s.claims[k];
    if Blocked(s, c.caller) then
      s.(claims := s.claims[k := c.(phase := Asleep)])
    else
      s.(active := Some(c.caller),
         holder := Some(k),
         waitingExports := if c.caller == EXPORT then NonNegative(s.waitingExports - 1) else s.waitingExports,
         claims := s.claims[k := c.(phase := Gap(s.clock + GapNeeded(s)))])
  }

  /** The state in which an entering claim makes its first check. */
  function Arrived(s: State, caller: string): State {
    s.(waitingExports := if caller == EXPORT then s.waitingExports + 1 else s.waitingExports,
       claims := s.claims[s.counter := Claim(caller, Notified)],
       counter := s.counter + 1)
  }

  function NotifyAll(claims: map<nat, Claim>): map<nat, Claim> {
    map k | k in claims :: if claims[k].phase.Asleep? then claims[k].(phase := Notified) else claims[k]
  }

  function Step(s: State, e: Event): State
    requires Enabled(s, e)
  {
    match e
    case Enter(caller) => Check(Arrived(s, caller), s.counter)
    case Wake(k) => Check(s, k)
    case Start(k) => s.(claims := s.claims[k := s.claims[k].(phase := Working(s.clock))])
    case End(k) =>
      s.(lastEnd := Some(s.clock),
         active := None,
         holder := None,
         log := s.log + [Span(s.claims[k].phase.since, s.clock)],
         claims := NotifyAll(s.claims - {k}))
    case OpenJob => s.(exportJobs := s.exportJobs + 1, openJobs := s.openJobs + 1)
    case CloseJob =>
      s.(exportJobs := NonNegative(s.exportJobs - 1), openJobs := s.openJobs - 1, claims := NotifyAll(s.claims))
    case Tick(d) => s.(clock := s.clock + d)
  }

  // ----- Invariant -----------------------------------------------------------------

  ghost predicate OneHolder(s: State) {
    && (forall k :: k in s.claims ==> (!Waits(s.claims[k]) <==> s.holder == Some(k)))
    && (s.holder.Some? ==> s.holder.value in s.claims && s.active == Some(s.claims[s.holder.value].caller))
    && (s.holder.None? ==> s.active.None?)
  }

  /** No lost wake-up: with the lane free, a claim sleeps only if its guard is still false. */
  ghost predicate SleepersAreBlocked(s: State) {
    s.active.None? ==>
      forall k :: k in s.claims && s.claims[k].phase.Asleep? ==> Blocked(s, s.claims[k].caller)
  }

  ghost predicate Spaced(log: seq<Span>, minGap: real) {
    forall i, j :: 0 <= i && j == i + 1 && j < |log| ==> log[j].start - log[i].end >= minGap
  }

  /** Nothing starts within the gap after the last recorded end. */
  ghost predicate GapKept(s: State) {
    && (s.lastEnd == if s.log == [] then None else Some(s.log[|s.log| - 1].end))
    && Spaced(s.log, s.minGap)
    && (s.lastEnd.Some? ==>
      && s.lastEnd.value <= s.clock
      && forall k :: k in s.claims ==>
        && (s.claims[k].phase.Gap? ==> s.claims[k].phase.readyAt - s.lastEnd.value >= s.minGap)
        && (s.claims[k].phase.Working? ==> s.claims[k].phase.since - s.lastEnd.value >= s.minGap))
  }

  ghost predicate Inv(s: State) {
    && (forall k :: k in s.claims ==> k < s.counter)
    && OneHolder(s)
    && s.waitingExports == |WaitingExports(s.claims)|
    && s.exportJobs == s.openJobs
    && SleepersAreBlocked(s)
    && GapKept(s)
  }

  lemma InitialInv(minGap: real, clock: real)
    ensures Inv(Initial(minGap, clock))
  {
    assert WaitingExports(Initial(minGap, clock).claims) == {};
  }

  lemma WaitingAfter(claims: map<nat, Claim>, k: nat, phase: Phase)
    requires k in claims && Waits(claims[k])
    ensures var after := claims[k := claims[k].(phase := phase)];
      |WaitingExports(after)| ==
        |WaitingExports(claims)| - if claims[k].caller == EXPORT && !phase.Asleep? && !phase.Notified? then 1 else 0
    ensures claims[k].caller == EXPORT ==> |WaitingExports(claims)| >= 1
  {
    var after := claims[k := claims[k].(phase := phase)];
    if claims[k].caller == EXPORT {
      assert k in WaitingExports(claims);
      if phase.Asleep? || phase.Notified? {
        assert WaitingExports(after) == WaitingExports(claims);
      } else {
        assert WaitingExports(after) == WaitingExports(claims) - {k};
      }
    } else {
      assert WaitingExports(after) == WaitingExports(claims);
    }
  }

  lemma GapIsLongEnough(s: State)
    requires GapKept(s) && s.lastEnd.Some?
    ensures s.clock + GapNeeded(s) - s.lastEnd.value >= s.minGap
  {
  }

  lemma CheckKeepsInv(s: State, k: nat)
    requires Inv(s) && k in s.claims && s.claims[k].phase.Notified?
    ensures Inv(Check(s, k))
  {
    var c := s.claims[k];
    if Blocked(s, c.caller) {
      WaitingAfter(s.claims, k, Asleep);
    } else {
      WaitingAfter(s.claims, k, Gap(s.clock + GapNeeded(s)));
      if s.lastEnd.Some? {
        GapIsLongEnough(s);
      }
    }
  }

  lemma ArrivedKeepsInv(s: State, caller: string)
    requires Inv(s)
    ensures Inv(Arrived(s, caller))
  {
    var t := Arrived(s, caller);
    if caller == EXPORT {
      assert WaitingExports(t.claims) == WaitingExports(s.claims) + {s.counter};
    } else {
      assert WaitingExports(t.claims) == WaitingExports(s.claims);
    }
  }

  lemma EndKeepsInv(s: State, k: nat)
    requires Inv(s) && Enabled(s, End(k))
    ensures Inv(Step(s, End(k)))
  {
    var t := Step(s, End(k));
    assert WaitingExports(t.claims) == WaitingExports(s.claims);
  }

  lemma StepKeepsInv(s: State, e: Event)
    requires Inv(s) && Enabled(s, e)
    ensures Inv(Step(s, e))
  {
    match e {
      case Enter(caller) =>
        ArrivedKeepsInv(s, caller);
        CheckKeepsInv(Arrived(s, caller), s.counter);
      case Wake(k) => CheckKeepsInv(s, k);
      case Start(k) => assert WaitingExports(Step(s, e).claims) == WaitingExports(s.claims);
      case End(k) => EndKeepsInv(s, k);
      case OpenJob =>
      case CloseJob => assert WaitingExports(Step(s, e).claims) == WaitingExports(s.claims);
      case Tick(_) =>
    }
  }

  // ----- Runs ------------------------------------------------------------------------

  ghost predicate Run(s: State, es: seq<Event>, t: State)
    decreases |es|
  {
    if es == [] then s == t else Enabled(s, es[0]) && Run(Step(s, es[0]), es[1..], t)
  }

  ghost predicate Reachable(minGap: real, t: State) {
    exists es, clock :: Run(Initial(minGap, clock), es, t)
  }

  lemma {:induction false} RunKeepsInv(s: State, es: seq<Event>, t: State)
    requires Inv(s) && Run(s, es, t)
    ensures Inv(t) && t.minGap == s.minGap && s.log <= t.log
    decreases |es|
  {
    if es != [] {
      StepKeepsInv(s, es[0]);
      RunKeepsInv(Step(s, es[0]), es[1..], t);
    }
  }

  lemma ReachableInv(minGap: real, t: State)
    requires Reachable(minGap, t)
    ensures Inv(t) && t.minGap == minGap
  {
    var es, clock :| Run(Initial(minGap, clock), es, t);
    InitialInv(minGap, clock);
    RunKeepsInv(Initial(minGap, clock), es, t);
  }

  predicate Holds(c: Claim) {
    c.phase.Gap? || c.phase.Working?
  }

  /** At most one claim has the lane, it is the recorded active caller, and the waiting
      counter is the number of export claims still waiting. */
  lemma LaneIsExclusive(minGap: real, s: State)
    requires Reachable(minGap, s)
    ensures forall j, k :: j in s.claims && k in s.claims && Holds(s.claims[j]) && Holds(s.claims[k]) ==> j == k
    ensures forall k :: k in s.claims && Holds(s.claims[k]) ==> s.active == Some(s.claims[k].caller)
    ensures s.active.Some? <==> exists k :: k in s.claims && Holds(s.claims[k])
    ensures s.waitingExports == |WaitingExports(s.claims)|
  {
    ReachableInv(minGap, s);
    if s.active.Some? {
      assert Holds(s.claims[s.holder.value]);
    }
  }

  /** The claim that an event lets into the lane. */
  predicate Admits(s: State, e: Event, k: nat)
    requires Enabled(s, e)
  {
    k in Step(s, e).claims && Holds(Step(s, e).claims[k]) && (k !in s.claims || Waits(s.claims[k]))
  }

  /** While an export waits, whoever is admitted is an export; and nobody is admitted to
      a lane that is taken. */
  lemma ExportsGoFirst(minGap: real, s: State, e: Event, k: nat)
    requires Reachable(minGap, s) && Enabled(s, e) && Admits(s, e, k)
    ensures s.active.None?
    ensures Step(s, e).claims[k].caller != EXPORT ==> WaitingExports(s.claims) == {}
  {
    ReachableInv(minGap, s);
  }

  /** A free lane with claims waiting has one that is awake, and its next check takes the
      lane: the protocol cannot deadlock. */
  lemma FreeLaneIsTaken(minGap: real, s: State, w: nat)
    requires Reachable(minGap, s) && s.active.None? && w in s.claims
    ensures exists k :: Enabled(s, Wake(k)) && Admits(s, Wake(k), k)
    ensures !Blocked(s, s.claims[w].caller) ==> Enabled(s, Wake(w)) && Admits(s, Wake(w), w)
  {
    ReachableInv(minGap, s);
    if Blocked(s, s.claims[w].caller) {
      assert WaitingExports(s.claims) != {};
      var x :| x in WaitingExports(s.claims);
      assert Admits(s, Wake(x), x);
    } else {
      assert Admits(s, Wake(w), w);
    }
  }

  /** In the record of any run, each claim's work starts at least the gap after the
      recorded end of the claim before it; the claim now working did so too. */
  lemma GapBetweenClaims(minGap: real, s: State)
    requires Reachable(minGap, s)
    ensures forall i, j :: 0 <= i && j == i + 1 && j < |s.log| ==> s.log[j].start - s.log[i].end >= minGap
    ensures forall k :: k in s.claims && s.claims[k].phase.Working? && s.log != [] ==>
      s.claims[k].phase.since - s.log[|s.log| - 1].end >= minGap
  {
    ReachableInv(minGap, s);
  }

  /** The least time not below zero after which the gap since the last end is over. */
  ghost predicate IsLeastGap(lastEnd: Option<real>, minGap: real, now: real, gap: real) {
    && gap >= 0.0
    && (lastEnd.Some? ==> now + gap >= lastEnd.value + minGap)
    && (gap > 0.0 ==> lastEnd.Some? && now + gap == lastEnd.value + minGap)
  }

  /** Whoever is admitted sleeps off the rest of the gap and no more. */
  lemma AdmittedSleepsTheRest(minGap: real, s: State, e: Event, k: nat)
    requires Reachable(minGap, s) && Enabled(s, e) && Admits(s, e, k)
    ensures var phase := Step(s, e).claims[k].phase;
      && phase.Gap? && IsLeastGap(s.lastEnd, minGap, s.clock, phase.readyAt - s.clock)
      && Enabled(Step(Step(s, e), Tick(phase.readyAt - s.clock)), Start(k))
  {
    ReachableInv(minGap, s);
  }

  /** An entering claim gets the lane at once exactly if no claim has it and, unless it is
      an export, no export is waiting; the same holds for a woken claim's check. */
  lemma AdmittedIff(minGap: real, s: State, caller: string, k: nat)
    requires Reachable(minGap, s)
    ensures Admits(s, Enter(caller), s.counter) <==>
      && (forall j :: j in s.claims ==> !Holds(s.claims[j]))
      && (caller == EXPORT || WaitingExports(s.claims) == {})
    ensures Enabled(s, Wake(k)) ==> (Admits(s, Wake(k), k) <==>
      && (forall j :: j in s.claims ==> !Holds(s.claims[j]))
      && (s.claims[k].caller == EXPORT || WaitingExports(s.claims) == {}))
  {
    ReachableInv(minGap, s);
    if s.active.Some? {
      assert Holds(s.claims[s.holder.value]);
    }
  }

  /** The jobs that some events open, less those they close. */
  function Balance(es: seq<Event>): int {
    if es == [] then 0 else Balance(es[1..]) + (if es[0].OpenJob? then 1 else if es[0].CloseJob? then -1 else 0)
  }

  lemma StepKeepsJobs(s: State, e: Event)
    requires Enabled(s, e)
    ensures Step(s, e).openJobs == s.openJobs + if e.OpenJob? then 1 else if e.CloseJob? then -1 else 0
  {
  }

  /** The open jobs of any run are those opened and not closed in it. */
  lemma {:induction false} OpenJobsAreCounted(s: State, es: seq<Event>, t: State)
    requires Run(s, es, t)
    ensures t.openJobs == s.openJobs + Balance(es)
    decreases |es|
  {
    if es != [] {
      StepKeepsJobs(s, es[0]);
      OpenJobsAreCounted(Step(s, es[0]), es[1..], t);
    }
  }

  ghost predicate NobodySleeps(claims: map<nat, Claim>) {
    forall k :: k in claims ==> !claims[k].phase.Asleep?
  }

  // ----- The coordinator -------------------------------------------------------------

  class AzureCostQueryCoordinator {
    var activeCaller: Option<string>
    var waitingExports: int
    var activeExportJobs: int
    const minGapSeconds: real
    var lastCallEnd: Option<real>
    ghost var seen: State

    /** The recorded fields agree with the observer's state. */
    ghost predicate Valid()
      reads this
    {
      && Inv(seen)
      && seen.active == activeCaller && seen.waitingExports == waitingExports
      && seen.exportJobs == activeExportJobs && seen.minGap == minGapSeconds && seen.lastEnd == lastCallEnd
    }

    constructor (minGapSeconds: real, ghost clock: real)
      ensures Valid() && seen == Initial(minGapSeconds, clock)
    {
      this.minGapSeconds := minGapSeconds;
      activeCaller, waitingExports, activeExportJobs, lastCallEnd := None, 0, 0, None;
      seen := Initial(minGapSeconds, clock);
      new;
      InitialInv(minGapSeconds, clock);
    }

    ghost method Pass(seconds: real)
      requires Valid() && seconds >= 0.0
      modifies this`seen
      ensures Valid() && seen == Step(old(seen), Tick(seconds))
    {
      StepKeepsInv(seen, Tick(seconds));
      seen := Step(seen, Tick(seconds));
    }

    /** Entry to `claim`, up to the first `wait` or to leaving the lock with the lane. */
    method Enter(caller: string, now: real) returns (gapNeeded: Option<real>)
      requires Valid() && now == seen.clock
      modifies this
      ensures Valid() && seen == Step(old(seen), Event.Enter(caller))
      ensures gapNeeded.Some? <==> Admits(old(seen), Event.Enter(caller), old(seen).counter)
      ensures gapNeeded.Some? ==> seen.claims[old(seen).counter].phase == Gap(now + gapNeeded.value)
      ensures gapNeeded.Some? ==> IsLeastGap(lastCallEnd, minGapSeconds, now, gapNeeded.value)
      ensures lastCallEnd == old(lastCallEnd)
    {
      StepKeepsInv(seen, Event.Enter(caller));
      ArrivedKeepsInv(seen, caller);
      if caller == EXPORT {
        waitingExports := waitingExports + 1;
      }
      ghost var k := seen.counter;
      seen := Arrived(seen, caller);
      gapNeeded := TurnOfWaitLoop(k, caller, now);
    }

    method Recheck(ghost k: nat, caller: string, now: real) returns (gapNeeded: Option<real>)
      requires Valid() && now == seen.clock && Enabled(seen, Wake(k)) && seen.claims[k].caller == caller
      modifies this
      ensures Valid() && seen == Step(old(seen), Wake(k))
      ensures gapNeeded.Some? <==> Admits(old(seen), Wake(k), k)
      ensures gapNeeded.Some? ==> seen.claims[k].phase == Gap(now + gapNeeded.value)
      ensures gapNeeded.Some? ==> IsLeastGap(lastCallEnd, minGapSeconds, now, gapNeeded.value)
      ensures lastCallEnd == old(lastCallEnd)
    {
      gapNeeded := TurnOfWaitLoop(k, caller, now);
    }

    method TurnOfWaitLoop(ghost k: nat, caller: string, now: real) returns (gapNeeded: Option<real>)
      requires Valid() && now == seen.clock && Enabled(seen, Wake(k)) && seen.claims[k].caller == caller
      modifies this
      ensures Valid() && seen == Check(old(seen), k)
      ensures gapNeeded.Some? <==> !Blocked(old(seen), caller)
      ensures gapNeeded.Some? ==> seen.claims[k].phase == Gap(now + gapNeeded.value)
      ensures gapNeeded.Some? ==> IsLeastGap(lastCallEnd, minGapSeconds, now, gapNeeded.value)
      ensures lastCallEnd == old(lastCallEnd)
    {
      CheckKeepsInv(seen, k);
      if activeCaller.Some? || (caller != EXPORT && waitingExports > 0) {
        gapNeeded := None;
      } else {
        activeCaller := Some(caller);
        var gap := 0.0;
        if minGapSeconds > 0.0 && lastCallEnd.Some? {
          var elapsed := now - lastCallEnd.value;
          gap := if minGapSeconds - elapsed < 0.0 then 0.0 else minGapSeconds - elapsed;
        }
        if caller == EXPORT {
          waitingExports := if waitingExports - 1 < 0 then 0 else waitingExports - 1;
        }
        gapNeeded := Some(gap);
      }
      seen := Check(seen, k);
    }

    /** The gap has been slept off and the claim's body begins. */
    ghost method Begin(k: nat)
      requires Valid() && Enabled(seen, Start(k))
      modifies this`seen
      ensures Valid() && seen == Step(old(seen), Start(k))
      ensures seen.claims[k].phase == Working(old(seen).clock)
    {
      StepKeepsInv(seen, Start(k));
      seen := Step(seen, Start(k));
    }

    /** The `finally` block, whether the body returned or raised. */
    method Release(ghost k: nat, now: real)
      requires Valid() && now == seen.clock && Enabled(seen, End(k))
      modifies this
      ensures Valid() && seen == Step(old(seen), End(k))
      ensures lastCallEnd == Some(now) && activeCaller.None? && NobodySleeps(seen.claims)
      ensures seen.log == old(seen).log + [Span(old(seen).claims[k].phase.since, now)]
    {
      StepKeepsInv(seen, End(k));
      lastCallEnd := Some(now);
      activeCaller := None;
      seen := Step(seen, End(k));
    }

    method OpenExportJob()
      requires Valid()
      modifies this
      ensures Valid() && seen == Step(old(seen), OpenJob)
    {
      StepKeepsInv(seen, OpenJob);
      activeExportJobs := activeExportJobs + 1;
      seen := Step(seen, OpenJob);
    }

    method CloseExportJob()
      requires Valid() && Enabled(seen, CloseJob)
      modifies this
      ensures Valid() && seen == Step(old(seen), CloseJob) && NobodySleeps(seen.claims)
    {
      StepKeepsInv(seen, CloseJob);
      activeExportJobs := if activeExportJobs - 1 < 0 then 0 else activeExportJobs - 1;
      seen := Step(seen, CloseJob);
    }

    method HasActiveExportJob() returns (active: bool)
      requires Valid()
      ensures active <==> seen.openJobs > 0
    {
      active := activeExportJobs > 0;
    }
  }
}
