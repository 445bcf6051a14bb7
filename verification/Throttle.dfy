/** The attempt policy of `internal/accessgate/throttle.go` and the password
    throttle of `internal/accessgate/accessgate.go`, with the guessing-rate bound. */
module Throttle {
  import opened Basics

  datatype PolicyStep = PolicyStep(failures: int, cooldown: int)
  datatype Policy = Policy(steps: seq<PolicyStep>, retention: int)

  const RETENTION: int := 30 * MINUTE

  const DEFAULT_POLICY: Policy :=
    Policy([PolicyStep(5, 30 * SECOND), PolicyStep(7, MINUTE), PolicyStep(9, 2 * MINUTE),
            PolicyStep(10, 5 * MINUTE), PolicyStep(12, 15 * MINUTE)], RETENTION)

  // ---------------------------------------------------------------- policy

  predicate Usable(step: PolicyStep) {
    step.failures > 0 && step.cooldown > 0
  }

  predicate SortedSteps(steps: seq<PolicyStep>) {
    forall i, j | 0 <= i < j < |steps| :: steps[i].failures <= steps[j].failures
  }

  function UsableSteps(steps: seq<PolicyStep>): (r: seq<PolicyStep>)
    ensures forall s | s in r :: s in steps && Usable(s)
    ensures forall s | s in steps && Usable(s) :: s in r
  {
    if steps == [] then []
    else UsableSteps(steps[..|steps| - 1]) + (if Usable(steps[|steps| - 1]) then [steps[|steps| - 1]] else [])
  }

  function Insert(step: PolicyStep, steps: seq<PolicyStep>): (r: seq<PolicyStep>) {
    if steps == [] || steps[|steps| - 1].failures <= step.failures then steps + [step]
    else Insert(step, steps[..|steps| - 1]) + [steps[|steps| - 1]]
  }

  lemma {:induction false} AppendSorts(steps: seq<PolicyStep>, last: PolicyStep)
    requires SortedSteps(steps) && forall s | s in multiset(steps) :: s.failures <= last.failures
    ensures SortedSteps(steps + [last])
  {
    forall i | 0 <= i < |steps| ensures steps[i].failures <= last.failures { assert steps[i] in multiset(steps); }
  }

  lemma {:induction false} InsertSorts(step: PolicyStep, steps: seq<PolicyStep>)
    requires SortedSteps(steps)
    ensures SortedSteps(Insert(step, steps))
    ensures multiset(Insert(step, steps)) == multiset(steps) + multiset{step}
  {
    if steps != [] && steps[|steps| - 1].failures > step.failures {
      var init, last := steps[..|steps| - 1], steps[|steps| - 1];
      assert steps == init + [last];
      assert SortedSteps(init) && forall s | s in init :: s.failures <= last.failures;
      InsertSorts(step, init);
      assert multiset(Insert(step, init)) == multiset(init) + multiset{step};
      AppendSorts(Insert(step, init), last);
      assert Insert(step, steps) == Insert(step, init) + [last];
    }
  }

  function Sort(steps: seq<PolicyStep>): (r: seq<PolicyStep>)
    ensures SortedSteps(r) && multiset(r) == multiset(steps)
  {
    if steps == [] then []
    else
      var init := steps[..|steps| - 1];
      assert steps == init + [steps[|steps| - 1]];
      InsertSorts(steps[|steps| - 1], Sort(init));
      Insert(steps[|steps| - 1], Sort(init))
  }

  /** `normalizeAttemptPolicy`: whatever the caller configured, the policy in
      force has only usable steps, in threshold order, and at least one. */
  function Normalize(policy: Policy): (r: Policy)
    ensures r.steps != [] && SortedSteps(r.steps) && r.retention > 0
    ensures forall s | s in r.steps :: Usable(s)
    ensures UsableSteps(policy.steps) != [] ==> multiset(r.steps) == multiset(UsableSteps(policy.steps))
    ensures UsableSteps(policy.steps) == [] ==> r == DEFAULT_POLICY
  {
    var usable := UsableSteps(policy.steps);
    if usable == [] then DEFAULT_POLICY
    else
      var sorted := Sort(usable);
      assert forall s | s in sorted :: s in multiset(sorted) && s in multiset(usable);
      assert |sorted| == |multiset(sorted)| == |usable|;
      Policy(sorted, if policy.retention <= 0 then RETENTION else policy.retention)
  }

  lemma {:induction false} UsableStepsExactly(steps: seq<PolicyStep>, s: PolicyStep)
    ensures multiset(UsableSteps(steps))[s] == if s.failures > 0 && s.cooldown > 0 then multiset(steps)[s] else 0
  {
    if steps != [] {
      UsableStepsExactly(steps[..|steps| - 1], s);
      assert steps == steps[..|steps| - 1] + [steps[|steps| - 1]];
    }
  }

  /** The policy in force has each configured step with a positive threshold and
      cooldown as often as it was configured, in threshold order, and forgets
      after the configured time or, without one, after half an hour; with no such
      step it is the default. */
  lemma {:induction false} NormalizesExactly(policy: Policy, s: PolicyStep)
    ensures
      var r, usable := Normalize(policy), (t: PolicyStep) => t.failures > 0 && t.cooldown > 0;
      if forall t | t in policy.steps :: !usable(t) then r == DEFAULT_POLICY
      else
        && (forall i, j | 0 <= i < j < |r.steps| :: r.steps[i].failures <= r.steps[j].failures)
        && multiset(r.steps)[s] == (if usable(s) then multiset(policy.steps)[s] else 0)
        && r.retention == (if policy.retention > 0 then policy.retention else 30 * MINUTE)
  {
    UsableStepsExactly(policy.steps, s);
    if exists t :: t in policy.steps && t.failures > 0 && t.cooldown > 0 {
      var t :| t in policy.steps && t.failures > 0 && t.cooldown > 0;
      assert t in multiset(policy.steps);
      UsableStepsExactly(policy.steps, t);
      assert multiset(UsableSteps(policy.steps))[t] > 0;
    }
  }

  /** `normalizeAttemptPolicy`; steps with equal thresholds keep their order. */
  method NormalizeAttemptPolicy(policy: Policy) returns (r: Policy)
    ensures r == Normalize(policy)
  {
    var retention := policy.retention;
    if retention <= 0 { retention := RETENTION; }
    if policy.steps == [] { return DEFAULT_POLICY; }
    var steps: seq<PolicyStep> := [];
    for i := 0 to |policy.steps|
      invariant steps == UsableSteps(policy.steps[..i])
    {
      assert policy.steps[..i + 1][..i] == policy.steps[..i];
      var step := policy.steps[i];
      if step.failures <= 0 || step.cooldown <= 0 { continue; }
      steps := steps + [step];
    }
    assert policy.steps[..|policy.steps|] == policy.steps;
    if steps == [] { return DEFAULT_POLICY; }
    return Policy(Sort(steps), retention);
  }

  /** The longest prefix of thresholds already reached decides the cooldown. */
  function CooldownFor(steps: seq<PolicyStep>, failures: int): int {
    if steps == [] then 0
    else if failures < steps[|steps| - 1].failures then CooldownFor(steps[..|steps| - 1], failures)
    else steps[|steps| - 1].cooldown
  }

  /** The scan of `cooldownForFailuresLocked`, which stops at the first
      threshold not yet reached. */
  method Cooldown(policy: Policy, failures: int) returns (cooldown: int)
    requires SortedSteps(policy.steps)
    ensures cooldown == CooldownFor(policy.steps, failures)
  {
    cooldown := 0;
    var i := 0;
    while i < |policy.steps|
      invariant 0 <= i <= |policy.steps|
      invariant cooldown == CooldownFor(policy.steps[..i], failures)
      invariant forall k | 0 <= k < i :: policy.steps[k].failures <= failures
    {
      if failures < policy.steps[i].failures {
        CooldownIgnoresUnreached(policy.steps, i, failures);
        return;
      }
      assert policy.steps[..i + 1][..i] == policy.steps[..i];
      cooldown := policy.steps[i].cooldown;
      i := i + 1;
    }
    assert policy.steps[..i] == policy.steps;
  }

  lemma {:induction false} CooldownIgnoresUnreached(steps: seq<PolicyStep>, i: nat, failures: int)
    requires i < |steps| && SortedSteps(steps) && failures < steps[i].failures
    ensures CooldownFor(steps, failures) == CooldownFor(steps[..i], failures)
  {
    var init := steps[..|steps| - 1];
    if i < |steps| - 1 {
      CooldownIgnoresUnreached(init, i, failures);
      assert init[..i] == steps[..i];
    }
  }

  /** A cooldown is always that of a greatest reached threshold, or zero
      when no threshold is reached. */
  lemma {:induction false} CooldownIsGreatestReached(steps: seq<PolicyStep>, failures: int)
    requires SortedSteps(steps) && forall s | s in steps :: Usable(s)
    ensures CooldownFor(steps, failures) == 0 <==> forall s | s in steps :: failures < s.failures
    ensures CooldownFor(steps, failures) != 0 ==>
              exists s | s in steps :: s.cooldown == CooldownFor(steps, failures) && s.failures <= failures &&
                                       forall t | t in steps && t.failures <= failures :: t.failures <= s.failures
  {
    if steps != [] {
      var last := steps[|steps| - 1];
      var init := steps[..|steps| - 1];
      assert steps == init + [last];
      if failures < last.failures {
        CooldownIsGreatestReached(init, failures);
        if CooldownFor(steps, failures) != 0 {
          var s :| s in init && s.cooldown == CooldownFor(init, failures) && s.failures <= failures &&
                   forall t | t in init && t.failures <= failures :: t.failures <= s.failures;
          assert s in steps;
        }
      } else {
        assert last in steps;
      }
    }
  }

  // -------------------------------------------------------------- attempts

  datatype Attempts = Attempts(failures: nat, lastFailedAt: int, cooldownUntil: Deadline)

  datatype Verdict = Accepted | Limited(retryAfter: int) | Wrong(cooldown: int)

  predicate Cooling(a: Attempts, now: int) {
    a.cooldownUntil.At? && now < a.cooldownUntil.instant
  }

  /** `cleanupExpiredLocked` keeps a record while it cools down or is recent. */
  predicate Kept(a: Attempts, now: int, retention: int) {
    Cooling(a, now) || now - a.lastFailedAt < retention
  }

  function Forget(table: map<string, Attempts>, now: int, retention: int): map<string, Attempts> {
    map s | s in table && Kept(table[s], now, retention) :: table[s]
  }

  /** The record left by failure number `count` at instant `at`. */
  function Record(policy: Policy, count: nat, at: int): Attempts {
    var cooldown := CooldownFor(policy.steps, count);
    Attempts(count, at, if cooldown <= 0 then Never else At(at + cooldown))
  }

  function Failed(table: map<string, Attempts>, policy: Policy, subject: string, at: int): Attempts {
    Record(policy, if subject in table then table[subject].failures + 1 else 1, at)
  }

  /** `verifyPasswordForSubject` on an enabled gate: `read` is the clock read on
      entry, `at` the later read taken when a failure is recorded. */
  function Judge(table: map<string, Attempts>, policy: Policy, subject: string, correct: bool, read: int, at: int)
    : (map<string, Attempts>, Verdict)
  {
    var kept := Forget(table, read, policy.retention);
    if subject in kept && Cooling(kept[subject], read) then
      (kept, Limited(kept[subject].cooldownUntil.instant - read))
    else if correct then
      (kept - {subject}, Accepted)
    else
      (kept[subject := Failed(kept, policy, subject, at)],
          Wrong(CooldownFor(policy.steps, Failed(kept, policy, subject, at).failures)))
  }

  /** A record still counts: it cools, or its last failure is recent. */
  predicate Remembered(a: Attempts, now: int, retention: int) {
    (a.cooldownUntil.At? && now < a.cooldownUntil.instant) || now - a.lastFailedAt < retention
  }

  /** A password is accepted exactly when it is right and no cooldown of its own
      subject runs; a wrong one counts on from the failures still remembered, and
      a record is forgotten exactly once it neither cools nor is recent. */
  lemma {:induction false} JudgesExactly(table: map<string, Attempts>, policy: Policy, subject: string, correct: bool,
          read: int, at: int)
    ensures
      var (after, v) := Judge(table, policy, subject, correct, read, at);
      var cooling := subject in table && table[subject].cooldownUntil.At? &&
          read < table[subject].cooldownUntil.instant;
      var recent := subject in table && read - table[subject].lastFailedAt < policy.retention;
      && (v.Accepted? <==> correct && !cooling) && (v.Wrong? <==> !correct && !cooling)
      && (v.Limited? ==> v.retryAfter == table[subject].cooldownUntil.instant - read > 0 && subject in after &&
                         after[subject] == table[subject])
      && (v.Accepted? ==> subject !in after)
      && (v.Wrong? ==> subject in after && after[subject].lastFailedAt == at &&
                       after[subject].failures == (if recent then table[subject].failures else 0) + 1 &&
                       v.cooldown == CooldownFor(policy.steps, after[subject].failures) &&
                       after[subject].cooldownUntil == (if v.cooldown > 0 then At(at + v.cooldown) else Never))
      && (forall s | s != subject :: (s in after <==> s in table && Remembered(table[s], read, policy.retention)))
      && (forall s | s != subject && s in after :: after[s] == table[s])
  {}

  // ------------------------------------------------------------------ runs

  /** One critical section that touches the attempt table. `read` is the clock
      value the section works with and `at` the instant it holds the lock. */
  datatype Event =
    | Sweep(read: int, at: int)
    | Guess(subject: string, correct: bool, read: int, at: int)

  function After(table: map<string, Attempts>, policy: Policy, e: Event): map<string, Attempts> {
    match e
    case Sweep(read, _) => Forget(table, read, policy.retention)
    case Guess(s, correct, read, at) => Judge(table, policy, s, correct, read, at).0
  }

  predicate EvaluatedWrong(table: map<string, Attempts>, policy: Policy, e: Event, subject: string) {
    e.Guess? && e.subject == subject && Judge(table, policy, subject, e.correct, e.read, e.at).1.Wrong?
  }

  predicate Succeeds(table: map<string, Attempts>, policy: Policy, e: Event, subject: string) {
    e.Guess? && e.subject == subject && Judge(table, policy, subject, e.correct, e.read, e.at).1.Accepted?
  }

  function RunTable(table: map<string, Attempts>, policy: Policy, events: seq<Event>): map<string, Attempts> {
    if events == [] then table
    else After(RunTable(table, policy, events[..|events| - 1]), policy, events[|events| - 1])
  }

  /** Wrong passwords evaluated for `subject` from instant `start` on. */
  function WrongSince(table: map<string, Attempts>, policy: Policy, events: seq<Event>, subject: string,
          start: int): nat {
    if events == [] then 0
    else
      var before := events[..|events| - 1];
      var e := events[|events| - 1];
      WrongSince(table, policy, before, subject, start) +
      (if e.at >= start && EvaluatedWrong(RunTable(table, policy, before), policy, e, subject) then 1 else 0)
  }

  predicate NeverSucceeds(table: map<string, Attempts>, policy: Policy, events: seq<Event>, subject: string) {
    events == [] ||
    (NeverSucceeds(table, policy, events[..|events| - 1], subject) &&
     !Succeeds(RunTable(table, policy, events[..|events| - 1]), policy, events[|events| - 1], subject))
  }

  /** The clock never runs backwards between critical sections, and no section
      works with a reading from the future. */
  predicate Clocked(events: seq<Event>) {
    (forall i | 0 <= i < |events| :: events[i].read <= events[i].at) &&
    (forall i, j | 0 <= i < j < |events| :: events[i].at <= events[j].at)
  }

  /** The allowance, in seconds, still owed after the n-th consecutive failure. */
  function Reserve(failures: nat): int {
    if failures <= 5 then 1800 - 210 * failures
    else if failures == 6 then 570
    else if failures == 7 then 390
    else if failures == 8 then 240
    else if failures == 9 then 90
    else if failures == 10 then 0
    else if failures == 11 then 90
    else 180
  }

  lemma {:induction false} DefaultCooldowns(n: nat)
    ensures CooldownFor(DEFAULT_POLICY.steps, n) ==
            (if n < 5 then 0 else if n < 7 then 30 else if n < 9 then 60 else if n < 10 then 120
             else if n < 12 then 300 else 900) * SECOND
  {
    var s := DEFAULT_POLICY.steps;
    assert s[..4] == [s[0], s[1], s[2], s[3]];
    assert s[..4][..3] == [s[0], s[1], s[2]];
    assert s[..4][..3][..2] == [s[0], s[1]];
    assert s[..4][..3][..2][..1] == [s[0]];
    assert CooldownFor([s[0]], n) == if n < 5 then 0 else 30 * SECOND;
    assert CooldownFor([s[0], s[1]], n) == if n < 7 then CooldownFor([s[0]], n) else 60 * SECOND;
    assert CooldownFor([s[0], s[1], s[2]], n) == if n < 9 then CooldownFor([s[0], s[1]], n) else 120 * SECOND;
  }

  /** Waiting out the cooldown of the n-th failure pays for the next guess. */
  lemma {:induction false} CooldownPays(n: nat)
    requires n >= 1
    ensures CooldownFor(DEFAULT_POLICY.steps, n) >= (210 + Reserve(n + 1) - Reserve(n)) * SECOND
    ensures 0 <= Reserve(n) <= 1590
  {
    DefaultCooldowns(n);
  }

  /** What the run knows about `subject`: the last counted failure was number
      `failures` at instant `last`; its record is intact, or was dropped after
      a full retention period. */
  ghost predicate Known(table: map<string, Attempts>, subject: string, failures: nat, last: int, at: int) {
    failures >= 1 && last <= at &&
    if subject in table then table[subject] == Record(DEFAULT_POLICY, failures, last)
    else last + RETENTION <= at
  }

  ghost predicate Paid(count: nat, failures: nat, last: int, start: int) {
    count * 210 * SECOND <= (last - start) + (1800 - Reserve(failures)) * SECOND
  }

  /** The records of a run that has counted at least one failure are paid for. */
  lemma {:induction false} GuessesArePaid(table: map<string, Attempts>, events: seq<Event>, subject: string, start: int)
    returns (failures: nat, last: int)
    requires Clocked(events) && NeverSucceeds(table, DEFAULT_POLICY, events, subject)
    ensures WrongSince(table, DEFAULT_POLICY, events, subject, start) > 0 ==>
              && events != [] && start <= last
              && Known(RunTable(table, DEFAULT_POLICY, events), subject, failures, last, events[|events| - 1].at)
              && Paid(WrongSince(table, DEFAULT_POLICY, events, subject, start), failures, last, start)
  {
    failures, last := 0, 0;
    if events == [] { return; }
    var before := events[..|events| - 1];
    var e := events[|events| - 1];
    failures, last := GuessesArePaid(table, before, subject, start);
    var seen := RunTable(table, DEFAULT_POLICY, before);
    var count := WrongSince(table, DEFAULT_POLICY, before, subject, start);
    if count > 0 {
      assert before[|before| - 1].at <= e.at;
      CooldownPays(failures);
    }
    if e.at >= start && EvaluatedWrong(seen, DEFAULT_POLICY, e, subject) {
      var kept := Forget(seen, e.read, RETENTION);
      var next := Failed(kept, DEFAULT_POLICY, subject, e.at);
      CooldownPays(next.failures);
      failures, last := next.failures, e.at;
    }
  }

  /** Guess-rate bound: under the default policy, while no attempt of `subject`
      succeeds, a window of `span` nanoseconds from `start` evaluates at most
      (span + 30 minutes) / 210 seconds wrong passwords. */
  lemma {:induction false} GuessRateBound(table: map<string, Attempts>, events: seq<Event>, subject: string,
          start: int, span: int)
    requires Clocked(events) && NeverSucceeds(table, DEFAULT_POLICY, events, subject)
    requires span >= 0 && forall e | e in events :: e.at <= start + span
    ensures WrongSince(table, DEFAULT_POLICY, events, subject, start) * 210 * SECOND <= span + 1800 * SECOND
  {
    var failures, last := GuessesArePaid(table, events, subject, start);
    if WrongSince(table, DEFAULT_POLICY, events, subject, start) > 0 {
      assert events[|events| - 1] in events;
      CooldownPays(failures);
    }
  }

  /** `events` evaluated exactly `n` wrong passwords, the latest at `last`. */
  ghost predicate Tried(events: seq<Event>, n: nat, last: int) {
    && events != [] && events[|events| - 1].at == last && 0 <= last
    && (forall e | e in events :: 0 <= e.at <= last)
    && Clocked(events) && NeverSucceeds(map[], DEFAULT_POLICY, events, "s")
    && n >= 1 && WrongSince(map[], DEFAULT_POLICY, events, "s", 0) == n
    && RunTable(map[], DEFAULT_POLICY, events) == map["s" := Record(DEFAULT_POLICY, n, last)]
  }

  lemma {:induction false} FirstGuess() returns (events: seq<Event>)
    ensures Tried(events, 1, 0)
  {
    events := [Guess("s", false, 0, 0)];
    var none := events[..|events| - 1];
    assert none == [] && NeverSucceeds(map[], DEFAULT_POLICY, none, "s");
    assert RunTable(map[], DEFAULT_POLICY, none) == map[];
    assert Forget(map[], 0, RETENTION) == map[];
    assert EvaluatedWrong(map[], DEFAULT_POLICY, events[0], "s");
    DefaultCooldowns(1);
  }

  lemma {:induction false} NextRecord(n: nat, last: int, at: int)
    requires n >= 1 && last + CooldownFor(DEFAULT_POLICY.steps, n) <= at < last + RETENTION && last <= at
    ensures var table := map["s" := Record(DEFAULT_POLICY, n, last)];
            var e := Guess("s", false, at, at);
            && After(table, DEFAULT_POLICY, e) == map["s" := Record(DEFAULT_POLICY, n + 1, at)]
            && EvaluatedWrong(table, DEFAULT_POLICY, e, "s") && !Succeeds(table, DEFAULT_POLICY, e, "s")
  {
    var table := map["s" := Record(DEFAULT_POLICY, n, last)];
    assert !Cooling(table["s"], at) && Kept(table["s"], at, RETENTION);
    assert Forget(table, at, RETENTION) == table;
  }

  lemma {:induction false} OneMoreGuess(events: seq<Event>, n: nat, last: int, at: int) returns (longer: seq<Event>)
    requires Tried(events, n, last)
    requires last + CooldownFor(DEFAULT_POLICY.steps, n) <= at < last + RETENTION && last <= at
    ensures Tried(longer, n + 1, at)
  {
    NextRecord(n, last, at);
    longer := events + [Guess("s", false, at, at)];
    assert longer[..|longer| - 1] == events && longer[|longer| - 1] == Guess("s", false, at, at);
  }

  /** The bound is attained: ten wrong passwords fit into five minutes. */
  lemma {:induction false} GuessRateIsAttained() returns (events: seq<Event>)
    ensures Clocked(events) && NeverSucceeds(map[], DEFAULT_POLICY, events, "s")
    ensures forall e | e in events :: 0 <= e.at <= 300 * SECOND
    ensures WrongSince(map[], DEFAULT_POLICY, events, "s", 0) * 210 * SECOND == 300 * SECOND + 1800 * SECOND
  {
    events := FirstGuess();
    DefaultCooldowns(1); events := OneMoreGuess(events, 1, 0, 0);
    DefaultCooldowns(2); events := OneMoreGuess(events, 2, 0, 0);
    DefaultCooldowns(3); events := OneMoreGuess(events, 3, 0, 0);
    DefaultCooldowns(4); events := OneMoreGuess(events, 4, 0, 0);
    DefaultCooldowns(5); events := OneMoreGuess(events, 5, 0, 30 * SECOND);
    DefaultCooldowns(6); events := OneMoreGuess(events, 6, 30 * SECOND, 60 * SECOND);
    DefaultCooldowns(7); events := OneMoreGuess(events, 7, 60 * SECOND, 120 * SECOND);
    DefaultCooldowns(8); events := OneMoreGuess(events, 8, 120 * SECOND, 180 * SECOND);
    DefaultCooldowns(9); events := OneMoreGuess(events, 9, 180 * SECOND, 300 * SECOND);
  }
}
