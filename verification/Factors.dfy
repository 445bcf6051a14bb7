/** Second factors: time-based codes (RFC 6238) and recovery codes, as
    `verifyFactorLocked` accepts them, and what stays true over whole runs. */
module Factors {
  import opened Basics
  import opened Throttle

  /** The durable authentication state. Times of failures are milliseconds,
      `lastCodeUntil` is seconds. */
  datatype AuthState = AuthState(passwordHash: string, revision: nat, credentialId: string, secret: string,
                                 recoverySalt: string, recoveryHashes: seq<string>, lastStep: int,
                                 lastCodeHash: string, lastCodeUntil: int, failures: nat, lastFailure: int,
                                 cooldownUntil: int, recoveryPending: bool)

  /** Calls into libraries: the code of a secret at a step, the salted digest,
      and the two normalizations of typed text. Nothing is assumed of them. */
  datatype Crypto = Crypto(code: (string, int) -> Option<string>, digest: (string, string) -> string,
                           normalizeCode: string -> string, normalizeRecovery: string -> string)

  datatype FactorError = NoFactor | FactorLimited(until: int)

  /** Go integer division truncates toward zero. */
  function Quotient(a: int, b: int): int
    requires b > 0
  {
    if a >= 0 then a / b else -((-a) / b)
  }

  function Unix(now: int): int { now / SECOND }

  function UnixMilli(now: int): int { now / MILLISECOND }

  function StepAt(now: int): int { Quotient(Unix(now), 30) }

  // ------------------------------------------------------------ time codes

  predicate Matches(c: Crypto, secret: string, text: string, step: int) {
    c.code(secret, step) == Some(text)
  }

  /** The greatest of the three live steps that shows this code. */
  function MatchedStep(c: Crypto, secret: string, code: string, now: int): Option<int> {
    var text, step := c.normalizeCode(code), StepAt(now);
    if |text| != 6 then None
    else
      var found := if Matches(c, secret, text, step + 1) then step + 1
                   else if Matches(c, secret, text, step) then step
                   else if Matches(c, secret, text, step - 1) then step - 1 else -1;
      if found >= 0 then Some(found) else None
  }

  method MatchingStep(c: Crypto, secret: string, code: string, now: int) returns (r: Option<int>)
    ensures r == MatchedStep(c, secret, code, now)
    ensures r.Some? ==> r.value >= 0 && StepAt(now) - 1 <= r.value <= StepAt(now) + 1 &&
                        c.code(secret, r.value) == Some(c.normalizeCode(code)) &&
                        forall s | r.value < s <= StepAt(now) + 1 :: c.code(secret, s) != Some(c.normalizeCode(code))
  {
    var text := c.normalizeCode(code);
    if |text| != 6 { return None; }
    var step := StepAt(now);
    var matched := -1;
    for offset := -1 to 2
      invariant matched == if offset > 1 && Matches(c, secret, text, step + 1) then step + 1
                           else if offset > 0 && Matches(c, secret, text, step) then step
                           else if offset > -1 && Matches(c, secret, text, step - 1) then step - 1 else -1
    {
      if c.code(secret, step + offset) == Some(text) { matched := step + offset; }
    }
    return if matched >= 0 then Some(matched) else None;
  }

  // --------------------------------------------------------- recovery codes

  /** The list without the first occurrence of `hash`. */
  function Without(hashes: seq<string>, hash: string): seq<string> {
    if hashes == [] then []
    else if hashes[0] == hash then hashes[1..]
    else [hashes[0]] + Without(hashes[1..], hash)
  }

  lemma {:induction false} WithoutOne(hashes: seq<string>, hash: string)
    ensures hash in hashes ==> multiset(hashes) == multiset(Without(hashes, hash)) + multiset{hash}
    ensures hash !in hashes ==> Without(hashes, hash) == hashes
  {
    if hashes != [] {
      assert hashes == [hashes[0]] + hashes[1..];
      if hashes[0] != hash { WithoutOne(hashes[1..], hash); }
    }
  }

  lemma {:induction false} WithoutAt(hashes: seq<string>, i: nat)
    requires i < |hashes| && forall k | 0 <= k < i :: hashes[k] != hashes[i]
    ensures Without(hashes, hashes[i]) == hashes[..i] + hashes[i + 1..]
  {
    if i > 0 {
      WithoutAt(hashes[1..], i - 1);
      assert hashes[..i] == [hashes[0]] + hashes[1..][..i - 1];
      assert hashes[1..][i..] == hashes[i + 1..];
    }
  }

  method TakeRecoveryHash(hashes: seq<string>, hash: string) returns (rest: seq<string>, found: bool)
    ensures found <==> hash in hashes
    ensures rest == Without(hashes, hash)
  {
    var i := 0;
    while i < |hashes|
      invariant 0 <= i <= |hashes| && forall k | 0 <= k < i :: hashes[k] != hash
    {
      if hashes[i] == hash {
        WithoutAt(hashes, i);
        return hashes[..i] + hashes[i + 1..], true;
      }
      i := i + 1;
    }
    WithoutOne(hashes, hash);
    return hashes, false;
  }

  // ------------------------------------------------------------- one attempt

  function RecoveryHash(c: Crypto, a: AuthState, recovery: string): string {
    c.digest(a.recoverySalt, c.normalizeRecovery(recovery))
  }

  function CodeHash(c: Crypto, a: AuthState, code: string): string {
    c.digest(a.credentialId, c.normalizeCode(code))
  }

  predicate TakesRecovery(c: Crypto, a: AuthState, recovery: string) {
    recovery != "" && RecoveryHash(c, a, recovery) in a.recoveryHashes
  }

  /** A code counts when its step is new, its fingerprint is not the one still
      live, and the clock has not fallen behind the last accepted step. */
  predicate TakesCode(c: Crypto, a: AuthState, code: string, now: int) {
    var step := MatchedStep(c, a.secret, code, now);
    step.Some? && step.value > a.lastStep &&
    (CodeHash(c, a, code) != a.lastCodeHash || Unix(now) >= a.lastCodeUntil) && StepAt(now) >= a.lastStep - 1
  }

  predicate Takes(c: Crypto, a: AuthState, code: string, recovery: string, now: int) {
    if recovery != "" then TakesRecovery(c, a, recovery) else TakesCode(c, a, code, now)
  }

  function Calm(a: AuthState): AuthState {
    a.(failures := 0, lastFailure := 0, cooldownUntil := 0)
  }

  function Spend(c: Crypto, a: AuthState, code: string, recovery: string, now: int): AuthState
    requires Takes(c, a, code, recovery, now)
  {
    if recovery != "" then Calm(a.(recoveryHashes := Without(a.recoveryHashes, RecoveryHash(c, a, recovery))))
    else
      var step := MatchedStep(c, a.secret, code, now).value;
      Calm(a.(lastStep := step, lastCodeHash := CodeHash(c, a, code), lastCodeUntil := (step + 2) * 30))
  }

  /** A failure counted from `before`, with its cooldown. */
  function Miss(policy: Policy, a: AuthState, before: nat, now: int): AuthState {
    a.(failures := before + 1, lastFailure := UnixMilli(now),
       cooldownUntil := UnixMilli(now + CooldownFor(policy.steps, before + 1)))
  }

  function MissFactor(policy: Policy, a: AuthState, now: int): AuthState {
    var rested := UnixMilli(now) - a.lastFailure >= RETENTION / MILLISECOND && UnixMilli(now) >= a.cooldownUntil;
    Miss(policy, a, if rested then 0 else a.failures, now)
  }

  /** `verifyFactorLocked` up to the save: refuse at once, or the state to be
      saved and whether the factor counts. */
  function Attempt(c: Crypto, policy: Policy, a: AuthState, code: string, recovery: string, now: int)
    : Result<(AuthState, bool), FactorError>
  {
    if a.secret == "" then Err(NoFactor)
    else if UnixMilli(now) < a.cooldownUntil then Err(FactorLimited(a.cooldownUntil))
    else if Takes(c, a, code, recovery, now) then Ok((Spend(c, a, code, recovery, now), true))
    else Ok((MissFactor(policy, a, now), false))
  }

  // ------------------------------------------------------------------- runs

  /** What can happen to the state of one credential: a factor attempt whose
      save may fail, a failed code during setup, or a recovery rotation. */
  datatype FactorEvent =
    | TryFactor(code: string, recovery: string, now: int, saved: bool)
    | SetupMiss(now: int)
    | RotateCodes(salt: string, hashes: seq<string>)

  function After(c: Crypto, policy: Policy, a: AuthState, e: FactorEvent): AuthState {
    match e
    case TryFactor(code, recovery, now, saved) =>
      var r := Attempt(c, policy, a, code, recovery, now);
      if r.Ok? && saved then r.value.0 else a
    case SetupMiss(now) => Miss(policy, a, a.failures, now)
    case RotateCodes(salt, hashes) => Calm(a.(recoverySalt := salt, recoveryHashes := hashes, revision := a.revision +
        1))
  }

  predicate Accepts(c: Crypto, policy: Policy, a: AuthState, e: FactorEvent) {
    e.TryFactor? && e.saved && Attempt(c, policy, a, e.code, e.recovery, e.now).Ok? &&
        Takes(c, a, e.code, e.recovery, e.now)
  }

  function Run(c: Crypto, policy: Policy, a: AuthState, events: seq<FactorEvent>): AuthState
    decreases events
  {
    if events == [] then a else Run(c, policy, After(c, policy, a, events[0]), events[1..])
  }

  /** An accepted time code: its normalized text, its step and the clock. */
  datatype UsedCode = UsedCode(text: string, step: int, unix: int)

  function UsedBy(c: Crypto, a: AuthState, e: FactorEvent): UsedCode
    requires e.TryFactor? && MatchedStep(c, a.secret, e.code, e.now).Some?
  {
    UsedCode(c.normalizeCode(e.code), MatchedStep(c, a.secret, e.code, e.now).value, Unix(e.now))
  }

  /** The event accepts a time code. */
  predicate TakesTime(c: Crypto, policy: Policy, a: AuthState, e: FactorEvent) {
    Accepts(c, policy, a, e) && e.recovery == ""
  }

  function AcceptedCodes(c: Crypto, policy: Policy, a: AuthState, events: seq<FactorEvent>): seq<UsedCode>
    decreases events
  {
    if events == [] then []
    else
      (if TakesTime(c, policy, a, events[0]) then [UsedBy(c, a, events[0])] else []) +
      AcceptedCodes(c, policy, After(c, policy, a, events[0]), events[1..])
  }

  /** The recovery hash this event spends, if any. */
  function SpentHash(c: Crypto, policy: Policy, a: AuthState, e: FactorEvent): seq<string> {
    if Accepts(c, policy, a, e) && e.recovery != "" then [RecoveryHash(c, a, e.recovery)] else []
  }

  function AcceptedRecoveries(c: Crypto, policy: Policy, a: AuthState, events: seq<FactorEvent>): seq<string>
    decreases events
  {
    if events == [] then []
    else
      SpentHash(c, policy, a, events[0]) + AcceptedRecoveries(c, policy, After(c, policy, a, events[0]), events[1..])
  }

  predicate Increasing(codes: seq<UsedCode>, floor: int) {
    (forall i | 0 <= i < |codes| :: codes[i].step > floor) &&
    (forall i, j | 0 <= i < j < |codes| :: codes[i].step < codes[j].step)
  }

  lemma {:induction false} EventAdvances(c: Crypto, policy: Policy, a: AuthState, e: FactorEvent)
    ensures var b := After(c, policy, a, e);
            if TakesTime(c, policy, a, e) then b.lastStep == UsedBy(c, a, e).step > a.lastStep
                else b.lastStep == a.lastStep
  {}

  lemma {:induction false} CodesUnfold(c: Crypto, policy: Policy, a: AuthState, events: seq<FactorEvent>)
    requires events != []
    ensures var rest := AcceptedCodes(c, policy, After(c, policy, a, events[0]), events[1..]);
            AcceptedCodes(c, policy, a, events) == if TakesTime(c, policy, a, events[0])
                then [UsedBy(c, a, events[0])] + rest else rest
  {
    var rest := AcceptedCodes(c, policy, After(c, policy, a, events[0]), events[1..]);
    assert [] + rest == rest;
  }

  lemma {:induction false} IncreasingFrom(u: UsedCode, rest: seq<UsedCode>, floor: int)
    requires u.step > floor && Increasing(rest, u.step)
    ensures Increasing([u] + rest, floor)
  {}

  /** One-time steps: whatever the clock does, the steps accepted for one
      credential strictly increase, starting above the last one spent. */
  lemma {:induction false} StepsIncrease(c: Crypto, policy: Policy, a: AuthState, events: seq<FactorEvent>)
    ensures Increasing(AcceptedCodes(c, policy, a, events), a.lastStep)
    decreases events
  {
    if events != [] {
      StepsIncrease(c, policy, After(c, policy, a, events[0]), events[1..]);
      EventAdvances(c, policy, a, events[0]);
      CodesUnfold(c, policy, a, events);
      if TakesTime(c, policy, a, events[0]) {
        IncreasingFrom(UsedBy(c, a, events[0]), AcceptedCodes(c, policy, After(c, policy, a, events[0]), events[1..]),
            a.lastStep);
      }
    }
  }

  /** The fingerprint kept in the state is that of the last accepted code. */
  ghost predicate Remembers(c: Crypto, a: AuthState, last: UsedCode) {
    a.lastCodeHash == c.digest(a.credentialId, last.text) && a.lastCodeUntil == (last.step + 2) * 30
  }

  /** The second code is not the first again, by its fingerprint, unless the
      window of the first has passed. */
  predicate NotAtOnce(c: Crypto, credential: string, first: UsedCode, second: UsedCode) {
    c.digest(credential, first.text) == c.digest(credential, second.text) ==> second.unix >= (first.step + 2) * 30
  }

  lemma {:induction false} NextIsNoReplay(c: Crypto, policy: Policy, a: AuthState, events: seq<FactorEvent>,
          last: UsedCode)
    requires Remembers(c, a, last)
    ensures var codes := AcceptedCodes(c, policy, a, events);
            codes != [] ==> NotAtOnce(c, a.credentialId, last, codes[0])
    decreases events
  {
    if events != [] {
      var b := After(c, policy, a, events[0]);
      if !TakesTime(c, policy, a, events[0]) {
        NextIsNoReplay(c, policy, b, events[1..], last);
      }
    }
  }

  /** No replay: after a code is accepted at step s, the next time code accepted
      is not the same text before (s + 2) * 30, even if adjacent steps share it. */
  lemma {:induction false} NoImmediateReplay(c: Crypto, policy: Policy, a: AuthState, events: seq<FactorEvent>, i: nat)
    requires i + 1 < |AcceptedCodes(c, policy, a, events)|
    ensures var codes := AcceptedCodes(c, policy, a, events); NotAtOnce(c, a.credentialId, codes[i], codes[i + 1])
    decreases events
  {
    var e := events[0];
    var b := After(c, policy, a, e);
    var rest := AcceptedCodes(c, policy, b, events[1..]);
    if TakesTime(c, policy, a, e) {
      var first := AcceptedCodes(c, policy, a, events)[0];
      NextIsNoReplay(c, policy, b, events[1..], first);
      if i > 0 { NoImmediateReplay(c, policy, b, events[1..], i - 1); }
    } else {
      NoImmediateReplay(c, policy, b, events[1..], i);
    }
  }

  // ------------------------------------------------ the window of one code

  /** Some typed text is normalized to these six digits. */
  ghost predicate Typed(c: Crypto, text: string) {
    |text| == 6 && exists x :: c.normalizeCode(x) == text
  }

  /** What `matchingStep` guarantees of an accepted code. */
  ghost predicate Shown(c: Crypto, secret: string, u: UsedCode) {
    var now := Quotient(u.unix, 30);
    && Typed(c, u.text) && u.step >= 0 && now - 1 <= u.step <= now + 1 && c.code(secret, u.step) == Some(u.text)
    && forall s | u.step < s <= now + 1 :: c.code(secret, s) != Some(u.text)
  }

  lemma {:induction false} CodesAreShown(c: Crypto, policy: Policy, a: AuthState, events: seq<FactorEvent>)
    ensures forall u | u in AcceptedCodes(c, policy, a, events) :: Shown(c, a.secret, u)
    decreases events
  {
    if events != [] {
      var e := events[0];
      CodesAreShown(c, policy, After(c, policy, a, e), events[1..]);
      if TakesTime(c, policy, a, e) { assert c.normalizeCode(e.code) == c.normalizeCode(e.code); }
    }
  }

  lemma {:induction false} StepsApart(codes: seq<UsedCode>, floor: int, i: nat, j: nat)
    requires Increasing(codes, floor) && i <= j < |codes|
    ensures codes[j].step - codes[i].step >= j - i
    decreases j
  {
    if i < j {
      StepsApart(codes, floor, i, j - 1);
      assert codes[j - 1].step < codes[j].step;
    }
  }

  /** A code that comes back inside its own window comes back at the second next
      step, with the next step accepted in between. */
  lemma {:induction false} ReplayShape(c: Crypto, policy: Policy, a: AuthState, events: seq<FactorEvent>, i: nat,
          j: nat)
    requires i < j < |AcceptedCodes(c, policy, a, events)|
    requires var codes := AcceptedCodes(c, policy, a, events);
             codes[i].text == codes[j].text && codes[j].unix < (codes[i].step + 2) * 30
    ensures var codes := AcceptedCodes(c, policy, a, events);
            j == i + 2 && codes[i + 1].step == codes[i].step + 1 && codes[j].step == codes[i].step + 2
  {
    var codes := AcceptedCodes(c, policy, a, events);
    StepsIncrease(c, policy, a, events);
    CodesAreShown(c, policy, a, events);
    assert Shown(c, a.secret, codes[i]) && Shown(c, a.secret, codes[j]);
    NoImmediateReplay(c, policy, a, events, i);
    StepsApart(codes, a.lastStep, i, i + 1);
    StepsApart(codes, a.lastStep, i + 1, j);
  }

  /** No code is accepted twice inside the window of its first acceptance. */
  ghost predicate UsedOnce(codes: seq<UsedCode>) {
    forall i, j | 0 <= i < j < |codes| && codes[i].text == codes[j].text :: codes[j].unix >= (codes[i].step + 2) * 30
  }

  /** Steps `s` and `s + 2` show one code, the step between another with a
      different fingerprint, and the state still takes the code at step `s`. */
  ghost predicate Reopens(c: Crypto, a: AuthState, s: int) {
    && a.secret != "" && s >= 0 && s > a.lastStep
    && c.code(a.secret, s).Some? && c.code(a.secret, s + 1).Some? && c.code(a.secret, s + 2) == c.code(a.secret, s)
    && var text, between := c.code(a.secret, s).value, c.code(a.secret, s + 1).value;
       && Typed(c, text) && Typed(c, between) && c.digest(a.credentialId, text) != c.digest(a.credentialId, between)
       && (c.digest(a.credentialId, text) != a.lastCodeHash || a.lastCodeUntil < (s + 1) * 30)
  }

  /** The window kept with the last fingerprint is at most that of the last
      step, as every save leaves it. */
  predicate HonestWindow(a: AuthState) {
    a.lastCodeUntil <= (a.lastStep + 2) * 30
  }

  lemma {:induction false} FirstCodeIsFresh(c: Crypto, policy: Policy, a: AuthState, events: seq<FactorEvent>)
    requires AcceptedCodes(c, policy, a, events) != []
    ensures var u := AcceptedCodes(c, policy, a, events)[0];
            c.digest(a.credentialId, u.text) != a.lastCodeHash || u.unix >= a.lastCodeUntil
    decreases events
  {
    var e := events[0];
    if !TakesTime(c, policy, a, e) { FirstCodeIsFresh(c, policy, After(c, policy, a, e), events[1..]); }
  }

  lemma {:induction false} ReplayReopens(c: Crypto, policy: Policy, a: AuthState, events: seq<FactorEvent>, i: nat,
          j: nat)
    requires HonestWindow(a) && i < j < |AcceptedCodes(c, policy, a, events)|
    requires var codes := AcceptedCodes(c, policy, a, events);
             codes[i].text == codes[j].text && codes[j].unix < (codes[i].step + 2) * 30
    ensures Reopens(c, a, AcceptedCodes(c, policy, a, events)[i].step)
  {
    var codes := AcceptedCodes(c, policy, a, events);
    ReplayShape(c, policy, a, events, i, j);
    StepsIncrease(c, policy, a, events);
    CodesAreShown(c, policy, a, events);
    assert Shown(c, a.secret, codes[i]) && Shown(c, a.secret, codes[i + 1]) && Shown(c, a.secret, codes[j]);
    NoImmediateReplay(c, policy, a, events, i + 1);
    SecretIsSet(c, policy, a, events);
    FirstCodeIsFresh(c, policy, a, events);
    if i > 0 { assert codes[0].step < codes[i].step; }
  }

  lemma {:induction false} SecretIsSet(c: Crypto, policy: Policy, a: AuthState, events: seq<FactorEvent>)
    requires AcceptedCodes(c, policy, a, events) != []
    ensures a.secret != ""
    decreases events
  {
    var e := events[0];
    if !TakesTime(c, policy, a, e) { SecretIsSet(c, policy, After(c, policy, a, e), events[1..]); }
  }

  /** An attempt with the code of `step` that the state has to take. */
  lemma {:induction false} TakenCode(c: Crypto, policy: Policy, a: AuthState, x: string, step: int, unix: int)
    requires a.secret != "" && a.cooldownUntil == 0 && step > a.lastStep && step >= 0 && unix >= 0
    requires |c.normalizeCode(x)| == 6 && c.code(a.secret, step) == Some(c.normalizeCode(x))
    requires step - 1 <= unix / 30 <= step + 1 && unix / 30 >= a.lastStep - 1
    requires forall s | step < s <= unix / 30 + 1 :: c.code(a.secret, s) != Some(c.normalizeCode(x))
    requires c.digest(a.credentialId, c.normalizeCode(x)) != a.lastCodeHash || unix >= a.lastCodeUntil
    ensures var e := TryFactor(x, "", unix * SECOND, true);
            && Accepts(c, policy, a, e) && MatchedStep(c, a.secret, x, unix * SECOND) == Some(step) &&
                Unix(unix * SECOND) == unix
            && After(c, policy, a, e) == Calm(a.(lastStep := step,
                lastCodeHash := c.digest(a.credentialId, c.normalizeCode(x)),
                                                 lastCodeUntil := (step + 2) * 30))
  {
    assert Unix(unix * SECOND) == unix && UnixMilli(unix * SECOND) >= 0;
    assert MatchedStep(c, a.secret, x, unix * SECOND) == Some(step);
  }

  lemma {:induction false} OneAccepted(c: Crypto, policy: Policy, a: AuthState, e: FactorEvent,
          events: seq<FactorEvent>)
    requires TakesTime(c, policy, a, e)
    ensures AcceptedCodes(c, policy, a, [e] + events) == [UsedBy(c, a, e)] +
            AcceptedCodes(c, policy, After(c, policy, a, e), events)
  {
    assert ([e] + events)[1..] == events;
  }

  lemma {:induction false} ThreeAccepted(c: Crypto, policy: Policy, a: AuthState, e1: FactorEvent, e2: FactorEvent,
          e3: FactorEvent)
    requires TakesTime(c, policy, a, e1) && TakesTime(c, policy, After(c, policy, a, e1), e2)
    requires TakesTime(c, policy, After(c, policy, After(c, policy, a, e1), e2), e3)
    ensures var b := After(c, policy, a, e1);
            AcceptedCodes(c, policy, a, [e1, e2, e3]) == [UsedBy(c, a, e1), UsedBy(c, b, e2),
                UsedBy(c, After(c, policy, b, e2), e3)]
  {
    var b := After(c, policy, a, e1);
    assert [e1] + ([e2] + ([e3] + [])) == [e1, e2, e3];
    OneAccepted(c, policy, a, e1, [e2] + ([e3] + []));
    OneAccepted(c, policy, b, e2, [e3] + []);
    OneAccepted(c, policy, After(c, policy, b, e2), e3, []);
  }

  /** Three attempts that accept the code of step `s` twice inside its window. */
  lemma {:induction false} ReopenedFromCalm(c: Crypto, policy: Policy, a: AuthState, s: int, x: string,
          y: string) returns (events: seq<FactorEvent>)
    requires Reopens(c, a, s) && a.cooldownUntil == 0
    requires c.code(a.secret, s) == Some(c.normalizeCode(x)) && c.code(a.secret, s + 1) == Some(c.normalizeCode(y))
    ensures !UsedOnce(AcceptedCodes(c, policy, a, events))
  {
    var now := (s + 1) * 30;
    var e1 := TryFactor(x, "", (now - 1) * SECOND, true);
    var e2 := TryFactor(y, "", now * SECOND, true);
    var e3 := TryFactor(x, "", now * SECOND, true);
    TakenCode(c, policy, a, x, s, now - 1);
    TakenCode(c, policy, After(c, policy, a, e1), y, s + 1, now);
    TakenCode(c, policy, After(c, policy, After(c, policy, a, e1), e2), x, s + 2, now);
    ThreeAccepted(c, policy, a, e1, e2, e3);
    events := [e1, e2, e3];
    var codes := AcceptedCodes(c, policy, a, events);
    assert codes[0] == UsedCode(c.normalizeCode(x), s, now - 1) && codes[2] == UsedCode(c.normalizeCode(x), s + 2, now);
  }

  lemma {:induction false} ReopenedTwice(c: Crypto, policy: Policy, a: AuthState,
          s: int) returns (events: seq<FactorEvent>)
    requires Reopens(c, a, s)
    ensures !UsedOnce(AcceptedCodes(c, policy, a, events))
  {
    var x :| c.normalizeCode(x) == c.code(a.secret, s).value;
    var y :| c.normalizeCode(y) == c.code(a.secret, s + 1).value;
    var calm := RotateCodes(a.recoverySalt, a.recoveryHashes);
    var more := ReopenedFromCalm(c, policy, After(c, policy, a, calm), s, x, y);
    events := [calm] + more;
    assert events[1..] == more;
    var codes := AcceptedCodes(c, policy, After(c, policy, a, calm), more);
    assert AcceptedCodes(c, policy, a, events) == [] + codes == codes;
  }

  /** Over every run, a code counts once in its window exactly when no later
      step shares its code with the second next one, with another code that can
      be accepted between them. */
  lemma {:induction false} WindowIsUniqueExactlyWhen(c: Crypto, policy: Policy, a: AuthState)
    requires HonestWindow(a)
    ensures (forall events :: UsedOnce(AcceptedCodes(c, policy, a, events))) <==> forall s :: !Reopens(c, a, s)
  {
    if s :| Reopens(c, a, s) {
      var events := ReopenedTwice(c, policy, a, s);
    } else {
      forall events ensures UsedOnce(AcceptedCodes(c, policy, a, events)) {
        var codes := AcceptedCodes(c, policy, a, events);
        forall i, j | 0 <= i < j < |codes| &&
            codes[i].text == codes[j].text ensures codes[j].unix >= (codes[i].step + 2) * 30 {
          if codes[j].unix < (codes[i].step + 2) * 30 { ReplayReopens(c, policy, a, events, i, j); }
        }
      }
    }
  }

  lemma {:induction false} HashesAfter(c: Crypto, policy: Policy, a: AuthState, e: FactorEvent)
    requires !e.RotateCodes?
    ensures After(c, policy, a, e).recoveryHashes ==
            if SpentHash(c, policy, a, e) == [] then a.recoveryHashes
                else Without(a.recoveryHashes, RecoveryHash(c, a, e.recovery))
  {}

  lemma {:induction false} EventConserves(c: Crypto, policy: Policy, a: AuthState, e: FactorEvent)
    requires !e.RotateCodes?
    ensures multiset(SpentHash(c, policy, a, e)) +
            multiset(After(c, policy, a, e).recoveryHashes) == multiset(a.recoveryHashes)
  {
    HashesAfter(c, policy, a, e);
    if SpentHash(c, policy, a, e) == [] {
      assert multiset(SpentHash(c, policy, a, e)) == multiset{};
    } else {
      var hash := RecoveryHash(c, a, e.recovery);
      WithoutOne(a.recoveryHashes, hash);
      assert multiset(SpentHash(c, policy, a, e)) == multiset{hash};
    }
  }

  /** Conservation: between rotations every recovery code is either still in
      the list or was accepted, exactly as often as it was issued. */
  lemma {:induction false} RecoveryConserved(c: Crypto, policy: Policy, a: AuthState, events: seq<FactorEvent>)
    requires forall e | e in events :: !e.RotateCodes?
    ensures multiset(AcceptedRecoveries(c, policy, a, events)) + multiset(Run(c, policy, a, events).recoveryHashes)
            == multiset(a.recoveryHashes)
    decreases events
  {
    if events != [] {
      EventConserves(c, policy, a, events[0]);
      RecoveryConserved(c, policy, After(c, policy, a, events[0]), events[1..]);
    }
  }

  lemma {:induction false} SplitCount(all: seq<string>, x: seq<string>, y: seq<string>)
    requires multiset(x) + multiset(y) == multiset(all)
    ensures |x| + |y| == |all|
  {
    assert |multiset(x) + multiset(y)| == |multiset(all)|;
  }

  /** Accepted plus remaining recovery codes stay at the number issued. */
  lemma {:induction false} RecoveryCount(c: Crypto, policy: Policy, a: AuthState, events: seq<FactorEvent>)
    requires forall e | e in events :: !e.RotateCodes?
    ensures |AcceptedRecoveries(c, policy, a, events)| +
            |Run(c, policy, a, events).recoveryHashes| == |a.recoveryHashes|
  {
    RecoveryConserved(c, policy, a, events);
    SplitCount(a.recoveryHashes, AcceptedRecoveries(c, policy, a, events), Run(c, policy, a, events).recoveryHashes);
  }

  lemma {:induction false} SameTwice(s: seq<string>, i: nat, j: nat)
    requires i < j < |s| && s[i] == s[j]
    ensures multiset(s)[s[i]] >= 2
  {
    assert s == s[..j] + s[j..];
    assert s[..j][i] == s[i] && s[j..][0] == s[i];
    assert s[i] in multiset(s[..j]) && s[i] in multiset(s[j..]);
  }

  /** A recovery code issued once is accepted at most once. */
  lemma {:induction false} RecoveryOnce(c: Crypto, policy: Policy, a: AuthState, events: seq<FactorEvent>, i: nat,
          j: nat)
    requires forall e | e in events :: !e.RotateCodes?
    requires forall h | h in multiset(a.recoveryHashes) :: multiset(a.recoveryHashes)[h] == 1
    requires i < j < |AcceptedRecoveries(c, policy, a, events)|
    ensures AcceptedRecoveries(c, policy, a, events)[i] != AcceptedRecoveries(c, policy, a, events)[j]
  {
    RecoveryConserved(c, policy, a, events);
    var got := AcceptedRecoveries(c, policy, a, events);
    assert multiset(got)[got[i]] <= multiset(a.recoveryHashes)[got[i]] <= 1;
    if got[i] == got[j] { SameTwice(got, i, j); }
  }

  /** Only the last fingerprint is kept: when steps 1 and 3 share a code and
      step 2 is accepted in between, the shared code passes twice in its window. */
  lemma {:induction false} InterveningCodeReopens(c: Crypto, policy: Policy, a: AuthState)
    requires forall s :: c.code("s", s) == Some(if s == 2 then "222222" else "111111")
    requires forall t :: c.normalizeCode(t) == t && c.digest("k", t) == t
    requires a == AuthState("h", 1, "k", "s", "", [], 0, "", 0, 0, 0, 0, false)
    ensures
      AcceptedCodes(c, policy, a, [TryFactor("111111", "", 40 * SECOND, true),
          TryFactor("222222", "", 65 * SECOND, true), TryFactor("111111", "", 65 * SECOND, true)])
      == [UsedCode("111111", 1, 40), UsedCode("222222", 2, 65), UsedCode("111111", 3, 65)]
  {
    var e1 := TryFactor("111111", "", 40 * SECOND, true);
    var e2 := TryFactor("222222", "", 65 * SECOND, true);
    var e3 := TryFactor("111111", "", 65 * SECOND, true);
    var a1 := After(c, policy, a, e1);
    TakenCode(c, policy, a, "111111", 1, 40);
    TakenCode(c, policy, a1, "222222", 2, 65);
    TakenCode(c, policy, After(c, policy, a1, e2), "111111", 3, 65);
    ThreeAccepted(c, policy, a, e1, e2, e3);
  }
}
