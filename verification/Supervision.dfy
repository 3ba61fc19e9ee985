/** The restart policy: backoff on machine integers, the sliding-window budget,
    and what they amount to over a whole run of exits. */
module Supervision {
  const U64_MAX: nat := 0xFFFF_FFFF_FFFF_FFFF
  const U32_MAX: nat := 0xFFFF_FFFF

  type u64 = n: nat | n <= U64_MAX
  type u32 = n: nat | n <= U32_MAX

  datatype RestartPolicy = Never | OnFailure | Always
  datatype ExitOutcome = Clean | Failure
  datatype RestartLimits = RestartLimits(backoffMs: u64, maxBackoffMs: u64, maxRetries: u32, windowMs: u64)

  datatype RestartDecision =
    | NoRestart
    | SuppressedByShutdown
    | Restart(delay: u64, attempt: u32)
    | Exhausted(attempts: u32, windowMs: u64)

  function Min(a: nat, b: nat): nat { if a < b then a else b }

  // ---------------------------------------------------------------------
  // Backoff
  // ---------------------------------------------------------------------

  function Pow2(n: nat): (r: nat)
    ensures r > 0
  {
    if n == 0 then 1 else 2 * Pow2(n - 1)
  }

  function SaturatingMul(a: u64, b: nat): u64 {
    if a * b > U64_MAX then U64_MAX else a * b
  }

  function SaturatingSub(a: u64, b: u64): u64 {
    if a < b then 0 else a - b
  }

  /** 1_u64.checked_shl(n).unwrap_or(u64::MAX): None for a shift of 64 or more,
      and the bits shifted out of the word are lost. */
  function ShlOrMax(n: u32): u64 {
    if n >= 64 then U64_MAX else Pow2(n) % 0x1_0000_0000_0000_0000
  }

  function BackoffDelay(attempt: u32, limits: RestartLimits): u64 {
    var step := (if attempt < 1 then 1 else attempt) - 1;
    var factor := ShlOrMax(Min(step, 62));
    var raw := SaturatingMul(limits.backoffMs, factor);
    Min(raw, limits.maxBackoffMs)
  }

  lemma {:induction false} Pow2Monotone(m: nat, n: nat)
    requires m <= n
    ensures Pow2(m) <= Pow2(n)
    decreases n
  {
    if m < n {
      Pow2Monotone(m, n - 1);
    }
  }

  lemma Pow2Of62()
    ensures Pow2(62) == 0x4000_0000_0000_0000
  {
    assert Pow2(10) == 1024;
    assert Pow2(20) == 1024 * 1024;
    assert Pow2(30) == 1024 * 1024 * 1024;
    assert Pow2(40) == 1024 * 1024 * 1024 * 1024;
    assert Pow2(50) == 1024 * 1024 * 1024 * 1024 * 1024;
    assert Pow2(60) == 1024 * 1024 * 1024 * 1024 * 1024 * 1024;
  }

  function Exponent(attempt: u32): nat { if attempt == 0 then 0 else attempt - 1 }

  /** Saturation and the shift are exact: the delay is the capped doubling over
      the unbounded integers, with the exponent stopped at 62. */
  lemma BackoffIsCappedDoubling(attempt: u32, limits: RestartLimits)
    ensures BackoffDelay(attempt, limits)
         == Min(limits.backoffMs * Pow2(Min(Exponent(attempt), 62)), limits.maxBackoffMs)
  {
    var e := Min(Exponent(attempt), 62);
    Pow2Monotone(e, 62);
    Pow2Of62();
    assert ShlOrMax(e) == Pow2(e);
  }

  /** A later attempt never waits less, and none waits past the ceiling. */
  lemma BackoffIsMonotone(a: u32, b: u32, limits: RestartLimits)
    requires a <= b
    ensures BackoffDelay(a, limits) <= BackoffDelay(b, limits) <= limits.maxBackoffMs
  {
    BackoffIsCappedDoubling(a, limits);
    BackoffIsCappedDoubling(b, limits);
    hide BackoffDelay, Pow2;
    var x, y := Min(Exponent(a), 62), Min(Exponent(b), 62);
    Pow2Monotone(x, y);
    TimesMonotone(limits.backoffMs, Pow2(x), Pow2(y));
  }

  lemma TimesMonotone(k: nat, x: nat, y: nat)
    requires x <= y
    ensures k * x <= k * y
  {
  }

  /** What the documentation promises: doubling at every attempt, up to the cap. */
  function IdealBackoff(attempt: u32, limits: RestartLimits): nat {
    Min(limits.backoffMs * Pow2(Exponent(attempt)), limits.maxBackoffMs)
  }

  /** The promise is kept for every attempt exactly when there is no backoff at
      all or its 62nd doubling already reaches the ceiling. */
  lemma BackoffDoublesUpToTheCap(limits: RestartLimits)
    ensures (forall attempt: u32 :: BackoffDelay(attempt, limits) == IdealBackoff(attempt, limits))
       <==> limits.backoffMs == 0 || limits.maxBackoffMs <= limits.backoffMs * Pow2(62)
  {
    if limits.backoffMs == 0 || limits.maxBackoffMs <= limits.backoffMs * Pow2(62) {
      forall attempt: u32
        ensures BackoffDelay(attempt, limits) == IdealBackoff(attempt, limits)
      {
        CappedBackoffIsIdeal(attempt, limits);
      }
    } else {
      StoppedBackoffIsNotIdeal(64, limits);
    }
  }

  lemma CappedBackoffIsIdeal(attempt: u32, limits: RestartLimits)
    requires limits.backoffMs == 0 || limits.maxBackoffMs <= limits.backoffMs * Pow2(62)
    ensures BackoffDelay(attempt, limits) == IdealBackoff(attempt, limits)
  {
    BackoffIsCappedDoubling(attempt, limits);
    hide BackoffDelay, Pow2;
    var e := Exponent(attempt);
    if e > 62 {
      Pow2Monotone(62, e);
      TimesMonotone(limits.backoffMs, Pow2(62), Pow2(e));
    }
  }

  lemma StoppedBackoffIsNotIdeal(attempt: u32, limits: RestartLimits)
    requires attempt == 64 && limits.backoffMs > 0 && limits.maxBackoffMs > limits.backoffMs * Pow2(62)
    ensures BackoffDelay(attempt, limits) != IdealBackoff(attempt, limits)
  {
    hide BackoffDelay, Pow2;
    BackoffIsCappedDoubling(attempt, limits);
    assert Exponent(attempt) == 63 && Min(Exponent(attempt), 62) == 62;
    Pow2Doubles(62);
    DoublingPassesTheCap(limits.backoffMs, Pow2(62), limits.maxBackoffMs);
  }

  lemma DoublingPassesTheCap(b: nat, p: nat, cap: nat)
    requires b > 0 && p > 0 && cap > b * p
    ensures Min(b * p, cap) != Min(b * (2 * p), cap)
  {
    assert b * (2 * p) == 2 * (b * p);
    assert b * p > 0;
  }

  lemma Pow2Doubles(n: nat)
    ensures Pow2(n + 1) == 2 * Pow2(n)
  {
  }

  // ---------------------------------------------------------------------
  // The window
  // ---------------------------------------------------------------------

  function PruneAttempts(attempts: seq<u64>, now: u64, window: u64): seq<u64> {
    Later(attempts, SaturatingSub(now, window))
  }

  function Later(attempts: seq<u64>, cutoff: u64): (r: seq<u64>)
    ensures |r| <= |attempts|
  {
    if attempts == [] then []
    else (if attempts[0] > cutoff then [attempts[0]] else []) + Later(attempts[1..], cutoff)
  }

  function OutcomeFromExitCode(code: int): ExitOutcome {
    if code == 0 || code == 143 then Clean else Failure
  }

  function DecideRestart(policy: RestartPolicy, outcome: ExitOutcome, attempts: seq<u64>,
                         limits: RestartLimits, now: u64, shuttingDown: bool): RestartDecision {
    if shuttingDown then SuppressedByShutdown
    else
      var wanted := policy == Always || (policy == OnFailure && outcome == Failure);
      if !wanted then NoRestart
      else
        var recent := PruneAttempts(attempts, now, limits.windowMs);
        var used := Min(|recent|, U32_MAX);
        if used >= limits.maxRetries then Exhausted(used, limits.windowMs)
        else Restart(BackoffDelay(used + 1, limits), used + 1)
  }

  /** Which of the restarts are inside the window at `now`: those less than a window
      old. A restart at the epoch itself never counts. */
  ghost function Recent(attempts: seq<u64>, now: u64, window: u64): set<nat> {
    set k: nat | k < |attempts| && attempts[k] > 0 && attempts[k] + window > now
  }

  /** Which of the restarts from the i-th on are after the cutoff. */
  ghost function LateFrom(attempts: seq<u64>, cutoff: u64, i: nat): set<nat> {
    set k: nat | k < |attempts| && attempts[k] > cutoff && i <= k
  }

  lemma OneMoreLate(attempts: seq<u64>, cutoff: u64, i: nat)
    requires i < |attempts|
    ensures |LateFrom(attempts, cutoff, i)|
         == |LateFrom(attempts, cutoff, i + 1)| + if attempts[i] > cutoff then 1 else 0
  {
    var rest := LateFrom(attempts, cutoff, i + 1);
    assert LateFrom(attempts, cutoff, i) == if attempts[i] > cutoff then rest + {i} else rest;
  }

  lemma NoneLateAtTheEnd(attempts: seq<u64>, cutoff: u64)
    ensures LateFrom(attempts, cutoff, |attempts|) == {}
  {
  }

  lemma {:induction false} LaterCounts(attempts: seq<u64>, cutoff: u64, i: nat)
    requires i <= |attempts|
    ensures |Later(attempts[i..], cutoff)| == |LateFrom(attempts, cutoff, i)|
    decreases |attempts| - i
  {
    if i == |attempts| {
      NoneLateAtTheEnd(attempts, cutoff);
    } else {
      LaterCounts(attempts, cutoff, i + 1);
      assert attempts[i..][1..] == attempts[i + 1..];
      OneMoreLate(attempts, cutoff, i);
      hide LateFrom;
    }
  }

  lemma PruneCounts(attempts: seq<u64>, now: u64, window: u64)
    ensures |PruneAttempts(attempts, now, window)| == |Recent(attempts, now, window)|
  {
    LaterCounts(attempts, SaturatingSub(now, window), 0);
    assert attempts[0..] == attempts;
    hide Later;
    assert LateFrom(attempts, SaturatingSub(now, window), 0) == Recent(attempts, now, window);
  }

  /** The policy asks for a restart of a child that ended with this code. */
  predicate Wants(policy: RestartPolicy, code: int) {
    policy == Always || (policy == OnFailure && code != 0 && code != 143)
  }

  /** Exactly what is decided of an exit, by policy, code, shutdown and the restarts in
      the window: a restart is granted when the engine is not shutting down, the policy
      wants one and fewer than max_retries are in the window; it is numbered one past
      those, and waits the base delay doubled once for each of them, up to the ceiling. */
  lemma DecisionIsExact(policy: RestartPolicy, code: int, attempts: seq<u64>, limits: RestartLimits, now: u64,
                        shuttingDown: bool)
    ensures var d := DecideRestart(policy, OutcomeFromExitCode(code), attempts, limits, now, shuttingDown);
      var used := |Recent(attempts, now, limits.windowMs)|;
      && (d.SuppressedByShutdown? <==> shuttingDown)
      && (d.NoRestart? <==> !shuttingDown && !Wants(policy, code))
      && (d.Exhausted? <==> !shuttingDown && Wants(policy, code) && used >= limits.maxRetries)
      && (d.Exhausted? ==> d == Exhausted(Min(used, U32_MAX), limits.windowMs))
      && (d.Restart? <==> !shuttingDown && Wants(policy, code) && used < limits.maxRetries)
      && (d.Restart? ==>
            d == Restart(Min(limits.backoffMs * Pow2(Min(used, 62)), limits.maxBackoffMs), used + 1))
  {
    PruneCounts(attempts, now, limits.windowMs);
    var used := |Recent(attempts, now, limits.windowMs)|;
    if used < limits.maxRetries {
      BackoffIsCappedDoubling(used + 1, limits);
    }
    hide Recent, PruneAttempts, BackoffDelay, Pow2;
  }

  // ---------------------------------------------------------------------
  // Whole runs of exits
  // ---------------------------------------------------------------------

  /** One exit of the child, as the actor handles it. */
  datatype Exit = Exit(now: u64, code: int, shuttingDown: bool)

  /** The attempt list the actor keeps, and every restart ever granted, each with
      the time it was granted at and its attempt number. */
  datatype Budget = Budget(attempts: seq<u64>, granted: seq<(u64, u32)>)

  /** The ChildExited handler's bookkeeping: prune, decide, and remember. */
  function OnExit(policy: RestartPolicy, limits: RestartLimits, b: Budget, x: Exit): Budget {
    var kept := PruneAttempts(b.attempts, x.now, limits.windowMs);
    match DecideRestart(policy, OutcomeFromExitCode(x.code), kept, limits, x.now, x.shuttingDown)
    case Restart(_, attempt) => Budget(kept + [x.now], b.granted + [(x.now, attempt)])
    case _ => Budget(kept, b.granted)
  }

  function OnExits(policy: RestartPolicy, limits: RestartLimits, b: Budget, xs: seq<Exit>): Budget
    decreases |xs|
  {
    if xs == [] then b else OnExits(policy, limits, OnExit(policy, limits, b, xs[0]), xs[1..])
  }

  /** The clock the runs below are about: past the epoch and never stepping back. */
  ghost predicate Clocked(xs: seq<Exit>, last: nat) {
    && (forall k :: 0 <= k < |xs| ==> xs[k].now > 0 && last <= xs[k].now)
    && (forall j, k :: 0 <= j < k < |xs| ==> xs[j].now <= xs[k].now)
  }

  /** The granted restarts in the half-open interval (t - window, t]. */
  ghost function GrantsIn(granted: seq<(u64, u32)>, t: int, window: int): nat {
    if granted == [] then 0
    else
      GrantsIn(granted[..|granted| - 1], t, window)
      + (if t - window < granted[|granted| - 1].0 <= t then 1 else 0)
  }

  /** The k-th grant was numbered one past the grants then in the window. */
  ghost predicate NumberedRight(granted: seq<(u64, u32)>, limits: RestartLimits) {
    forall k :: 0 <= k < |granted| ==>
      granted[k].1 == 1 + GrantsIn(granted[..k], granted[k].0, limits.windowMs)
  }

  ghost predicate Ascending(granted: seq<(u64, u32)>) {
    forall j, k :: 0 <= j < k < |granted| ==> granted[j].0 <= granted[k].0
  }

  ghost predicate WithinBudget(granted: seq<(u64, u32)>, limits: RestartLimits) {
    forall t: int :: GrantsIn(granted, t, limits.windowMs) <= limits.maxRetries
  }

  /** The stored list is a tail of the grants, and still holds everything that a
      window ending at `last` or later can hold. */
  ghost predicate Stored(limits: RestartLimits, b: Budget, last: nat) {
    var gap := |b.granted| - |b.attempts|;
    && gap >= 0 && |b.attempts| <= limits.maxRetries
    && (forall k :: 0 <= k < |b.attempts| ==> b.attempts[k] == b.granted[gap + k].0)
    && (forall k :: 0 <= k < gap ==> b.granted[k].0 + limits.windowMs <= last)
  }

  ghost predicate BudgetOk(limits: RestartLimits, b: Budget, last: nat) {
    && Stored(limits, b, last)
    && Ascending(b.granted) && (forall k :: 0 <= k < |b.granted| ==> 0 < b.granted[k].0 <= last)
    && NumberedRight(b.granted, limits) && WithinBudget(b.granted, limits)
  }

  lemma {:induction false} LaterKeepsLate(attempts: seq<u64>, cutoff: u64)
    requires forall k :: 0 <= k < |attempts| ==> attempts[k] > cutoff
    ensures Later(attempts, cutoff) == attempts
  {
    if attempts != [] {
      LaterKeepsLate(attempts[1..], cutoff);
    }
  }

  lemma {:induction false} LaterIsATail(attempts: seq<u64>, cutoff: u64) returns (j: nat)
    requires forall i, k :: 0 <= i < k < |attempts| ==> attempts[i] <= attempts[k]
    ensures j <= |attempts| && Later(attempts, cutoff) == attempts[j..]
    ensures forall k :: 0 <= k < |attempts| ==> (k < j <==> attempts[k] <= cutoff)
  {
    if attempts == [] {
      return 0;
    }
    if attempts[0] > cutoff {
      LaterKeepsLate(attempts, cutoff);
      return 0;
    }
    j := LaterIsATail(attempts[1..], cutoff);
    assert forall k :: 0 <= k < |attempts| - 1 ==> attempts[1..][k] == attempts[k + 1];
    return j + 1;
  }

  /** With every grant at or before t, the window holds those after some point. */
  lemma {:induction false} GrantsInTail(granted: seq<(u64, u32)>, t: int, window: nat, p: nat)
    requires p <= |granted|
    requires forall k :: 0 <= k < |granted| ==> granted[k].0 <= t && (k < p <==> granted[k].0 + window <= t)
    ensures GrantsIn(granted, t, window) == |granted| - p
  {
    if granted != [] {
      var most := granted[..|granted| - 1];
      GrantsInTail(most, t, window, Min(p, |most|));
    }
  }

  lemma {:induction false} LaterWindowsHoldFewer(granted: seq<(u64, u32)>, s: int, t: int, window: nat)
    requires s <= t && forall k :: 0 <= k < |granted| ==> granted[k].0 <= s
    ensures GrantsIn(granted, t, window) <= GrantsIn(granted, s, window)
  {
    if granted != [] {
      LaterWindowsHoldFewer(granted[..|granted| - 1], s, t, window);
    }
  }

  lemma GrantsInPush(granted: seq<(u64, u32)>, g: (u64, u32), t: int, window: nat)
    ensures GrantsIn(granted + [g], t, window)
         == GrantsIn(granted, t, window) + if t - window < g.0 <= t then 1 else 0
  {
    assert (granted + [g])[..|granted|] == granted;
  }

  /** Pruning at an exit drops a prefix of the stored list, and then everything
      from some grant on is stored and in the window, and nothing before it is. */
  lemma PruneDropsAPrefix(limits: RestartLimits, b: Budget, last: nat, now: u64) returns (j: nat)
    requires Stored(limits, b, last) && Ascending(b.granted) && last <= now && now > 0
    requires forall k :: 0 <= k < |b.granted| ==> 0 < b.granted[k].0
    ensures j <= |b.attempts| && PruneAttempts(b.attempts, now, limits.windowMs) == b.attempts[j..]
    ensures forall k :: 0 <= k < |b.granted| ==>
      (k < |b.granted| - |b.attempts| + j <==> b.granted[k].0 + limits.windowMs <= now)
  {
    hide Later;
    var gap := |b.granted| - |b.attempts|;
    j := LaterIsATail(b.attempts, SaturatingSub(now, limits.windowMs));
    forall k | gap <= k < |b.granted|
      ensures k < gap + j <==> b.granted[k].0 + limits.windowMs <= now
    {
      assert b.attempts[k - gap] == b.granted[gap + (k - gap)].0;
    }
  }

  /** What pruning at an exit keeps is exactly the grants in the window. */
  lemma PruneKeepsTheWindow(limits: RestartLimits, b: Budget, last: nat, now: u64)
    requires BudgetOk(limits, b, last) && last <= now && now > 0
    ensures var kept := PruneAttempts(b.attempts, now, limits.windowMs);
      |kept| == GrantsIn(b.granted, now, limits.windowMs) && Stored(limits, Budget(kept, b.granted), now)
  {
    hide NumberedRight, WithinBudget, GrantsIn, Later, PruneAttempts;
    var j := PruneDropsAPrefix(limits, b, last, now);
    GrantsInTail(b.granted, now, limits.windowMs, |b.granted| - |b.attempts| + j);
  }

  lemma GrantStaysWithinBudget(limits: RestartLimits, granted: seq<(u64, u32)>, g: (u64, u32))
    requires WithinBudget(granted, limits) && forall k :: 0 <= k < |granted| ==> granted[k].0 <= g.0
    requires GrantsIn(granted, g.0, limits.windowMs) < limits.maxRetries
    ensures WithinBudget(granted + [g], limits)
  {
    forall t: int
      ensures GrantsIn(granted + [g], t, limits.windowMs) <= limits.maxRetries
    {
      GrantsInPush(granted, g, t, limits.windowMs);
      if g.0 <= t {
        LaterWindowsHoldFewer(granted, g.0, t, limits.windowMs);
      }
    }
  }

  lemma GrantStaysNumbered(limits: RestartLimits, granted: seq<(u64, u32)>, g: (u64, u32))
    requires NumberedRight(granted, limits) && g.1 == 1 + GrantsIn(granted, g.0, limits.windowMs)
    ensures NumberedRight(granted + [g], limits)
  {
    var more := granted + [g];
    assert more[..|granted|] == granted;
    forall k | 0 <= k < |more|
      ensures more[k].1 == 1 + GrantsIn(more[..k], more[k].0, limits.windowMs)
    {
      if k < |granted| {
        assert more[..k] == granted[..k] && more[k] == granted[k];
      }
    }
  }

  lemma GrantStaysStored(limits: RestartLimits, b: Budget, g: (u64, u32))
    requires Stored(limits, b, g.0) && |b.attempts| < limits.maxRetries
    ensures Stored(limits, Budget(b.attempts + [g.0], b.granted + [g]), g.0)
  {
  }

  /** Pruning twice at one time is pruning once: decide_restart sees the list the
      handler stored. */
  lemma {:induction false} LaterIsIdempotent(attempts: seq<u64>, cutoff: u64)
    ensures Later(Later(attempts, cutoff), cutoff) == Later(attempts, cutoff)
  {
    if attempts != [] {
      LaterIsIdempotent(attempts[1..], cutoff);
      var rest := Later(attempts[1..], cutoff);
      assert ([attempts[0]] + rest)[1..] == rest && [] + rest == rest;
    }
  }

  /** An exit stores what pruning keeps, and with a restart granted its time too. */
  lemma OnExitStores(policy: RestartPolicy, limits: RestartLimits, b: Budget, x: Exit)
    ensures var kept := PruneAttempts(b.attempts, x.now, limits.windowMs);
      || OnExit(policy, limits, b, x) == Budget(kept, b.granted)
      || (|kept| < limits.maxRetries
          && OnExit(policy, limits, b, x) == Budget(kept + [x.now], b.granted + [(x.now, |kept| + 1)]))
  {
    LaterIsIdempotent(b.attempts, SaturatingSub(x.now, limits.windowMs));
    var kept := PruneAttempts(b.attempts, x.now, limits.windowMs);
    assert PruneAttempts(kept, x.now, limits.windowMs) == kept;
    hide BackoffDelay, PruneAttempts, OutcomeFromExitCode;
  }

  lemma PruneKeepsBudget(limits: RestartLimits, b: Budget, last: nat, now: u64)
    requires BudgetOk(limits, b, last) && last <= now && now > 0
    ensures var kept := PruneAttempts(b.attempts, now, limits.windowMs);
      BudgetOk(limits, Budget(kept, b.granted), now) && |kept| == GrantsIn(b.granted, now, limits.windowMs)
  {
    PruneKeepsTheWindow(limits, b, last, now);
    hide NumberedRight, WithinBudget, Stored, PruneAttempts, GrantsIn;
  }

  lemma GrantKeepsBudget(limits: RestartLimits, b: Budget, now: u64)
    requires BudgetOk(limits, b, now) && now > 0
    requires |b.attempts| == GrantsIn(b.granted, now, limits.windowMs) < limits.maxRetries
    ensures BudgetOk(limits, Budget(b.attempts + [now], b.granted + [(now, |b.attempts| + 1)]), now)
  {
    hide NumberedRight, WithinBudget, Stored, GrantsIn;
    var g := (now, |b.attempts| + 1);
    GrantStaysWithinBudget(limits, b.granted, g);
    GrantStaysNumbered(limits, b.granted, g);
    GrantStaysStored(limits, b, g);
  }

  lemma ExitKeepsBudget(policy: RestartPolicy, limits: RestartLimits, b: Budget, last: nat, x: Exit)
    requires BudgetOk(limits, b, last) && last <= x.now && x.now > 0
    ensures BudgetOk(limits, OnExit(policy, limits, b, x), x.now)
  {
    OnExitStores(policy, limits, b, x);
    PruneKeepsBudget(limits, b, last, x.now);
    var kept := PruneAttempts(b.attempts, x.now, limits.windowMs);
    hide BudgetOk, OnExit, PruneAttempts, GrantsIn;
    if |kept| < limits.maxRetries {
      GrantKeepsBudget(limits, Budget(kept, b.granted), x.now);
    }
  }

  lemma {:induction false} ExitsKeepBudget(policy: RestartPolicy, limits: RestartLimits, b: Budget, last: nat,
                                          xs: seq<Exit>)
    returns (now: nat)
    requires BudgetOk(limits, b, last) && Clocked(xs, last)
    ensures BudgetOk(limits, OnExits(policy, limits, b, xs), now)
    decreases |xs|
  {
    hide BudgetOk, OnExit;
    if xs == [] {
      return last;
    }
    ExitKeepsBudget(policy, limits, b, last, xs[0]);
    assert forall k :: 0 <= k < |xs[1..]| ==> xs[1..][k] == xs[k + 1];
    now := ExitsKeepBudget(policy, limits, OnExit(policy, limits, b, xs[0]), xs[0].now, xs[1..]);
  }

  /** For every policy, limits and sequence of exits on a clock that does not step
      back: no window of window_ms, wherever it ends, holds more than max_retries
      restarts, although the list is pruned at each exit; the stored list never
      exceeds max_retries; and each grant is numbered one past those then in the
      window. */
  lemma RestartBudgetHolds(policy: RestartPolicy, limits: RestartLimits, xs: seq<Exit>)
    requires Clocked(xs, 0)
    ensures var b := OnExits(policy, limits, Budget([], []), xs);
      && |b.attempts| <= limits.maxRetries
      && (forall t: int :: GrantsIn(b.granted, t, limits.windowMs) <= limits.maxRetries)
      && NumberedRight(b.granted, limits)
  {
    var _ := ExitsKeepBudget(policy, limits, Budget([], []), 0, xs);
  }

  /** Where the clock steps back the budget can be overrun: pruning at the later
      time forgets restarts that are still in the window of the earlier one. */
  lemma BudgetNeedsAClockThatDoesNotStepBack()
    ensures GrantsIn(OnExits(Always, RestartLimits(0, 0, 2, 10), Budget([], []),
                             [Exit(100, 1, false), Exit(101, 1, false),
                              Exit(120, 1, false), Exit(105, 1, false)]).granted,
                     105, 10) == 3
  {
    hide OnExit, OnExits, GrantsIn;
    var limits := RestartLimits(0, 0, 2, 10);
    var x0, x1, x2, x3 := Exit(100, 1, false), Exit(101, 1, false), Exit(120, 1, false), Exit(105, 1, false);
    var b1, b2 := Budget([100], [(100, 1)]), Budget([100, 101], [(100, 1), (101, 2)]);
    var b3 := Budget([120], [(100, 1), (101, 2), (120, 1)]);
    var b4 := Budget([120, 105], [(100, 1), (101, 2), (120, 1), (105, 2)]);
    GrantAfterPruning(limits, Budget([], []), x0, 90, [], b1);
    GrantAfterPruning(limits, b1, x1, 91, [100], b2);
    GrantAfterPruning(limits, b2, x2, 110, [], b3);
    GrantAfterPruning(limits, b3, x3, 95, [120], b4);
    FirstExit(limits, Budget([], []), x0, [x1, x2, x3]);
    FirstExit(limits, b1, x1, [x2, x3]);
    FirstExit(limits, b2, x2, [x3]);
    FirstExit(limits, b3, x3, []);
    ThreeInTheWindow();
    assert [x0] + [x1, x2, x3] == [x0, x1, x2, x3];
    assert [x1] + [x2, x3] == [x1, x2, x3];
    assert [x2] + [x3] == [x2, x3];
    assert [x3] + [] == [x3];
  }

  lemma FirstExit(limits: RestartLimits, b: Budget, x: Exit, xs: seq<Exit>)
    ensures OnExits(Always, limits, OnExit(Always, limits, b, x), []) == OnExit(Always, limits, b, x)
    ensures OnExits(Always, limits, b, [x] + xs) == OnExits(Always, limits, OnExit(Always, limits, b, x), xs)
  {
    hide OnExit;
    assert ([x] + xs)[1..] == xs;
  }

  lemma ThreeInTheWindow()
    ensures GrantsIn([(100, 1), (101, 2), (120, 1), (105, 2)], 105, 10) == 3
  {
    GrantsInPush([], (100, 1), 105, 10);
    GrantsInPush([(100, 1)], (101, 2), 105, 10);
    GrantsInPush([(100, 1), (101, 2)], (120, 1), 105, 10);
    GrantsInPush([(100, 1), (101, 2), (120, 1)], (105, 2), 105, 10);
    hide GrantsIn;
    assert [(100, 1), (101, 2), (120, 1)] + [(105, 2)] == [(100, 1), (101, 2), (120, 1), (105, 2)];
    assert [(100, 1), (101, 2)] + [(120, 1)] == [(100, 1), (101, 2), (120, 1)];
    assert [(100, 1)] + [(101, 2)] == [(100, 1), (101, 2)];
  }

  /** An exit whose pruning keeps everything stored, or nothing, and leaves room. */
  lemma GrantAfterPruning(limits: RestartLimits, b: Budget, x: Exit, cutoff: u64, kept: seq<u64>, after: Budget)
    requires limits.windowMs <= x.now && cutoff == x.now - limits.windowMs
    requires !x.shuttingDown && |kept| < limits.maxRetries
    requires (kept == b.attempts && (forall k :: 0 <= k < |kept| ==> kept[k] > cutoff))
          || (kept == [] && (forall k :: 0 <= k < |b.attempts| ==> b.attempts[k] <= cutoff))
    requires after.attempts == kept + [x.now] && after.granted == b.granted + [(x.now, |kept| + 1)]
    ensures OnExit(Always, limits, b, x) == after
  {
    if kept == b.attempts {
      LaterKeepsLate(kept, cutoff);
    } else {
      LaterDropsEarly(b.attempts, cutoff);
    }
    hide BackoffDelay;
  }

  lemma {:induction false} LaterDropsEarly(attempts: seq<u64>, cutoff: u64)
    requires forall k :: 0 <= k < |attempts| ==> attempts[k] <= cutoff
    ensures Later(attempts, cutoff) == []
  {
    if attempts != [] {
      LaterDropsEarly(attempts[1..], cutoff);
    }
  }
}
