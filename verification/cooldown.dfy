/** The cool-off service: a per-user map from user id to one cooldown window,
    started from the risk score and the violation label and read back lazily
    against the clock.  The map is threaded through the calls; `now` is the
    millisecond clock reading the service takes from Date.now(). */
module Cooldown {
  import opened Vocabulary
  import Rules

  const MsPerSecond: int := 1000
  const SecondsPerMinute: int := 60
  const MsPerMinute: int := SecondsPerMinute * MsPerSecond

  /** One user's window: [startedAt, expiresAt) in epoch milliseconds. */
  datatype Window = Window(userId: string, startedAt: int, expiresAt: int, active: bool)

  /** What a status query reports. */
  datatype Status = Status(active: bool, remainingSeconds: int, cooldownMinutes: int)

  /** The coolOffStates map. */
  type Store = map<string, Window>

  datatype Started = Started(store: Store, window: Window)
  datatype Queried = Queried(store: Store, status: Status)

  const Inactive: Status := Status(false, 0, 0)

  /** The minimum duration, in minutes, each violation label imposes. */
  function FloorMinutes(v: ViolationType): (m: nat)
    ensures m == 60 <==> v == PanicSell
    ensures m == 30 <==> v == Overtrading || v == ShortTermism
    ensures m == 15 <==> v == PlanDeviation
    ensures m == 0 <==> v == NoViolation
  {
    match v
    case PanicSell => 60
    case Overtrading => 30
    case ShortTermism => 30
    case PlanDeviation => 15
    case NoViolation => 0
  }

  function Max(a: nat, b: nat): (m: nat)
    ensures m >= a && m >= b && (m == a || m == b)
  {
    if a >= b then a else b
  }

  /** Duration of a new window: the score-derived base raised to the label's
      floor, except that NONE forces zero whatever the score. */
  function DurationMinutes(riskScore: real, v: ViolationType): (m: nat)
    ensures m in {0, 15, 30, 60}
    ensures v == NoViolation ==> m == 0
    ensures v != NoViolation ==> m >= FloorMinutes(v) && m >= Rules.BaseCooldownMinutes(riskScore)
    ensures v != NoViolation ==> m == FloorMinutes(v) || m == Rules.BaseCooldownMinutes(riskScore)
  {
    var base := Rules.BaseCooldownMinutes(riskScore);
    match v
    case PanicSell => Max(base, 60)
    case Overtrading => Max(base, 30)
    case ShortTermism => Max(base, 30)
    case PlanDeviation => Max(base, 15)
    case NoViolation => 0
  }

  /** NONE overrides even the largest score-derived base. */
  lemma NoneOverridesBase(riskScore: real)
    requires riskScore >= 0.8
    ensures Rules.BaseCooldownMinutes(riskScore) == 60
    ensures DurationMinutes(riskScore, NoViolation) == 0
  {
  }

  /** startCoolOff: writes a fresh window for userId, replacing any earlier
      one, and leaves every other user's window as it was. */
  function StartCoolOff(store: Store, userId: string, riskScore: real, v: ViolationType, now: int): (r: Started)
    ensures r.window.userId == userId && r.window.startedAt == now
    ensures r.window.expiresAt == now + DurationMinutes(riskScore, v) * MsPerMinute
    ensures r.window.active <==> r.window.expiresAt > now
    ensures r.store.Keys == store.Keys + {userId}
    ensures userId in r.store && r.store[userId] == r.window
    ensures forall u :: u in store && u != userId ==> r.store[u] == store[u]
  {
    var minutes := DurationMinutes(riskScore, v);
    var w := Window(userId, now, now + minutes * MsPerMinute, minutes > 0);
    Started(store[userId := w], w)
  }

  /** Math.ceil(a / b) for an integer a and a positive integer b. */
  function CeilDiv(a: int, b: int): (q: int)
    requires b > 0
    ensures (q - 1) * b < a <= q * b
  {
    if a % b == 0 then a / b else a / b + 1
  }

  /** getCoolOffStatus: an unknown user or an expired window reads as
      inactive (an expired window is also marked inactive in the store);
      otherwise the remaining time is reported rounded up to whole seconds
      and to whole minutes. */
  function GetStatus(store: Store, userId: string, now: int): (r: Queried)
    ensures userId !in store ==> r == Queried(store, Inactive)
    ensures userId in store && now >= store[userId].expiresAt ==>
              r.status == Inactive && r.store == store[userId := store[userId].(active := false)]
    ensures userId in store && now < store[userId].expiresAt ==>
              r.store == store && r.status.active && r.status.remainingSeconds >= 1
              && (r.status.remainingSeconds - 1) * MsPerSecond < store[userId].expiresAt - now
              && store[userId].expiresAt - now <= r.status.remainingSeconds * MsPerSecond
              && (r.status.cooldownMinutes - 1) * SecondsPerMinute < r.status.remainingSeconds
              && r.status.remainingSeconds <= r.status.cooldownMinutes * SecondsPerMinute
    ensures r.status.active <==> userId in store && now < store[userId].expiresAt
    ensures r.store.Keys == store.Keys
  {
    if userId !in store then Queried(store, Inactive)
    else
      var w := store[userId];
      if now >= w.expiresAt then Queried(store[userId := w.(active := false)], Inactive)
      else
        var seconds := CeilDiv(w.expiresAt - now, MsPerSecond);
        Queried(store, Status(true, seconds, CeilDiv(seconds, SecondsPerMinute)))
  }

  /** At a fixed instant a second status query changes nothing and reports
      the same as the first. */
  lemma StatusIdempotent(store: Store, userId: string, now: int)
    ensures GetStatus(GetStatus(store, userId, now).store, userId, now) == GetStatus(store, userId, now)
  {
  }

  /** A stored duration the service can produce: 0, 15, 30 or 60 minutes. */
  predicate ValidDuration(ms: int) {
    ms == 0 || ms == 15 * MsPerMinute || ms == 30 * MsPerMinute || ms == 60 * MsPerMinute
  }

  /** The store invariant: each window is filed under its own user, has one
      of the four durations, and is active only while it spans some time. */
  predicate WellFormed(store: Store) {
    forall u :: u in store ==>
      store[u].userId == u
      && ValidDuration(store[u].expiresAt - store[u].startedAt)
      && (store[u].active ==> store[u].expiresAt > store[u].startedAt)
  }

  lemma StartPreservesWellFormed(store: Store, userId: string, riskScore: real, v: ViolationType, now: int)
    requires WellFormed(store)
    ensures WellFormed(StartCoolOff(store, userId, riskScore, v, now).store)
  {
  }

  lemma StatusPreservesWellFormed(store: Store, userId: string, now: int)
    requires WellFormed(store)
    ensures WellFormed(GetStatus(store, userId, now).store)
  {
  }

  /** Rounding up never overshoots a whole-unit bound. */
  lemma CeilDivAtMost(a: int, b: int, k: int)
    requires b > 0 && a <= k * b
    ensures CeilDiv(a, b) <= k
  {
  }

  /** Once a window has started, the minutes a query reports never exceed
      the duration the window was started with. */
  lemma RemainingWithinDuration(store: Store, userId: string, now: int)
    requires WellFormed(store) && userId in store
    requires now >= store[userId].startedAt
    ensures GetStatus(store, userId, now).status.cooldownMinutes
              <= (store[userId].expiresAt - store[userId].startedAt) / MsPerMinute
  {
    var w := store[userId];
    var d := (w.expiresAt - w.startedAt) / MsPerMinute;
    assert w.expiresAt - w.startedAt == d * MsPerMinute;
    if now < w.expiresAt {
      var seconds := CeilDiv(w.expiresAt - now, MsPerSecond);
      CeilDivAtMost(w.expiresAt - now, MsPerSecond, d * SecondsPerMinute);
      CeilDivAtMost(seconds, SecondsPerMinute, d);
    }
  }

  /** Read at the instant it was started, a window reports exactly its
      duration: active with the full minutes when the duration is positive,
      inactive otherwise. */
  lemma StatusRightAfterStart(store: Store, userId: string, riskScore: real, v: ViolationType, now: int)
    ensures var m := DurationMinutes(riskScore, v);
            GetStatus(StartCoolOff(store, userId, riskScore, v, now).store, userId, now).status
              == (if m > 0 then Status(true, m * SecondsPerMinute, m) else Inactive)
  {
    var m := DurationMinutes(riskScore, v);
    var s := StartCoolOff(store, userId, riskScore, v, now).store;
    if m > 0 {
      assert s[userId].expiresAt - now == (m * SecondsPerMinute) * MsPerSecond;
      assert CeilDiv(m * SecondsPerMinute * MsPerSecond, MsPerSecond) == m * SecondsPerMinute;
      assert CeilDiv(m * SecondsPerMinute, SecondsPerMinute) == m;
    }
  }
}
