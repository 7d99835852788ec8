/**
 * The token bucket that limits how often the load balancer is reloaded.
 * Times are nanoseconds since the bucket was made; the refill is lazy, done
 * by the next call, and is proved against a bucket refilled tick by tick.
 */
module TokenBucket {
  import opened Wrappers

  datatype Config = Config(capacity: int, quantum: int, interval: int) {
    ghost predicate Good() {
      capacity > 0 && quantum > 0 && interval > 0
    }
  }

  /** The available tokens as of a tick; negative while consumers wait. */
  datatype State = State(avail: int, availTick: int)

  /** Integer division toward zero. */
  function Quotient(a: int, b: int): int
    requires b > 0
  {
    if a >= 0 then a / b else -(-a / b)
  }

  function Tick(c: Config, now: int): int
    requires c.Good()
  {
    Quotient(now, c.interval)
  }

  /** The refill: a full bucket is left as it is, its tick included. */
  function Refilled(c: Config, s: State, tick: int): State {
    if s.avail >= c.capacity then s
    else
      var avail := s.avail + (tick - s.availTick) * c.quantum;
      State(if avail > c.capacity then c.capacity else avail, tick)
  }

  /** Ticks until a debt is paid, rounded up. */
  function TicksFor(c: Config, debt: int): int
    requires c.Good() && debt > 0
  {
    (debt + c.quantum - 1) / c.quantum
  }

  datatype Call =
    | Take(now: int, count: int, maxWait: int)
    | TakeAvailable(now: int, count: int)

  /** What a call removed: how many tokens, in which tick, and the tick from which the caller may use them. */
  datatype Grant = Grant(count: int, tick: int, ready: int)

  function WaitFor(c: Config, now: int, endTick: int): int {
    endTick * c.interval - now
  }

  /** The state after a call, and what it granted. */
  function Effect(c: Config, s: State, call: Call): (State, Grant)
    requires c.Good()
  {
    var tick := Tick(c, call.now);
    if call.count <= 0 then (s, Grant(0, tick, tick))
    else
      var r := Refilled(c, s, tick);
      match call
      case TakeAvailable(_, count) =>
        if r.avail <= 0 then (r, Grant(0, tick, tick))
        else
          var taken := if count > r.avail then r.avail else count;
          (r.(avail := r.avail - taken), Grant(taken, tick, tick))
      case Take(now, count, maxWait) =>
        var avail := r.avail - count;
        if avail >= 0 then (r.(avail := avail), Grant(count, tick, tick))
        else
          var endTick := tick + TicksFor(c, -avail);
          if WaitFor(c, now, endTick) > maxWait then (r, Grant(0, tick, tick))
          else (r.(avail := avail), Grant(count, tick, endTick))
  }

  // ---------------------------------------------------------------- the bucket

  class Bucket {
    const config: Config
    var avail: int
    var availTick: int

    ghost predicate Valid()
      reads this
    {
      config.Good() && avail <= config.capacity
    }

    ghost function View(): State
      reads this
    {
      State(avail, availTick)
    }

    constructor (c: Config)
      requires c.Good()
      ensures Valid() && config == c && View() == State(c.capacity, 0)
    {
      config := c;
      avail := c.capacity;
      availTick := 0;
    }

    method Adjust(now: int) returns (currentTick: int)
      requires Valid()
      modifies this
      ensures Valid() && currentTick == Tick(config, now)
      ensures View() == Refilled(config, old(View()), currentTick)
    {
      currentTick := Quotient(now, config.interval);
      if avail >= config.capacity {
        return;
      }
      avail := avail + (currentTick - availTick) * config.quantum;
      if avail > config.capacity {
        avail := config.capacity;
      }
      availTick := currentTick;
    }

    method TakeUpTo(now: int, wanted: int) returns (taken: int)
      requires Valid()
      modifies this
      ensures Valid()
      ensures (View(), Grant(taken, Tick(config, now), Tick(config, now)))
           == Effect(config, old(View()), TakeAvailable(now, wanted))
    {
      if wanted <= 0 {
        return 0;
      }
      var _ := Adjust(now);
      if avail <= 0 {
        return 0;
      }
      taken := wanted;
      if taken > avail {
        taken := avail;
      }
      avail := avail - taken;
    }

    /** Takes the tokens, perhaps on credit; the caller may use them after `wait`. */
    method TakeNow(now: int, count: int, maxWait: int) returns (wait: int, ok: bool)
      requires Valid()
      modifies this
      ensures Valid()
      ensures var (after, grant) := Effect(config, old(View()), Take(now, count, maxWait));
        && View() == after
        && ok == (count <= 0 || grant.count == count)
        && wait == (if grant.ready == grant.tick then 0 else WaitFor(config, now, grant.ready))
    {
      if count <= 0 {
        return 0, true;
      }
      var currentTick := Adjust(now);
      var left := avail - count;
      if left >= 0 {
        avail := left;
        return 0, true;
      }
      TicksArePositive(config, -left);
      var endTick := currentTick + (-left + config.quantum - 1) / config.quantum;
      var waitTime := endTick * config.interval - now;
      if waitTime > maxWait {
        return 0, false;
      }
      avail := left;
      return waitTime, true;
    }
  }

  // ---------------------------------------------------------------- waiting

  /** The rounded-up tick count is the first at which the debt is covered. */
  lemma TicksAreFirst(c: Config, debt: int)
    requires c.Good() && debt > 0
    ensures TicksFor(c, debt) > 0
    ensures TicksFor(c, debt) * c.quantum >= debt
    ensures (TicksFor(c, debt) - 1) * c.quantum < debt
  {
    var n, q := debt + c.quantum - 1, c.quantum;
    var k := n / q;
    assert n == q * k + n % q;
    assert k * q == q * k && (k - 1) * q == q * k - q;
    TicksArePositive(c, debt);
  }

  /** Taking what is there takes the least of what is wanted and what there is after the refill, and nothing from debt. */
  lemma TakesLeast(c: Config, s: State, now: int, wanted: int)
    requires c.Good()
    ensures var (after, grant) := Effect(c, s, TakeAvailable(now, wanted));
      var there := if wanted <= 0 then s.avail else Refilled(c, s, Tick(c, now)).avail;
      && grant.count >= 0 && after.avail == there - grant.count
      && (wanted <= 0 || there <= 0 ==> grant.count == 0)
      && (0 < wanted && 0 < there ==> grant.count <= wanted && grant.count <= there && (grant.count == wanted || grant.count == there))
  {
  }

  /**
   * A take is refused exactly when no tick up to the longest wait brings the
   * tokens, and a refused take takes nothing; otherwise it takes them all.
   */
  lemma RefusedIff(c: Config, s: State, now: int, count: int, maxWait: int)
    requires c.Good() && now >= 0 && count > 0 && maxWait >= 0
    ensures var (after, grant) := Effect(c, s, Take(now, count, maxWait));
      var there := Refilled(c, s, Tick(c, now)).avail;
      && (grant.count == 0 <==>
            forall t :: Tick(c, now) <= t && t * c.interval <= now + maxWait ==> there + (t - Tick(c, now)) * c.quantum < count)
      && (grant.count == 0 || grant.count == count)
      && after.avail == there - grant.count
  {
    var tick, there := Tick(c, now), Refilled(c, s, Tick(c, now)).avail;
    TickBounds(c, now);
    if there >= count {
      assert tick * c.interval <= now + maxWait && there + (tick - tick) * c.quantum >= count;
    } else {
      var n := TicksFor(c, count - there);
      TicksAreFirst(c, count - there);
      if (tick + n) * c.interval <= now + maxWait {
        assert there + (tick + n - tick) * c.quantum >= count;
      } else {
        forall t | tick <= t && t * c.interval <= now + maxWait ensures there + (t - tick) * c.quantum < count {
          if t >= tick + n {
            Monotone(tick + n, t, c.interval);
          } else {
            Monotone(t - tick, n - 1, c.quantum);
          }
        }
      }
    }
  }

  lemma TicksArePositive(c: Config, debt: int)
    requires c.Good() && debt > 0
    ensures TicksFor(c, debt) > 0
  {
    var n, q := debt + c.quantum - 1, c.quantum;
    var k := n / q;
    assert n == q * k + n % q;
    if k <= 0 {
      Monotone(k, 0, q);
    }
  }

  lemma TickBounds(c: Config, now: int)
    requires c.Good() && now >= 0
    ensures 0 <= Tick(c, now)
    ensures Tick(c, now) * c.interval <= now < (Tick(c, now) + 1) * c.interval
  {
    var k := now / c.interval;
    assert now == c.interval * k + now % c.interval;
    assert (k + 1) * c.interval == c.interval * k + c.interval;
  }

  /** A take that was granted on credit. */
  ghost predicate Indebted(c: Config, s: State, now: int, count: int, maxWait: int)
    requires c.Good()
  {
    var (after, grant) := Effect(c, s, Take(now, count, maxWait));
    now >= 0 && count > 0 && grant.count == count && after.avail < 0
  }

  /** A take on credit has a positive wait, within what the caller allows, that ends on a tick boundary. */
  lemma DebtWaits(c: Config, s: State, now: int, count: int, maxWait: int)
    requires c.Good() && Indebted(c, s, now, count, maxWait)
    ensures var (after, grant) := Effect(c, s, Take(now, count, maxWait));
      var wait := WaitFor(c, now, grant.ready);
      && 0 < wait <= maxWait
      && now + wait == grant.ready * c.interval
      && grant.ready == grant.tick + TicksFor(c, -after.avail)
  {
    var (after, grant) := Effect(c, s, Take(now, count, maxWait));
    TicksAreFirst(c, -after.avail);
    TickBounds(c, now);
    Monotone(grant.tick + 1, grant.ready, c.interval);
  }

  /** With no further call, the bucket's own refill covers a debt from exactly this many ticks after its last tick on. */
  lemma CoveredFrom(c: Config, s: State, t: int)
    requires c.Good() && s.avail < 0
    ensures Refilled(c, s, t).avail >= 0 <==> t >= s.availTick + TicksFor(c, -s.avail)
  {
    var n := TicksFor(c, -s.avail);
    TicksAreFirst(c, -s.avail);
    if t >= s.availTick + n {
      Monotone(n, t - s.availTick, c.quantum);
    } else {
      Monotone(t - s.availTick, n - 1, c.quantum);
    }
  }

  /** The bucket is full and was not refilled in this tick: its tick lags behind. */
  ghost predicate StaleFull(c: Config, s: State, tick: int) {
    s.avail >= c.capacity && s.availTick < tick
  }

  /** The bucket's refill has covered the debt at tick `ready`, and at no tick from `tick` on before it. */
  ghost predicate FirstCovered(c: Config, s: State, tick: int, ready: int) {
    && Refilled(c, s, ready).avail >= 0
    && forall t :: tick <= t < ready ==> Refilled(c, s, t).avail < 0
  }

  /**
   * The wait of a take on credit ends at the first tick at which the bucket
   * itself has covered the debt, exactly when the bucket was not both full
   * and stale; otherwise it ends as many ticks late as the bucket lagged.
   */
  lemma DebtWaitsForFirstTick(c: Config, s: State, now: int, count: int, maxWait: int)
    requires c.Good() && Indebted(c, s, now, count, maxWait)
    requires s.avail <= c.capacity && s.availTick <= Tick(c, now)
    ensures var (after, grant) := Effect(c, s, Take(now, count, maxWait));
      && (FirstCovered(c, after, grant.tick, grant.ready) <==> !StaleFull(c, s, grant.tick))
      && grant.ready - (after.availTick + TicksFor(c, -after.avail))
         == if StaleFull(c, s, grant.tick) then grant.tick - s.availTick else 0
  {
    var (after, grant) := Effect(c, s, Take(now, count, maxWait));
    DebtWaits(c, s, now, count, maxWait);
    TicksAreFirst(c, -after.avail);
    forall t ensures Refilled(c, after, t).avail >= 0 <==> t >= after.availTick + TicksFor(c, -after.avail) {
      CoveredFrom(c, after, t);
    }
    if StaleFull(c, s, grant.tick) {
      assert Refilled(c, after, grant.ready - 1).avail >= 0;
    }
  }

  /**
   * A full bucket idle for a hundred ticks grants fifteen of its ten tokens
   * for tick 105, has covered the debt at once by its own account, and grants
   * ten more in the same tick while the first caller waits.
   */
  lemma StaleDebtServedLate()
    ensures var c := Config(10, 1, 1);
      var (after, grant) := Effect(c, State(10, 0), Take(100, 15, 1000));
      var (_, next) := Effect(c, after, TakeAvailable(100, 10));
      && c.Good()
      && Indebted(c, State(10, 0), 100, 15, 1000)
      && grant == Grant(15, 100, 105)
      && Refilled(c, after, 100).avail == 10
      && next == Grant(10, 100, 100)
  {
    var c := Config(10, 1, 1);
    assert Tick(c, 100) == 100;
    assert TicksFor(c, 5) == 5;
    assert Refilled(c, State(10, 0), 100) == State(10, 0);
    assert Refilled(c, State(-5, 0), 100) == State(10, 100);
  }

  lemma Monotone(a: int, b: int, k: int)
    requires a <= b && k >= 0
    ensures a * k <= b * k
  {
    assert b * k - a * k == (b - a) * k;
  }

  // ---------------------------------------------------------------- whole runs

  /** Calls at times that never go back, the first not before `from`. */
  ghost predicate InOrder(calls: seq<Call>, from: int) {
    calls == [] || (from <= calls[0].now && InOrder(calls[1..], calls[0].now))
  }

  function Run(c: Config, s: State, calls: seq<Call>): (State, seq<Grant>)
    requires c.Good()
    decreases |calls|
  {
    if calls == [] then (s, [])
    else
      var (after, grant) := Effect(c, s, calls[0]);
      var (last, grants) := Run(c, after, calls[1..]);
      (last, [grant] + grants)
  }

  /** Tokens of the grants usable by a tick. */
  function ReadyBy(grants: seq<Grant>, tick: int): int {
    if grants == [] then 0
    else (if grants[0].ready <= tick then grants[0].count else 0) + ReadyBy(grants[1..], tick)
  }

  function Total(grants: seq<Grant>): int {
    if grants == [] then 0 else grants[0].count + Total(grants[1..])
  }

  /** The account is never overdrawn: everything granted so far and still available was put in by the current tick. */
  ghost predicate Account(c: Config, s: State, granted: int, tick: int) {
    && s.avail <= c.capacity
    && s.availTick <= tick
    && granted + s.avail <= c.capacity + c.quantum * s.availTick
  }

  lemma TickMonotone(c: Config, a: int, b: int)
    requires c.Good() && 0 <= a <= b
    ensures Tick(c, a) <= Tick(c, b)
  {
    TickBounds(c, a);
    TickBounds(c, b);
    if Tick(c, a) > Tick(c, b) {
      Monotone(Tick(c, b) + 1, Tick(c, a), c.interval);
    }
  }

  lemma RefillKeepsAccount(c: Config, s: State, granted: int, tick: int, now: int)
    requires c.Good() && Account(c, s, granted, tick) && tick <= now
    ensures Account(c, Refilled(c, s, now), granted, now)
  {
    assert (now - s.availTick) * c.quantum == c.quantum * now - c.quantum * s.availTick;
  }

  /** One call keeps the account, and what it grants is covered by the tick it is ready. */
  lemma CallKeepsAccount(c: Config, s: State, granted: int, tick: int, call: Call)
    requires c.Good() && Account(c, s, granted, tick) && 0 <= call.now && tick <= Tick(c, call.now)
    ensures var (after, grant) := Effect(c, s, call);
      && grant.count >= 0
      && Account(c, after, granted + grant.count, Tick(c, call.now))
      && (grant.count > 0 ==> granted + grant.count <= c.capacity + c.quantum * grant.ready)
  {
    var now := Tick(c, call.now);
    RefillKeepsAccount(c, s, granted, tick, now);
    var r := Refilled(c, s, now);
    var (after, grant) := Effect(c, s, call);
    Monotone(r.availTick, now, c.quantum);
    assert c.quantum * r.availTick <= c.quantum * now;
    if after.avail < 0 && grant.count > 0 {
      TicksAreFirst(c, -after.avail);
      assert c.quantum * grant.ready == c.quantum * now + c.quantum * TicksFor(c, -after.avail);
    }
  }

  /**
   * From any state of a run: what was granted before and the later grants
   * ready by tick `t` stay within what the bucket was given.
   */
  lemma {:induction false} RunWithinAccount(c: Config, s: State, granted: int, tick: int, calls: seq<Call>, now: int, t: int)
    requires c.Good() && 0 <= now && tick <= Tick(c, now) && 0 <= granted
    requires Account(c, s, granted, tick) && InOrder(calls, now)
    ensures var (last, grants) := Run(c, s, calls);
      && last.avail <= c.capacity
      && ReadyBy(grants, t) >= 0
      && (ReadyBy(grants, t) > 0 ==> granted + ReadyBy(grants, t) <= c.capacity + c.quantum * t)
    decreases |calls|
  {
    if calls != [] {
      var call := calls[0];
      TickMonotone(c, now, call.now);
      CallKeepsAccount(c, s, granted, tick, call);
      var (after, grant) := Effect(c, s, call);
      RunWithinAccount(c, after, granted + grant.count, Tick(c, call.now), calls[1..], call.now, t);
      var (last, grants) := Run(c, after, calls[1..]);
      assert ([grant] + grants)[1..] == grants;
      if grant.ready <= t {
        Monotone(grant.ready, t, c.quantum);
      }
    }
  }

  /** In every run of a new bucket the tokens usable by any tick are at most what it held and was given by then. */
  lemma RunBound(c: Config, calls: seq<Call>, t: int)
    requires c.Good() && InOrder(calls, 0) && t >= 0
    ensures var (last, grants) := Run(c, State(c.capacity, 0), calls);
      && last.avail <= c.capacity
      && ReadyBy(grants, t) <= c.capacity + c.quantum * t
  {
    TickBounds(c, 0);
    RunWithinAccount(c, State(c.capacity, 0), 0, 0, calls, 0, t);
    Monotone(0, t, c.quantum);
  }

  // ---------------------------------------------------------------- windows of immediate takes

  ghost predicate OnlyImmediate(calls: seq<Call>) {
    forall i :: 0 <= i < |calls| ==> calls[i].TakeAvailable?
  }

  /** Every call lies in a tick not after `end`. */
  ghost predicate EndsBy(c: Config, calls: seq<Call>, end: int)
    requires c.Good()
  {
    forall i :: 0 <= i < |calls| ==> Tick(c, calls[i].now) <= end
  }

  ghost function Least(a: int, b: int): int {
    if a <= b then a else b
  }

  /** The most that immediate takes can still get from tick `tick` to tick `end`. */
  ghost function Potential(c: Config, s: State, tick: int, end: int): int {
    var lag := c.quantum * (tick - s.availTick);
    c.quantum * (end - tick) +
    if s.avail >= c.capacity then c.capacity + Least(c.capacity, lag)
    else Least(c.capacity, s.avail + lag)
  }

  /** A state that immediate takes leave: nobody waits, and the tick is not ahead. */
  ghost predicate Settled(c: Config, s: State, tick: int) {
    0 <= s.avail <= c.capacity && s.availTick <= tick
  }

  lemma ImmediatePotential(c: Config, s: State, tick: int, call: Call, end: int)
    requires c.Good() && Settled(c, s, tick) && call.TakeAvailable?
    requires tick <= Tick(c, call.now) <= end
    ensures var (after, grant) := Effect(c, s, call);
      var now := Tick(c, call.now);
      && Settled(c, after, now)
      && 0 <= grant.count
      && grant.count + Potential(c, after, now, end) <= Potential(c, s, tick, end)
  {
    var now := Tick(c, call.now);
    var (after, grant) := Effect(c, s, call);
    assert c.quantum * (end - tick) == c.quantum * (end - now) + c.quantum * (now - tick);
    assert c.quantum * (now - s.availTick) == c.quantum * (now - tick) + c.quantum * (tick - s.availTick);
    assert c.quantum * (now - now) == 0;
    Monotone(0, now - tick, c.quantum);
    assert (now - tick) * c.quantum == c.quantum * (now - tick);
    assert (now - s.availTick) * c.quantum == c.quantum * (now - s.availTick);
    Monotone(0, now - s.availTick, c.quantum);
  }

  lemma {:induction false} WindowPotential(c: Config, s: State, tick: int, calls: seq<Call>, now: int, end: int)
    requires c.Good() && Settled(c, s, tick) && 0 <= now && tick <= Tick(c, now) && tick <= end
    requires OnlyImmediate(calls) && InOrder(calls, now) && EndsBy(c, calls, end)
    ensures Total(Run(c, s, calls).1) <= Potential(c, s, tick, end)
    decreases |calls|
  {
    Monotone(0, tick - s.availTick, c.quantum);
    Monotone(0, end - tick, c.quantum);
    if calls != [] {
      var call := calls[0];
      TickMonotone(c, now, call.now);
      ImmediatePotential(c, s, tick, call, end);
      var (after, grant) := Effect(c, s, call);
      WindowPotential(c, after, Tick(c, call.now), calls[1..], call.now, end);
      var (last, grants) := Run(c, after, calls[1..]);
      assert ([grant] + grants)[1..] == grants;
    }
  }

  /** Immediate takes in any window of ticks get at most two buckets and the refills of the window. */
  lemma WindowBound(c: Config, s: State, tick: int, calls: seq<Call>, now: int, end: int)
    requires c.Good() && Settled(c, s, tick) && 0 <= now && tick == Tick(c, now) && tick <= end
    requires OnlyImmediate(calls) && InOrder(calls, now) && EndsBy(c, calls, end)
    ensures Total(Run(c, s, calls).1) <= 2 * c.capacity + c.quantum * (end - tick)
    ensures !StaleFull(c, s, tick) ==> Total(Run(c, s, calls).1) <= c.capacity + c.quantum * (end - tick)
  {
    hide Run, InOrder, EndsBy, OnlyImmediate, Total, Tick;
    WindowPotential(c, s, tick, calls, now, end);
  }

  lemma {:induction false} RunSettles(c: Config, s: State, calls: seq<Call>, now: int)
    requires c.Good() && 0 <= now && Settled(c, s, Tick(c, now)) && OnlyImmediate(calls) && InOrder(calls, now)
    ensures now <= LastTime(calls, now) && Settled(c, Run(c, s, calls).0, Tick(c, LastTime(calls, now)))
    decreases |calls|
  {
    if calls != [] {
      TickMonotone(c, now, calls[0].now);
      ImmediatePotential(c, s, Tick(c, now), calls[0], Tick(c, calls[0].now));
      RunSettles(c, Effect(c, s, calls[0]).0, calls[1..], calls[0].now);
    }
  }

  /** In every run of immediate takes, every window of ticks grants at most two buckets and its refills. */
  lemma AnyWindow(c: Config, before: seq<Call>, window: seq<Call>, now: int, end: int)
    requires c.Good() && OnlyImmediate(before) && OnlyImmediate(window)
    requires InOrder(before, 0) && LastTime(before, 0) <= now && InOrder(window, now)
    requires Tick(c, now) <= end && EndsBy(c, window, end)
    ensures Total(Run(c, Run(c, State(c.capacity, 0), before).0, window).1)
         <= 2 * c.capacity + c.quantum * (end - Tick(c, now))
  {
    hide Run, InOrder, EndsBy, OnlyImmediate, Total;
    TickBounds(c, 0);
    RunSettles(c, State(c.capacity, 0), before, 0);
    TickMonotone(c, LastTime(before, 0), now);
    WindowBound(c, Run(c, State(c.capacity, 0), before).0, Tick(c, now), window, now, end);
  }

  /** Every window grants at most one bucket and its refills exactly when it does not start from a full bucket whose tick lags. */
  lemma OneBucketIff(c: Config, s: State, now: int)
    requires c.Good() && Settled(c, s, Tick(c, now)) && 0 <= now
    ensures var tick := Tick(c, now);
      (forall calls, end | tick <= end && OnlyImmediate(calls) && InOrder(calls, now) && EndsBy(c, calls, end) ::
         Total(Run(c, s, calls).1) <= c.capacity + c.quantum * (end - tick))
      <==> !StaleFull(c, s, tick)
  {
    var tick := Tick(c, now);
    if !StaleFull(c, s, tick) {
      forall calls, end | tick <= end && OnlyImmediate(calls) && InOrder(calls, now) && EndsBy(c, calls, end)
        ensures Total(Run(c, s, calls).1) <= c.capacity + c.quantum * (end - tick)
      {
        WindowBound(c, s, tick, calls, now, end);
      }
    } else {
      var calls := TwoTakes(c, s, now);
      assert Total(Run(c, s, calls).1) > c.capacity + c.quantum * (tick - tick);
    }
  }

  lemma TwoTakes(c: Config, s: State, now: int) returns (calls: seq<Call>)
    requires c.Good() && Settled(c, s, Tick(c, now)) && 0 <= now && StaleFull(c, s, Tick(c, now))
    ensures OnlyImmediate(calls) && InOrder(calls, now) && EndsBy(c, calls, Tick(c, now))
    ensures Total(Run(c, s, calls).1) > c.capacity
  {
    var tick := Tick(c, now);
    var first, second := TakeAvailable(now, c.capacity), TakeAvailable(now, 1);
    calls := [first, second];
    assert calls[1..] == [second] && calls[1..][1..] == [];
    assert InOrder([second], now);
    var (s1, g1) := Effect(c, s, first);
    assert s1 == State(0, s.availTick) && g1.count == c.capacity;
    Monotone(1, tick - s.availTick, c.quantum);
    var (s2, g2) := Effect(c, s1, second);
    assert g2.count == 1;
    assert Run(c, s1, [second]).1 == [g2] + Run(c, s2, []).1;
    assert Run(c, s, calls).1 == [g1] + Run(c, s1, calls[1..]).1;
    assert Run(c, s, calls).1 == [g1, g2];
    assert [g1, g2][1..] == [g2] && [g2][1..] == [];
    assert Total([g2]) == g2.count + Total([]);
    assert Total([g1, g2]) == g1.count + Total([g2]);
    assert InOrder(calls, now) == InOrder(calls[1..], now);
  }

  // ---------------------------------------------------------------- tick by tick

  /** A bucket refilled at every tick, never above its capacity. */
  function Eager(c: Config, avail: int, ticks: nat): int {
    if ticks == 0 then avail
    else
      var more := Eager(c, avail, ticks - 1) + c.quantum;
      if more > c.capacity then c.capacity else more
  }

  lemma {:induction false} EagerSum(c: Config, avail: int, ticks: nat)
    requires c.Good() && avail <= c.capacity
    ensures var sum := avail + ticks * c.quantum;
      Eager(c, avail, ticks) == if sum > c.capacity then c.capacity else sum
  {
    if ticks > 0 {
      EagerSum(c, avail, ticks - 1);
      assert ticks * c.quantum == (ticks - 1) * c.quantum + c.quantum;
    }
  }

  /** Below capacity, one lazy refill is as many tick-by-tick refills; a full bucket stays full either way. */
  lemma LazyIsEager(c: Config, s: State, tick: int)
    requires c.Good() && s.avail <= c.capacity && s.availTick <= tick
    ensures Refilled(c, s, tick).avail == Eager(c, s.avail, tick - s.availTick)
    ensures s.avail < c.capacity ==> Refilled(c, s, tick).availTick == tick
  {
    EagerSum(c, s.avail, tick - s.availTick);
    Monotone(0, tick - s.availTick, c.quantum);
  }

  /** An eager bucket charged the same counts at the same ticks. */
  function EagerRun(c: Config, avail: int, tick: int, grants: seq<Grant>): int
    decreases |grants|
  {
    if grants == [] then avail
    else
      var g := grants[0];
      var refilled := if g.tick <= tick then avail else Eager(c, avail, g.tick - tick);
      EagerRun(c, refilled - g.count, g.tick, grants[1..])
  }

  /** The lazy bucket's tokens, once the pending refill is done, are no fewer than the eager one's. */
  ghost predicate Ahead(c: Config, s: State, eager: int, tick: int) {
    s.avail <= c.capacity && s.availTick <= tick && eager <= Refilled(c, s, tick).avail
  }

  lemma RefillStaysAhead(c: Config, s: State, eager: int, tick: int, later: int)
    requires c.Good() && Ahead(c, s, eager, tick) && tick <= later
    ensures Ahead(c, s, Eager(c, eager, later - tick), later)
  {
    LazyIsEager(c, s, tick);
    LazyIsEager(c, s, later);
    EagerSum(c, eager, later - tick);
    EagerSum(c, s.avail, tick - s.availTick);
    EagerSum(c, s.avail, later - s.availTick);
    assert (later - s.availTick) * c.quantum == (later - tick) * c.quantum + (tick - s.availTick) * c.quantum;
    Monotone(0, later - tick, c.quantum);
  }

  lemma CallStaysAhead(c: Config, s: State, eager: int, call: Call)
    requires c.Good() && Ahead(c, s, eager, Tick(c, call.now))
    ensures var (after, grant) := Effect(c, s, call);
      Ahead(c, after, eager - grant.count, Tick(c, call.now))
  {
    var tick := Tick(c, call.now);
    var r := Refilled(c, s, tick);
    var (after, grant) := Effect(c, s, call);
    assert (tick - r.availTick) * c.quantum >= 0 by { Monotone(0, tick - r.availTick, c.quantum); }
    if r.availTick == tick {
      assert (tick - r.availTick) * c.quantum == 0;
    }
  }

  function LastTime(calls: seq<Call>, now: int): int {
    if calls == [] then now else LastTime(calls[1..], calls[0].now)
  }

  /** The lazy bucket is never behind: whatever a run draws, it holds at least what the eager one does. */
  lemma {:induction false} NeverBehindEager(c: Config, s: State, eager: int, calls: seq<Call>, now: int)
    requires c.Good() && 0 <= now && InOrder(calls, now)
    requires Ahead(c, s, eager, Tick(c, now))
    ensures var (last, grants) := Run(c, s, calls);
      Ahead(c, last, EagerRun(c, eager, Tick(c, now), grants), Tick(c, LastTime(calls, now)))
    decreases |calls|
  {
    if calls != [] {
      var tick, call := Tick(c, now), calls[0];
      TickMonotone(c, now, call.now);
      var (after, grant) := Effect(c, s, call);
      var refilled := if grant.tick <= tick then eager else Eager(c, eager, grant.tick - tick);
      RefillStaysAhead(c, s, eager, tick, grant.tick);
      CallStaysAhead(c, s, refilled, call);
      NeverBehindEager(c, after, refilled - grant.count, calls[1..], call.now);
      var (last, grants) := Run(c, after, calls[1..]);
      assert ([grant] + grants)[1..] == grants;
    }
  }

  // ---------------------------------------------------------------- choosing a quantum

  /** The next quantum to try: a tenth more, and at least one more. */
  function NextQuantum(q: int): (next: int)
    requires q > 0
    ensures q < next
    ensures 10 * next <= 11 * q || next == q + 1
    ensures 11 * q < 10 * next + 10
  {
    var q1 := q * 11 / 10;
    if q1 == q then q1 + 1 else q1
  }

  const QUANTUM_LIMIT: int := 0x4_0000_0000_0000

  /** Tokens a second from a quantum every so many nanoseconds. */
  function Rate(quantum: int, interval: int): real
    requires interval > 0
  {
    1_000_000_000.0 * quantum as real / interval as real
  }

  /** Within the allowed hundredth. */
  predicate Near(rate: real, actual: real) {
    -0.01 * rate <= actual - rate <= 0.01 * rate
  }

  /** A product, kept whole where only linear facts about it are wanted. */
  ghost function Times(a: real, b: real): real {
    a * b
  }

  lemma Scale(a: real, b: real, c: real)
    requires a <= b && c >= 0.0
    ensures Times(a, c) <= Times(b, c)
    ensures a < b && c > 0.0 ==> Times(a, c) < Times(b, c)
  {
    hide Times;
    Split(a, b, c);
    Positive(b - a, c);
  }

  lemma Split(a: real, b: real, c: real)
    ensures Times(b, c) == Times(a, c) + Times(b - a, c)
  {
  }

  lemma Positive(a: real, b: real)
    requires a >= 0.0 && b >= 0.0
    ensures Times(a, b) >= 0.0
    ensures a > 0.0 && b > 0.0 ==> Times(a, b) > 0.0
  {
  }

  lemma Expand(a: real, b: real, c: real)
    ensures Times(a + 1.0, c) == Times(a, c) + c
    ensures Times(a, b - c) == Times(b, a) - Times(a, c)
    ensures Times(a, b) == Times(b, a)
  {
  }

  lemma Hundredfold(a: real)
    ensures Times(100.0, a) == 100.0 * a
  {
  }

  /** The rate from the truncated interval `f` lies between the wanted rate and a hundredth more. */
  lemma Truncated(rate: real, x: real, f: real, y: real)
    requires rate > 0.0 && 100.0 <= f <= x < f + 1.0
    requires Times(x, rate) == Times(y, f)
    ensures Near(rate, y)
  {
    hide Times;
    Scale(f, x, rate);
    Scale(x, f + 1.0, rate);
    Expand(f, y, rate);
    Expand(f, rate, rate);
    if y < rate {
      Scale(y, rate, f);
    } else {
      Scale(100.0, f, y - rate);
      Hundredfold(y - rate);
    }
  }

  /** Truncation to whole nanoseconds loses less than a hundredth once there are a hundred of them. */
  lemma CloseEnough(rate: real, q: int)
    requires rate > 0.0 && q > 0
    requires 100.0 * rate <= 1_000_000_000.0 * q as real
    ensures var interval := (1_000_000_000.0 * q as real / rate).Floor;
      interval > 0 && Near(rate, Rate(q, interval))
  {
    var n := 1_000_000_000.0 * q as real;
    var x := n / rate;
    assert x * rate == n;
    assert x >= 100.0;
    var f := x.Floor as real;
    var y := n / f;
    assert y * f == n;
    Truncated(rate, x, f, y);
  }

  const DURATION_LIMIT: int := 0x8000_0000_0000_0000

  lemma FewNanoseconds(rate: real, q: int)
    requires rate > 0.0 && 0 < q < QUANTUM_LIMIT
    requires 1_000_000_000.0 < DURATION_LIMIT as real * rate
    requires q == 1 || rate > 10_000_000.0
    ensures (1_000_000_000.0 * q as real / rate).Floor < DURATION_LIMIT
  {
    var n := 1_000_000_000.0 * q as real;
    var x := n / rate;
    assert Times(x, rate) == n;
    if x >= DURATION_LIMIT as real {
      Scale(DURATION_LIMIT as real, x, rate);
    }
  }

  lemma ManyNanoseconds(rate: real, q: int)
    requires rate > 0.0 && q > 0
    requires 1_000_000_000.0 >= DURATION_LIMIT as real * rate
    ensures (1_000_000_000.0 * q as real / rate).Floor >= DURATION_LIMIT
  {
    var n := 1_000_000_000.0 * q as real;
    var x := n / rate;
    assert Times(x, rate) == n;
    if x < DURATION_LIMIT as real {
      Scale(x, DURATION_LIMIT as real, rate);
    }
  }

  /**
   * The search for a quantum: it gives a bucket whose rate is within a
   * hundredth of the one asked for, and finds one for every rate up to ten
   * thousand million million million tokens a second at which the interval of
   * one token fits 63 bits; at slower rates every interval is too long.
   */
  method NewBucketWithRate(rate: real, capacity: int) returns (c: Option<Config>)
    requires rate > 0.0 && capacity > 0
    ensures c.Some? ==> c.value.Good() && c.value.capacity == capacity && c.value.interval < DURATION_LIMIT
    ensures c.Some? ==> Near(rate, Rate(c.value.quantum, c.value.interval))
    ensures rate <= 10_000_000_000_000_000_000_000.0 ==>
      (c.Some? <==> 1_000_000_000.0 < DURATION_LIMIT as real * rate)
  {
    var quantum: int := 1;
    while quantum < QUANTUM_LIMIT
      invariant quantum > 0
      invariant quantum == 1 || 1_000_000_000.0 >= DURATION_LIMIT as real * rate
        || 11.0 * 100.0 * rate > 10.0 * 1_000_000_000.0 * (quantum - 1) as real
      invariant quantum == 1 || 1_000_000_000.0 >= DURATION_LIMIT as real * rate || rate > 10_000_000.0
      decreases QUANTUM_LIMIT - quantum
    {
      var interval := (1_000_000_000.0 * quantum as real / rate).Floor;
      if 1_000_000_000.0 >= DURATION_LIMIT as real * rate {
        ManyNanoseconds(rate, quantum);
      } else {
        FewNanoseconds(rate, quantum);
      }
      if 0 < interval < DURATION_LIMIT && Near(rate, Rate(quantum, interval)) {
        return Some(Config(capacity, quantum, interval));
      }
      if 100.0 * rate <= 1_000_000_000.0 * quantum as real {
        CloseEnough(rate, quantum);
      }
      quantum := NextQuantum(quantum);
    }
    return None;
  }
}
