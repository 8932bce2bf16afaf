/** The per-tenant token bucket: the Lua script that Redis runs atomically, and
    the laws its answers obey over whole call histories.

    Times are milliseconds; token amounts are reals. */
module TokenBucket {

  datatype Config = Config(capacity: real, refillPerSec: real)

  /** What Redis stores under one key; Fresh is a missing (or expired) key. */
  datatype Bucket = Fresh | Saved(tokens: real, ts: int)

  datatype Reply = Reply(allowed: bool, retryAfterSec: int)

  predicate ValidConfig(cfg: Config) {
    cfg.capacity > 0.0 && cfg.refillPerSec > 0.0
  }

  predicate ValidBucket(cfg: Config, b: Bucket) {
    b.Saved? ==> 0.0 <= b.tokens <= cfg.capacity
  }

  function Min(x: real, y: real): real {
    if x <= y then x else y
  }

  /** The least integer that is not below x. */
  function Ceil(x: real): (n: int)
    ensures (n - 1) as real < x <= n as real
  {
    -((-x).Floor)
  }

  function ElapsedSec(ts: int, now: int): real {
    (if now > ts then now - ts else 0) as real / 1000.0
  }

  /** The tokens that flow in between two instants. */
  function Refill(cfg: Config, ts: int, now: int): real {
    ElapsedSec(ts, now) * cfg.refillPerSec
  }

  /** The tokens a call at `now` would find. */
  function Level(cfg: Config, b: Bucket, now: int): real {
    match b
    case Fresh => cfg.capacity
    case Saved(tokens, ts) => Min(cfg.capacity, tokens + Refill(cfg, ts, now))
  }

  function TtlMs(cfg: Config): int
    requires ValidConfig(cfg)
  {
    Ceil(cfg.capacity / cfg.refillPerSec * 1000.0) + 1000
  }

  function Answer(cfg: Config, b: Bucket, now: int, cost: real): Reply
    requires ValidConfig(cfg)
  {
    var level := Level(cfg, b, now);
    if level >= cost then Reply(true, 0)
    else Reply(false, Ceil((cost - level) / cfg.refillPerSec))
  }

  function AfterCall(cfg: Config, b: Bucket, now: int, cost: real): Bucket {
    var level := Level(cfg, b, now);
    Saved(if level >= cost then level - cost else level, now)
  }

  // ----- The stored bucket, as the script updates it -----

  /** One Redis database and the two numbers the limiter is configured with. */
  class RedisTokenBucket {
    const cfg: Config
    var db: map<string, Bucket>

    constructor (capacity: real, refillPerSec: real)
      requires ValidConfig(Config(capacity, refillPerSec))
      ensures cfg == Config(capacity, refillPerSec) && db == map[]
    {
      cfg := Config(capacity, refillPerSec);
      db := map[];
    }

    ghost predicate Valid()
      reads this
    {
      ValidConfig(cfg) && forall k :: k in db ==> ValidBucket(cfg, db[k])
    }

    function Stored(key: string): Bucket
      reads this
    {
      if key in db then db[key] else Fresh
    }

    /** The script: read, refill by elapsed time, spend if possible, write back. */
    method Eval(key: string, now: int, cost: real) returns (reply: Reply)
      requires Valid() && cost >= 0.0
      modifies this
      ensures Valid()
      ensures reply == Answer(cfg, old(Stored(key)), now, cost)
      ensures db == old(db)[key := AfterCall(cfg, old(Stored(key)), now, cost)]
    {
      var tokens, ts := cfg.capacity, now;
      if key in db && db[key].Saved? {
        tokens, ts := db[key].tokens, db[key].ts;
      }
      LevelBounds(cfg, Stored(key), now);
      var elapsed := (if now - ts > 0 then now - ts else 0) as real / 1000.0;
      tokens := Min(cfg.capacity, tokens + elapsed * cfg.refillPerSec);
      assert tokens == Level(cfg, Stored(key), now);
      var allowed, retry := false, 0;
      if tokens >= cost {
        tokens := tokens - cost;
        allowed := true;
      } else {
        retry := Ceil((cost - tokens) / cfg.refillPerSec);
      }
      db := db[key := Saved(tokens, now)];
      reply := Reply(allowed, retry);
    }

    method Consume(key: string, now: int) returns (reply: Reply)
      requires Valid()
      modifies this
      ensures Valid()
      ensures reply == Answer(cfg, old(Stored("ratelimit:" + key)), now, 1.0)
      ensures db == old(db)["ratelimit:" + key := AfterCall(cfg, old(Stored("ratelimit:" + key)), now, 1.0)]
    {
      reply := Eval("ratelimit:" + key, now, 1.0);
    }

    /** Redis drops a key once its time to live has run out. */
    method Expire(key: string, now: int)
      requires Valid()
      requires key in db && MayVanish(cfg, db[key], now)
      modifies this
      ensures Valid() && db == old(db) - {key}
      ensures forall k: string, t: int :: now <= t ==> Level(cfg, Stored(k), t) == Level(cfg, old(Stored(k)), t)
    {
      forall t: int | now <= t ensures Level(cfg, Fresh, t) == Level(cfg, db[key], t) {
        FullAfterTtl(cfg, db[key], t);
      }
      db := db - {key};
    }
  }

  // ----- Arithmetic of refilling -----

  lemma MulMono(a: real, b: real, r: real)
    requires a <= b && r >= 0.0
    ensures a * r <= b * r
  {
  }

  lemma MulStrict(a: real, b: real, r: real)
    requires a < b && r > 0.0
    ensures a * r < b * r
  {
    assert (b - a) * r > 0.0;
    assert (b - a) * r == b * r - a * r;
  }

  lemma RefillSplit(cfg: Config, ts: int, mid: int, now: int)
    requires ValidConfig(cfg) && ts <= mid <= now
    ensures Refill(cfg, ts, mid) + Refill(cfg, mid, now) == Refill(cfg, ts, now)
    ensures Refill(cfg, ts, mid) >= 0.0 && Refill(cfg, mid, now) >= 0.0
  {
    assert ElapsedSec(ts, mid) + ElapsedSec(mid, now) == ElapsedSec(ts, now);
    MulMono(0.0, ElapsedSec(ts, mid), cfg.refillPerSec);
    MulMono(0.0, ElapsedSec(mid, now), cfg.refillPerSec);
  }

  lemma RefillNotNegative(cfg: Config, ts: int, now: int)
    requires ValidConfig(cfg)
    ensures Refill(cfg, ts, now) >= 0.0
  {
    MulMono(0.0, ElapsedSec(ts, now), cfg.refillPerSec);
  }

  /** What an empty bucket has gained between two instants. */
  function Gain(cfg: Config, ts: int, now: int): real {
    Min(cfg.capacity, Refill(cfg, ts, now))
  }

  lemma LevelBounds(cfg: Config, b: Bucket, now: int)
    requires ValidConfig(cfg) && ValidBucket(cfg, b)
    ensures 0.0 <= Level(cfg, b, now) <= cfg.capacity
  {
    if b.Saved? {
      MulMono(0.0, ElapsedSec(b.ts, now), cfg.refillPerSec);
    }
  }

  lemma DivMul(c: real, r: real)
    requires r > 0.0
    ensures c / r * r == c
  {
  }

  lemma TtlIsLongEnough(cfg: Config, ts: int, now: int)
    requires ValidConfig(cfg) && now >= ts + TtlMs(cfg)
    ensures ElapsedSec(ts, now) >= cfg.capacity / cfg.refillPerSec
  {
    var q := cfg.capacity / cfg.refillPerSec;
    assert q >= 0.0;
    assert (now - ts) as real >= q * 1000.0;
  }

  /** A key whose time to live has run out holds a full bucket again. */
  lemma FullAfterTtl(cfg: Config, b: Bucket, now: int)
    requires ValidConfig(cfg) && ValidBucket(cfg, b) && MayVanish(cfg, b, now)
    ensures Level(cfg, b, now) == cfg.capacity
  {
    if b.Saved? {
      var q := cfg.capacity / cfg.refillPerSec;
      DivMul(cfg.capacity, cfg.refillPerSec);
      TtlIsLongEnough(cfg, b.ts, now);
      MulMono(q, ElapsedSec(b.ts, now), cfg.refillPerSec);
    }
  }

  /** The time to live is the time an empty bucket takes to be full again, in whole
      milliseconds, and one second more. */
  lemma TtlIsExact(cfg: Config, ts: int, now: int)
    requires ValidConfig(cfg) && ts <= now
    ensures Level(cfg, Saved(0.0, ts), now) == cfg.capacity <==> now >= ts + TtlMs(cfg) - 1000
  {
    var q := cfg.capacity / cfg.refillPerSec;
    var e := ElapsedSec(ts, now);
    DivMul(cfg.capacity, cfg.refillPerSec);
    RefillIsProduct(cfg, ts, now);
    if e >= q { MulMono(q, e, cfg.refillPerSec); } else { MulStrict(e, q, cfg.refillPerSec); }
    assert e >= q <==> (now - ts) as real >= q * 1000.0;
    hide Refill, ElapsedSec;
  }

  /** Refilling in two steps is refilling in one. */
  lemma RefillInTwoSteps(cfg: Config, b: Bucket, mid: int, now: int)
    requires ValidConfig(cfg) && ValidBucket(cfg, b)
    requires b.Saved? ==> b.ts <= mid
    requires mid <= now
    ensures Level(cfg, Saved(Level(cfg, b, mid), mid), now) == Level(cfg, b, now)
  {
    hide Refill;
    RefillSplit(cfg, mid, mid, now);
    if b.Saved? {
      RefillSplit(cfg, b.ts, mid, now);
    }
  }

  // ----- Histories -----

  datatype Event = Call(now: int, cost: real) | Vanish(now: int)

  ghost predicate MayVanish(cfg: Config, b: Bucket, now: int)
    requires ValidConfig(cfg)
  {
    b.Saved? ==> now >= b.ts + TtlMs(cfg)
  }

  function Step(cfg: Config, b: Bucket, e: Event): Bucket {
    match e
    case Call(now, cost) => AfterCall(cfg, b, now, cost)
    case Vanish(_) => Fresh
  }

  function After(cfg: Config, b: Bucket, h: seq<Event>): Bucket
    decreases h
  {
    if h == [] then b else After(cfg, Step(cfg, b, h[0]), h[1..])
  }

  /** The clock never goes back, costs are not negative, and a key vanishes only after its time to live. */
  ghost predicate Legal(cfg: Config, b: Bucket, h: seq<Event>)
    requires ValidConfig(cfg)
    decreases h
  {
    h != [] ==>
      && (b.Saved? ==> b.ts <= h[0].now)
      && (h[0].Call? ==> h[0].cost >= 0.0)
      && (h[0].Vanish? ==> MayVanish(cfg, b, h[0].now))
      && (|h| > 1 ==> h[0].now <= h[1].now)
      && Legal(cfg, Step(cfg, b, h[0]), h[1..])
  }

  function Spent(cfg: Config, b: Bucket, e: Event): real
    requires ValidConfig(cfg)
  {
    if e.Call? && Answer(cfg, b, e.now, e.cost).allowed then e.cost else 0.0
  }

  /** The cost of the calls of a history that were granted. */
  function Granted(cfg: Config, b: Bucket, h: seq<Event>): real
    requires ValidConfig(cfg)
    decreases h
  {
    if h == [] then 0.0
    else
      Spent(cfg, b, h[0]) + Granted(cfg, Step(cfg, b, h[0]), h[1..])
  }

  lemma StepValid(cfg: Config, b: Bucket, e: Event)
    requires ValidConfig(cfg) && ValidBucket(cfg, b)
    requires e.Call? ==> e.cost >= 0.0
    ensures ValidBucket(cfg, Step(cfg, b, e))
  {
    LevelBounds(cfg, b, e.now);
  }

  lemma {:induction false} LegalAfter(cfg: Config, b: Bucket, h: seq<Event>, i: nat)
    requires ValidConfig(cfg) && ValidBucket(cfg, b) && Legal(cfg, b, h) && i <= |h|
    ensures ValidBucket(cfg, After(cfg, b, h[..i])) && Legal(cfg, After(cfg, b, h[..i]), h[i..])
    decreases i
  {
    hide Level, AfterCall;
    if i == 0 {
      assert h[..0] == [] && h[0..] == h;
    } else {
      StepValid(cfg, b, h[0]);
      LegalAfter(cfg, Step(cfg, b, h[0]), h[1..], i - 1);
      assert h[..i][1..] == h[1..][..i - 1] && h[i..] == h[1..][i - 1..];
    }
  }

  lemma {:induction false} LegalPrefix(cfg: Config, b: Bucket, h: seq<Event>, n: nat)
    requires ValidConfig(cfg) && Legal(cfg, b, h) && n <= |h|
    ensures Legal(cfg, b, h[..n])
    decreases n
  {
    if n > 0 {
      LegalPrefix(cfg, Step(cfg, b, h[0]), h[1..], n - 1);
      assert h[..n][1..] == h[1..][..n - 1];
    }
  }

  /** One event spends what leaves the bucket; waiting adds at most the refill. */
  lemma StepIsPaidFor(cfg: Config, b: Bucket, e: Event, next: int)
    requires ValidConfig(cfg) && ValidBucket(cfg, b)
    requires e.Vanish? ==> MayVanish(cfg, b, e.now)
    requires e.Call? ==> e.cost >= 0.0
    ensures Spent(cfg, b, e) + Level(cfg, Step(cfg, b, e), next) <= Level(cfg, b, e.now) + Gain(cfg, e.now, next)
  {
    RefillNotNegative(cfg, e.now, next);
    if e.Vanish? {
      FullAfterTtl(cfg, b, e.now);
    }
    hide Refill;
  }

  /** Like Legal, but the clock may do what it likes. */
  ghost predicate Lawful(cfg: Config, b: Bucket, h: seq<Event>)
    requires ValidConfig(cfg)
    decreases h
  {
    h != [] ==>
      && (h[0].Call? ==> h[0].cost >= 0.0)
      && (h[0].Vanish? ==> MayVanish(cfg, b, h[0].now))
      && Lawful(cfg, Step(cfg, b, h[0]), h[1..])
  }

  function Times(h: seq<Event>): seq<int> {
    if h == [] then [] else [h[0].now] + Times(h[1..])
  }

  /** The milliseconds by which a clock moves forward, all forward moves added up. */
  function ForwardMs(times: seq<int>): nat {
    if |times| < 2 then 0
    else (if times[1] > times[0] then times[1] - times[0] else 0) + ForwardMs(times[1..])
  }

  /** The tokens that flow in while the clock moves forward. */
  function Forward(cfg: Config, times: seq<int>): real {
    ForwardMs(times) as real / 1000.0 * cfg.refillPerSec
  }

  lemma ForwardStep(cfg: Config, times: seq<int>)
    requires |times| >= 2
    ensures Forward(cfg, times) == Refill(cfg, times[0], times[1]) + Forward(cfg, times[1..])
  {
    var a, b := ElapsedSec(times[0], times[1]), ForwardMs(times[1..]) as real / 1000.0;
    assert ForwardMs(times) as real / 1000.0 == a + b;
    assert (a + b) * cfg.refillPerSec == a * cfg.refillPerSec + b * cfg.refillPerSec;
  }

  lemma ForwardOfOne(cfg: Config, times: seq<int>)
    requires |times| <= 1
    ensures Forward(cfg, times) == 0.0
  {
    assert 0.0 * cfg.refillPerSec == 0.0;
  }

  /** The gains from call to call, added up. */
  function Inflow(cfg: Config, times: seq<int>): real {
    if |times| < 2 then 0.0 else Gain(cfg, times[0], times[1]) + Inflow(cfg, times[1..])
  }

  /** Whatever the clock does, what is granted is paid for by the tokens present at the
      start and the gains from event to event. */
  lemma {:induction false} GrantedIsPaidByInflow(cfg: Config, b: Bucket, h: seq<Event>)
    requires ValidConfig(cfg) && ValidBucket(cfg, b) && Lawful(cfg, b, h) && h != []
    ensures Granted(cfg, b, h) <= Level(cfg, b, h[0].now) + Inflow(cfg, Times(h))
    decreases h
  {
    hide Level, Refill, AfterCall, Answer, MayVanish, Gain;
    var now, b' := h[0].now, Step(cfg, b, h[0]);
    StepValid(cfg, b, h[0]);
    assert Times(h)[1..] == Times(h[1..]);
    if |h| == 1 {
      StepIsPaidFor(cfg, b, h[0], now);
      LevelBounds(cfg, b', now);
      NoGain(cfg, now);
      assert Granted(cfg, b', h[1..]) == 0.0;
    } else {
      StepIsPaidFor(cfg, b, h[0], h[1].now);
      GrantedIsPaidByInflow(cfg, b', h[1..]);
    }
  }

  lemma NoGain(cfg: Config, now: int)
    requires ValidConfig(cfg)
    ensures Gain(cfg, now, now) == 0.0
  {
    assert 0.0 * cfg.refillPerSec == 0.0;
  }

  lemma {:induction false} InflowIsForward(cfg: Config, times: seq<int>)
    requires ValidConfig(cfg)
    ensures 0.0 <= Inflow(cfg, times) <= Forward(cfg, times)
    ensures Forward(cfg, times) <= cfg.capacity ==> Inflow(cfg, times) == Forward(cfg, times)
    decreases times
  {
    hide Refill, Forward;
    if |times| < 2 {
      ForwardOfOne(cfg, times);
    } else {
      ForwardStep(cfg, times);
      RefillNotNegative(cfg, times[0], times[1]);
      InflowIsForward(cfg, times[1..]);
    }
  }

  /** So it is paid for by the tokens at the start and those that flow in while the clock
      moves forward. */
  lemma GrantedIsPaidForward(cfg: Config, b: Bucket, h: seq<Event>)
    requires ValidConfig(cfg) && ValidBucket(cfg, b) && Lawful(cfg, b, h) && h != []
    ensures Granted(cfg, b, h) <= Level(cfg, b, h[0].now) + Forward(cfg, Times(h))
  {
    hide Level, Granted, Inflow, Forward, Lawful, Times;
    GrantedIsPaidByInflow(cfg, b, h);
    InflowIsForward(cfg, Times(h));
  }

  lemma {:induction false} LegalIsLawful(cfg: Config, b: Bucket, h: seq<Event>)
    requires ValidConfig(cfg) && Legal(cfg, b, h)
    ensures Lawful(cfg, b, h) && NonDecreasing(Times(h))
    decreases h
  {
    hide MayVanish, Step;
    if h != [] {
      LegalIsLawful(cfg, Step(cfg, b, h[0]), h[1..]);
      assert Times(h)[1..] == Times(h[1..]);
      if |h| > 1 { NonDecreasingCons(h[0].now, Times(h[1..])); }
    }
  }

  lemma NonDecreasingCons(t: int, times: seq<int>)
    requires NonDecreasing(times) && times != [] && t <= times[0]
    ensures NonDecreasing([t] + times)
  {
  }

  /** What is granted is paid for by the tokens present at the start and the refill since. */
  lemma GrantedIsPaidFor(cfg: Config, b: Bucket, h: seq<Event>)
    requires ValidConfig(cfg) && ValidBucket(cfg, b) && Legal(cfg, b, h) && h != []
    ensures Granted(cfg, b, h) <= Level(cfg, b, h[0].now) + Refill(cfg, h[0].now, h[|h| - 1].now)
  {
    hide Level, Refill, Granted, Legal, Lawful, Forward;
    LegalIsLawful(cfg, b, h);
    GrantedIsPaidForward(cfg, b, h);
    TimesAre(h);
    ForwardWhenMonotone(cfg, Times(h));
  }

  lemma {:induction false} TimesAre(h: seq<Event>)
    ensures |Times(h)| == |h| && forall k :: 0 <= k < |h| ==> Times(h)[k] == h[k].now
    decreases h
  {
    if h != [] { TimesAre(h[1..]); }
  }

  lemma {:induction false} LegalTimes(cfg: Config, b: Bucket, h: seq<Event>)
    requires ValidConfig(cfg) && Legal(cfg, b, h) && h != []
    ensures h[0].now <= h[|h| - 1].now
    decreases h
  {
    if |h| > 1 {
      LegalTimes(cfg, Step(cfg, b, h[0]), h[1..]);
    }
  }

  /** Rate bound: between any two events of any history the grants are at most
      the capacity plus the refill for the time between them. */
  lemma RateBound(cfg: Config, h: seq<Event>, i: nat, j: nat)
    requires ValidConfig(cfg) && Legal(cfg, Fresh, h) && i < j <= |h|
    ensures Granted(cfg, After(cfg, Fresh, h[..i]), h[i..j])
            <= cfg.capacity + Refill(cfg, h[i].now, h[j - 1].now)
  {
    hide Level, Refill, AfterCall, Answer, MayVanish;
    LegalAfter(cfg, Fresh, h, i);
    var b := After(cfg, Fresh, h[..i]);
    LegalPrefix(cfg, b, h[i..], j - i);
    assert h[i..][..j - i] == h[i..j];
    GrantedIsPaidFor(cfg, b, h[i..j]);
    LevelBounds(cfg, b, h[i].now);
  }

  // ----- Exactly which clocks keep the bound -----

  ghost predicate NonDecreasing(times: seq<int>) {
    forall i, j :: 0 <= i < j < |times| ==> times[i] <= times[j]
  }

  ghost predicate NonIncreasing(times: seq<int>) {
    forall i, j :: 0 <= i < j < |times| ==> times[i] >= times[j]
  }

  /** Calls at the given times with the given costs. */
  function Calls(times: seq<int>, costs: seq<real>): (h: seq<Event>)
    requires |times| == |costs|
    ensures |h| == |times| && forall k :: 0 <= k < |h| ==> h[k] == Call(times[k], costs[k])
  {
    if times == [] then [] else [Call(times[0], costs[0])] + Calls(times[1..], costs[1..])
  }

  ghost predicate NotNegative(costs: seq<real>) {
    forall k :: 0 <= k < |costs| ==> costs[k] >= 0.0
  }

  /** The bound holds for the window of calls [i, j) of the history. */
  ghost predicate Bounded(cfg: Config, h: seq<Event>, i: nat, j: nat)
    requires ValidConfig(cfg) && i < j <= |h|
  {
    Granted(cfg, After(cfg, Fresh, h[..i]), h[i..j]) <= cfg.capacity + Refill(cfg, h[i].now, h[j - 1].now)
  }

  /** Under this configuration the bound holds for calls at these times, for all costs
      and in every window. */
  ghost predicate BoundHolds(cfg: Config, times: seq<int>)
    requires ValidConfig(cfg)
  {
    forall costs, i: nat, j: nat ::
      |costs| == |times| && NotNegative(costs) && i < j <= |times| ==> Bounded(cfg, Calls(times, costs), i, j)
  }

  /** In no window the gains from call to call exceed the refill for the whole time. */
  ghost predicate InflowFits(cfg: Config, times: seq<int>) {
    forall i: nat, j: nat :: i < j <= |times| ==> WindowFits(cfg, times, i, j)
  }

  predicate WindowFits(cfg: Config, times: seq<int>, i: nat, j: nat)
    requires i < j <= |times|
  {
    Inflow(cfg, times[i..j]) <= Refill(cfg, times[i], times[j - 1])
  }

  lemma {:induction false} ForwardMsWhenMonotone(times: seq<int>)
    requires times != []
    ensures NonDecreasing(times) ==> ForwardMs(times) == times[|times| - 1] - times[0]
    ensures NonIncreasing(times) ==> ForwardMs(times) == 0 && times[|times| - 1] <= times[0]
    decreases times
  {
    if |times| > 1 {
      var rest := times[1..];
      ForwardMsWhenMonotone(rest);
      assert forall i :: 0 <= i < |rest| ==> rest[i] == times[i + 1];
    }
  }

  /** A clock that only goes one way refills once. */
  lemma ForwardWhenMonotone(cfg: Config, times: seq<int>)
    requires times != [] && (NonDecreasing(times) || NonIncreasing(times))
    ensures Forward(cfg, times) == Refill(cfg, times[0], times[|times| - 1])
  {
    ForwardMsWhenMonotone(times);
  }

  lemma {:induction false} CallsKeep(cfg: Config, b: Bucket, h: seq<Event>)
    requires ValidConfig(cfg) && ValidBucket(cfg, b) && forall k :: 0 <= k < |h| ==> h[k].Call? && h[k].cost >= 0.0
    ensures Lawful(cfg, b, h) && ValidBucket(cfg, After(cfg, b, h))
    decreases h
  {
    hide AfterCall;
    if h != [] {
      StepValid(cfg, b, h[0]);
      CallsKeep(cfg, Step(cfg, b, h[0]), h[1..]);
    }
  }

  lemma FittingWindowIsBounded(cfg: Config, times: seq<int>, costs: seq<real>, i: nat, j: nat)
    requires ValidConfig(cfg) && |costs| == |times| && NotNegative(costs) && i < j <= |times|
    requires WindowFits(cfg, times, i, j)
    ensures Bounded(cfg, Calls(times, costs), i, j)
  {
    hide Level, Refill, Granted, Lawful, Inflow, After, Calls;
    var h := Calls(times, costs);
    var b, window := After(cfg, Fresh, h[..i]), h[i..j];
    CallsKeep(cfg, Fresh, h[..i]);
    CallsKeep(cfg, b, window);
    GrantedIsPaidByInflow(cfg, b, window);
    LevelBounds(cfg, b, h[i].now);
    TimesAre(window);
    assert Times(window) == times[i..j];
  }

  lemma WindowMonotone(times: seq<int>, i: nat, j: nat)
    requires i < j <= |times|
    ensures NonDecreasing(times) ==> NonDecreasing(times[i..j])
    ensures NonIncreasing(times) ==> NonIncreasing(times[i..j])
  {
  }

  /** Costs that take everything, call after call, once the bucket is empty. */
  function Draining(cfg: Config, last: int, times: seq<int>): (costs: seq<real>)
    ensures |costs| == |times|
    decreases times
  {
    if times == [] then [] else [Gain(cfg, last, times[0])] + Draining(cfg, times[0], times[1..])
  }

  lemma {:induction false} DrainingTakesAll(cfg: Config, last: int, times: seq<int>)
    requires ValidConfig(cfg)
    ensures NotNegative(Draining(cfg, last, times))
    ensures Granted(cfg, Saved(0.0, last), Calls(times, Draining(cfg, last, times))) == Inflow(cfg, [last] + times)
    decreases times
  {
    hide Refill;
    if times != [] {
      var costs := Draining(cfg, last, times);
      var h, rest := Calls(times, costs), Draining(cfg, times[0], times[1..]);
      assert ([last] + times)[1..] == times == [times[0]] + times[1..];
      RefillNotNegative(cfg, last, times[0]);
      DrainingTakesAll(cfg, times[0], times[1..]);
      assert costs[1..] == rest && h[1..] == Calls(times[1..], rest);
      TakesTheGain(cfg, last, times[0]);
      hide Gain, Spent, Step;
      forall k | 0 <= k < |costs| ensures costs[k] >= 0.0 {
        if k > 0 { assert costs[k] == rest[k - 1]; }
      }
    }
  }

  lemma TakesTheGain(cfg: Config, last: int, now: int)
    requires ValidConfig(cfg)
    ensures Gain(cfg, last, now) >= 0.0
    ensures Spent(cfg, Saved(0.0, last), Call(now, Gain(cfg, last, now))) == Gain(cfg, last, now)
    ensures Step(cfg, Saved(0.0, last), Call(now, Gain(cfg, last, now))) == Saved(0.0, now)
  {
    RefillNotNegative(cfg, last, now);
    hide Refill;
  }

  /** Draining a full bucket takes its capacity and every gain afterwards. */
  lemma DrainingFromFull(cfg: Config, b: Bucket, times: seq<int>)
    requires ValidConfig(cfg) && times != [] && Level(cfg, b, times[0]) == cfg.capacity
    ensures var costs := [cfg.capacity] + Draining(cfg, times[0], times[1..]);
            NotNegative(costs) && Granted(cfg, b, Calls(times, costs)) == cfg.capacity + Inflow(cfg, times)
  {
    hide Level, Inflow;
    var rest := Draining(cfg, times[0], times[1..]);
    var costs := [cfg.capacity] + rest;
    var h := Calls(times, costs);
    assert times == [times[0]] + times[1..];
    DrainingTakesAll(cfg, times[0], times[1..]);
    assert costs[1..] == rest;
    assert h[1..] == Calls(times[1..], rest);
  }

  function Nothing(n: nat): (costs: seq<real>)
    ensures |costs| == n && forall k :: 0 <= k < n ==> costs[k] == 0.0
  {
    if n == 0 then [] else [0.0] + Nothing(n - 1)
  }

  ghost predicate Full(cfg: Config, b: Bucket) {
    b.Saved? ==> b.tokens == cfg.capacity
  }

  /** Calls that cost nothing leave a full bucket full. */
  lemma {:induction false} FreeCallsKeepItFull(cfg: Config, b: Bucket, h: seq<Event>)
    requires ValidConfig(cfg) && Full(cfg, b) && forall k :: 0 <= k < |h| ==> h[k].Call? && h[k].cost == 0.0
    ensures Full(cfg, After(cfg, b, h))
    decreases h
  {
    if h != [] {
      FullLevel(cfg, b, h[0].now);
      FreeCallsKeepItFull(cfg, Step(cfg, b, h[0]), h[1..]);
    }
  }

  lemma FullLevel(cfg: Config, b: Bucket, now: int)
    requires ValidConfig(cfg) && Full(cfg, b)
    ensures Level(cfg, b, now) == cfg.capacity
  {
    if b.Saved? { RefillNotNegative(cfg, b.ts, now); }
    hide Refill;
  }

  /** Free calls up to the window, then draining: the window's gains are all granted. */
  lemma UnfitWindowBreaksTheBound(cfg: Config, times: seq<int>, i: nat, j: nat)
    requires ValidConfig(cfg) && i < j <= |times| && !WindowFits(cfg, times, i, j)
    ensures !BoundHolds(cfg, times)
  {
    hide Inflow, Level, Granted, After, Calls, Draining, Full, Refill;
    var window := times[i..j];
    var greedy := [cfg.capacity] + Draining(cfg, window[0], window[1..]);
    var costs := Nothing(i) + greedy + Nothing(|times| - j);
    var h := Calls(times, costs);
    assert Full(cfg, Fresh) by { FreshIsFull(cfg); }
    FreeCallsKeepItFull(cfg, Fresh, h[..i]);
    var b := After(cfg, Fresh, h[..i]);
    FullLevel(cfg, b, window[0]);
    DrainingFromFull(cfg, b, window);
    assert h[i..j] == Calls(window, greedy);
    forall k | 0 <= k < |costs| ensures costs[k] >= 0.0 {
      if i <= k < j { assert costs[k] == greedy[k - i]; }
    }
    assert !Bounded(cfg, h, i, j);
  }

  lemma FreshIsFull(cfg: Config)
    ensures Full(cfg, Fresh)
  {
  }

  /** Under a given configuration the rate bound holds for calls at these times, for all
      costs and in every window, if and only if in every window the gains from call to
      call are at most the refill for the whole time. */
  lemma BoundIffInflowFits(cfg: Config, times: seq<int>)
    requires ValidConfig(cfg)
    ensures BoundHolds(cfg, times) <==> InflowFits(cfg, times)
  {
    hide Bounded, WindowFits;
    if InflowFits(cfg, times) {
      forall costs, i: nat, j: nat | |costs| == |times| && NotNegative(costs) && i < j <= |times|
        ensures Bounded(cfg, Calls(times, costs), i, j)
      {
        FittingWindowIsBounded(cfg, times, costs, i, j);
      }
    } else {
      var i: nat, j: nat :| i < j <= |times| && !WindowFits(cfg, times, i, j);
      UnfitWindowBreaksTheBound(cfg, times, i, j);
    }
  }

  /** A clock that moves both ways has moved forward by more than it has got. */
  lemma {:induction false} BothWays(times: seq<int>)
    requires times != []
    ensures ForwardMs(times) >= times[|times| - 1] - times[0]
    ensures !NonDecreasing(times) ==> ForwardMs(times) > times[|times| - 1] - times[0]
    ensures !NonIncreasing(times) ==> ForwardMs(times) > 0
    decreases times
  {
    if |times| > 1 {
      var rest := times[1..];
      BothWays(rest);
      if times[0] <= times[1] && NonDecreasing(rest) { NonDecreasingCons(times[0], rest); assert [times[0]] + rest == times; }
      if times[0] >= times[1] && NonIncreasing(rest) { NonIncreasingCons(times[0], rest); assert [times[0]] + rest == times; }
    }
  }

  lemma NonIncreasingCons(t: int, times: seq<int>)
    requires NonIncreasing(times) && times != [] && t >= times[0]
    ensures NonIncreasing([t] + times)
  {
  }

  lemma MonotoneTimesFit(cfg: Config, times: seq<int>)
    requires ValidConfig(cfg) && (NonDecreasing(times) || NonIncreasing(times))
    ensures InflowFits(cfg, times)
  {
    hide Inflow, Forward, Refill, NonDecreasing, NonIncreasing;
    forall i: nat, j: nat | i < j <= |times| ensures WindowFits(cfg, times, i, j) {
      WindowMonotone(times, i, j);
      ForwardWhenMonotone(cfg, times[i..j]);
      InflowIsForward(cfg, times[i..j]);
    }
  }

  /** One token a second, and room for all that flows in. */
  lemma TimesBothWaysDoNotFit(times: seq<int>) returns (cfg: Config)
    requires !NonDecreasing(times) && !NonIncreasing(times)
    ensures ValidConfig(cfg) && !InflowFits(cfg, times)
  {
    cfg := Config(ForwardMs(times) as real / 1000.0 + 1.0, 1.0);
    BothWays(times);
    assert Forward(cfg, times) == ForwardMs(times) as real / 1000.0;
    UnitRefill(cfg, times[0], times[|times| - 1]);
    InflowIsForward(cfg, times);
    hide Forward, Refill, Inflow;
    assert times[0..|times|] == times;
    assert !WindowFits(cfg, times, 0, |times|);
  }

  lemma UnitRefill(cfg: Config, ts: int, now: int)
    requires cfg.refillPerSec == 1.0
    ensures Refill(cfg, ts, now) == ElapsedSec(ts, now)
  {
  }

  /** The rate bound holds under every configuration if and only if the clock that the
      calls read only ever moves one way. */
  lemma BoundIffTheClockIsMonotone(times: seq<int>)
    ensures (forall cfg :: ValidConfig(cfg) ==> BoundHolds(cfg, times)) <==> NonDecreasing(times) || NonIncreasing(times)
  {
    hide BoundHolds, InflowFits;
    if NonDecreasing(times) || NonIncreasing(times) {
      forall cfg | ValidConfig(cfg) ensures BoundHolds(cfg, times) {
        MonotoneTimesFit(cfg, times);
        BoundIffInflowFits(cfg, times);
      }
    } else {
      var cfg := TimesBothWaysDoNotFit(times);
      BoundIffInflowFits(cfg, times);
    }
  }

  /** Under every configuration: from a full bucket, a move forward that is taken back
      is enough to break the bound. */
  lemma GoingBackBreaksEveryConfiguration(cfg: Config, s: int, t: int, u: int)
    requires ValidConfig(cfg) && u <= s < t
    ensures var gain := Gain(cfg, s, t);
            var h := [Call(s, cfg.capacity), Call(t, gain), Call(u, 0.0)];
            Granted(cfg, Fresh, h) > cfg.capacity + Refill(cfg, s, u)
  {
    MulStrict(0.0, ElapsedSec(s, t), cfg.refillPerSec);
    assert Refill(cfg, s, u) == 0.0 by { assert 0.0 * cfg.refillPerSec == 0.0; }
    RefillNotNegative(cfg, t, u);
    hide Refill;
    var gain := Gain(cfg, s, t);
    var h := [Call(s, cfg.capacity), Call(t, gain), Call(u, 0.0)];
    assert h[1..] == [Call(t, gain), Call(u, 0.0)] && h[1..][1..] == [Call(u, 0.0)] && h[1..][1..][1..] == [];
    var b1, b2 := Saved(0.0, s), Saved(0.0, t);
    assert Step(cfg, Fresh, h[0]) == b1 && Spent(cfg, Fresh, h[0]) == cfg.capacity;
    assert Step(cfg, b1, h[1]) == b2 && Spent(cfg, b1, h[1]) == gain;
    assert Spent(cfg, b2, h[2]) == 0.0;
    assert Granted(cfg, b2, [Call(u, 0.0)]) == 0.0 + Granted(cfg, Step(cfg, b2, h[2]), []);
    assert Granted(cfg, b1, h[1..]) == gain + Granted(cfg, b2, [Call(u, 0.0)]);
  }

  // ----- Dropping denied calls, and keys that vanish -----

  datatype Answered = Answered(reply: Reply) | NoReply

  function Outcomes(cfg: Config, b: Bucket, h: seq<Event>): (r: seq<Answered>)
    requires ValidConfig(cfg)
    ensures |r| == |h|
    ensures forall k :: 0 <= k < |h| && h[k].Call? ==> r[k].Answered?
    decreases h
  {
    if h == [] then []
    else
      [if h[0].Call? then Answered(Answer(cfg, b, h[0].now, h[0].cost)) else NoReply]
      + Outcomes(cfg, Step(cfg, b, h[0]), h[1..])
  }

  /** The elements of s whose flag is not set. */
  function Without<T>(s: seq<T>, drop: seq<bool>): seq<T>
    requires |s| == |drop|
  {
    if s == [] then []
    else (if drop[0] then [] else [s[0]]) + Without(s[1..], drop[1..])
  }

  /** Dropped are only denied calls and vanishing keys. */
  ghost predicate Droppable(cfg: Config, b: Bucket, h: seq<Event>, drop: seq<bool>)
    requires ValidConfig(cfg) && |h| == |drop|
  {
    forall k :: 0 <= k < |h| && drop[k] ==>
      h[k].Vanish? || !Outcomes(cfg, b, h)[k].reply.allowed
  }

  /** From `from` on the two buckets cannot be told apart. */
  ghost predicate SameLevels(cfg: Config, b: Bucket, c: Bucket, from: int) {
    forall t: int :: from <= t ==> Level(cfg, b, t) == Level(cfg, c, t)
  }

  /** A dropped event leaves the level at every later time what it was. */
  lemma DroppedLevel(cfg: Config, b: Bucket, e: Event, t: int)
    requires ValidConfig(cfg) && ValidBucket(cfg, b)
    requires (b.Saved? ==> b.ts <= e.now) && e.now <= t
    requires e.Vanish? ==> MayVanish(cfg, b, e.now)
    requires e.Call? ==> !Answer(cfg, b, e.now, e.cost).allowed
    ensures Level(cfg, Step(cfg, b, e), t) == Level(cfg, b, t)
  {
    if e.Call? {
      RefillInTwoSteps(cfg, b, e.now, t);
    } else {
      FullAfterTtl(cfg, b, t);
    }
    hide Refill;
  }

  /** A call sees nothing of the bucket but its level. */
  lemma CallSeesTheLevel(cfg: Config, b: Bucket, c: Bucket, now: int, cost: real)
    requires ValidConfig(cfg) && Level(cfg, b, now) == Level(cfg, c, now)
    ensures Answer(cfg, b, now, cost) == Answer(cfg, c, now, cost)
    ensures AfterCall(cfg, b, now, cost) == AfterCall(cfg, c, now, cost)
  {
    hide Level;
  }

  /** Denied calls and expired keys leave no trace: without any of them, every
      other call of the history gets the same reply. */
  lemma {:induction false} DroppedCallsAreInvisible(cfg: Config, b: Bucket, c: Bucket, h: seq<Event>, drop: seq<bool>)
    requires ValidConfig(cfg) && |h| == |drop|
    requires ValidBucket(cfg, b) && ValidBucket(cfg, c)
    requires Legal(cfg, b, h) && Droppable(cfg, b, h, drop)
    requires h != [] ==> SameLevels(cfg, b, c, h[0].now)
    ensures Outcomes(cfg, c, Without(h, drop)) == Without(Outcomes(cfg, b, h), drop)
    decreases h
  {
    hide Level, Answer, AfterCall, MayVanish;
    if h != [] {
      var now, b' := h[0].now, Step(cfg, b, h[0]);
      var c' := if drop[0] then c else Step(cfg, c, h[0]);
      var o := Outcomes(cfg, b, h);
      StepValid(cfg, b, h[0]);
      StepValid(cfg, c, h[0]);
      assert o[1..] == Outcomes(cfg, b', h[1..]);
      forall k | 0 <= k < |h[1..]| && drop[1..][k]
        ensures h[1..][k].Vanish? || !o[1..][k].reply.allowed
      {
        assert drop[k + 1] && h[1..][k] == h[k + 1] && o[1..][k] == o[k + 1];
      }
      if h[0].Call? && !drop[0] {
        CallSeesTheLevel(cfg, b, c, now, h[0].cost);
      }
      forall t: int | now <= t ensures Level(cfg, b', t) == Level(cfg, c', t) {
        if drop[0] {
          assert o[0] == if h[0].Call? then Answered(Answer(cfg, b, now, h[0].cost)) else NoReply;
          DroppedLevel(cfg, b, h[0], t);
        }
      }
      DroppedCallsAreInvisible(cfg, b', c', h[1..], drop[1..]);
      assert Without(h, drop) == (if drop[0] then [] else [h[0]]) + Without(h[1..], drop[1..]);
      assert Without(o, drop) == (if drop[0] then [] else [o[0]]) + Without(o[1..], drop[1..]);
      if !drop[0] {
        var w := Without(h, drop);
        assert w[1..] == Without(h[1..], drop[1..]);
        assert Outcomes(cfg, c, w) == [o[0]] + Outcomes(cfg, c', w[1..]);
      } else {
        assert Without(h, drop) == Without(h[1..], drop[1..]);
        assert Without(o, drop) == Without(o[1..], drop[1..]);
      }
    }
  }

  /** Expiry is invisible: a key that may vanish whenever its time to live has run
      out gives every call the reply it gets from a key that never expires. */
  lemma ExpiryIsInvisible(cfg: Config, h: seq<Event>)
    requires ValidConfig(cfg) && Legal(cfg, Fresh, h)
    ensures var drop := seq(|h|, k requires 0 <= k < |h| => h[k].Vanish?);
            && (forall e :: e in Without(h, drop) ==> e.Call?)
            && Outcomes(cfg, Fresh, Without(h, drop)) == Without(Outcomes(cfg, Fresh, h), drop)
  {
    var drop := seq(|h|, k requires 0 <= k < |h| => h[k].Vanish?);
    DroppedCallsAreInvisible(cfg, Fresh, Fresh, h, drop);
    OnlyCallsRemain(h, drop);
  }

  lemma {:induction false} OnlyCallsRemain(h: seq<Event>, drop: seq<bool>)
    requires |h| == |drop| && forall k :: 0 <= k < |h| && h[k].Vanish? ==> drop[k]
    ensures forall e :: e in Without(h, drop) ==> e.Call?
  {
    if h != [] {
      assert forall k :: 0 <= k < |h[1..]| ==> h[1..][k] == h[k + 1] && drop[1..][k] == drop[k + 1];
      OnlyCallsRemain(h[1..], drop[1..]);
    }
  }

  // ----- Exactly which calls are granted -----

  /** What one event and the wait for the next make of the level. */
  lemma StepExact(cfg: Config, b: Bucket, e: Event, next: int)
    requires ValidConfig(cfg) && ValidBucket(cfg, b)
    requires e.Vanish? ==> MayVanish(cfg, b, e.now)
    ensures Level(cfg, Step(cfg, b, e), next) == Min(cfg.capacity, Level(cfg, b, e.now) - Spent(cfg, b, e) + Refill(cfg, e.now, next))
  {
    RefillNotNegative(cfg, e.now, next);
    if e.Vanish? { FullAfterTtl(cfg, b, e.now); }
    hide Refill;
  }

  /** What the capacity, or a level, at the first of the times would have become. */
  function Left(cfg: Config, level: real, b: Bucket, h: seq<Event>, e: Event): real
    requires ValidConfig(cfg)
  {
    level + Forward(cfg, Times(h + [e])) - Granted(cfg, b, h)
  }

  lemma LeftOfNone(cfg: Config, level: real, b: Bucket, e: Event)
    requires ValidConfig(cfg)
    ensures Left(cfg, level, b, [], e) == level
  {
    assert [] + [e] == [e];
    TimesAre([e]);
    ForwardOfOne(cfg, Times([e]));
  }

  lemma LeftStep(cfg: Config, level: real, b: Bucket, h: seq<Event>, e: Event)
    requires ValidConfig(cfg) && h != []
    ensures Left(cfg, level, b, h, e)
            == Left(cfg, level - Spent(cfg, b, h[0]) + Refill(cfg, h[0].now, (h[1..] + [e])[0].now), Step(cfg, b, h[0]), h[1..], e)
  {
    hide Spent, Step, Refill, Forward;
    var all := h + [e];
    assert all[1..] == h[1..] + [e];
    TimesAre(all);
    TimesAre(all[1..]);
    assert Times(all)[1..] == Times(all[1..]);
    ForwardStep(cfg, Times(all));
  }

  /** At most what the level at the start, the refill and the grants leave. */
  lemma {:induction false} LevelAtMost(cfg: Config, b: Bucket, h: seq<Event>, e: Event)
    requires ValidConfig(cfg) && ValidBucket(cfg, b) && Lawful(cfg, b, h)
    ensures Level(cfg, After(cfg, b, h), e.now) <= Left(cfg, Level(cfg, b, (h + [e])[0].now), b, h, e)
    decreases h
  {
    hide Level, Spent, Refill, AfterCall, Left, MayVanish;
    if h == [] {
      LeftOfNone(cfg, Level(cfg, b, e.now), b, e);
    } else {
      var next := (h[1..] + [e])[0].now;
      StepValid(cfg, b, h[0]);
      LevelAtMost(cfg, Step(cfg, b, h[0]), h[1..], e);
      StepExact(cfg, b, h[0], next);
      LeftStep(cfg, Level(cfg, b, h[0].now), b, h, e);
      LeftGrows(cfg, Level(cfg, Step(cfg, b, h[0]), next), Level(cfg, b, h[0].now) - Spent(cfg, b, h[0]) + Refill(cfg, h[0].now, next),
                Step(cfg, b, h[0]), h[1..], e);
    }
  }

  lemma LeftGrows(cfg: Config, low: real, high: real, b: Bucket, h: seq<Event>, e: Event)
    requires ValidConfig(cfg) && low <= high
    ensures Left(cfg, low, b, h, e) <= Left(cfg, high, b, h, e)
  {
  }

  /** And exactly what the level at the start leaves, or what a full bucket at some event leaves. */
  lemma {:induction false} LevelIsReached(cfg: Config, b: Bucket, h: seq<Event>, e: Event) returns (i: nat)
    requires ValidConfig(cfg) && ValidBucket(cfg, b) && Lawful(cfg, b, h)
    ensures i <= |h|
    ensures || Level(cfg, After(cfg, b, h), e.now) == Left(cfg, Level(cfg, b, (h + [e])[0].now), b, h, e)
            || Level(cfg, After(cfg, b, h), e.now) == Left(cfg, cfg.capacity, After(cfg, b, h[..i]), h[i..], e)
    decreases h
  {
    hide Level, Spent, Refill, AfterCall, Left, MayVanish;
    i := 0;
    if h == [] {
      LeftOfNone(cfg, Level(cfg, b, e.now), b, e);
    } else {
      var b', rest := Step(cfg, b, h[0]), h[1..];
      StepValid(cfg, b, h[0]);
      var j := LevelIsReached(cfg, b', rest, e);
      StepExact(cfg, b, h[0], (rest + [e])[0].now);
      LeftStep(cfg, Level(cfg, b, h[0].now), b, h, e);
      var level := Level(cfg, After(cfg, b', rest), e.now);
      if level == Left(cfg, cfg.capacity, After(cfg, b', rest[..j]), rest[j..], e) {
        AfterFirst(cfg, b, h, j);
        i := j + 1;
      } else if Level(cfg, b', (rest + [e])[0].now) == cfg.capacity {
        AfterFirst(cfg, b, h, 0);
        assert rest[0..] == rest;
        i := 1;
      }
    }
  }

  lemma AfterFirst(cfg: Config, b: Bucket, h: seq<Event>, j: nat)
    requires j < |h|
    ensures After(cfg, b, h[..j + 1]) == After(cfg, Step(cfg, b, h[0]), h[1..][..j]) && h[j + 1..] == h[1..][j..]
    ensures After(cfg, Step(cfg, b, h[0]), h[1..][..0]) == Step(cfg, b, h[0])
  {
    hide Step;
    assert h[..j + 1][1..] == h[1..][..j];
    assert h[1..][..0] == [];
  }

  lemma {:induction false} LawfulAfter(cfg: Config, b: Bucket, h: seq<Event>, i: nat)
    requires ValidConfig(cfg) && ValidBucket(cfg, b) && Lawful(cfg, b, h) && i <= |h|
    ensures ValidBucket(cfg, After(cfg, b, h[..i])) && Lawful(cfg, b, h[..i]) && Lawful(cfg, After(cfg, b, h[..i]), h[i..])
    ensures After(cfg, After(cfg, b, h[..i]), h[i..]) == After(cfg, b, h)
    decreases i
  {
    hide Level, AfterCall, MayVanish;
    if i == 0 {
      assert h[..0] == [] && h[0..] == h;
    } else {
      StepValid(cfg, b, h[0]);
      LawfulAfter(cfg, Step(cfg, b, h[0]), h[1..], i - 1);
      assert h[..i][1..] == h[1..][..i - 1] && h[i..] == h[1..][i - 1..];
      assert h[..i][0] == h[0];
    }
  }

  /** What a full bucket at event i would have left for event e. */
  function Room(cfg: Config, h: seq<Event>, i: nat, e: Event): real
    requires ValidConfig(cfg) && i <= |h|
  {
    Left(cfg, cfg.capacity, After(cfg, Fresh, h[..i]), h[i..], e)
  }

  /** The level is the least of what full buckets at earlier events would have left. */
  lemma LevelIsLeastRoom(cfg: Config, h: seq<Event>, e: Event)
    requires ValidConfig(cfg) && Lawful(cfg, Fresh, h)
    ensures forall i :: 0 <= i <= |h| ==> Level(cfg, After(cfg, Fresh, h), e.now) <= Room(cfg, h, i, e)
    ensures exists i :: 0 <= i <= |h| && Level(cfg, After(cfg, Fresh, h), e.now) == Room(cfg, h, i, e)
  {
    hide Level, Left, Lawful, After;
    var level := Level(cfg, After(cfg, Fresh, h), e.now);
    forall i | 0 <= i <= |h| ensures level <= Room(cfg, h, i, e) {
      var b := After(cfg, Fresh, h[..i]);
      LawfulAfter(cfg, Fresh, h, i);
      LevelAtMost(cfg, b, h[i..], e);
      LevelBounds(cfg, b, (h[i..] + [e])[0].now);
      LeftGrows(cfg, Level(cfg, b, (h[i..] + [e])[0].now), cfg.capacity, b, h[i..], e);
    }
    var i := LevelIsReached(cfg, Fresh, h, e);
    StartsFull(cfg, h, (h + [e])[0].now);
    assert level == Room(cfg, h, i, e) || level == Room(cfg, h, 0, e);
  }

  lemma StartsFull(cfg: Config, h: seq<Event>, now: int)
    ensures Level(cfg, Fresh, now) == cfg.capacity && After(cfg, Fresh, h[..0]) == Fresh && h[0..] == h
  {
  }

  // The replies alone.

  /** The costs of the calls from i to k that were granted according to the replies. */
  function Paid(h: seq<Event>, granted: seq<bool>, i: nat, k: nat): real
    requires i <= k <= |h| == |granted|
    decreases k
  {
    if i == k then 0.0
    else Paid(h, granted, i, k - 1) + if h[k - 1].Call? && granted[k - 1] then h[k - 1].cost else 0.0
  }

  /** From i to k the grants and the cost of call k are within the capacity and the refill. */
  ghost predicate Affordable(cfg: Config, h: seq<Event>, granted: seq<bool>, i: nat, k: nat)
    requires i <= k < |h| == |granted| && h[k].Call?
  {
    Paid(h, granted, i, k) + h[k].cost <= cfg.capacity + Forward(cfg, Times(h[i..k + 1]))
  }

  /** Every call is granted exactly if it is affordable in every window that ends with it. */
  ghost predicate Fair(cfg: Config, h: seq<Event>, granted: seq<bool>) {
    && |granted| == |h|
    && forall k :: 0 <= k < |h| && h[k].Call? ==> (granted[k] <==> forall i :: 0 <= i <= k ==> Affordable(cfg, h, granted, i, k))
  }

  /** The replies of the bucket to a history. */
  function Grants(cfg: Config, h: seq<Event>): (granted: seq<bool>)
    requires ValidConfig(cfg)
    ensures |granted| == |h|
    ensures forall k :: 0 <= k < |h| ==> (granted[k] <==> h[k].Call? && Outcomes(cfg, Fresh, h)[k].reply.allowed)
  {
    var outcomes := Outcomes(cfg, Fresh, h);
    seq(|h|, k requires 0 <= k < |h| => h[k].Call? && outcomes[k].reply.allowed)
  }

  lemma {:induction false} OutcomeAt(cfg: Config, b: Bucket, h: seq<Event>, k: nat)
    requires ValidConfig(cfg) && k < |h| && h[k].Call?
    ensures Outcomes(cfg, b, h)[k] == Answered(Answer(cfg, After(cfg, b, h[..k]), h[k].now, h[k].cost))
    decreases k
  {
    hide Answer, Step;
    if k == 0 {
      assert h[..0] == [];
    } else {
      OutcomeAt(cfg, Step(cfg, b, h[0]), h[1..], k - 1);
      assert h[..k][1..] == h[1..][..k - 1];
      assert Outcomes(cfg, b, h)[k] == Outcomes(cfg, Step(cfg, b, h[0]), h[1..])[k - 1];
    }
  }

  lemma {:induction false} GrantedOfMore(cfg: Config, b: Bucket, h: seq<Event>, e: Event)
    requires ValidConfig(cfg)
    ensures Granted(cfg, b, h + [e]) == Granted(cfg, b, h) + Spent(cfg, After(cfg, b, h), e)
    decreases h
  {
    hide Spent, Step;
    if h == [] {
      assert [] + [e] == [e] && [e][1..] == [];
    } else {
      assert (h + [e])[1..] == h[1..] + [e];
      GrantedOfMore(cfg, Step(cfg, b, h[0]), h[1..], e);
    }
  }

  lemma {:induction false} AfterInTwo(cfg: Config, b: Bucket, h: seq<Event>, i: nat, k: nat)
    requires i <= k <= |h|
    ensures After(cfg, After(cfg, b, h[..i]), h[i..k]) == After(cfg, b, h[..k])
    decreases i
  {
    hide Step;
    if i == 0 {
      assert h[..0] == [] && h[0..k] == h[..k];
    } else {
      AfterInTwo(cfg, Step(cfg, b, h[0]), h[1..], i - 1, k - 1);
      assert h[..i][1..] == h[1..][..i - 1] && h[..k][1..] == h[1..][..k - 1] && h[i..k] == h[1..][i - 1..k - 1];
    }
  }

  /** What the bucket granted in a window is what its replies say. */
  lemma {:induction false} GrantedIsPaid(cfg: Config, h: seq<Event>, i: nat, k: nat)
    requires ValidConfig(cfg) && i <= k <= |h|
    ensures Granted(cfg, After(cfg, Fresh, h[..i]), h[i..k]) == Paid(h, Grants(cfg, h), i, k)
    decreases k
  {
    hide Answer, After, Outcomes;
    if i < k {
      var b := After(cfg, Fresh, h[..i]);
      GrantedIsPaid(cfg, h, i, k - 1);
      assert h[i..k] == h[i..k - 1] + [h[k - 1]];
      GrantedOfMore(cfg, b, h[i..k - 1], h[k - 1]);
      AfterInTwo(cfg, Fresh, h, i, k - 1);
      if h[k - 1].Call? { OutcomeAt(cfg, Fresh, h, k - 1); }
    }
  }

  lemma RoomIsAffordable(cfg: Config, h: seq<Event>, i: nat, k: nat)
    requires ValidConfig(cfg) && i <= k < |h| && h[k].Call?
    ensures Room(cfg, h[..k], i, h[k]) >= h[k].cost <==> Affordable(cfg, h, Grants(cfg, h), i, k)
  {
    hide Granted, Forward, Times, Paid, After, Grants;
    GrantedIsPaid(cfg, h, i, k);
    assert h[..k][..i] == h[..i] && h[..k][i..] == h[i..k];
    assert h[i..k] + [h[k]] == h[i..k + 1];
  }

  /** Nobody gets more than their share and nobody gets less: whatever the clock does, a
      call is granted if and only if in every window that ends with it the earlier grants
      and its cost are at most the capacity and the refill. */
  lemma GrantedIffAffordable(cfg: Config, h: seq<Event>)
    requires ValidConfig(cfg) && Lawful(cfg, Fresh, h)
    ensures Fair(cfg, h, Grants(cfg, h))
  {
    var granted := Grants(cfg, h);
    forall k | 0 <= k < |h| && h[k].Call?
      ensures granted[k] <==> forall i :: 0 <= i <= k ==> Affordable(cfg, h, granted, i, k)
    {
      hide Lawful, Level, After, Outcomes, Affordable, Room;
      LawfulAfter(cfg, Fresh, h, k);
      OutcomeAt(cfg, Fresh, h, k);
      LevelIsLeastRoom(cfg, h[..k], h[k]);
      forall i | 0 <= i <= k ensures Room(cfg, h[..k], i, h[k]) >= h[k].cost <==> Affordable(cfg, h, granted, i, k) {
        RoomIsAffordable(cfg, h, i, k);
      }
    }
  }

  /** And this decides every reply: no other replies are fair. */
  lemma {:induction false} FairRepliesAreUnique(cfg: Config, h: seq<Event>, r: seq<bool>, s: seq<bool>, k: nat)
    requires Fair(cfg, h, r) && Fair(cfg, h, s) && k < |h| && h[k].Call?
    ensures r[k] == s[k]
    decreases k
  {
    hide Forward, Times;
    forall j | 0 <= j < k && h[j].Call? ensures r[j] == s[j] {
      FairRepliesAreUnique(cfg, h, r, s, j);
    }
    forall i | 0 <= i <= k ensures Affordable(cfg, h, r, i, k) <==> Affordable(cfg, h, s, i, k) {
      SameReplies(h, r, s, i, k);
    }
  }

  lemma {:induction false} SameReplies(h: seq<Event>, r: seq<bool>, s: seq<bool>, i: nat, k: nat)
    requires i <= k <= |h| == |r| == |s| && forall j :: 0 <= j < k && h[j].Call? ==> r[j] == s[j]
    ensures Paid(h, r, i, k) == Paid(h, s, i, k)
    decreases k
  {
    if i < k { SameReplies(h, r, s, i, k - 1); }
  }

  /** The earlier grants of the window and the cost of call k exceed what the bucket holds
      and what flows in meanwhile. */
  ghost predicate OverTheRate(cfg: Config, h: seq<Event>, granted: seq<bool>, i: nat, k: nat)
    requires i <= k < |h| == |granted| && h[k].Call?
  {
    Paid(h, granted, i, k) + h[k].cost > cfg.capacity + Refill(cfg, h[i].now, h[k].now)
  }

  lemma OverIffNotAffordable(cfg: Config, h: seq<Event>, granted: seq<bool>, i: nat, k: nat)
    requires i <= k < |h| == |granted| && h[k].Call? && NonDecreasing(Times(h))
    ensures OverTheRate(cfg, h, granted, i, k) <==> !Affordable(cfg, h, granted, i, k)
  {
    hide Forward, Refill, Paid, NonDecreasing;
    TimesAre(h);
    TimesAre(h[i..k + 1]);
    assert Times(h[i..k + 1]) == Times(h)[i..k + 1];
    WindowMonotone(Times(h), i, k + 1);
    ForwardWhenMonotone(cfg, Times(h[i..k + 1]));
  }

  /** On a clock that does not go back the refill is the one for the time between. This is
      the converse of the rate bound: only what is over the rate is denied. */
  lemma DeniedIffOverTheRate(cfg: Config, h: seq<Event>, k: nat)
    requires ValidConfig(cfg) && Legal(cfg, Fresh, h) && k < |h| && h[k].Call?
    ensures !Grants(cfg, h)[k] <==> exists i :: 0 <= i <= k && OverTheRate(cfg, h, Grants(cfg, h), i, k)
  {
    hide Lawful, Legal, Affordable, OverTheRate, Outcomes, NonDecreasing;
    LegalIsLawful(cfg, Fresh, h);
    GrantedIffAffordable(cfg, h);
    var granted := Grants(cfg, h);
    forall i | 0 <= i <= k ensures OverTheRate(cfg, h, granted, i, k) <==> !Affordable(cfg, h, granted, i, k) {
      OverIffNotAffordable(cfg, h, granted, i, k);
    }
  }

  // ----- Retry-After -----

  ghost predicate NothingGranted(cfg: Config, b: Bucket, h: seq<Event>)
    requires ValidConfig(cfg)
  {
    forall k :: 0 <= k < |h| ==> h[k].Call? && !Outcomes(cfg, b, h)[k].reply.allowed
  }

  lemma {:induction false} NoGrantNoChange(cfg: Config, b: Bucket, h: seq<Event>, t: int)
    requires ValidConfig(cfg) && ValidBucket(cfg, b) && Legal(cfg, b, h) && NothingGranted(cfg, b, h)
    requires (b.Saved? ==> b.ts <= t) && (h != [] ==> h[|h| - 1].now <= t)
    ensures Level(cfg, After(cfg, b, h), t) == Level(cfg, b, t)
    decreases h
  {
    if h != [] {
      var b' := Step(cfg, b, h[0]);
      StepValid(cfg, b, h[0]);
      assert !Outcomes(cfg, b, h)[0].reply.allowed;
      forall k | 0 <= k < |h[1..]| ensures h[1..][k].Call? && !Outcomes(cfg, b', h[1..])[k].reply.allowed {
        assert Outcomes(cfg, b, h)[k + 1] == Outcomes(cfg, b', h[1..])[k];
        assert h[k + 1].Call?;
      }
      LegalTimes(cfg, b, h);
      NoGrantNoChange(cfg, b', h[1..], t);
      RefillInTwoSteps(cfg, b, h[0].now, t);
    }
  }

  /** The least whole number n with n * r >= q * r, seen from both sides. */
  lemma CeilOfQuotient(q: real, r: real, e: real)
    requires r > 0.0 && q * r > 0.0
    ensures Ceil(q) >= 1
    ensures e >= Ceil(q) as real ==> e * r >= q * r
    ensures e <= (Ceil(q) - 1) as real ==> e * r < q * r
  {
    if q <= 0.0 { MulMono(q, 0.0, r); }
    if e >= Ceil(q) as real { MulMono(q, e, r); }
    if e <= (Ceil(q) - 1) as real { MulStrict(e, q, r); }
  }

  /** When a bucket left short of a cost at `now` can pay it. */
  lemma WhenAffordable(cfg: Config, tokens: real, now: int, cost: real, t: int)
    requires ValidConfig(cfg) && 0.0 <= tokens < cost <= cfg.capacity && now <= t
    ensures var retry := Ceil((cost - tokens) / cfg.refillPerSec);
            && retry >= 1
            && (t >= now + 1000 * retry ==> Level(cfg, Saved(tokens, now), t) >= cost)
            && (t <= now + 1000 * (retry - 1) ==> Level(cfg, Saved(tokens, now), t) < cost)
  {
    var r, e := cfg.refillPerSec, ElapsedSec(now, t);
    var q := (cost - tokens) / r;
    assert q * r == cost - tokens;
    CeilOfQuotient(q, r, e);
    RefillIsProduct(cfg, now, t);
    var n := Ceil(q);
    assert t >= now + 1000 * n ==> e >= n as real;
    assert t <= now + 1000 * (n - 1) ==> e <= (n - 1) as real;
    hide Refill, ElapsedSec, Ceil;
    assert Refill(cfg, now, t) == e * r;
    assert Level(cfg, Saved(tokens, now), t) == Min(cfg.capacity, tokens + e * r);
    if e * r >= q * r { assert tokens + e * r >= cost; }
    if e * r < q * r { assert tokens + e * r < cost; }
  }

  /** Retry-After is exact: after a denial, and with no grant in between, a call
      of the same cost is granted from `retry` seconds on and denied up to
      `retry` - 1 seconds. */
  lemma RetryAfterIsExact(cfg: Config, b: Bucket, now: int, cost: real, h: seq<Event>, t: int)
    requires ValidConfig(cfg) && ValidBucket(cfg, b) && (b.Saved? ==> b.ts <= now)
    requires 0.0 <= cost <= cfg.capacity && !Answer(cfg, b, now, cost).allowed
    requires var b' := AfterCall(cfg, b, now, cost);
             Legal(cfg, b', h) && NothingGranted(cfg, b', h)
    requires now <= t && (h != [] ==> h[|h| - 1].now <= t)
    ensures var retry := Answer(cfg, b, now, cost).retryAfterSec;
            var again := Answer(cfg, After(cfg, AfterCall(cfg, b, now, cost), h), t, cost);
            && retry >= 1
            && (t >= now + 1000 * retry ==> again.allowed)
            && (t <= now + 1000 * (retry - 1) ==> !again.allowed)
  {
    hide Level, Legal, NothingGranted, After;
    var b' := AfterCall(cfg, b, now, cost);
    StepValid(cfg, b, Call(now, cost));
    NoGrantNoChange(cfg, b', h, t);
    WhenAffordable(cfg, b'.tokens, now, cost, t);
  }

  lemma RefillIsProduct(cfg: Config, ts: int, now: int)
    ensures Refill(cfg, ts, now) == ElapsedSec(ts, now) * cfg.refillPerSec
  {
  }
}
