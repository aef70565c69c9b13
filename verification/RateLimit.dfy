/** The two token buckets: the Redis script and its Postgres fallback
    (src/ledgerflow/api/ratelimit.py). Tokens and seconds are reals. */
module RateLimit {
  import opened Wrappers

  datatype Config = Config(capacity: real, refill: real)
  {
    ghost predicate Valid() { capacity > 0.0 && refill > 0.0 }
  }

  datatype Bucket = Bucket(tokens: real, updated: real)

  datatype Arrival = Arrival(at: real, cost: real)

  datatype Step = Step(bucket: Bucket, allowed: bool)

  function Min(a: real, b: real): real { if a <= b then a else b }

  function Max(a: real, b: real): real { if a >= b then a else b }

  /** Tokens earned between two instants. */
  function Earned(c: Config, from: real, to: real): real { (to - from) * c.refill }

  /** Tokens in a bucket before it is charged; a missing bucket is full. */
  function Filled(c: Config, b: Option<Bucket>, at: real): real
  {
    if b.None? then c.capacity else Min(c.capacity, b.value.tokens + Earned(c, b.value.updated, at))
  }

  /** The Lua script: charge only what is covered. */
  function LuaStep(c: Config, b: Option<Bucket>, a: Arrival): Step
  {
    var tokens := Filled(c, b, a.at);
    if tokens >= a.cost then Step(Bucket(tokens - a.cost, a.at), true) else Step(Bucket(tokens, a.at), false)
  }

  /** The Postgres upsert: always charge, never sink below minus the cost. A first insert is not
      clamped. */
  function PgStep(c: Config, b: Option<Bucket>, a: Arrival): Step
  {
    var tokens := if b.None? then c.capacity - a.cost else Max(-a.cost, Filled(c, b, a.at) - a.cost);
    Step(Bucket(tokens, a.at), tokens >= 0.0)
  }

  /** `EXPIRE key, ceil(capacity / refill) * 2`. */
  function Ttl(c: Config): int
    requires c.refill > 0.0
  {
    2 * -(-(c.capacity / c.refill)).Floor
  }

  /** What the script reads: nothing once the key has expired. */
  function Live(c: Config, b: Option<Bucket>, at: real): Option<Bucket>
    requires c.refill > 0.0
  {
    if b.Some? && at >= b.value.updated + Ttl(c) as real then None else b
  }

  // ---- runs ----

  datatype Limiter = Lua | LuaExpiring | Postgres

  function StepOf(k: Limiter, c: Config, b: Option<Bucket>, a: Arrival): Step
    requires c.refill > 0.0
  {
    match k
    case Lua => LuaStep(c, b, a)
    case LuaExpiring => LuaStep(c, Live(c, b, a.at), a)
    case Postgres => PgStep(c, b, a)
  }

  /** One bucket after serving the arrivals. */
  function After(k: Limiter, c: Config, arrivals: seq<Arrival>): Option<Bucket>
    requires c.refill > 0.0
  {
    if arrivals == [] then None
    else Some(StepOf(k, c, After(k, c, arrivals[..|arrivals| - 1]), arrivals[|arrivals| - 1]).bucket)
  }

  predicate Allowed(k: Limiter, c: Config, arrivals: seq<Arrival>, i: nat)
    requires c.refill > 0.0 && i < |arrivals|
  {
    StepOf(k, c, After(k, c, arrivals[..i]), arrivals[i]).allowed
  }

  /** A clock that does not run backwards, and no negative costs. */
  ghost predicate Timely(arrivals: seq<Arrival>)
  {
    && (forall i, j | 0 <= i < j < |arrivals| :: arrivals[i].at <= arrivals[j].at)
    && (forall i | 0 <= i < |arrivals| :: arrivals[i].cost >= 0.0)
  }

  lemma EarnedAdds(c: Config, x: real, y: real, z: real)
    requires c.refill > 0.0
    ensures Earned(c, x, y) + Earned(c, y, z) == Earned(c, x, z)
    ensures x <= y ==> Earned(c, x, y) >= 0.0
  {
  }

  lemma AfterStamp(k: Limiter, c: Config, arrivals: seq<Arrival>)
    requires c.refill > 0.0 && arrivals != []
    ensures After(k, c, arrivals).Some? && After(k, c, arrivals).value.updated == arrivals[|arrivals| - 1].at
  {
  }

  // ---- the fallback refines the script ----

  /** Postgres is never ahead of Lua; Lua is never in debt nor above capacity. */
  ghost predicate Behind(c: Config, pg: Option<Bucket>, lua: Option<Bucket>)
  {
    && (pg.None? <==> lua.None?)
    && (pg.Some? ==> pg.value.updated == lua.value.updated && pg.value.tokens <= lua.value.tokens
                     && 0.0 <= lua.value.tokens <= c.capacity)
  }

  lemma StepBehind(c: Config, pg: Option<Bucket>, lua: Option<Bucket>, a: Arrival)
    requires c.Valid() && Behind(c, pg, lua) && a.cost >= 0.0
    requires lua.Some? ==> lua.value.updated <= a.at
    ensures Behind(c, Some(PgStep(c, pg, a).bucket), Some(LuaStep(c, lua, a).bucket))
    ensures PgStep(c, pg, a).allowed ==> LuaStep(c, lua, a).allowed
  {
    if lua.Some? {
      EarnedAdds(c, lua.value.updated, a.at, a.at);
    }
  }

  lemma {:induction false} RunBehind(c: Config, arrivals: seq<Arrival>)
    requires c.Valid() && Timely(arrivals)
    ensures Behind(c, After(Postgres, c, arrivals), After(Lua, c, arrivals))
  {
    if arrivals != [] {
      var front, last := arrivals[..|arrivals| - 1], arrivals[|arrivals| - 1];
      RunBehind(c, front);
      if front != [] {
        AfterStamp(Lua, c, front);
        assert front[|front| - 1].at <= last.at;
      }
      StepBehind(c, After(Postgres, c, front), After(Lua, c, front), last);
    }
  }

  /** On the same arrivals the fallback holds at most the script's tokens, so it never admits a
      request the script would refuse. Costs may differ from request to request. */
  lemma PostgresRefinesLua(c: Config, arrivals: seq<Arrival>, i: nat)
    requires c.Valid() && Timely(arrivals) && i < |arrivals|
    ensures Allowed(Postgres, c, arrivals, i) ==> Allowed(Lua, c, arrivals, i)
    ensures After(Postgres, c, arrivals).value.tokens <= After(Lua, c, arrivals).value.tokens
  {
    RunBehind(c, arrivals);
    RunBehind(c, arrivals[..i]);
    if i > 0 {
      AfterStamp(Lua, c, arrivals[..i]);
      assert arrivals[i - 1].at <= arrivals[i].at;
    }
    StepBehind(c, After(Postgres, c, arrivals[..i]), After(Lua, c, arrivals[..i]), arrivals[i]);
  }

  // ---- expiry ----

  lemma TtlCovers(c: Config)
    requires c.Valid()
    ensures Ttl(c) as real * c.refill >= c.capacity
    ensures 2.0 * (c.capacity / c.refill) <= Ttl(c) as real < 2.0 * (c.capacity / c.refill) + 2.0
  {
    var x := c.capacity / c.refill;
    assert Ttl(c) as real >= x;
    assert x * c.refill == c.capacity;
    Scale(c.refill, x, Ttl(c) as real);
  }

  lemma Scale(k: real, x: real, y: real)
    requires k >= 0.0 && x <= y
    ensures x * k <= y * k
  {
  }

  lemma Cancel(k: real, x: real)
    requires k > 0.0
    ensures (x / k) * k == x
  {
  }

  lemma ExpiryStep(c: Config, b: Option<Bucket>, at: real)
    requires c.Valid() && (b.Some? ==> b.value.tokens >= 0.0 && b.value.updated <= at)
    ensures Filled(c, Live(c, b, at), at) == Filled(c, b, at)
  {
    if b.Some? && at >= b.value.updated + Ttl(c) as real {
      TtlCovers(c);
      Scale(c.refill, Ttl(c) as real, at - b.value.updated);
    }
  }

  /** A key that expired would have been full by then: expiry changes neither a decision nor what is
      left in the bucket. */
  lemma {:induction false} ExpiryIsInvisible(c: Config, arrivals: seq<Arrival>)
    requires c.Valid() && Timely(arrivals)
    ensures After(LuaExpiring, c, arrivals) == After(Lua, c, arrivals)
    ensures forall i | 0 <= i < |arrivals| :: Allowed(LuaExpiring, c, arrivals, i) <==> Allowed(Lua, c, arrivals, i)
  {
    if arrivals != [] {
      var n := |arrivals| - 1;
      var front, last := arrivals[..n], arrivals[n];
      ExpiryIsInvisible(c, front);
      RunBehind(c, front);
      if front != [] {
        AfterStamp(Lua, c, front);
        assert arrivals[n - 1].at <= last.at;
      }
      ExpiryStep(c, After(Lua, c, front), last.at);
      forall i | 0 <= i < |arrivals| ensures Allowed(LuaExpiring, c, arrivals, i) <==> Allowed(Lua, c, arrivals, i) {
        if i < n {
          assert front[..i] == arrivals[..i];
          assert Allowed(LuaExpiring, c, front, i) <==> Allowed(Lua, c, front, i);
        }
      }
    }
  }

  // ---- the rate bound ----

  /** Cost admitted by requests `i` to `j - 1`. */
  function Admitted(k: Limiter, c: Config, arrivals: seq<Arrival>, i: nat, j: nat): real
    requires c.refill > 0.0 && i <= j <= |arrivals|
    decreases j
  {
    if i == j then 0.0
    else Admitted(k, c, arrivals, i, j - 1) + if Allowed(k, c, arrivals, j - 1) then arrivals[j - 1].cost else 0.0
  }

  /** It adds up over stretches, and over one request it is its cost or nothing. */
  lemma {:induction false} AdmittedSplits(k: Limiter, c: Config, arrivals: seq<Arrival>, i: nat, m: nat, j: nat)
    requires c.refill > 0.0 && i <= m <= j <= |arrivals|
    ensures Admitted(k, c, arrivals, i, j) == Admitted(k, c, arrivals, i, m) + Admitted(k, c, arrivals, m, j)
    ensures j == i + 1 ==>
              Admitted(k, c, arrivals, i, j) == if Allowed(k, c, arrivals, i) then arrivals[i].cost else 0.0
    decreases j
  {
    if m < j {
      AdmittedSplits(k, c, arrivals, i, m, j - 1);
    }
  }

  lemma {:induction false} AdmittedLua(c: Config, arrivals: seq<Arrival>, i: nat, j: nat)
    requires c.Valid() && Timely(arrivals) && i < j <= |arrivals|
    ensures Admitted(Lua, c, arrivals, i, j) + After(Lua, c, arrivals[..j]).value.tokens
            <= c.capacity + Earned(c, arrivals[i].at, arrivals[j - 1].at)
    decreases j
  {
    assert arrivals[..j][..j - 1] == arrivals[..j - 1];
    if i + 1 < j {
      AdmittedLua(c, arrivals, i, j - 1);
      AfterStamp(Lua, c, arrivals[..j - 1]);
      EarnedAdds(c, arrivals[i].at, arrivals[j - 2].at, arrivals[j - 1].at);
    } else {
      EarnedAdds(c, arrivals[i].at, arrivals[i].at, arrivals[i].at);
    }
  }

  lemma {:induction false} AdmittedLess(c: Config, arrivals: seq<Arrival>, i: nat, j: nat)
    requires c.Valid() && Timely(arrivals) && i <= j <= |arrivals|
    ensures Admitted(Postgres, c, arrivals, i, j) <= Admitted(Lua, c, arrivals, i, j)
    decreases j
  {
    if i < j {
      AdmittedLess(c, arrivals, i, j - 1);
      PostgresRefinesLua(c, arrivals, j - 1);
    }
  }

  /** Over any stretch of requests, however it is cut out of the run, either limiter admits at most
      a full bucket plus what was earned meanwhile. */
  lemma RateBound(c: Config, arrivals: seq<Arrival>, i: nat, j: nat)
    requires c.Valid() && Timely(arrivals) && i < j <= |arrivals|
    ensures var bound := c.capacity + c.refill * (arrivals[j - 1].at - arrivals[i].at);
            && Admitted(Lua, c, arrivals, i, j) <= bound
            && Admitted(LuaExpiring, c, arrivals, i, j) <= bound
            && Admitted(Postgres, c, arrivals, i, j) <= bound
  {
    hide Admitted, After, Allowed;
    AdmittedLua(c, arrivals, i, j);
    RunBehind(c, arrivals[..j]);
    AfterStamp(Lua, c, arrivals[..j]);
    AdmittedLess(c, arrivals, i, j);
    ExpiryIsInvisible(c, arrivals);
    AdmittedSame(c, arrivals, i, j);
  }

  lemma {:induction false} AdmittedSame(c: Config, arrivals: seq<Arrival>, i: nat, j: nat)
    requires c.Valid() && i <= j <= |arrivals|
    requires forall n | 0 <= n < |arrivals| :: Allowed(LuaExpiring, c, arrivals, n) <==> Allowed(Lua, c, arrivals, n)
    ensures Admitted(LuaExpiring, c, arrivals, i, j) == Admitted(Lua, c, arrivals, i, j)
    decreases j
  {
    if i < j {
      AdmittedSame(c, arrivals, i, j - 1);
    }
  }

  // ---- recovery and starvation ----

  lemma {:induction false} DebtBounded(c: Config, arrivals: seq<Arrival>, cost: real)
    requires c.Valid() && Timely(arrivals) && arrivals != []
    requires forall i | 0 <= i < |arrivals| :: arrivals[i].cost <= cost
    ensures After(Postgres, c, arrivals).value.tokens >= -cost
  {
    var last := arrivals[|arrivals| - 1];
    assert last.cost <= cost;
  }

  /** After `2 * cost / refill` quiet seconds the fallback admits from any state it can reach. */
  lemma PostgresRecovers(c: Config, arrivals: seq<Arrival>, next: Arrival)
    requires c.Valid() && Timely(arrivals) && arrivals != []
    requires 0.0 <= next.cost <= c.capacity
    requires forall i | 0 <= i < |arrivals| :: arrivals[i].cost <= next.cost
    requires next.at >= arrivals[|arrivals| - 1].at + 2.0 * next.cost / c.refill
    ensures Allowed(Postgres, c, arrivals + [next], |arrivals|)
  {
    hide Earned, After, PgStep;
    assert (arrivals + [next])[..|arrivals|] == arrivals && (arrivals + [next])[|arrivals|] == next;
    AfterStamp(Postgres, c, arrivals);
    DebtBounded(c, arrivals, next.cost);
    EarnedIn(c, arrivals[|arrivals| - 1].at, next.at, 2.0 * next.cost);
    PgCovered(c, After(Postgres, c, arrivals).value, next);
  }

  lemma EarnedIn(c: Config, from: real, to: real, tokens: real)
    requires c.refill > 0.0 && to >= from + tokens / c.refill
    ensures Earned(c, from, to) >= tokens
  {
    Scale(c.refill, tokens / c.refill, to - from);
    Cancel(c.refill, tokens);
  }

  lemma PgCovered(c: Config, b: Bucket, a: Arrival)
    requires b.tokens >= -a.cost && 0.0 <= a.cost <= c.capacity && Earned(c, b.updated, a.at) >= 2.0 * a.cost
    ensures PgStep(c, Some(b), a).allowed
  {
    hide Earned;
  }

  lemma PgPaced(c: Config, b: Bucket, a: Arrival)
    requires b.tokens == -a.cost && 0.0 < a.cost && 0.0 <= Earned(c, b.updated, a.at) <= a.cost && c.capacity > 0.0
    ensures PgStep(c, Some(b), a) == Step(Bucket(-a.cost, a.at), false)
  {
    hide Earned;
  }

  lemma LuaPaced(c: Config, b: Bucket, a: Arrival)
    requires b.tokens == 0.0 && 0.0 < a.cost <= c.capacity && Earned(c, b.updated, a.at) == a.cost
    ensures LuaStep(c, Some(b), a) == Step(Bucket(0.0, a.at), true)
  {
    hide Earned;
  }

  /** Tokens earned before arrival `i`, since the one before it. */
  function Pause(c: Config, arrivals: seq<Arrival>, start: real, i: int): real
    requires 0 <= i < |arrivals|
  {
    Earned(c, if i == 0 then start else arrivals[i - 1].at, arrivals[i].at)
  }

  /** A steady client: the same cost, arrivals no further apart than it takes to earn it. */
  ghost predicate Steady(c: Config, arrivals: seq<Arrival>, start: real, cost: real)
  {
    && (forall i | 0 <= i < |arrivals| :: arrivals[i].cost == cost)
    && (forall i | 0 <= i < |arrivals| :: 0.0 <= Pause(c, arrivals, start, i) <= cost)
  }

  /** The bucket after the arrivals, from a given one. */
  function From(k: Limiter, c: Config, b: Bucket, arrivals: seq<Arrival>): Bucket
    requires c.refill > 0.0
  {
    if arrivals == [] then b
    else StepOf(k, c, Some(From(k, c, b, arrivals[..|arrivals| - 1])), arrivals[|arrivals| - 1]).bucket
  }

  /** Whether arrival `i` is admitted, starting from a given bucket. */
  predicate AdmittedFrom(k: Limiter, c: Config, b: Bucket, arrivals: seq<Arrival>, i: nat)
    requires c.refill > 0.0 && i < |arrivals|
  {
    StepOf(k, c, Some(From(k, c, b, arrivals[..i])), arrivals[i]).allowed
  }

  function LastAt(arrivals: seq<Arrival>, start: real): real
  {
    if arrivals == [] then start else arrivals[|arrivals| - 1].at
  }

  lemma SteadyPrefix(c: Config, arrivals: seq<Arrival>, start: real, cost: real, n: nat)
    requires Steady(c, arrivals, start, cost) && n <= |arrivals|
    ensures Steady(c, arrivals[..n], start, cost)
    ensures forall i | 0 <= i < n :: Pause(c, arrivals[..n], start, i) == Pause(c, arrivals, start, i)
  {
    hide Earned;
    var front := arrivals[..n];
    forall i | 0 <= i < n
      ensures Pause(c, front, start, i) == Pause(c, arrivals, start, i) && front[i].cost == cost
    {
      assert front[i] == arrivals[i];
    }
  }

  lemma {:induction false} DebtStays(c: Config, start: real, cost: real, arrivals: seq<Arrival>)
    requires c.Valid() && cost > 0.0 && Steady(c, arrivals, start, cost)
    ensures From(Postgres, c, Bucket(-cost, start), arrivals) == Bucket(-cost, LastAt(arrivals, start))
  {
    hide Earned, PgStep;
    if arrivals != [] {
      var n := |arrivals| - 1;
      SteadyPrefix(c, arrivals, start, cost, n);
      DebtStays(c, start, cost, arrivals[..n]);
      assert arrivals[n].cost == cost && 0.0 <= Pause(c, arrivals, start, n) <= cost;
      PgPaced(c, Bucket(-cost, LastAt(arrivals[..n], start)), arrivals[n]);
    }
  }

  /** Once a full cost in debt, the fallback refuses a steady client for ever, even at exactly the
      pace the bucket refills: every refusal is charged as well. */
  lemma PostgresStarves(c: Config, start: real, cost: real, arrivals: seq<Arrival>, i: nat)
    requires c.Valid() && cost > 0.0 && Steady(c, arrivals, start, cost) && i < |arrivals|
    ensures !AdmittedFrom(Postgres, c, Bucket(-cost, start), arrivals, i)
  {
    hide Earned, PgStep, From;
    SteadyPrefix(c, arrivals, start, cost, i);
    DebtStays(c, start, cost, arrivals[..i]);
    assert arrivals[i].cost == cost && 0.0 <= Pause(c, arrivals, start, i) <= cost;
    PgPaced(c, Bucket(-cost, LastAt(arrivals[..i], start)), arrivals[i]);
  }

  function Times(n: nat, x: real): real { n as real * x }

  /** A client at a fixed pace: one request every `pause` seconds, `n` of them after `start`. */
  function Regular(start: real, pause: real, cost: real, n: nat): (r: seq<Arrival>)
    ensures |r| == n
  {
    if n == 0 then [] else Regular(start, pause, cost, n - 1) + [Arrival(start + Times(n, pause), cost)]
  }

  lemma {:induction false} RegularAt(start: real, pause: real, cost: real, n: nat, i: nat)
    requires i <= n
    ensures |Regular(start, pause, cost, n)| == n
            && Regular(start, pause, cost, n)[..i] == Regular(start, pause, cost, i)
    ensures i < n ==> Regular(start, pause, cost, n)[i] == Arrival(start + Times(i + 1, pause), cost)
  {
    if n > 0 {
      if i < n {
        RegularAt(start, pause, cost, n - 1, i);
      } else {
        RegularAt(start, pause, cost, n - 1, n - 1);
      }
    }
  }

  /** Whether request `i` of the fixed pace is admitted, starting a full cost in debt. */
  predicate AdmittedAtPace(c: Config, start: real, pause: real, cost: real, i: nat)
    requires c.refill > 0.0
  {
    StepOf(Postgres, c, Some(From(Postgres, c, Bucket(-cost, start), Regular(start, pause, cost, i))),
           Arrival(start + Times(i + 1, pause), cost)).allowed
  }

  lemma PaceEarns(c: Config, start: real, pause: real, n: nat)
    ensures Earned(c, start + Times(n, pause), start + Times(n + 1, pause)) == pause * c.refill
  {
    assert start + Times(n + 1, pause) - (start + Times(n, pause)) == pause;
  }

  /** The debt after `n` refusals: each one earns a pause and costs a request. */
  lemma {:induction false} DebtAtPace(c: Config, start: real, pause: real, cost: real, n: nat)
    requires c.Valid() && 0.0 < cost <= c.capacity && pause * c.refill >= cost
    requires forall i: nat | i < n :: !AdmittedAtPace(c, start, pause, cost, i)
    ensures From(Postgres, c, Bucket(-cost, start), Regular(start, pause, cost, n)) ==
            Bucket(-cost + Times(n, pause * c.refill - cost), start + Times(n, pause))
  {
    hide Earned, PgStep, Times;
    Distribute(0, pause);
    Distribute(0, pause * c.refill - cost);
    if n > 0 {
      DebtAtPace(c, start, pause, cost, n - 1);
      assert !AdmittedAtPace(c, start, pause, cost, n - 1);
      RegularAt(start, pause, cost, n, n - 1);
      PaceEarns(c, start, pause, n - 1);
      var gain := pause * c.refill - cost;
      Distribute(n - 1, gain);
      PgRefused(c, Bucket(-cost + Times(n - 1, gain), start + Times(n - 1, pause)),
                Arrival(start + Times(n, pause), cost), gain);
    }
  }

  lemma Distribute(n: nat, x: real)
    ensures Times(n + 1, x) == Times(n, x) + x
    ensures x >= 0.0 ==> Times(n, x) >= 0.0
    ensures Times(0, x) == 0.0
  {
  }

  lemma PgRefused(c: Config, b: Bucket, a: Arrival, gain: real)
    requires 0.0 < a.cost <= c.capacity && b.tokens >= -a.cost && gain >= 0.0
    requires Earned(c, b.updated, a.at) == gain + a.cost && !PgStep(c, Some(b), a).allowed
    ensures PgStep(c, Some(b), a).bucket == Bucket(b.tokens + gain, a.at)
  {
    hide Earned;
  }

  lemma AdmittedOnce(c: Config, start: real, pause: real, cost: real) returns (i: nat)
    requires c.Valid() && 0.0 < cost <= c.capacity && pause * c.refill > cost
    ensures AdmittedAtPace(c, start, pause, cost, i)
  {
    var gain := pause * c.refill - cost;
    var n: nat := (cost / gain).Floor;
    if j: nat :| j < n && AdmittedAtPace(c, start, pause, cost, j) {
      return j;
    }
    hide Earned, PgStep, From, Times;
    DebtAtPace(c, start, pause, cost, n);
    EnoughPauses(cost, gain, n);
    Distribute(n, gain);
    PaceEarns(c, start, pause, n);
    PgCoveredIff(c, Bucket(-cost + Times(n, gain), start + Times(n, pause)),
                Arrival(start + Times(n + 1, pause), cost));
    return n;
  }

  lemma EnoughPauses(cost: real, gain: real, n: nat)
    requires gain > 0.0 && cost > 0.0 && n == (cost / gain).Floor
    ensures Times(n + 1, gain) > cost
  {
    var most := cost / gain;
    Cancel(gain, cost);
    assert most < (n + 1) as real;
    ScaleStrictly(gain, most, (n + 1) as real);
  }

  lemma StarvedAtPace(c: Config, start: real, pause: real, cost: real, i: nat)
    requires c.Valid() && cost > 0.0 && pause >= 0.0 && pause * c.refill <= cost
    ensures !AdmittedAtPace(c, start, pause, cost, i)
  {
    hide From;
    var arrivals := Regular(start, pause, cost, i + 1);
    RegularAt(start, pause, cost, i + 1, i);
    RegularIsSteady(c, start, pause, cost, i + 1);
    PostgresStarves(c, start, cost, arrivals, i);
  }

  lemma RegularIsSteady(c: Config, start: real, pause: real, cost: real, n: nat)
    requires c.Valid() && cost > 0.0 && pause >= 0.0 && pause * c.refill <= cost
    ensures Steady(c, Regular(start, pause, cost, n), start, cost)
  {
    var arrivals := Regular(start, pause, cost, n);
    RegularAt(start, pause, cost, n, n);
    forall i | 0 <= i < |arrivals| ensures arrivals[i].cost == cost && 0.0 <= Pause(c, arrivals, start, i) <= cost {
      RegularAt(start, pause, cost, n, i);
      if i > 0 {
        RegularAt(start, pause, cost, n, i - 1);
      }
      PaceEarns(c, start, pause, i);
      EarnedAdds(c, start, start + pause, start + pause);
    }
  }

  /** Exactly when the fallback refuses a client at a fixed pace for ever: when a pause earns no more
      than a request costs. */
  lemma PostgresStarvesIff(c: Config, start: real, pause: real, cost: real)
    requires c.Valid() && 0.0 < cost <= c.capacity && pause >= 0.0
    ensures (forall i: nat :: !AdmittedAtPace(c, start, pause, cost, i)) <==> pause * c.refill <= cost
  {
    hide AdmittedAtPace;
    if pause * c.refill <= cost {
      forall i: nat ensures !AdmittedAtPace(c, start, pause, cost, i) {
        StarvedAtPace(c, start, pause, cost, i);
      }
    } else {
      var i := AdmittedOnce(c, start, pause, cost);
    }
  }

  /** `n` requests at one instant. */
  function Burst(at: real, cost: real, n: nat): (r: seq<Arrival>)
    ensures |r| == n
  {
    seq(n, _ => Arrival(at, cost))
  }

  lemma PgAtOnce(c: Config, b: Bucket, cost: real)
    requires b.tokens <= c.capacity
    ensures PgStep(c, Some(b), Arrival(b.updated, cost)).bucket == Bucket(Max(-cost, b.tokens - cost), b.updated)
  {
    assert Earned(c, b.updated, b.updated) == 0.0;
  }

  lemma PgFirst(c: Config, at: real, cost: real)
    ensures PgStep(c, None, Arrival(at, cost)).bucket == Bucket(c.capacity - cost, at)
  {
  }

  lemma {:induction false} BurstTokens(c: Config, at: real, cost: real, n: nat)
    requires c.Valid() && cost > 0.0 && n > 0
    ensures After(Postgres, c, Burst(at, cost, n)) == Some(Bucket(Max(-cost, c.capacity - Times(n, cost)), at))
  {
    var arrivals := Burst(at, cost, n);
    assert arrivals[..n - 1] == Burst(at, cost, n - 1) && arrivals[n - 1] == Arrival(at, cost);
    hide Times, PgStep, Burst;
    Distribute(n - 1, cost);
    if n > 1 {
      BurstTokens(c, at, cost, n - 1);
      PgAtOnce(c, Bucket(Max(-cost, c.capacity - Times(n - 1, cost)), at), cost);
    } else {
      Distribute(0, cost);
      PgFirst(c, at, cost);
    }
  }

  lemma {:induction false} AfterFrom(k: Limiter, c: Config, first: seq<Arrival>, rest: seq<Arrival>)
    requires c.refill > 0.0 && first != []
    ensures After(k, c, first + rest) == Some(From(k, c, After(k, c, first).value, rest))
  {
    if rest == [] {
      assert first + rest == first;
    } else {
      var front := rest[..|rest| - 1];
      assert (first + rest)[..|first + rest| - 1] == first + front;
      AfterFrom(k, c, first, front);
    }
  }

  /** The debt is within reach: a burst on a fresh key, then a client at the refill rate or faster is
      refused every time. */
  lemma BurstThenStarved(c: Config, at: real, pause: real, cost: real, n: nat, i: nat)
    requires c.Valid() && cost > 0.0 && pause >= 0.0 && pause * c.refill <= cost
    requires Times(n, cost) >= c.capacity + cost
    ensures After(Postgres, c, Burst(at, cost, n)) == Some(Bucket(-cost, at))
    ensures !Allowed(Postgres, c, Burst(at, cost, n) + Regular(at, pause, cost, i + 1), n + i)
  {
    hide From, Burst, Regular, After, Times, Earned, PgStep;
    BurstIsNotEmpty(c, cost, n);
    BurstTokens(c, at, cost, n);
    var burst, later := Burst(at, cost, n), Regular(at, pause, cost, i + 1);
    RegularAt(at, pause, cost, i + 1, i);
    assert (burst + later)[..n + i] == burst + later[..i] && (burst + later)[n + i] == later[i];
    AfterFrom(Postgres, c, burst, later[..i]);
    StarvedAtPace(c, at, pause, cost, i);
  }

  lemma BurstIsNotEmpty(c: Config, cost: real, n: nat)
    requires c.Valid() && cost > 0.0 && Times(n, cost) >= c.capacity + cost
    ensures n > 0
  {
  }

  /** Exactly at the pace the bucket refills. */
  ghost predicate Paced(c: Config, arrivals: seq<Arrival>, start: real, cost: real)
  {
    Steady(c, arrivals, start, cost) && forall i | 0 <= i < |arrivals| :: Pause(c, arrivals, start, i) == cost
  }

  lemma {:induction false} EmptyStays(c: Config, start: real, cost: real, arrivals: seq<Arrival>)
    requires c.Valid() && 0.0 < cost <= c.capacity && Paced(c, arrivals, start, cost)
    ensures From(Lua, c, Bucket(0.0, start), arrivals) == Bucket(0.0, LastAt(arrivals, start))
  {
    hide Earned, LuaStep;
    if arrivals != [] {
      var n := |arrivals| - 1;
      SteadyPrefix(c, arrivals, start, cost, n);
      EmptyStays(c, start, cost, arrivals[..n]);
      assert arrivals[n].cost == cost && Pause(c, arrivals, start, n) == cost;
      LuaPaced(c, Bucket(0.0, LastAt(arrivals[..n], start)), arrivals[n]);
    }
  }

  /** The script serves the same client in full at that pace, from an empty bucket. */
  lemma LuaServes(c: Config, start: real, cost: real, arrivals: seq<Arrival>, i: nat)
    requires c.Valid() && 0.0 < cost <= c.capacity && Paced(c, arrivals, start, cost) && i < |arrivals|
    ensures AdmittedFrom(Lua, c, Bucket(0.0, start), arrivals, i)
  {
    hide Earned, LuaStep, From;
    SteadyPrefix(c, arrivals, start, cost, i);
    EmptyStays(c, start, cost, arrivals[..i]);
    assert arrivals[i].cost == cost && Pause(c, arrivals, start, i) == cost;
    LuaPaced(c, Bucket(0.0, LastAt(arrivals[..i], start)), arrivals[i]);
  }

  // ---- the advertised reset ----

  datatype Decision = Decision(allowed: bool, remaining: int, resetAt: int)

  function Reset(c: Config, tokens: real, now: real): real
    requires c.refill > 0.0
  {
    now + Max(0.0, 1.0 - tokens) / c.refill
  }

  /** `int()` truncates toward zero. */
  function Truncated(x: real): (n: int)
    ensures x >= 0.0 ==> n as real <= x < n as real + 1.0
    ensures x < 0.0 ==> n as real - 1.0 < x <= n as real
  {
    if x >= 0.0 then x.Floor else -(-x).Floor
  }

  /** `_decision`. */
  function Decide(c: Config, allowed: bool, tokens: real, now: real): Decision
    requires c.refill > 0.0
  {
    Decision(allowed, Truncated(Max(0.0, tokens)), Truncated(Reset(c, tokens, now)))
  }

  lemma EarnedIff(c: Config, from: real, to: real, tokens: real)
    requires c.refill > 0.0
    ensures Earned(c, from, to) >= tokens <==> to >= from + tokens / c.refill
  {
    Cancel(c.refill, tokens);
    if to >= from + tokens / c.refill {
      EarnedIn(c, from, to, tokens);
    } else {
      ScaleStrictly(c.refill, to - from, tokens / c.refill);
    }
  }

  lemma ScaleStrictly(k: real, x: real, y: real)
    requires k > 0.0 && x < y
    ensures x * k < y * k
  {
  }

  lemma DivideStrictly(k: real, x: real, y: real)
    requires k > 0.0 && x < y
    ensures x / k < y / k && 0.0 / k == 0.0
  {
    Cancel(k, x);
    Cancel(k, y);
  }

  /** What `check` reports for a single token on this bucket. */
  function LuaDecision(c: Config, b: Option<Bucket>, now: real): Decision
    requires c.refill > 0.0
  {
    var s := LuaStep(c, b, Arrival(now, 1.0));
    Decide(c, s.allowed, s.bucket.tokens, now)
  }

  function PgDecision(c: Config, b: Option<Bucket>, now: real): Decision
    requires c.refill > 0.0
  {
    var s := PgStep(c, b, Arrival(now, 1.0));
    Decide(c, s.allowed, Max(s.bucket.tokens, 0.0), now)
  }

  lemma LuaCovered(c: Config, b: Bucket, a: Arrival)
    requires a.cost <= c.capacity
    ensures LuaStep(c, Some(b), a).allowed <==> b.tokens + Earned(c, b.updated, a.at) >= a.cost
  {
    hide Earned;
  }

  lemma PgCoveredIff(c: Config, b: Bucket, a: Arrival)
    requires 0.0 < a.cost <= c.capacity
    ensures PgStep(c, Some(b), a).allowed <==> b.tokens + Earned(c, b.updated, a.at) >= a.cost
  {
    hide Earned;
  }

  /** After a refused single-token request, the script admits a retry exactly from the instant that
      its own formula gives before truncation. */
  lemma LuaRetryIff(c: Config, b: Option<Bucket>, now: real, retry: real)
    requires c.Valid() && c.capacity >= 1.0 && now <= retry
    requires !LuaStep(c, b, Arrival(now, 1.0)).allowed
    ensures var tokens := LuaStep(c, b, Arrival(now, 1.0)).bucket.tokens;
            LuaStep(c, Some(Bucket(tokens, now)), Arrival(retry, 1.0)).allowed <==> retry >= Reset(c, tokens, now)
  {
    var tokens := LuaStep(c, b, Arrival(now, 1.0)).bucket.tokens;
    hide Earned, LuaStep;
    LuaCovered(c, Bucket(tokens, now), Arrival(retry, 1.0));
    RefusedIsShort(c, b, now);
    EarnedIff(c, now, retry, 1.0 - tokens);
  }

  lemma RefusedIsShort(c: Config, b: Option<Bucket>, now: real)
    requires !LuaStep(c, b, Arrival(now, 1.0)).allowed
    ensures LuaStep(c, b, Arrival(now, 1.0)).bucket.tokens < 1.0
  {
  }

  /** What is advertised is that instant cut to a whole second: retrying at it, or at once if it has
      passed, is admitted exactly when nothing was cut off. One second later is always enough. */
  lemma LuaResetIff(c: Config, b: Option<Bucket>, now: real)
    requires c.Valid() && c.capacity >= 1.0 && now >= 0.0
    requires !LuaStep(c, b, Arrival(now, 1.0)).allowed
    ensures var left := LuaStep(c, b, Arrival(now, 1.0)).bucket;
            var reset := LuaDecision(c, b, now).resetAt as real;
            && (LuaStep(c, Some(left), Arrival(Max(now, reset), 1.0)).allowed <==>
                Reset(c, left.tokens, now) == Reset(c, left.tokens, now).Floor as real)
            && LuaStep(c, Some(left), Arrival(reset + 1.0, 1.0)).allowed
  {
    var left := LuaStep(c, b, Arrival(now, 1.0)).bucket;
    var exact := Reset(c, left.tokens, now);
    RefusedIsShort(c, b, now);
    AfterNow(c, left.tokens, now);
    hide LuaStep, Reset;
    LuaRetryIff(c, b, now, Max(now, exact.Floor as real));
    LuaRetryIff(c, b, now, exact.Floor as real + 1.0);
  }

  lemma AfterNow(c: Config, tokens: real, now: real)
    requires c.Valid() && tokens < 1.0
    ensures Reset(c, tokens, now) > now
  {
    assert (1.0 - tokens) / c.refill > 0.0;
  }

  /** From a fresh key: a full burst at 100.9 seconds, one more request, and a retry at the advertised
      second 101. Both are refused. */
  lemma LuaResetCanBeTooEarly()
    ensures var c := Config(60.0, 1.0);
            var run := [Arrival(100.9, 60.0), Arrival(100.9, 1.0), Arrival(101.0, 1.0)];
            && c.Valid() && Timely(run)
            && !Allowed(Lua, c, run, 1)
            && LuaDecision(c, After(Lua, c, run[..1]), 100.9).resetAt == 101
            && !Allowed(Lua, c, run, 2)
  {
    var c := Config(60.0, 1.0);
    var run := [Arrival(100.9, 60.0), Arrival(100.9, 1.0), Arrival(101.0, 1.0)];
    assert run[..0] == [] && run[..1][..0] == [] && run[..2][..1] == run[..1];
    assert After(Lua, c, run[..1]) == Some(Bucket(0.0, 100.9));
    assert After(Lua, c, run[..2]) == Some(Bucket(0.0, 100.9));
  }

  /** The fallback admits a retry exactly once the debt is earned back as well, but advertises the
      instant for an empty bucket. */
  lemma PostgresRetryIff(c: Config, b: Option<Bucket>, now: real, retry: real)
    requires c.Valid() && c.capacity >= 1.0
    requires !PgStep(c, b, Arrival(now, 1.0)).allowed
    ensures var tokens := PgStep(c, b, Arrival(now, 1.0)).bucket.tokens;
            && tokens < 0.0
            && (PgStep(c, Some(Bucket(tokens, now)), Arrival(retry, 1.0)).allowed <==>
                retry >= now + (1.0 - tokens) / c.refill)
  {
    var tokens := PgStep(c, b, Arrival(now, 1.0)).bucket.tokens;
    assert tokens < 0.0;
    hide Earned, PgStep;
    PgCoveredIff(c, Bucket(tokens, now), Arrival(retry, 1.0));
    EarnedIff(c, now, retry, 1.0 - tokens);
  }

  /** So what the fallback advertises is too early every time: a retry then, or at once if it has
      passed, is refused again. */
  lemma PostgresResetIsTooEarly(c: Config, b: Option<Bucket>, now: real)
    requires c.Valid() && c.capacity >= 1.0 && now >= 0.0
    requires !PgStep(c, b, Arrival(now, 1.0)).allowed
    ensures var left := PgStep(c, b, Arrival(now, 1.0)).bucket;
            var reset := PgDecision(c, b, now).resetAt as real;
            !PgStep(c, Some(left), Arrival(Max(now, reset), 1.0)).allowed
  {
    var tokens := PgStep(c, b, Arrival(now, 1.0)).bucket.tokens;
    var exact := now + 1.0 / c.refill;
    PostgresRetryIff(c, b, now, Max(now, exact.Floor as real));
    DivideStrictly(c.refill, 0.0, 1.0);
    DivideStrictly(c.refill, 1.0, 1.0 - tokens);
  }

  // ---- the limiter ----

  /** How the call to Redis goes: not configured or not reached, run with its reply lost, or answered. */
  datatype ScriptCall = NotRun | ReplyLost | Answered

  /** The stored bucket, grown since, covers the cost; a key without one has a full bucket. */
  predicate Covers(c: Config, b: Option<Bucket>, now: real, cost: real)
  {
    && cost <= c.capacity
    && (b.Some? ==> cost <= b.value.tokens + (now - b.value.updated) * c.refill)
  }

  /** The decision a client is to get when these tokens are left. */
  predicate Answers(c: Config, d: Decision, allowed: bool, left: real, now: real)
    requires c.refill > 0.0
  {
    && (d.allowed <==> allowed)
    && (left >= 0.0 ==> d.remaining as real <= left < d.remaining as real + 1.0)
    && (left < 0.0 ==> d.remaining == 0)
    && (now >= 0.0 && left >= 1.0 ==> d.resetAt == now.Floor)
    && (now >= 0.0 && 0.0 <= left < 1.0 ==> d.resetAt == (now + (1.0 - left) / c.refill).Floor)
  }

  lemma DecisionAnswers(c: Config, allowed: bool, left: real, now: real)
    requires c.refill > 0.0
    ensures Answers(c, Decide(c, allowed, left, now), allowed, left, now)
    ensures Answers(c, Decide(c, allowed, Max(left, 0.0), now), allowed, left, now)
  {
    if left < 1.0 { DivideStrictly(c.refill, 0.0, 1.0 - Max(left, 0.0)); }
  }

  lemma LuaCovers(c: Config, b: Option<Bucket>, a: Arrival)
    ensures LuaStep(c, b, a).allowed <==> Covers(c, b, a.at, a.cost)
  {
  }

  /** The fallback admits a request that costs nothing whatever the debt. */
  lemma PgCovers(c: Config, b: Option<Bucket>, a: Arrival)
    requires c.Valid()
    ensures PgStep(c, b, a).allowed <==> a.cost <= 0.0 || Covers(c, b, a.at, a.cost)
  {
  }

  function Row(store: map<string, Bucket>, key: string): Option<Bucket>
  {
    if key in store then Some(store[key]) else None
  }

  /** The limiter with both stores: Redis keys with their expiry, and the Postgres table. */
  class RateLimiter {
    const c: Config
    var redis: map<string, Bucket>
    var rows: map<string, Bucket>

    constructor (perMinute: nat)
      requires perMinute > 0
      ensures c.Valid() && c.capacity == perMinute as real && c.refill * 60.0 == c.capacity
      ensures redis == map[] && rows == map[]
    {
      c := Config(perMinute as real, perMinute as real / 60.0);
      redis, rows := map[], map[];
    }

    /** The script, statement by statement. */
    method RunScript(key: string, now: real, cost: real) returns (allowed: bool, tokens: real)
      requires c.Valid()
      modifies `redis
      ensures var s := LuaStep(c, Live(c, Row(old(redis), key), now), Arrival(now, cost));
              allowed == s.allowed && tokens == s.bucket.tokens && redis == old(redis)[key := s.bucket]
    {
      var updated;
      if key in redis && now < redis[key].updated + Ttl(c) as real {
        tokens, updated := redis[key].tokens, redis[key].updated;
      } else {
        tokens, updated := c.capacity, now;
      }
      assert key !in redis || now >= redis[key].updated + Ttl(c) as real ==> Earned(c, updated, now) == 0.0;
      tokens := Min(c.capacity, tokens + Earned(c, updated, now));
      allowed := false;
      if tokens >= cost {
        tokens := tokens - cost;
        allowed := true;
      }
      redis := redis[key := Bucket(tokens, now)];
    }

    /** `_check_pg`. */
    method CheckPg(key: string, cost: real, now: real) returns (d: Decision)
      requires c.Valid()
      modifies `rows
      ensures var s := PgStep(c, Row(old(rows), key), Arrival(now, cost));
              rows == old(rows)[key := s.bucket] && d == Decide(c, s.allowed, Max(s.bucket.tokens, 0.0), now)
    {
      var tokens;
      if key !in rows {
        tokens := c.capacity - cost;
      } else {
        tokens := Max(-cost, Min(c.capacity, rows[key].tokens + Earned(c, rows[key].updated, now)) - cost);
      }
      rows := rows[key := Bucket(tokens, now)];
      d := Decide(c, tokens >= 0.0, Max(tokens, 0.0), now);
    }

    /** `check`: Redis when it answers, Postgres otherwise. When the script ran but its reply was
        lost, the request is charged to both stores and decided by Postgres. */
    method Check(key: string, cost: real, now: real, script: ScriptCall) returns (d: Decision)
      requires c.Valid()
      modifies `redis, `rows
      ensures var lua := LuaStep(c, Live(c, Row(old(redis), key), now), Arrival(now, cost));
              var pg := PgStep(c, Row(old(rows), key), Arrival(now, cost));
              && redis == (if script.NotRun? then old(redis) else old(redis)[key := lua.bucket])
              && rows == (if script.Answered? then old(rows) else old(rows)[key := pg.bucket])
              && d == if script.Answered? then Decide(c, lua.allowed, lua.bucket.tokens, now)
                      else Decide(c, pg.allowed, Max(pg.bucket.tokens, 0.0), now)
      ensures cost == 1.0 ==> d == if script.Answered? then LuaDecision(c, Live(c, Row(old(redis), key), now), now)
                                   else PgDecision(c, Row(old(rows), key), now)
      ensures script.Answered? ==>
                Answers(c, d, Covers(c, Live(c, Row(old(redis), key), now), now, cost), redis[key].tokens, now)
      ensures !script.Answered? ==>
                Answers(c, d, cost <= 0.0 || Covers(c, Row(old(rows), key), now, cost), rows[key].tokens, now)
    {
      hide Covers, Answers, Decide, LuaStep, PgStep, Live;
      ghost var arrival := Arrival(now, cost);
      ghost var lua, pg := Live(c, Row(redis, key), now), Row(rows, key);
      LuaCovers(c, lua, arrival);
      PgCovers(c, pg, arrival);
      DecisionAnswers(c, LuaStep(c, lua, arrival).allowed, LuaStep(c, lua, arrival).bucket.tokens, now);
      DecisionAnswers(c, PgStep(c, pg, arrival).allowed, PgStep(c, pg, arrival).bucket.tokens, now);
      if !script.NotRun? {
        var allowed, tokens := RunScript(key, now, cost);
        if script.Answered? {
          return Decide(c, allowed, tokens, now);
        }
      }
      d := CheckPg(key, cost, now);
    }
  }
}
