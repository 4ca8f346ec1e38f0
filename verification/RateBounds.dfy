/** What the limiter admits, over any run of calls with a non-decreasing clock. */
module RateBounds {
  import opened RateLimit
  import T = TokenBuckets

  ghost predicate InOrder(calls: seq<Call>)
  {
    forall i, j :: 0 <= i <= j < |calls| ==> calls[i].at <= calls[j].at
  }

  ghost predicate StepAt(c: Config, states: seq<Limiter>, calls: seq<Call>, i: nat)
    requires i < |calls| && |states| == |calls| + 1
  {
    Step(c, states[i], calls[i], states[i + 1])
  }

  /** `states[i]` is the limiter before call i; it starts as constructed. */
  ghost predicate Run(c: Config, states: seq<Limiter>, calls: seq<Call>)
  {
    && ValidConfig(c) && InOrder(calls)
    && |states| == |calls| + 1 && states[0] == Limiter(map[], 0.0)
    && forall i :: 0 <= i < |calls| ==> StepAt(c, states, calls, i)
  }

  /** Call n fits in the window that opens with call j: accepted calls in it,
      plus this one, are at most capacity plus rate times the window. */
  ghost predicate FitsWindow(c: Config, calls: seq<Call>, n: nat, j: nat)
    requires j <= n < |calls|
  {
    T.Accepted(calls, calls[n].key, j, n) as real + 1.0 <= c.capacity + (calls[n].at - calls[j].at) * c.rate
  }

  /** ... and so in every window that opens with a call of its key from call b
      on, up to it. */
  ghost predicate FitsEveryWindow(c: Config, calls: seq<Call>, b: nat, n: nat)
    requires n < |calls|
  {
    forall j: nat :: b <= j <= n && calls[j].key == calls[n].key ==> FitsWindow(c, calls, n, j)
  }

  // ---------------------------------------- from seconds to tokens earned

  /** Tokens earned from time zero to time t. */
  function Worth(c: Config, t: real): real
  {
    t * c.rate
  }

  lemma WorthMonotone(c: Config, a: real, b: real)
    requires c.rate >= 0.0 && a <= b
    ensures Worth(c, a) <= Worth(c, b)
  {}

  lemma WorthDifference(c: Config, a: real, b: real)
    ensures (b - a) * c.rate == Worth(c, b) - Worth(c, a)
  {}

  lemma RefilledWorth(c: Config, tokens: real, lastSeen: real, now: real)
    ensures RefilledTokens(c, tokens, lastSeen, now) == Min(c.capacity, tokens + Worth(c, now) - Worth(c, lastSeen))
  {
    WorthDifference(c, lastSeen, now);
  }

  function Earned(c: Config, calls: seq<Call>): (clock: seq<real>)
    ensures |clock| == |calls|
  {
    seq(|calls|, i requires 0 <= i < |calls| => Worth(c, calls[i].at))
  }

  function Scaled(c: Config, m: map<string, Level>): map<string, Level>
  {
    map k | k in m :: Level(m[k].tokens, Worth(c, m[k].lastSeen))
  }

  lemma EarnedClock(c: Config, calls: seq<Call>)
    requires ValidConfig(c) && InOrder(calls)
    ensures T.Clock(Earned(c, calls))
  {
    hide Worth;
    forall i, j | 0 <= i <= j < |calls| ensures Earned(c, calls)[i] <= Earned(c, calls)[j] {
      WorthMonotone(c, calls[i].at, calls[j].at);
    }
  }

  lemma ChargedScaled(c: Config, m: map<string, Level>, key: string, now: real)
    ensures T.Drawn(c.capacity, Scaled(c, m), key, Worth(c, now)) == Level(Charged(c, m, key, now).tokens, Worth(c, now))
    ensures Charged(c, m, key, now).lastSeen == now
  {
    hide Worth, RefilledTokens;
    var l := if key in m then m[key] else Level(c.capacity, now);
    RefilledWorth(c, l.tokens, l.lastSeen, now);
  }

  lemma ScaledUpdate(c: Config, m: map<string, Level>, key: string, l: Level)
    ensures Scaled(c, m[key := l]) == Scaled(c, m)[key := Level(l.tokens, Worth(c, l.lastSeen))]
  {
    hide Worth;
  }

  lemma WindowScaled(c: Config, calls: seq<Call>, n: nat, j: nat)
    requires j <= n < |calls|
    ensures FitsWindow(c, calls, n, j) <==>
            T.FitsFrom(c.capacity, Earned(c, calls), calls, n, j)
  {
    hide Worth, T.Accepted;
    var clock := Earned(c, calls);
    assert clock[n] == Worth(c, calls[n].at) && clock[j] == Worth(c, calls[j].at);
    var span := (calls[n].at - calls[j].at) * c.rate;
    WorthDifference(c, calls[j].at, calls[n].at);
    assert span == clock[n] - clock[j];
    assert FitsWindow(c, calls, n, j) <==> T.Accepted(calls, calls[n].key, j, n) as real + 1.0 <= c.capacity + span;
  }

  // ------------------------------------------------------ exact admission

  /** How often `key` was evicted during calls i, ..., k - 1. */
  ghost function Evictions(states: seq<Limiter>, key: string, i: nat, k: nat): nat
    requires i <= k < |states|
  {
    if i == k then 0
    else Evictions(states, key, i, k - 1) +
         (if key in states[k - 1].levels && key !in states[k].levels then 1 else 0)
  }

  /** One call leaves every bucket it keeps alone but the one it charges, and
      that one is in the map afterwards. */
  lemma StepCharges(c: Config, s: Limiter, k: Call, t: Limiter)
    requires Step(c, s, k, t)
    ensures k.key in t.levels
    ensures forall o :: o in t.levels && o != k.key ==> o in s.levels && t.levels[o] == s.levels[o]
    ensures k.allowed == (Charged(c, s.levels, k.key, k.at).tokens >= 1.0)
    ensures t.levels[k.key] == Spent(Charged(c, s.levels, k.key, k.at))
  {
    hide RefilledTokens;
    var room :| StepVia(c, s, k, room, t);
    assert forall o :: o in room ==> o in s.levels && room[o] == s.levels[o];
    assert k.key in s.levels ==> room == s.levels;
    assert Charged(c, room, k.key, k.at) == Charged(c, s.levels, k.key, k.at);
  }

  lemma {:induction false} EvictionsScaled(c: Config, states: seq<Limiter>, maps: seq<map<string, Level>>,
                                           key: string, i: nat, k: nat)
    requires |maps| == |states| && forall j :: 0 <= j < |maps| ==> maps[j] == Scaled(c, states[j].levels)
    requires i <= k < |states|
    ensures T.Forgotten(maps, key, i, k) == Evictions(states, key, i, k)
  {
    if i < k {
      EvictionsScaled(c, states, maps, key, i, k - 1);
    }
  }

  lemma ScaledCharges(c: Config, s: Limiter, k: Call, t: Limiter)
    requires Step(c, s, k, t)
    ensures T.Charges(c.capacity, Scaled(c, s.levels), k, Worth(c, k.at), Scaled(c, t.levels))
  {
    hide Charged, T.Drawn, Step, Worth;
    StepCharges(c, s, k, t);
    ChargedScaled(c, s.levels, k.key, k.at);
  }

  /** A run, with its times in tokens earned. */
  function Buckets(c: Config, states: seq<Limiter>): (maps: seq<map<string, Level>>)
    ensures |maps| == |states| && forall j :: 0 <= j < |maps| ==> maps[j] == Scaled(c, states[j].levels)
  {
    seq(|states|, j requires 0 <= j < |states| => Scaled(c, states[j].levels))
  }

  lemma RunIsTrace(c: Config, states: seq<Limiter>, calls: seq<Call>)
    requires Run(c, states, calls)
    ensures T.Trace(c.capacity, Earned(c, calls), calls, Buckets(c, states))
  {
    hide Charged, T.Drawn, Step, Worth, T.Charges;
    var clock, maps := Earned(c, calls), Buckets(c, states);
    EarnedClock(c, calls);
    forall n | 0 <= n < |calls| ensures T.Charges(c.capacity, maps[n], calls[n], clock[n], maps[n + 1]) {
      assert StepAt(c, states, calls, n);
      ScaledCharges(c, states[n], calls[n], states[n + 1]);
    }
  }

  lemma TraceAdmission(c: Config, calls: seq<Call>, maps: seq<map<string, Level>>, b: nat, n: nat)
    requires T.Trace(c.capacity, Earned(c, calls), calls, maps) && b <= n < |calls|
    requires calls[n].key !in maps[b] && T.Forgotten(maps, calls[n].key, b, n) == 0
    ensures calls[n].allowed <==> FitsEveryWindow(c, calls, b, n)
  {
    var clock := Earned(c, calls);
    hide FitsWindow, T.FitsFrom, Worth, T.Charges;
    T.ExactlyWhatFits(c.capacity, clock, calls, maps, b, n);
    forall j: nat | j <= n ensures FitsWindow(c, calls, n, j) <==> T.FitsFrom(c.capacity, clock, calls, n, j) {
      WindowScaled(c, calls, n, j);
    }
  }

  /** Exact admission: a call is allowed exactly when it fits in every window
      that its key's calls open since the key was last without a bucket, whatever
      the rate, and however often other keys were swept or dropped for the size
      cap. Nothing inadmissible passes and nothing admissible is refused. */
  lemma ExactAdmissionSince(c: Config, states: seq<Limiter>, calls: seq<Call>, b: nat, n: nat)
    requires Run(c, states, calls) && b <= n < |calls|
    requires calls[n].key !in states[b].levels && Evictions(states, calls[n].key, b, n) == 0
    ensures calls[n].allowed <==> FitsEveryWindow(c, calls, b, n)
  {
    hide FitsEveryWindow;
    RunIsTrace(c, states, calls);
    EvictionsScaled(c, states, Buckets(c, states), calls[n].key, b, n);
    TraceAdmission(c, calls, Buckets(c, states), b, n);
  }

  /** Every key has such a moment before any call: its last eviction, or the
      start. */
  lemma {:induction false} LastWithout(c: Config, states: seq<Limiter>, calls: seq<Call>, key: string, n: nat) returns (b: nat)
    requires Run(c, states, calls) && n <= |calls|
    ensures b <= n && key !in states[b].levels && Evictions(states, key, b, n) == 0
  {
    if key !in states[n].levels {
      b := n;
    } else {
      b := LastWithout(c, states, calls, key, n - 1);
    }
  }

  /** So a call whose key has not been evicted is allowed exactly when it fits in
      every window since the start. */
  lemma ExactAdmissionOfKey(c: Config, states: seq<Limiter>, calls: seq<Call>, n: nat)
    requires Run(c, states, calls) && n < |calls| && Evictions(states, calls[n].key, 0, n) == 0
    ensures calls[n].allowed <==> FitsEveryWindow(c, calls, 0, n)
  {
    hide FitsEveryWindow, StepAt;
    ExactAdmissionSince(c, states, calls, 0, n);
  }

  // ------------------------------------- the simple limiter: it never forgets

  /** One bucket per key for ever: the buckets after the first n calls. */
  function Ideal(c: Config, calls: seq<Call>, n: nat): map<string, Level>
    requires n <= |calls|
  {
    if n == 0 then map[]
    else
      var m, k := Ideal(c, calls, n - 1), calls[n - 1];
      m[k.key := Spent(Charged(c, m, k.key, k.at))]
  }

  ghost predicate IdealAt(c: Config, calls: seq<Call>, n: nat)
    requires n < |calls|
  {
    calls[n].allowed == (Charged(c, Ideal(c, calls, n), calls[n].key, calls[n].at).tokens >= 1.0)
  }

  /** Every recorded decision is the simple limiter's. */
  ghost predicate IdealRun(c: Config, calls: seq<Call>)
  {
    InOrder(calls) && forall n :: 0 <= n < |calls| ==> IdealAt(c, calls, n)
  }

  function IdealBuckets(c: Config, calls: seq<Call>): (maps: seq<map<string, Level>>)
    ensures |maps| == |calls| + 1 && forall i :: 0 <= i <= |calls| ==> maps[i] == Scaled(c, Ideal(c, calls, i))
  {
    seq(|calls| + 1, i requires 0 <= i <= |calls| => Scaled(c, Ideal(c, calls, i)))
  }

  lemma IdealKeeps(c: Config, calls: seq<Call>, key: string, i: nat)
    requires i < |calls| && key in IdealBuckets(c, calls)[i]
    ensures key in IdealBuckets(c, calls)[i + 1]
  {
    hide Charged, Worth;
    assert key in Scaled(c, Ideal(c, calls, i));
  }

  lemma {:induction false} IdealNeverForgets(c: Config, calls: seq<Call>, key: string, k: nat)
    requires k <= |calls|
    ensures T.Forgotten(IdealBuckets(c, calls), key, 0, k) == 0
  {
    hide IdealBuckets, Scaled, Ideal;
    if k > 0 {
      IdealNeverForgets(c, calls, key, k - 1);
      if key in IdealBuckets(c, calls)[k - 1] {
        IdealKeeps(c, calls, key, k - 1);
      }
    }
  }

  lemma IdealCharges(c: Config, calls: seq<Call>, i: nat)
    requires i < |calls| && IdealAt(c, calls, i)
    ensures T.Charges(c.capacity, Scaled(c, Ideal(c, calls, i)), calls[i], Worth(c, calls[i].at), Scaled(c, Ideal(c, calls, i + 1)))
  {
    hide Worth, Charged, T.Drawn;
    var m, k := Ideal(c, calls, i), calls[i];
    ChargedScaled(c, m, k.key, k.at);
    ScaledUpdate(c, m, k.key, Spent(Charged(c, m, k.key, k.at)));
    hide Scaled, Ideal;
  }

  lemma IdealRunIsTrace(c: Config, calls: seq<Call>)
    requires ValidConfig(c) && IdealRun(c, calls)
    ensures T.Trace(c.capacity, Earned(c, calls), calls, IdealBuckets(c, calls))
  {
    hide T.Charges, Worth, IdealAt, Charged;
    var maps := IdealBuckets(c, calls);
    EarnedClock(c, calls);
    assert maps[0] == map[];
    hide Scaled, Ideal, T.Clock, InOrder;
    forall i | 0 <= i < |calls| ensures T.Charges(c.capacity, maps[i], calls[i], Earned(c, calls)[i], maps[i + 1]) {
      IdealCharges(c, calls, i);
    }
  }

  /** Exact admission of the simple limiter, to which no condition applies. */
  lemma ExactAdmission(c: Config, calls: seq<Call>, n: nat)
    requires ValidConfig(c) && IdealRun(c, calls) && n < |calls|
    ensures calls[n].allowed <==> FitsEveryWindow(c, calls, 0, n)
  {
    hide FitsEveryWindow, T.Trace, IdealRun;
    IdealRunIsTrace(c, calls);
    IdealNeverForgets(c, calls, calls[n].key, n);
    TraceAdmission(c, calls, IdealBuckets(c, calls), 0, n);
  }

  // ------------------------------------------------- eviction is not noticed

  ghost predicate Sane(c: Config, m: map<string, Level>, now: real)
  {
    forall k :: k in m ==> 0.0 <= m[k].tokens <= c.capacity && m[k].lastSeen <= now
  }

  lemma ChargedBounds(c: Config, m: map<string, Level>, key: string, now: real)
    requires ValidConfig(c) && Sane(c, m, now)
    ensures 0.0 <= Charged(c, m, key, now).tokens <= c.capacity
    ensures key !in m ==> Charged(c, m, key, now).tokens == c.capacity
    ensures Charged(c, m, key, now).lastSeen == now
  {
    hide Worth, RefilledTokens;
    var l := if key in m then m[key] else Level(c.capacity, now);
    RefilledWorth(c, l.tokens, l.lastSeen, now);
    WorthMonotone(c, l.lastSeen, now);
  }

  lemma {:induction false} IdealSane(c: Config, calls: seq<Call>, n: nat, now: real)
    requires ValidConfig(c) && InOrder(calls) && n <= |calls|
    requires n > 0 ==> calls[n - 1].at <= now
    ensures Sane(c, Ideal(c, calls, n), now)
  {
    if n > 0 {
      IdealSane(c, calls, n - 1, calls[n - 1].at);
      ChargedBounds(c, Ideal(c, calls, n - 1), calls[n - 1].key, calls[n - 1].at);
    }
  }

  /** The evicting limiter agrees with the simple one on the buckets it still
      has; those it forgot have been idle for longer than evictAfter. */
  ghost predicate Refines(c: Config, m: map<string, Level>, ideal: map<string, Level>, now: real)
  {
    && (forall k :: k in m ==> k in ideal && m[k] == ideal[k])
    && (forall k :: k in ideal && k !in m ==> ideal[k].lastSeen < now - c.evictAfter)
  }

  lemma ForgottenIsFull(c: Config, m: map<string, Level>, ideal: map<string, Level>, key: string, now: real)
    requires ValidConfig(c) && c.rate * c.evictAfter >= c.capacity
    requires Refines(c, m, ideal, now) && Sane(c, ideal, now)
    ensures Charged(c, m, key, now) == Charged(c, ideal, key, now)
  {
    hide Worth, RefilledTokens;
    if key in ideal && key !in m {
      var l := ideal[key];
      RefilledWorth(c, l.tokens, l.lastSeen, now);
      WorthMonotone(c, l.lastSeen, now - c.evictAfter);
      EvictAfterFills(c, now);
      ChargedBounds(c, map[], key, now);
    }
  }

  lemma EvictAfterFills(c: Config, now: real)
    requires c.rate * c.evictAfter >= c.capacity
    ensures Worth(c, now) - Worth(c, now - c.evictAfter) >= c.capacity
  {
    assert (now - (now - c.evictAfter)) * c.rate == c.rate * c.evictAfter;
    WorthDifference(c, now - c.evictAfter, now);
  }

  lemma SweepRefines(c: Config, s: Limiter, ideal: map<string, Level>, now: real)
    requires ValidConfig(c) && Refines(c, s.levels, ideal, now)
    ensures Refines(c, Swept(c, s, now).levels, ideal, now)
  {}

  lemma ChargeRefines(c: Config, m: map<string, Level>, ideal: map<string, Level>, key: string, l: Level, now: real)
    requires Refines(c, m, ideal, now)
    ensures Refines(c, m[key := l], ideal[key := l], now)
  {}

  lemma StepRefines(c: Config, s: Limiter, k: Call, t: Limiter, ideal: map<string, Level>)
    requires ValidConfig(c) && c.rate * c.evictAfter >= c.capacity
    requires Step(c, s, k, t) && k.drop.NoDrop?
    requires Refines(c, s.levels, ideal, k.at) && Sane(c, ideal, k.at)
    ensures k.allowed == (Charged(c, ideal, k.key, k.at).tokens >= 1.0)
    ensures Refines(c, t.levels, ideal[k.key := Spent(Charged(c, ideal, k.key, k.at))], k.at)
  {
    var room :| StepVia(c, s, k, room, t);
    assert Refines(c, room, ideal, k.at);
    ForgottenIsFull(c, room, ideal, k.key, k.at);
    var level := Charged(c, ideal, k.key, k.at);
    var lastEvict := if Saturated(c, s.levels, k.key) then k.at else s.lastEvict;
    var charged := Limiter(room[k.key := level], lastEvict);
    ChargeRefines(c, room, ideal, k.key, level, k.at);
    SweepRefines(c, charged, ideal[k.key := level], k.at);
    ChargeRefines(c, Swept(c, charged, k.at).levels, ideal[k.key := level], k.key, Spent(level), k.at);
    assert ideal[k.key := level][k.key := Spent(level)] == ideal[k.key := Spent(level)];
  }

  lemma LaterRefines(c: Config, m: map<string, Level>, ideal: map<string, Level>, now: real, later: real)
    requires Refines(c, m, ideal, now) && now <= later
    ensures Refines(c, m, ideal, later)
  {}

  /** The size cap dropped no bucket. */
  ghost predicate NeverFull(calls: seq<Call>)
  {
    forall i :: 0 <= i < |calls| ==> calls[i].drop.NoDrop?
  }

  lemma {:induction false} RunRefines(c: Config, states: seq<Limiter>, calls: seq<Call>, n: nat, now: real)
    requires Run(c, states, calls) && c.rate * c.evictAfter >= c.capacity
    requires NeverFull(calls)
    requires n <= |calls| && (n > 0 ==> calls[n - 1].at <= now)
    ensures Refines(c, states[n].levels, Ideal(c, calls, n), now)
    ensures forall i :: 0 <= i < n ==> IdealAt(c, calls, i)
  {
    hide Step, Charged;
    if n > 0 {
      var k := calls[n - 1];
      RunRefines(c, states, calls, n - 1, k.at);
      IdealSane(c, calls, n - 1, k.at);
      assert StepAt(c, states, calls, n - 1);
      StepRefines(c, states[n - 1], k, states[n], Ideal(c, calls, n - 1));
      hide Refines;
      LaterRefines(c, states[n].levels, Ideal(c, calls, n), k.at, now);
    }
  }

  /** With rate * evictAfter >= capacity and no bucket dropped for the size cap,
      eviction does not show: every decision is the simple limiter's, so exact
      admission holds of the limiter itself. */
  lemma EvictionInvisible(c: Config, states: seq<Limiter>, calls: seq<Call>)
    requires Run(c, states, calls) && c.rate * c.evictAfter >= c.capacity
    requires NeverFull(calls)
    ensures IdealRun(c, calls)
    ensures forall n :: 0 <= n < |calls| ==> (calls[n].allowed <==> FitsEveryWindow(c, calls, 0, n))
  {
    RunRefines(c, states, calls, |calls|, if calls == [] then 0.0 else calls[|calls| - 1].at);
    forall n | 0 <= n < |calls| ensures calls[n].allowed <==> FitsEveryWindow(c, calls, 0, n) {
      ExactAdmission(c, calls, n);
    }
  }

  // ----------------------------------------------- ... and when it is noticed

  /** What the size cap leaves when it need drop nothing. */
  function Room(c: Config, s: Limiter, key: string, now: real): Limiter
  {
    if Saturated(c, s.levels, key) then Limiter(Kept(s.levels, now - c.evictAfter), now) else s
  }

  predicate HasRoom(c: Config, s: Limiter, key: string, now: real)
  {
    Saturated(c, s.levels, key) ==> |Room(c, s, key, now).levels| < c.maxBuckets
  }

  /** A call for which the size cap drops nothing. */
  function NextCall(c: Config, s: Limiter, key: string, now: real): Call
  {
    Call(key, now, Charged(c, Room(c, s, key, now).levels, key, now).tokens >= 1.0, NoDrop)
  }

  function Next(c: Config, s: Limiter, key: string, now: real): Limiter
  {
    var room := Room(c, s, key, now);
    var level := Charged(c, room.levels, key, now);
    var swept := Swept(c, room.(levels := room.levels[key := level]), now);
    swept.(levels := swept.levels[key := Spent(level)])
  }

  lemma NextIsStep(c: Config, s: Limiter, key: string, now: real)
    requires HasRoom(c, s, key, now)
    ensures Step(c, s, NextCall(c, s, key, now), Next(c, s, key, now))
  {
    assert StepVia(c, s, NextCall(c, s, key, now), Room(c, s, key, now).levels, Next(c, s, key, now));
  }

  /** A run that went as the simple limiter would have it, up to the level of
      key "a": it has `y` tokens left at `t`, and the simple limiter `x`. */
  ghost predicate Stage(c: Config, states: seq<Limiter>, calls: seq<Call>, t: real, y: real, x: real)
  {
    && Run(c, states, calls) && NeverFull(calls)
    && (forall i :: 0 <= i < |calls| ==> calls[i].at <= t)
    && var s, ideal := states[|calls|], Ideal(c, calls, |calls|);
    && s.lastEvict <= t
    && "a" in s.levels && s.levels["a"] == Level(y, t)
    && "a" in ideal && ideal["a"] == Level(x, t)
  }

  lemma {:induction false} IdealOfPrefix(c: Config, calls: seq<Call>, k: Call, n: nat)
    requires n <= |calls|
    ensures Ideal(c, calls + [k], n) == Ideal(c, calls, n)
  {
    if n > 0 {
      IdealOfPrefix(c, calls, k, n - 1);
    }
  }

  /** One more call. */
  lemma Extend(c: Config, states: seq<Limiter>, calls: seq<Call>, key: string, now: real)
    returns (more: seq<Limiter>, longer: seq<Call>)
    requires Run(c, states, calls) && NeverFull(calls) && HasRoom(c, states[|calls|], key, now)
    requires forall i :: 0 <= i < |calls| ==> calls[i].at <= now
    ensures longer == calls + [NextCall(c, states[|calls|], key, now)]
    ensures more == states + [Next(c, states[|calls|], key, now)]
    ensures Run(c, more, longer) && NeverFull(longer)
    ensures var ideal := Ideal(c, calls, |calls|);
            Ideal(c, longer, |longer|) == ideal[key := Spent(Charged(c, ideal, key, now))]
    ensures IdealAt(c, longer, |calls|) <==>
              (Charged(c, Room(c, states[|calls|], key, now).levels, key, now).tokens >= 1.0)
              == (Charged(c, Ideal(c, calls, |calls|), key, now).tokens >= 1.0)
  {
    hide Step, Next, Charged;
    var n := |calls|;
    longer, more := calls + [NextCall(c, states[n], key, now)], states + [Next(c, states[n], key, now)];
    forall i | 0 <= i < |longer| ensures StepAt(c, more, longer, i) {
      if i < n {
        assert StepAt(c, states, calls, i);
      } else {
        NextIsStep(c, states[n], key, now);
      }
    }
    IdealOfPrefix(c, calls, longer[n], n);
  }

  /** A bucket charged within its capacity. */
  lemma ChargedAfter(c: Config, m: map<string, Level>, key: string, now: real, earned: real)
    requires key in m && (now - m[key].lastSeen) * c.rate == earned && m[key].tokens + earned <= c.capacity
    ensures Charged(c, m, key, now) == Level(m[key].tokens + earned, now)
  {}

  /** A call of "a" in between, for both limiters. */
  lemma CallAgain(c: Config, states: seq<Limiter>, calls: seq<Call>, t: real, y: real, x: real, now: real, earned: real)
    returns (more: seq<Limiter>, longer: seq<Call>)
    requires Stage(c, states, calls, t, y, x) && t <= now && (now - t) * c.rate == earned
    requires x <= y && y + earned <= c.capacity
    ensures |longer| == |calls| + 1 && Run(c, more, longer) && NeverFull(longer)
    ensures IdealAt(c, longer, |calls|) <==> (y + earned >= 1.0) == (x + earned >= 1.0)
    ensures (y + earned >= 1.0) && (x + earned >= 1.0) ==> Stage(c, more, longer, now, y + earned - 1.0, x + earned - 1.0)
    ensures more[|longer|].levels.Keys <= states[|calls|].levels.Keys
  {
    hide Charged;
    var s, ideal := states[|calls|], Ideal(c, calls, |calls|);
    ChargedAfter(c, s.levels, "a", now, earned);
    ChargedAfter(c, ideal, "a", now, earned);
    more, longer := Extend(c, states, calls, "a", now);
  }

  /** From two different levels on, some decision differs: spend both down in
      step and, when the smaller is not exhausted first, wait for the larger's
      next whole token. */
  lemma {:induction false} Diverge(c: Config, states: seq<Limiter>, calls: seq<Call>, t: real, y: real, x: real)
    returns (more: seq<Limiter>, longer: seq<Call>)
    requires ValidConfig(c) && c.capacity >= 1.0 && x < y <= c.capacity && y >= 0.0
    requires Stage(c, states, calls, t, y, x)
    ensures Run(c, more, longer) && NeverFull(longer) && !IdealRun(c, longer)
    decreases y.Floor
  {
    hide Stage, IdealAt;
    if y >= 1.0 {
      assert (t - t) * c.rate == 0.0;
      more, longer := CallAgain(c, states, calls, t, y, x, t, 0.0);
      if x >= 1.0 {
        more, longer := Diverge(c, more, longer, t, y - 1.0, x - 1.0);
      }
    } else {
      var now := t + (1.0 - y) / c.rate;
      WaitFor(c, t, 1.0 - y);
      more, longer := CallAgain(c, states, calls, t, y, x, now, 1.0 - y);
    }
  }

  lemma WaitFor(c: Config, t: real, tokens: real)
    requires c.rate > 0.0 && tokens >= 0.0
    ensures t + tokens / c.rate >= t && (t + tokens / c.rate - t) * c.rate == tokens
  {}

  /** "a" alone, spent down to nothing. */
  lemma {:induction false} SpendAll(c: Config, states: seq<Limiter>, calls: seq<Call>, t: real, y: real)
    returns (more: seq<Limiter>, longer: seq<Call>, later: real)
    requires ValidConfig(c) && c.capacity >= 1.0 && 0.0 <= y <= c.capacity
    requires Stage(c, states, calls, t, y, y) && states[|calls|].levels.Keys <= {"a"}
    ensures Stage(c, more, longer, later, 0.0, 0.0) && more[|longer|].levels.Keys <= {"a"} && later >= t
    decreases y.Floor, y > 0.0
  {
    hide IdealAt;
    if y == 0.0 {
      more, longer, later := states, calls, t;
    } else if y >= 1.0 {
      assert (t - t) * c.rate == 0.0;
      more, longer := CallAgain(c, states, calls, t, y, y, t, 0.0);
      more, longer, later := SpendAll(c, more, longer, t, y - 1.0);
    } else {
      later := t + (1.0 - y) / c.rate;
      WaitFor(c, t, 1.0 - y);
      more, longer := CallAgain(c, states, calls, t, y, y, later, 1.0 - y);
    }
  }

  /** The first call: a full bucket, one token spent. */
  lemma FirstCall(c: Config, start: real) returns (states: seq<Limiter>, calls: seq<Call>)
    requires ValidConfig(c) && c.capacity >= 1.0 && start >= 0.0
    ensures Stage(c, states, calls, start, c.capacity - 1.0, c.capacity - 1.0) && states[|calls|].levels.Keys <= {"a"}
  {
    var s := Limiter(map[], 0.0);
    assert Run(c, [s], []);
    FullLevel(c, map[], "a", start);
    states, calls := Extend(c, [s], [], "a", start);
  }

  lemma FullLevel(c: Config, m: map<string, Level>, key: string, now: real)
    requires key !in m && c.capacity >= 0.0
    ensures Charged(c, m, key, now) == Level(c.capacity, now)
  {
    assert (now - now) * c.rate == 0.0;
  }

  /** How long a bucket is idle before it is forgotten. With room for one key
      only, the key that takes its place must become idle in its turn. */
  function IdleTime(c: Config): real
  {
    if c.maxBuckets == 1 then 2.0 * c.evictAfter else c.evictAfter
  }

  /** "b" takes the place of the exhausted bucket of "a" ... */
  lemma SweepAway(c: Config, states: seq<Limiter>, calls: seq<Call>, t: real, now: real)
    returns (more: seq<Limiter>, longer: seq<Call>)
    requires ValidConfig(c) && now > t + c.evictAfter
    requires Stage(c, states, calls, t, 0.0, 0.0) && states[|calls|].levels.Keys <= {"a"}
    ensures Run(c, more, longer) && NeverFull(longer) && forall i :: 0 <= i < |longer| ==> longer[i].at <= now
    ensures var s, ideal := more[|longer|], Ideal(c, longer, |longer|);
            && s.levels.Keys == {"b"} && s.levels["b"].lastSeen == now && s.lastEvict <= now
            && "a" in ideal && ideal["a"] == Level(0.0, t)
  {
    hide RefilledTokens;
    var s := states[|calls|];
    assert s.levels.Keys == {"a"} && |s.levels.Keys| == |s.levels|;
    assert Kept(s.levels, now - c.evictAfter) == map[];
    more, longer := Extend(c, states, calls, "b", now);
  }

  /** ... and "a" comes back full. */
  lemma ComeBack(c: Config, states: seq<Limiter>, calls: seq<Call>, t: real, d: real)
    returns (more: seq<Limiter>, longer: seq<Call>)
    requires ValidConfig(c) && c.capacity >= 1.0 && d > IdleTime(c) && d * c.rate <= c.capacity
    requires Stage(c, states, calls, t, 0.0, 0.0) && states[|calls|].levels.Keys <= {"a"}
    ensures |longer| > 0 && Run(c, more, longer) && NeverFull(longer)
    ensures IdealAt(c, longer, |longer| - 1) ==> Stage(c, more, longer, t + d, c.capacity - 1.0, d * c.rate - 1.0)
  {
    hide Charged;
    var now := t + d;
    more, longer := SweepAway(c, states, calls, t, if c.maxBuckets == 1 then t + d / 2.0 else now);
    var u, ideal := more[|longer|], Ideal(c, longer, |longer|);
    assert |u.levels.Keys| == |u.levels|;
    assert c.maxBuckets == 1 ==> Kept(u.levels, now - c.evictAfter) == map[];
    assert (now - t) * c.rate == d * c.rate by { assert now - t == d; }
    ChargedAfter(c, ideal, "a", now, d * c.rate);
    FullLevel(c, Room(c, u, "a", now).levels, "a", now);
    more, longer := Extend(c, more, longer, "a", now);
  }

  /** A bucket that refills more slowly than it is forgotten comes back fuller
      than it should: from any time on there are calls of two keys, with nothing
      dropped for the size cap, that the limiter does not decide as the simple
      one does. */
  lemma SlowRefillShowsEviction(c: Config, start: real) returns (states: seq<Limiter>, calls: seq<Call>)
    requires ValidConfig(c) && start >= 0.0
    requires c.capacity >= 1.0 && c.rate * IdleTime(c) < c.capacity
    ensures Run(c, states, calls) && NeverFull(calls) && !IdealRun(c, calls)
  {
    hide Stage, IdealAt, IdleTime;
    var t;
    states, calls := FirstCall(c, start);
    states, calls, t := SpendAll(c, states, calls, start, c.capacity - 1.0);
    var d := Between(c, IdleTime(c));
    states, calls := ComeBack(c, states, calls, t, d);
    if IdealAt(c, calls, |calls| - 1) {
      states, calls := Diverge(c, states, calls, t + d, c.capacity - 1.0, d * c.rate - 1.0);
    }
  }

  /** Idle long enough to be forgotten, not long enough to be full. */
  lemma Between(c: Config, idle: real) returns (d: real)
    requires c.rate > 0.0 && c.rate * idle < c.capacity
    ensures d > idle && d * c.rate < c.capacity
  {
    var gap := c.capacity - c.rate * idle;
    d := idle + gap / 2.0 / c.rate;
    assert gap / 2.0 / c.rate * c.rate == gap / 2.0;
    assert d * c.rate == idle * c.rate + gap / 2.0;
  }

  // With room for one key only.

  /** The key called last is held; the others were idle when it came. */
  ghost predicate RefinesOne(c: Config, m: map<string, Level>, ideal: map<string, Level>, held: string)
  {
    && m.Keys == {held} && held in ideal && m[held] == ideal[held]
    && forall k :: k in ideal && k != held ==> ideal[k].lastSeen < ideal[held].lastSeen - c.evictAfter
  }

  lemma TakeOver(c: Config, s: Limiter, k: Call, t: Limiter, held: string)
    requires c.maxBuckets == 1 && s.levels.Keys == {held} && Step(c, s, k, t) && k.drop.NoDrop?
    ensures t.levels.Keys == {k.key}
    ensures k.key != held ==> s.levels[held].lastSeen < k.at - c.evictAfter
  {
    hide Charged;
    var room :| StepVia(c, s, k, room, t);
    assert |s.levels.Keys| == |s.levels| == 1;
    if k.key != held {
      var kept := Kept(s.levels, k.at - c.evictAfter);
      assert |kept.Keys| == |kept|;
      assert kept.Keys == {} && room == kept;
    }
  }

  lemma IdleTwiceIsFull(c: Config, ideal: map<string, Level>, key: string, now: real)
    requires ValidConfig(c) && c.rate * (2.0 * c.evictAfter) >= c.capacity && Sane(c, ideal, now)
    requires key in ideal ==> ideal[key].lastSeen < now - 2.0 * c.evictAfter
    ensures Charged(c, ideal, key, now) == Level(c.capacity, now)
  {
    if key in ideal {
      var l := ideal[key];
      ChargedIs(c, ideal, key, now);
      RefilledWorth(c, l.tokens, l.lastSeen, now);
      WorthMonotone(c, l.lastSeen, now - 2.0 * c.evictAfter);
      TwiceFills(c, now);
      hide Worth, RefilledTokens, Charged;
    } else {
      FullLevel(c, ideal, key, now);
    }
  }

  lemma ChargedIs(c: Config, m: map<string, Level>, key: string, now: real)
    requires key in m
    ensures Charged(c, m, key, now) == Level(RefilledTokens(c, m[key].tokens, m[key].lastSeen, now), now)
  {}

  lemma TwiceFills(c: Config, now: real)
    requires c.rate * (2.0 * c.evictAfter) >= c.capacity
    ensures Worth(c, now) - Worth(c, now - 2.0 * c.evictAfter) >= c.capacity
  {
    assert (now - (now - 2.0 * c.evictAfter)) * c.rate == c.rate * (2.0 * c.evictAfter);
    WorthDifference(c, now - 2.0 * c.evictAfter, now);
  }

  lemma StepRefinesOne(c: Config, s: Limiter, k: Call, t: Limiter, ideal: map<string, Level>, held: string)
    requires ValidConfig(c) && c.maxBuckets == 1 && c.rate * (2.0 * c.evictAfter) >= c.capacity
    requires Step(c, s, k, t) && k.drop.NoDrop?
    requires RefinesOne(c, s.levels, ideal, held) && Sane(c, ideal, k.at)
    ensures k.allowed == (Charged(c, ideal, k.key, k.at).tokens >= 1.0)
    ensures RefinesOne(c, t.levels, ideal[k.key := Spent(Charged(c, ideal, k.key, k.at))], k.key)
  {
    TakeOver(c, s, k, t, held);
    StepCharges(c, s, k, t);
    ChargedBounds(c, ideal, k.key, k.at);
    if k.key == held {
      assert Charged(c, s.levels, held, k.at) == Charged(c, ideal, held, k.at);
    } else {
      IdleTwiceIsFull(c, ideal, k.key, k.at);
      FullLevel(c, s.levels, k.key, k.at);
    }
    hide Step, Charged;
  }

  lemma FirstOfOne(c: Config, s: Limiter, k: Call, t: Limiter)
    requires ValidConfig(c) && s.levels == map[] && Step(c, s, k, t)
    ensures k.allowed == (Charged(c, map[], k.key, k.at).tokens >= 1.0)
    ensures RefinesOne(c, t.levels, map[k.key := Spent(Charged(c, map[], k.key, k.at))], k.key)
  {
    StepCharges(c, s, k, t);
    hide Step, Charged;
    assert t.levels.Keys == {k.key};
  }

  lemma {:induction false} RunRefinesOne(c: Config, states: seq<Limiter>, calls: seq<Call>, n: nat)
    requires Run(c, states, calls) && NeverFull(calls) && n <= |calls|
    requires c.maxBuckets == 1 && c.rate * (2.0 * c.evictAfter) >= c.capacity
    ensures n > 0 ==> RefinesOne(c, states[n].levels, Ideal(c, calls, n), calls[n - 1].key)
    ensures forall i :: 0 <= i < n ==> IdealAt(c, calls, i)
  {
    hide Step, Charged, RefinesOne;
    if n > 0 {
      var k := calls[n - 1];
      RunRefinesOne(c, states, calls, n - 1);
      IdealSane(c, calls, n - 1, k.at);
      assert StepAt(c, states, calls, n - 1);
      if n == 1 {
        FirstOfOne(c, states[0], k, states[1]);
        assert Ideal(c, calls, 0) == map[];
      } else {
        StepRefinesOne(c, states[n - 1], k, states[n], Ideal(c, calls, n - 1), calls[n - 2].key);
      }
    }
  }

  /** A capacity below one token admits nothing, evicting or not. */
  lemma NothingFits(c: Config, states: seq<Limiter>, calls: seq<Call>)
    requires Run(c, states, calls) && c.capacity < 1.0
    ensures IdealRun(c, calls)
  {
    forall n | 0 <= n < |calls| ensures IdealAt(c, calls, n) {
      assert StepAt(c, states, calls, n);
      StepCharges(c, states[n], calls[n], states[n + 1]);
    }
  }

  /** Exactly when eviction cannot show while the size cap drops nothing: when
      nothing is ever admitted, or an idle bucket is full again by the time it
      is forgotten. */
  lemma EvictionShowsExactly(c: Config)
    requires ValidConfig(c)
    ensures (forall states, calls :: Run(c, states, calls) && NeverFull(calls) ==> IdealRun(c, calls))
       <==> c.capacity < 1.0 || c.rate * IdleTime(c) >= c.capacity
  {
    if c.capacity < 1.0 || c.rate * IdleTime(c) >= c.capacity {
      forall states, calls | Run(c, states, calls) && NeverFull(calls) ensures IdealRun(c, calls) {
        if c.capacity < 1.0 {
          NothingFits(c, states, calls);
        } else if c.maxBuckets == 1 {
          RunRefinesOne(c, states, calls, |calls|);
        } else {
          EvictionInvisible(c, states, calls);
        }
      }
    } else {
      hide Run, NeverFull, IdealRun;
      var states, calls := SlowRefillShowsEviction(c, 0.0);
    }
  }

  // --------------------------------------------------- the bound with evictions

  /** The map never exceeds a positive cap. */
  lemma StepWithinCap(c: Config, s: Limiter, k: Call, t: Limiter)
    requires Step(c, s, k, t) && c.maxBuckets > 0 && |s.levels| <= c.maxBuckets
    ensures |t.levels| <= c.maxBuckets
  {
    var room :| StepVia(c, s, k, room, t);
    RoomBounded(c, s, k, room);
    var charged := room[k.key := Charged(c, room, k.key, k.at)];
    assert charged.Keys == room.Keys + {k.key};
    assert t.levels.Keys <= room.Keys + {k.key};
    SubsetSize(t.levels.Keys, room.Keys + {k.key});
    assert |t.levels.Keys| == |t.levels|;
  }

  lemma RoomBounded(c: Config, s: Limiter, k: Call, room: map<string, Level>)
    requires RoomFor(c, s.levels, k.key, k.at, room, k.drop)
    requires c.maxBuckets > 0 && |s.levels| <= c.maxBuckets
    ensures |room.Keys + {k.key}| <= c.maxBuckets
  {
    assert |room.Keys| == |room| && |s.levels.Keys| == |s.levels|;
    if k.key in s.levels {
      assert room.Keys + {k.key} == room.Keys;
    } else if Saturated(c, s.levels, k.key) {
      var kept := Kept(s.levels, k.at - c.evictAfter);
      SubsetSize(kept.Keys, s.levels.Keys);
      assert |kept.Keys| == |kept|;
      if k.drop.Oldest? {
        assert room.Keys == kept.Keys - {k.drop.key};
      }
    }
  }

  lemma {:induction false} SubsetSize<X>(a: set<X>, b: set<X>)
    requires a <= b
    ensures |a| <= |b|
  {
    assert b == a + (b - a);
  }

  lemma {:induction false} AllowanceProduct(cap: real, n: nat)
    ensures T.Allowance(cap, n) == cap * (1 + n) as real
  {
    if n > 0 {
      AllowanceProduct(cap, n - 1);
    }
  }

  /** In every window, whatever is evicted in between: accepted calls are at
      most capacity * (1 + evictions of the key) + rate * window. */
  lemma WindowBound(c: Config, states: seq<Limiter>, calls: seq<Call>, key: string, i: nat, k: nat)
    requires Run(c, states, calls) && i < k <= |calls|
    ensures T.Accepted(calls, key, i, k) as real
            <= c.capacity * (1 + Evictions(states, key, i, k)) as real + (calls[k - 1].at - calls[i].at) * c.rate
  {
    hide Worth, T.Trace, T.Accepted, T.Allowance;
    RunIsTrace(c, states, calls);
    T.WindowFits(c.capacity, Earned(c, calls), calls, Buckets(c, states), key, i, k);
    EvictionsScaled(c, states, Buckets(c, states), key, i, k);
    AllowanceProduct(c.capacity, Evictions(states, key, i, k));
    WorthDifference(c, calls[i].at, calls[k - 1].at);
  }

  // ------------------------------------------------------ what is remembered

  /** The keys seen within evictAfter of `now`. */
  function Recent(c: Config, levels: map<string, Level>, now: real): set<string>
  {
    set p | p in levels && now - levels[p].lastSeen <= c.evictAfter
  }

  /** A call forgets a bucket only when it has been idle for longer than
      evictAfter; or when a new key meets a map with a full cap of buckets that
      have not, and then the longest idle of these. */
  lemma StepForgets(c: Config, s: Limiter, k: Call, t: Limiter, o: string)
    requires Step(c, s, k, t) && o in s.levels && o !in t.levels
    ensures o != k.key
    ensures k.drop != Oldest(o) ==> k.at - s.levels[o].lastSeen > c.evictAfter
    ensures k.drop == Oldest(o) ==>
              && k.key !in s.levels && 0 < c.maxBuckets <= |Recent(c, s.levels, k.at)| && o in Recent(c, s.levels, k.at)
              && forall p :: p in Recent(c, s.levels, k.at) ==> s.levels[o].lastSeen <= s.levels[p].lastSeen
  {
    var room :| StepVia(c, s, k, room, t);
    var kept := Kept(s.levels, k.at - c.evictAfter);
    assert kept.Keys == Recent(c, s.levels, k.at);
    assert |kept| == |kept.Keys|;
    hide RefilledTokens;
  }

  /** The last sweep was not longer than evictAfter ago, and it left nothing
      idle for longer than that. */
  predicate SweptInTime(c: Config, s: Limiter, now: real)
  {
    && s.lastEvict <= now && (now - s.lastEvict < c.evictAfter || s.lastEvict == now)
    && forall p :: p in s.levels ==> s.lastEvict - c.evictAfter <= s.levels[p].lastSeen <= now
  }

  lemma StepSweeps(c: Config, s: Limiter, k: Call, t: Limiter, before: real)
    requires Step(c, s, k, t) && SweptInTime(c, s, before) && before <= k.at && c.evictAfter >= 0.0
    ensures SweptInTime(c, t, k.at)
  {
    var room :| StepVia(c, s, k, room, t);
    hide RefilledTokens;
    assert forall p :: p in room ==> p in s.levels && room[p] == s.levels[p];
  }

  /** So after each call no bucket has been idle for more than twice evictAfter:
      what is forgotten is forgotten for good in time. */
  lemma {:induction false} NothingIsKeptTooLong(c: Config, states: seq<Limiter>, calls: seq<Call>, n: nat)
    requires Run(c, states, calls) && 0 < n <= |calls| && calls[0].at >= 0.0
    ensures SweptInTime(c, states[n], calls[n - 1].at)
    ensures forall p :: p in states[n].levels ==> calls[n - 1].at - states[n].levels[p].lastSeen <= 2.0 * c.evictAfter
  {
    assert StepAt(c, states, calls, n - 1);
    if n == 1 {
      FirstSweep(c, states, calls);
    } else {
      NothingIsKeptTooLong(c, states, calls, n - 1);
      hide Step, SweptInTime;
      StepSweeps(c, states[n - 1], calls[n - 1], states[n], calls[n - 2].at);
    }
    hide Step;
  }

  lemma FirstSweep(c: Config, states: seq<Limiter>, calls: seq<Call>)
    requires Run(c, states, calls) && |calls| > 0 && calls[0].at >= 0.0
    ensures SweptInTime(c, states[1], calls[0].at)
  {
    assert StepAt(c, states, calls, 0);
    var room :| StepVia(c, states[0], calls[0], room, states[1]);
    hide RefilledTokens;
  }
}
