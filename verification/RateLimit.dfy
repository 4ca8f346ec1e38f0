/** The token-bucket limiter of ratelimit.go: one bucket per key in a map that
    drops idle buckets and is capped in size. Reals stand for float64 and for
    seconds since the zero time. */
module RateLimit {

  datatype Config = Config(rate: real, capacity: real, evictAfter: real, maxBuckets: int)

  datatype Level = Level(tokens: real, lastSeen: real)

  /** The limiter's whole state as a value. */
  datatype Limiter = Limiter(levels: map<string, Level>, lastEvict: real)

  /** The bucket dropped by the size cap, if any. */
  datatype Drop = NoDrop | Oldest(key: string)

  /** One call of Allow. */
  datatype Call = Call(key: string, at: real, allowed: bool, drop: Drop)

  predicate ValidConfig(c: Config)
  {
    c.rate > 0.0 && c.capacity > 0.0 && c.evictAfter >= 0.0
  }

  function Min(a: real, b: real): real
  {
    if a < b then a else b
  }

  function RefilledTokens(c: Config, tokens: real, lastSeen: real, now: real): real
  {
    Min(c.capacity, tokens + (now - lastSeen) * c.rate)
  }

  function Refilled(c: Config, l: Level, now: real): Level
  {
    Level(RefilledTokens(c, l.tokens, l.lastSeen, now), now)
  }

  /** The buckets seen at or after the cutoff. */
  function Kept(levels: map<string, Level>, cutoff: real): map<string, Level>
  {
    map k | k in levels && levels[k].lastSeen >= cutoff :: levels[k]
  }

  predicate Saturated(c: Config, levels: map<string, Level>, key: string)
  {
    key !in levels && c.maxBuckets > 0 && |levels| >= c.maxBuckets
  }

  /** `forceEvict`: drop the idle buckets and, if that makes no room, one whose
      lastSeen is minimal. */
  ghost predicate RoomFrom(c: Config, kept: map<string, Level>, room: map<string, Level>, drop: Drop)
  {
    if |kept| < c.maxBuckets then drop.NoDrop? && room == kept
    else drop.Oldest? && IsOldest(kept, drop.key) && room == kept - {drop.key}
  }

  predicate IsOldest(levels: map<string, Level>, k: string)
  {
    k in levels && forall o :: o in levels ==> levels[k].lastSeen <= levels[o].lastSeen
  }

  /** The buckets `key` meets: all of them, or what the size cap leaves. */
  ghost predicate RoomFor(c: Config, levels: map<string, Level>, key: string, now: real, room: map<string, Level>, drop: Drop)
  {
    if Saturated(c, levels, key) then RoomFrom(c, Kept(levels, now - c.evictAfter), room, drop)
    else room == levels && drop.NoDrop?
  }

  /** An unknown key starts full. */
  function WithBucket(c: Config, levels: map<string, Level>, key: string, now: real): map<string, Level>
  {
    levels[key := if key in levels then levels[key] else Level(c.capacity, now)]
  }

  /** The level of `key` when it is charged at `now`. */
  function Charged(c: Config, levels: map<string, Level>, key: string, now: real): Level
  {
    Refilled(c, WithBucket(c, levels, key, now)[key], now)
  }

  function Spent(l: Level): Level
  {
    if l.tokens >= 1.0 then Level(l.tokens - 1.0, l.lastSeen) else l
  }

  /** One call of Allow, from state to state. */
  ghost predicate Step(c: Config, s: Limiter, k: Call, t: Limiter)
  {
    exists room :: StepVia(c, s, k, room, t)
  }

  /** `maybeEvict`: at most once per evictAfter, drop the idle buckets. */
  function Swept(c: Config, s: Limiter, now: real): Limiter
  {
    if now - s.lastEvict < c.evictAfter then s else Limiter(Kept(s.levels, now - c.evictAfter), now)
  }

  /** Make room if needed, refill the key's bucket, sweep, then spend a token if
      there is one. */
  ghost predicate StepVia(c: Config, s: Limiter, k: Call, room: map<string, Level>, t: Limiter)
  {
    var level := Charged(c, room, k.key, k.at);
    var lastEvict := if Saturated(c, s.levels, k.key) then k.at else s.lastEvict;
    var swept := Swept(c, Limiter(room[k.key := level], lastEvict), k.at);
    && RoomFor(c, s.levels, k.key, k.at, room, k.drop)
    && k.allowed == (level.tokens >= 1.0)
    && t == swept.(levels := swept.levels[k.key := Spent(level)])
  }

  lemma RefillMap(c: Config, room: map<string, Level>, key: string, now: real, l: Level)
    ensures WithBucket(c, room, key, now)[key := l] == room[key := l]
    ensures Charged(c, room, key, now) == Refilled(c, WithBucket(c, room, key, now)[key], now)
  {}

  lemma OneKeyMore<V>(m: map<string, V>, key: string, v: V)
    requires key !in m
    ensures |m[key := v]| == |m| + 1
  {
    assert m[key := v].Keys == m.Keys + {key};
    assert |m.Keys| == |m| && |m[key := v].Keys| == |m[key := v]|;
  }

  lemma OneKeyLess<V>(m: map<string, V>, key: string)
    requires key in m
    ensures |m - {key}| == |m| - 1
  {
    assert (m - {key}).Keys == m.Keys - {key};
    assert |m.Keys| == |m| && |(m - {key}).Keys| == |m - {key}|;
  }

  /** What is left when all but `todo` have been looked at. */
  function LeftOver(levels: map<string, Level>, todo: set<string>, cutoff: real): map<string, Level>
  {
    map k | k in levels && (k in todo || levels[k].lastSeen >= cutoff) :: levels[k]
  }

  lemma LeftOverStep(levels: map<string, Level>, todo: set<string>, k: string, cutoff: real)
    requires k in todo && k in levels
    ensures LeftOver(levels, todo - {k}, cutoff)
         == if levels[k].lastSeen < cutoff then LeftOver(levels, todo, cutoff) - {k} else LeftOver(levels, todo, cutoff)
  {}

  class Bucket {
    var tokens: real
    var lastSeen: real

    constructor (tokens: real, lastSeen: real)
      ensures this.tokens == tokens && this.lastSeen == lastSeen
    {
      this.tokens := tokens;
      this.lastSeen := lastSeen;
    }
  }

  class RateLimiter {
    ghost var levels: map<string, Level>  // the contents of the buckets
    ghost var Repr: set<Bucket>           // the buckets in use, and dropped ones
    var buckets: map<string, Bucket>
    const config: Config
    var lastEvict: real

    ghost predicate Valid()
      reads this, Repr
    {
      && ValidConfig(config)
      && levels.Keys == buckets.Keys
      && (forall k :: k in buckets ==> buckets[k] in Repr && Holds(buckets[k], levels[k]))
      && (forall a, b :: a in buckets && b in buckets && a != b ==> buckets[a] != buckets[b])
      && (config.maxBuckets > 0 ==> |levels| <= config.maxBuckets)
    }

    ghost predicate Holds(b: Bucket, l: Level)
      reads b
    {
      l == Level(b.tokens, b.lastSeen)
    }

    constructor (rate: real, capacity: real, evictAfter: real, maxBuckets: int)
      requires rate > 0.0 && capacity > 0.0 && evictAfter >= 0.0
      ensures Valid() && Repr == {} && config == Config(rate, capacity, evictAfter, maxBuckets)
      ensures levels == map[] && lastEvict == 0.0
    {
      config := Config(rate, capacity, evictAfter, maxBuckets);
      buckets, levels, Repr := map[], map[], {};
      lastEvict := 0.0;
    }

    /** `Allow`. The bucket charged is still in the map afterwards, and the map
        stays within its cap. */
    method Allow(key: string, now: real) returns (allowed: bool)
      requires Valid()
      modifies this, Repr
      ensures Valid() && fresh(Repr - old(Repr))
      ensures key in buckets && buckets[key].lastSeen == now
      ensures exists drop :: Step(config, Limiter(old(levels), old(lastEvict)), Call(key, now, allowed, drop),
                                  Limiter(levels, lastEvict))
    {
      ghost var before := Limiter(levels, lastEvict);
      var b: Bucket;
      ghost var room, drop;
      room, drop, b := Refill(key, now);
      MaybeEvict(now);
      allowed := Spend(key, b);
      assert StepVia(config, before, Call(key, now, allowed, drop), room, Limiter(levels, lastEvict));
    }

    method Refill(key: string, now: real) returns (ghost room: map<string, Level>, ghost drop: Drop, b: Bucket)
      requires Valid()
      modifies this`levels, this`Repr, this`buckets, this`lastEvict, Repr
      ensures Valid() && fresh(Repr - old(Repr))
      ensures key in buckets && buckets[key] == b && b.lastSeen == now
      ensures levels == room[key := Charged(config, room, key, now)]
      ensures lastEvict == if Saturated(config, old(levels), key) then now else old(lastEvict)
      ensures RoomFor(config, old(levels), key, now, room, drop)
    {
      room, drop, b := Locate(key, now);
      ghost var level := Charged(config, room, key, now);
      RefillMap(config, room, key, now, level);
      Charge(key, b, RefilledTokens(config, b.tokens, b.lastSeen, now), now);
    }

    /** Find the key's bucket, or make room and add a full one. */
    method Locate(key: string, now: real) returns (ghost room: map<string, Level>, ghost drop: Drop, b: Bucket)
      requires Valid()
      modifies this`levels, this`Repr, this`buckets, this`lastEvict
      ensures Valid() && fresh(Repr - old(Repr))
      ensures key in buckets && buckets[key] == b
      ensures levels == WithBucket(config, room, key, now)
      ensures lastEvict == if Saturated(config, old(levels), key) then now else old(lastEvict)
      ensures RoomFor(config, old(levels), key, now, room, drop)
    {
      drop := NoDrop;
      room := levels;
      if key in buckets {
        b := buckets[key];
        assert levels == levels[key := levels[key]];
      } else {
        assert |levels.Keys| == |buckets.Keys|;
        if config.maxBuckets > 0 && |buckets| >= config.maxBuckets {
          ghost var kept;
          kept, drop := ForceEvict(now);
        }
        room := levels;
        b := AddFull(key, now);
      }
    }

    method AddFull(key: string, now: real) returns (b: Bucket)
      requires Valid() && key !in buckets && (config.maxBuckets > 0 ==> |levels| < config.maxBuckets)
      modifies this`levels, this`Repr, this`buckets
      ensures Valid() && fresh(Repr - old(Repr))
      ensures key in buckets && buckets[key] == b
      ensures levels == old(levels)[key := Level(config.capacity, now)]
    {
      b := new Bucket(config.capacity, now);
      Attach(key, b);
    }

    method Attach(key: string, b: Bucket)
      requires Valid() && key !in buckets && b !in Repr && (config.maxBuckets > 0 ==> |levels| < config.maxBuckets)
      modifies this`levels, this`Repr, this`buckets
      ensures Valid() && Repr == old(Repr) + {b} && buckets == old(buckets)[key := b]
      ensures levels == old(levels)[key := Level(b.tokens, b.lastSeen)]
    {
      OneKeyMore(levels, key, Level(b.tokens, b.lastSeen));
      Repr := Repr + {b};
      buckets := buckets[key := b];
      levels := levels[key := Level(b.tokens, b.lastSeen)];
    }

    /** Write the key's bucket through the reference held. */
    method Charge(key: string, b: Bucket, tokens: real, now: real)
      requires Valid() && key in buckets && buckets[key] == b
      modifies this`levels, b
      ensures Valid() && levels == old(levels)[key := Level(tokens, now)] && b.tokens == tokens && b.lastSeen == now
    {
      b.tokens := tokens;
      b.lastSeen := now;
      levels := levels[key := Level(tokens, now)];
      assert levels.Keys == old(levels).Keys;
    }

    method Spend(key: string, b: Bucket) returns (allowed: bool)
      requires Valid() && key in buckets && buckets[key] == b
      modifies this`levels, b
      ensures Valid() && levels == old(levels)[key := Spent(old(levels)[key])]
      ensures allowed == (old(levels)[key].tokens >= 1.0)
      ensures b.lastSeen == old(b.lastSeen)
    {
      if b.tokens < 1.0 {
        allowed := false;
        assert levels == levels[key := levels[key]];
      } else {
        Charge(key, b, b.tokens - 1.0, b.lastSeen);
        allowed := true;
      }
    }

    method MaybeEvict(now: real)
      requires Valid()
      modifies this`buckets, this`levels, this`lastEvict
      ensures Valid()
      ensures Limiter(levels, lastEvict) == Swept(config, Limiter(old(levels), old(lastEvict)), now)
      ensures forall k :: k in buckets ==> k in old(buckets) && buckets[k] == old(buckets[k])
    {
      if now - lastEvict < config.evictAfter {
        return;
      }
      lastEvict := now;
      DropIdle(now - config.evictAfter);
    }

    method DropIdle(cutoff: real)
      requires Valid()
      modifies this`buckets, this`levels
      ensures Valid() && levels == Kept(old(levels), cutoff)
      ensures forall k :: k in buckets ==> k in old(buckets) && buckets[k] == old(buckets[k])
    {
      var todo := buckets.Keys;
      while todo != {}
        invariant Valid()
        invariant todo <= levels.Keys
        invariant forall k :: k in buckets ==> k in old(buckets) && buckets[k] == old(buckets[k])
        invariant levels == LeftOver(old(levels), todo, cutoff)
        decreases todo
      {
        var k :| k in todo;
        DropIfIdle(k, cutoff);
        LeftOverStep(old(levels), todo, k, cutoff);
        todo := todo - {k};
      }
    }

    method DropIfIdle(k: string, cutoff: real)
      requires Valid() && k in buckets
      modifies this`buckets, this`levels
      ensures Valid()
      ensures buckets == if old(levels)[k].lastSeen < cutoff then old(buckets) - {k} else old(buckets)
      ensures levels == if old(levels)[k].lastSeen < cutoff then old(levels) - {k} else old(levels)
    {
      if buckets[k].lastSeen < cutoff {
        DropOne(k);
      }
    }

    method DropOne(k: string)
      requires Valid() && k in buckets
      modifies this`buckets, this`levels
      ensures Valid() && buckets == old(buckets) - {k} && levels == old(levels) - {k} && |levels| == |old(levels)| - 1
    {
      buckets := buckets - {k};
      OneKeyLess(levels, k);
      levels := levels - {k};
    }

    method ForceEvict(now: real) returns (ghost kept: map<string, Level>, ghost drop: Drop)
      requires Valid() && config.maxBuckets > 0
      modifies this`buckets, this`levels, this`lastEvict
      ensures Valid() && lastEvict == now && |levels| < config.maxBuckets
      ensures kept == Kept(old(levels), now - config.evictAfter)
      ensures RoomFrom(config, kept, levels, drop)
      ensures forall k :: k in buckets ==> k in old(buckets) && buckets[k] == old(buckets[k])
    {
      lastEvict := now;
      DropIdle(now - config.evictAfter);
      kept := levels;
      drop := DropToCap();
    }

    method DropToCap() returns (ghost drop: Drop)
      requires Valid() && config.maxBuckets > 0
      modifies this`buckets, this`levels
      ensures Valid() && |levels| < config.maxBuckets
      ensures RoomFrom(config, old(levels), levels, drop)
      ensures forall k :: k in buckets ==> k in old(buckets) && buckets[k] == old(buckets[k])
    {
      assert |levels.Keys| == |buckets.Keys|;
      if |buckets| < config.maxBuckets {
        drop := NoDrop;
      } else {
        var oldest := FindOldest();
        DropOne(oldest);
        drop := Oldest(oldest);
      }
    }

    /** A key whose bucket has minimal lastSeen, whichever the map yields first. */
    method FindOldest() returns (oldest: string)
      requires Valid() && |buckets| > 0
      ensures IsOldest(levels, oldest)
    {
      var first := true;
      oldest := "";
      var oldestTime := 0.0;
      var todo := buckets.Keys;
      while todo != {}
        invariant todo <= buckets.Keys
        invariant first ==> todo == buckets.Keys
        invariant !first ==> oldest in levels && levels[oldest].lastSeen == oldestTime
        invariant !first ==> forall k :: k in levels && k !in todo ==> oldestTime <= levels[k].lastSeen
        decreases todo
      {
        var k :| k in todo;
        if first || buckets[k].lastSeen < oldestTime {
          oldest, oldestTime, first := k, buckets[k].lastSeen, false;
        }
        todo := todo - {k};
      }
    }
  }

  /** `NewRateLimiter`: no limiter for a zero or negative setting. */
  method NewRateLimiter(rps: real, burst: real) returns (r: RateLimiter?)
    ensures r == null <==> rps <= 0.0 || burst <= 0.0
    ensures r != null ==> fresh(r) && r.Valid() && r.config == Config(rps, burst, 600.0, 10000)
  {
    if rps <= 0.0 || burst <= 0.0 {
      return null;
    }
    r := new RateLimiter(rps, burst, 600.0, 10000);
  }
}
