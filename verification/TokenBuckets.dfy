/** Token buckets without rates: time is measured in tokens earned since time
    zero, so a bucket earns exactly what its clock advances. RateBounds carries
    these results over to the limiter's own units. */
module TokenBuckets {
  import opened RateLimit

  function Filled(cap: real, l: Level, now: real): Level
  {
    Level(Min(cap, l.tokens + now - l.lastSeen), now)
  }

  function Drawn(cap: real, m: map<string, Level>, key: string, now: real): Level
  {
    Filled(cap, if key in m then m[key] else Level(cap, now), now)
  }

  ghost predicate Clock(clock: seq<real>)
  {
    forall i, j :: 0 <= i <= j < |clock| ==> clock[i] <= clock[j]
  }

  /** What a call of `key` at `now` does to a limiter that may also forget
      buckets: every bucket it keeps is unchanged but the one charged. */
  ghost predicate Charges(cap: real, m: map<string, Level>, k: Call, now: real, t: map<string, Level>)
  {
    && k.key in t
    && (forall o :: o in t && o != k.key ==> o in m && t[o] == m[o])
    && k.allowed == (Drawn(cap, m, k.key, now).tokens >= 1.0)
    && t[k.key] == Spent(Drawn(cap, m, k.key, now))
  }

  /** `maps[i]` holds the buckets before call i. */
  ghost predicate Trace(cap: real, clock: seq<real>, calls: seq<Call>, maps: seq<map<string, Level>>)
  {
    && cap > 0.0 && Clock(clock) && |calls| == |clock| && |maps| == |calls| + 1 && maps[0] == map[]
    && forall i :: 0 <= i < |calls| ==> Charges(cap, maps[i], calls[i], clock[i], maps[i + 1])
  }

  /** How often `key` was forgotten during calls i, ..., k - 1. */
  function Forgotten(maps: seq<map<string, Level>>, key: string, i: nat, k: nat): nat
    requires i <= k < |maps|
  {
    if i == k then 0
    else Forgotten(maps, key, i, k - 1) + (if key in maps[k - 1] && key !in maps[k] then 1 else 0)
  }

  /** Accepted calls of `key` among calls i, ..., k - 1. */
  function Accepted(calls: seq<Call>, key: string, i: nat, k: nat): nat
    requires i <= k <= |calls|
  {
    if i == k then 0
    else Accepted(calls, key, i, k - 1) + (if calls[k - 1].key == key && calls[k - 1].allowed then 1 else 0)
  }

  /** The room left in the window that opens with call j. */
  function Slack(cap: real, clock: seq<real>, calls: seq<Call>, key: string, j: nat, n: nat, now: real): real
    requires j < n <= |calls| == |clock|
  {
    cap + now - clock[j] - Accepted(calls, key, j, n) as real
  }

  /** `a` is the capacity or the least slack over the windows that open with a
      call of the key from call b on; `w` is the call whose window decides (-1:
      none). */
  ghost predicate LeastSlack(cap: real, clock: seq<real>, calls: seq<Call>, key: string, b: nat, n: nat, now: real, a: real, w: int)
    requires b <= n <= |calls| == |clock|
  {
    && a <= cap
    && (forall j :: b <= j < n && calls[j].key == key ==> a <= Slack(cap, clock, calls, key, j, n, now))
    && (if w == -1 then a == cap else b <= w < n && calls[w].key == key && a == Slack(cap, clock, calls, key, w, n, now))
  }

  lemma OwnCallSlack(cap: real, clock: seq<real>, calls: seq<Call>, key: string, j: nat, n: nat, now: real)
    requires j < n <= |calls| == |clock| && calls[n - 1].key == key
    ensures Slack(cap, clock, calls, key, j, n, now) ==
            (if j == n - 1 then cap else Slack(cap, clock, calls, key, j, n - 1, clock[n - 1]))
            - (if calls[n - 1].allowed then 1.0 else 0.0) + now - clock[n - 1]
  {
    assert Accepted(calls, key, n - 1, n) == if calls[n - 1].allowed then 1 else 0;
  }

  lemma OwnCall(cap: real, clock: seq<real>, calls: seq<Call>, maps: seq<map<string, Level>>,
                key: string, b: nat, n: nat, now: real, w: int) returns (v: int)
    requires b < n <= |calls| == |clock| && |maps| == |calls| + 1 && calls[n - 1].key == key && clock[n - 1] <= now
    requires Charges(cap, maps[n - 1], calls[n - 1], clock[n - 1], maps[n])
    requires LeastSlack(cap, clock, calls, key, b, n - 1, clock[n - 1], Drawn(cap, maps[n - 1], key, clock[n - 1]).tokens, w)
    ensures LeastSlack(cap, clock, calls, key, b, n, now, Drawn(cap, maps[n], key, now).tokens, v)
  {
    var prev := clock[n - 1];
    var x := Drawn(cap, maps[n - 1], key, prev).tokens;
    var d := if calls[n - 1].allowed then 1.0 else 0.0;
    var a := Drawn(cap, maps[n], key, now).tokens;
    assert maps[n][key] == Level(x - d, prev);
    assert a == Min(cap, x - d + now - prev);
    forall j | b <= j < n && calls[j].key == key ensures a <= Slack(cap, clock, calls, key, j, n, now) {
      OwnCallSlack(cap, clock, calls, key, j, n, now);
    }
    v := if a == cap then -1 else if w == -1 then n - 1 else w;
    if v != -1 {
      OwnCallSlack(cap, clock, calls, key, v, n, now);
    }
  }

  lemma OtherCallKeeps(cap: real, clock: seq<real>, calls: seq<Call>, maps: seq<map<string, Level>>,
                       key: string, b: nat, n: nat, now: real, w: int)
    requires b < n <= |calls| == |clock| && |maps| == |calls| + 1 && calls[n - 1].key != key
    requires Charges(cap, maps[n - 1], calls[n - 1], clock[n - 1], maps[n]) && !(key in maps[n - 1] && key !in maps[n])
    requires LeastSlack(cap, clock, calls, key, b, n - 1, now, Drawn(cap, maps[n - 1], key, now).tokens, w)
    ensures LeastSlack(cap, clock, calls, key, b, n, now, Drawn(cap, maps[n], key, now).tokens, w)
  {
    forall j | b <= j < n - 1 ensures Slack(cap, clock, calls, key, j, n, now) == Slack(cap, clock, calls, key, j, n - 1, now) {}
  }

  /** Closed form of the tokens available to a key that was without a bucket
      before call b and not forgotten since, whatever became of the others. */
  lemma {:induction false} AvailableIsLeastSlack(cap: real, clock: seq<real>, calls: seq<Call>, maps: seq<map<string, Level>>,
                                                 key: string, b: nat, n: nat, now: real) returns (w: int)
    requires Trace(cap, clock, calls, maps) && b <= n <= |calls|
    requires key !in maps[b] && Forgotten(maps, key, b, n) == 0
    requires n > b ==> clock[n - 1] <= now
    ensures LeastSlack(cap, clock, calls, key, b, n, now, Drawn(cap, maps[n], key, now).tokens, w)
    decreases n
  {
    if n == b {
      w := -1;
    } else {
      assert Charges(cap, maps[n - 1], calls[n - 1], clock[n - 1], maps[n]);
      if calls[n - 1].key != key {
        assert n > b + 1 ==> clock[n - 2] <= clock[n - 1];
        w := AvailableIsLeastSlack(cap, clock, calls, maps, key, b, n - 1, now);
        OtherCallKeeps(cap, clock, calls, maps, key, b, n, now, w);
      } else {
        w := AvailableIsLeastSlack(cap, clock, calls, maps, key, b, n - 1, clock[n - 1]);
        w := OwnCall(cap, clock, calls, maps, key, b, n, now, w);
      }
    }
  }

  /** Call n fits in the window that opens with call j. */
  predicate FitsFrom(cap: real, clock: seq<real>, calls: seq<Call>, n: nat, j: nat)
    requires j <= n < |calls| == |clock|
  {
    Accepted(calls, calls[n].key, j, n) as real + 1.0 <= cap + clock[n] - clock[j]
  }

  /** A call is allowed exactly when it fits in every window that opens with a
      call of its key since the key was last without a bucket. */
  lemma ExactlyWhatFits(cap: real, clock: seq<real>, calls: seq<Call>, maps: seq<map<string, Level>>, b: nat, n: nat)
    requires Trace(cap, clock, calls, maps) && b <= n < |calls|
    requires calls[n].key !in maps[b] && Forgotten(maps, calls[n].key, b, n) == 0
    ensures calls[n].allowed <==>
            forall j: nat :: b <= j <= n && calls[j].key == calls[n].key ==> FitsFrom(cap, clock, calls, n, j)
  {
    var key, now := calls[n].key, clock[n];
    assert Charges(cap, maps[n], calls[n], now, maps[n + 1]);
    var w := AvailableIsLeastSlack(cap, clock, calls, maps, key, b, n, now);
    var a := Drawn(cap, maps[n], key, now).tokens;
    if calls[n].allowed {
      forall j: nat | b <= j <= n && calls[j].key == key ensures FitsFrom(cap, clock, calls, n, j) {
        assert j < n ==> a <= Slack(cap, clock, calls, key, j, n, now);
      }
    } else if w == -1 {
      assert !FitsFrom(cap, clock, calls, n, n);
    } else {
      assert !FitsFrom(cap, clock, calls, n, w);
    }
  }

  // ------------------------------------------------ windows, with forgetting

  ghost predicate Sane(cap: real, m: map<string, Level>, now: real)
  {
    forall k :: k in m ==> 0.0 <= m[k].tokens <= cap && m[k].lastSeen <= now
  }

  lemma {:induction false} TraceSane(cap: real, clock: seq<real>, calls: seq<Call>, maps: seq<map<string, Level>>,
                                     n: nat, now: real)
    requires Trace(cap, clock, calls, maps) && n <= |calls| && (n > 0 ==> clock[n - 1] <= now)
    ensures Sane(cap, maps[n], now)
  {
    if n > 0 {
      TraceSane(cap, clock, calls, maps, n - 1, clock[n - 1]);
      assert Charges(cap, maps[n - 1], calls[n - 1], clock[n - 1], maps[n]);
    }
  }

  /** `forgiven` is the capacity once more than the key was forgotten. */
  function Allowance(cap: real, times: nat): real
  {
    if times == 0 then cap else Allowance(cap, times - 1) + cap
  }

  /** Accepted calls plus tokens left, against what the window has earned. */
  ghost predicate Fits(cap: real, clock: seq<real>, calls: seq<Call>, maps: seq<map<string, Level>>,
                       key: string, i: nat, k: nat, now: real)
    requires |calls| == |clock| && |maps| == |calls| + 1 && i <= k <= |calls| && i < |calls|
  {
    Accepted(calls, key, i, k) as real + Drawn(cap, maps[k], key, now).tokens
    <= Allowance(cap, Forgotten(maps, key, i, k)) + now - clock[i]
  }

  lemma DrawnBounds(cap: real, m: map<string, Level>, key: string, now: real)
    requires cap > 0.0 && Sane(cap, m, now)
    ensures 0.0 <= Drawn(cap, m, key, now).tokens <= cap
    ensures key !in m ==> Drawn(cap, m, key, now).tokens == cap
  {}

  lemma OwnCallFits(cap: real, clock: seq<real>, calls: seq<Call>, maps: seq<map<string, Level>>,
                    key: string, i: nat, k: nat, now: real)
    requires Trace(cap, clock, calls, maps) && i < k <= |calls| && calls[k - 1].key == key && clock[k - 1] <= now
    requires Fits(cap, clock, calls, maps, key, i, k - 1, clock[k - 1])
    ensures Fits(cap, clock, calls, maps, key, i, k, now)
  {
    var prev := clock[k - 1];
    assert Charges(cap, maps[k - 1], calls[k - 1], prev, maps[k]);
    var x := Drawn(cap, maps[k - 1], key, prev).tokens;
    var d := if calls[k - 1].allowed then 1 else 0;
    assert Accepted(calls, key, i, k) == Accepted(calls, key, i, k - 1) + d;
    assert maps[k][key] == Level(x - d as real, prev);
    assert Forgotten(maps, key, i, k) == Forgotten(maps, key, i, k - 1);
  }

  lemma OtherCallFits(cap: real, clock: seq<real>, calls: seq<Call>, maps: seq<map<string, Level>>,
                      key: string, i: nat, k: nat, now: real)
    requires Trace(cap, clock, calls, maps) && i < k <= |calls| && calls[k - 1].key != key && clock[k - 1] <= now
    requires Fits(cap, clock, calls, maps, key, i, k - 1, now)
    ensures Fits(cap, clock, calls, maps, key, i, k, now)
  {
    assert Charges(cap, maps[k - 1], calls[k - 1], clock[k - 1], maps[k]);
    TraceSane(cap, clock, calls, maps, k - 1, now) by {
      assert k > 1 ==> clock[k - 2] <= clock[k - 1];
    }
    DrawnBounds(cap, maps[k - 1], key, now);
    assert Accepted(calls, key, i, k) == Accepted(calls, key, i, k - 1);
  }

  /** Accepted calls plus tokens left grow by what the clock earns, and by at
      most one capacity each time the key is forgotten. */
  lemma {:induction false} WindowPotential(cap: real, clock: seq<real>, calls: seq<Call>, maps: seq<map<string, Level>>,
                                           key: string, i: nat, k: nat, now: real)
    requires Trace(cap, clock, calls, maps) && i <= k <= |calls| && i < |calls|
    requires clock[i] <= now && (k > 0 ==> clock[k - 1] <= now)
    ensures Fits(cap, clock, calls, maps, key, i, k, now)
  {
    if i == k {
      TraceSane(cap, clock, calls, maps, k, now);
      DrawnBounds(cap, maps[k], key, now);
    } else if calls[k - 1].key == key {
      WindowPotential(cap, clock, calls, maps, key, i, k - 1, clock[k - 1]);
      OwnCallFits(cap, clock, calls, maps, key, i, k, now);
    } else {
      assert k > 1 ==> clock[k - 2] <= clock[k - 1];
      WindowPotential(cap, clock, calls, maps, key, i, k - 1, now);
      OtherCallFits(cap, clock, calls, maps, key, i, k, now);
    }
  }

  /** In every window: accepted calls are at most what it earned, plus the
      capacity once and once more for each time the key was forgotten. */
  lemma WindowFits(cap: real, clock: seq<real>, calls: seq<Call>, maps: seq<map<string, Level>>, key: string, i: nat, k: nat)
    requires Trace(cap, clock, calls, maps) && i < k <= |calls|
    ensures Accepted(calls, key, i, k) as real <= Allowance(cap, Forgotten(maps, key, i, k)) + clock[k - 1] - clock[i]
  {
    WindowPotential(cap, clock, calls, maps, key, i, k, clock[k - 1]);
    TraceSane(cap, clock, calls, maps, k, clock[k - 1]);
    DrawnBounds(cap, maps[k], key, clock[k - 1]);
  }
}
