/** Every drain of one backend at once: the registry, one background worker per
    job (`runDrain`, with `evictAll` inside it), the clock and the API server.
    Steps of different jobs interleave in any order. */
module DrainSystem {
  import opened Pods
  import opened DrainRegistry
  import opened Strings
  import opened Wrappers
  import E = EvictAll

  /** Where `runDrain` is. */
  datatype Pc =
    | Starting                 // about to set phase Running
    | Cordoning                // PATCH of the node in flight
    | ListingPods              // first listing in flight
    | Classifying(at: nat)     // the loop over the listed pods
    | Counting                 // about to set Remaining
    | Evicting                 // inside evictAll
    | Succeeding               // about to set phase Succeeded
    | Ending(error: JobError)  // about to call failDrain
    | Done

  /** The worker of one job: its position, its locals, and what it has seen. */
  datatype Work = Work(pc: Pc, cordoned: bool, listing: Option<seq<Pod>>,
                       evictable: seq<PodRef>, unmanaged: seq<string>, ev: Option<E.State>)

  datatype System = System(now: int, jobs: map<JobId, Job>, works: map<JobId, Work>)

  datatype Move =
    | Begin
    | CordonReply(ok: bool)
    | PodsReply(pods: Option<seq<Pod>>)
    | ClassifyNext
    | Decide
    | SetRemaining(expired: bool)
    | Inside(act: E.Act)
    | Leave
    | Succeed
    | Fail

  datatype Act =
    | Clock(passed: nat)
    | Start(nodeId: string, id: JobId)   // a StartDrain that finds nothing to join
    | Step(id: JobId, move: Move)

  const INITIAL_WORK := Work(Starting, false, None, [], [], None)

  ghost predicate MoveEnabled(w: Work, m: Move)
  {
    match m
    case Begin => w.pc.Starting?
    case CordonReply(_) => w.pc.Cordoning?
    case PodsReply(_) => w.pc.ListingPods?
    case ClassifyNext => w.pc.Classifying? && w.listing.Some? && w.pc.at < |w.listing.value|
    case Decide => w.pc.Classifying? && w.listing.Some? && w.pc.at == |w.listing.value|
    case SetRemaining(_) => w.pc.Counting?
    case Inside(act) => w.ev.Some? && E.Enabled(w.ev.value, act)  // wherever runDrain is
    case Leave => w.pc.Evicting? && w.ev.Some? && w.ev.value.main == E.Returned
    case Succeed => w.pc.Succeeding?
    case Fail => w.pc.Ending?
  }

  /** The worker after the move. */
  ghost function NextWork(w: Work, m: Move): Work
    requires MoveEnabled(w, m)
  {
    match m
    case Begin => w.(pc := Cordoning)
    case CordonReply(ok) => if ok then w.(pc := ListingPods, cordoned := true) else w.(pc := Ending(CordonFailed))
    case PodsReply(pods) => if pods.Some? then w.(pc := Classifying(0), listing := pods) else w.(pc := Ending(ListFailed))
    case ClassifyNext =>
      var pod := w.listing.value[w.pc.at];
      var next := w.(pc := Classifying(w.pc.at + 1));
      if pod.name == "" || ActionOf(pod) == Skip then next
      else if ActionOf(pod) == Block then next.(unmanaged := w.unmanaged + [RefOf(pod).Key()])
      else next.(evictable := w.evictable + [RefOf(pod)])
    case Decide => w.(pc := if w.unmanaged != [] then Ending(Unmanaged(w.unmanaged)) else Counting)
    case SetRemaining(expired) => w.(pc := Evicting, ev := Some(E.Init(w.evictable, expired)))
    case Inside(act) => w.(ev := Some(E.Apply(w.ev.value, act)))
    case Leave => w.(pc := if w.ev.value.firstErr.Some? then Ending(EvictionFailed(w.ev.value.firstErr.value)) else Succeeding)
    case Succeed => w.(pc := Done)
    case Fail => w.(pc := Done)
  }

  /** Does the move call `update` on the job? */
  ghost predicate Touches(w: Work, m: Move)
    requires MoveEnabled(w, m)
  {
    m.Begin? || m.SetRemaining? || m.Succeed? || m.Fail? ||
    (m.ClassifyNext? && var pod := w.listing.value[w.pc.at]; pod.name != "" && ActionOf(pod) == Skip) ||
    (m.Inside? && m.act.Poll? && m.act.pa.Record?)
  }

  /** The closure passed to `update`. */
  ghost function Touched(w: Work, m: Move, j: Job): Job
    requires MoveEnabled(w, m) && Touches(w, m)
  {
    match m
    case Begin => j.(phase := Running)
    case ClassifyNext => j.(skipped := j.skipped + [RefOf(w.listing.value[w.pc.at]).Key()])
    case SetRemaining(_) => j.(remaining := |w.evictable|)
    case Inside(act) => j.(evicted := j.evicted + Keys(act.pa.gone), remaining := Max(j.remaining - |act.pa.gone|, 0))
    case Succeed => j.(phase := Succeeded, remaining := 0)
    case Fail => j.(phase := Failed, error := w.pc.error)
  }

  /** The job record after the move. */
  ghost function Recorded(w: Work, m: Move, j: Job, now: int): Job
    requires MoveEnabled(w, m)
  {
    if Touches(w, m) then Touched(w, m, j).(updatedAt := now) else j
  }

  ghost predicate Enabled(s: System, a: Act)
  {
    match a
    case Clock(_) => true
    case Start(nodeId, id) => id !in s.works && !exists i :: Unfinished(s.jobs, nodeId, i)
    case Step(id, m) => id in s.works && MoveEnabled(s.works[id], m)
  }

  ghost function Apply(s: System, a: Act): System
    requires Enabled(s, a)
  {
    match a
    case Clock(passed) => s.(now := s.now + passed)
    case Start(nodeId, id) =>
      s.(jobs := Pruned(s.jobs, s.now)[id := NewJob(id, nodeId, s.now)], works := s.works[id := INITIAL_WORK])
    case Step(id, m) =>
      var w := s.works[id];
      s.(works := s.works[id := NextWork(w, m)],
         jobs := if Touches(w, m) then Updated(s.jobs, id, j => Touched(w, m, j), s.now) else s.jobs)
  }

  ghost function RunFrom(s: System, acts: seq<Act>): Option<System>
    decreases |acts|
  {
    if acts == [] then Some(s)
    else if Enabled(s, acts[0]) then RunFrom(Apply(s, acts[0]), acts[1..])
    else None
  }

  ghost predicate Reachable(s: System)
  {
    exists now, acts :: RunFrom(System(now, map[], map[]), acts) == Some(s)
  }

  // -------------------------------------------------------------- invariant

  /** How far the listing is classified. */
  function Reached(w: Work): nat
    requires w.listing.Some?
  {
    if w.pc.Classifying? && w.pc.at <= |w.listing.value| then w.pc.at else |w.listing.value|
  }

  /** Why a drain fails before it evicts anything. */
  function EarlyError(w: Work): JobError
  {
    if !w.cordoned then CordonFailed else if w.listing.None? then ListFailed else Unmanaged(w.unmanaged)
  }

  /** A worker's own state, whatever became of its record. It leaves evictAll
      only once that has returned. */
  ghost predicate Sound(w: Work)
  {
    && (w.listing.Some? || w.pc.ListingPods? ==> w.cordoned)
    && (w.pc.Starting? || w.pc.Cordoning? || w.pc.ListingPods? ==> w.listing.None?)
    && (w.pc.Classifying? ==> w.listing.Some? && w.ev.None? && w.pc.at <= |w.listing.value|)
    && (w.pc.Counting? ==> w.listing.Some? && w.unmanaged == [] && w.ev.None?)
    && (w.pc.Evicting? || w.pc.Succeeding? ==> w.ev.Some?)
    && (if w.listing.None? then w.unmanaged == [] && w.evictable == [] && w.ev.None?
        else w.unmanaged == KeysWith(w.listing.value[..Reached(w)], Block)
             && w.evictable == Evictable(w.listing.value[..Reached(w)]))
    && (w.ev.Some? ==> w.listing.Some? && w.unmanaged == [] && E.Inv(w.ev.value) && w.ev.value.pods == w.evictable)
    && (w.ev.Some? && !w.pc.Evicting? ==> w.ev.value.main == E.Returned)
    && (w.pc.Succeeding? ==> w.ev.value.firstErr.None?)
    && (w.pc.Ending? && w.ev.None? ==> w.pc.error == EarlyError(w) && (w.listing.Some? ==> w.unmanaged != []))
    && (w.pc.Starting? || w.pc.Cordoning? ==> !w.cordoned)
    && (w.pc.Ending? && w.ev.Some? ==> w.ev.value.firstErr.Some? && w.pc.error == EvictionFailed(w.ev.value.firstErr.value))
  }

  /** What holds between a worker and its job record. */
  ghost predicate Agrees(w: Work, j: Job)
  {
    && (j.phase == Pending <==> w.pc.Starting?)
    && (Finished(j) <==> w.pc.Done?)
    && j.skipped == (if w.listing.None? then [] else KeysWith(w.listing.value[..Reached(w)], Skip))
    && (j.phase != Failed ==> j.error == NoError)
    && (if w.ev.None? then j.evicted == [] && j.remaining == 0 && j.phase != Succeeded &&
                           (j.phase == Failed ==> j.error == EarlyError(w) && (w.listing.Some? ==> w.unmanaged != []))
        else EvictionAgrees(w, w.ev.value, j))
  }

  ghost predicate EvictionAgrees(w: Work, ev: E.State, j: Job)
  {
    && j.evicted == Keys(ev.recorded)
    && (E.Distinct(ev.pods) ==> j.remaining == |w.evictable| - |j.evicted|)
    && (j.phase == Succeeded ==> ev.firstErr.None? && j.remaining == 0)
    && (j.phase == Failed ==> ev.firstErr.Some? && j.error == EvictionFailed(ev.firstErr.value))
  }

  /** A worker still running finds its job in the registry. */
  ghost predicate WorkersHaveJobs(s: System)
  {
    && (forall id :: id in s.works && !s.works[id].pc.Done? ==> id in s.jobs)
    && (forall id :: id in s.jobs ==> id in s.works && s.jobs[id].id == id && s.jobs[id].updatedAt <= s.now)
  }

  ghost predicate AllSound(s: System)
  {
    forall id :: id in s.works ==> Sound(s.works[id])
  }

  ghost predicate AllAgree(s: System)
  {
    forall id :: id in s.jobs && id in s.works ==> Agrees(s.works[id], s.jobs[id])
  }

  /** At most one unfinished job per node. */
  ghost predicate OnePerNode(jobs: map<JobId, Job>)
  {
    forall node, i, k :: Unfinished(jobs, node, i) && Unfinished(jobs, node, k) ==> i == k
  }

  ghost predicate Inv(s: System)
  {
    WorkersHaveJobs(s) && AllSound(s) && AllAgree(s) && OnePerNode(s.jobs)
  }

  lemma KeysAppend(a: seq<PodRef>, b: seq<PodRef>)
    ensures Keys(a + b) == Keys(a) + Keys(b)
  {}

  /** evictAll has joined every worker and the poller before it returns, so
      after that nothing of it can move but its deadline. */
  lemma ReturnedIsQuiet(ev: E.State, act: E.Act)
    requires E.Inv(ev) && ev.main == E.Returned && E.Enabled(ev, act)
    ensures act == E.Deadline
  {}

  /** What classifying one pod does to the worker. */
  lemma ClassifyEffect(w: Work)
    requires MoveEnabled(w, ClassifyNext)
    ensures var pod := w.listing.value[w.pc.at];
            NextWork(w, ClassifyNext) ==
              w.(pc := Classifying(w.pc.at + 1),
                 unmanaged := w.unmanaged + (if pod.name != "" && ActionOf(pod) == Block then [RefOf(pod).Key()] else []),
                 evictable := w.evictable + (if pod.name != "" && ActionOf(pod) == Evict then [RefOf(pod)] else []))
  {
    hide ActionOf, RefOf;
    assert w.unmanaged + [] == w.unmanaged && w.evictable + [] == w.evictable;
  }

  lemma ClassifyKeepsSound(w: Work)
    requires Sound(w) && MoveEnabled(w, ClassifyNext)
    ensures Sound(NextWork(w, ClassifyNext))
  {
    hide E.Inv, E.Enabled, E.Apply, E.Distinct, ActionOf, RefOf;
    var pods, at := w.listing.value, w.pc.at;
    assert pods[..at + 1] == pods[..at] + [pods[at]];
    EvictableAppend(pods[..at], pods[at]);
    KeysWithAppend(pods[..at], pods[at], Block);
    ClassifyEffect(w);
    hide KeysWith, Evictable, NextWork;
  }

  lemma ClassifyRecords(w: Work, j: Job, now: int)
    requires MoveEnabled(w, ClassifyNext)
    ensures var pod, r := w.listing.value[w.pc.at], Recorded(w, ClassifyNext, j, now);
            && r.skipped == j.skipped + (if pod.name != "" && ActionOf(pod) == Skip then [RefOf(pod).Key()] else [])
            && r == j.(skipped := r.skipped, updatedAt := r.updatedAt)
  {
    hide ActionOf, RefOf;
    assert j.skipped + [] == j.skipped;
  }

  lemma ClassifyKeepsAgreement(w: Work, j: Job, now: int)
    requires Sound(w) && Agrees(w, j) && MoveEnabled(w, ClassifyNext)
    ensures Agrees(NextWork(w, ClassifyNext), Recorded(w, ClassifyNext, j, now))
  {
    hide E.Inv, E.Enabled, E.Apply, E.Distinct, ActionOf, RefOf, Evictable;
    var pods, at := w.listing.value, w.pc.at;
    assert pods[..at + 1] == pods[..at] + [pods[at]];
    KeysWithAppend(pods[..at], pods[at], Skip);
    ClassifyEffect(w);
    ClassifyRecords(w, j, now);
    hide KeysWith, NextWork, Recorded;
  }

  /** The poller never records more pods than remain, so the clamp at zero in
      the update is never needed. */
  lemma ClampNeverBites(ev: E.State, gone: seq<PodRef>)
    requires E.Inv(ev) && E.Enabled(ev, E.Poll(E.Record(gone)))
    ensures |ev.recorded| + |gone| <= |ev.pods|
  {
    E.ListingCounts(gone, ev.poller.gone, NO_REF);
  }

  /** The rest of the worker does not change with evictAll. */
  lemma InsideKeepsSound(w: Work, act: E.Act)
    requires Sound(w) && MoveEnabled(w, Inside(act))
    ensures Sound(NextWork(w, Inside(act)))
  {
    hide E.Inv, E.Apply, E.Enabled, KeysWith, Evictable;
    var ev := w.ev.value;
    E.InvKept(ev, act);
    if ev.main == E.Returned {
      AfterReturn(ev, act);
    }
  }

  lemma AfterReturn(ev: E.State, act: E.Act)
    requires E.Inv(ev) && ev.main == E.Returned && E.Enabled(ev, act)
    ensures E.Apply(ev, act) == ev.(expired := true, ctxDone := true)
  {
    ReturnedIsQuiet(ev, act);
  }

  lemma InsideKeeps(w: Work, j: Job, act: E.Act, now: int)
    requires Sound(w) && MoveEnabled(w, Inside(act))
    ensures Sound(NextWork(w, Inside(act)))
    ensures Agrees(w, j) ==> Agrees(NextWork(w, Inside(act)), Recorded(w, Inside(act), j, now))
  {
    InsideKeepsSound(w, act);
    if Agrees(w, j) {
      InsideKeepsAgreement(w, j, act, now);
    }
  }

  lemma InsideKeepsAgreement(w: Work, j: Job, act: E.Act, now: int)
    requires Sound(w) && MoveEnabled(w, Inside(act)) && Agrees(w, j)
    ensures Agrees(NextWork(w, Inside(act)), Recorded(w, Inside(act), j, now))
  {
    var ev := w.ev.value;
    if ev.main == E.Returned {
      hide E.Inv, E.Apply, E.Enabled, KeysWith, Evictable, E.Distinct;
      ReturnedIsQuiet(ev, act);
      AfterReturn(ev, act);
    } else if Touches(w, Inside(act)) {
      RecordKeepsAgreement(w, j, act, now);
    } else {
      hide E.Inv, E.Apply, E.Enabled, KeysWith, Evictable, E.Distinct;
      E.SamePods(ev, act);
      RecordedOnlyByRecord(ev, act);
    }
  }

  lemma RecordKeepsAgreement(w: Work, j: Job, act: E.Act, now: int)
    requires Sound(w) && MoveEnabled(w, Inside(act)) && Agrees(w, j) && w.pc.Evicting? && Touches(w, Inside(act))
    ensures Agrees(NextWork(w, Inside(act)), Recorded(w, Inside(act), j, now))
  {
    hide E.Inv, KeysWith, Evictable, E.Distinct;
    ClampNeverBites(w.ev.value, act.pa.gone);
    KeysAppend(w.ev.value.recorded, act.pa.gone);
    hide Keys;
  }

  lemma RecordedOnlyByRecord(ev: E.State, act: E.Act)
    requires E.Enabled(ev, act) && !(act.Poll? && act.pa.Record?)
    ensures E.Apply(ev, act).recorded == ev.recorded
  {}

  /** When `evictAll` has returned nil the job already shows every evictable pod
      as evicted and none remaining. */
  lemma SucceedFindsNothingLeft(w: Work, j: Job)
    requires Sound(w) && Agrees(w, j) && w.pc.Succeeding?
    ensures E.Distinct(w.evictable) ==> j.remaining == 0 && multiset(j.evicted) == multiset(Keys(w.evictable))
  {
    var ev := w.ev.value;
    E.NilFromInv(ev);
    if E.Distinct(w.evictable) {
      assert |multiset(ev.recorded)| == |ev.recorded| && |multiset(ev.pods)| == |ev.pods|;
      KeysPermute(ev.recorded, ev.pods);
    }
  }

  lemma {:induction false} KeysPermute(a: seq<PodRef>, b: seq<PodRef>)
    requires multiset(a) == multiset(b)
    ensures multiset(Keys(a)) == multiset(Keys(b))
    decreases |a|
  {
    if a == [] {
      assert |multiset(b)| == |b|;
    } else {
      var before, after := TakeOut(a, b);
      KeysPermute(a[1..], before + after);
      OneKeyOut(before, a[0], after);
      OneKeyOut([], a[0], a[1..]);
      assert [] + [a[0]] + a[1..] == a && [] + a[1..] == a[1..];
    }
  }

  lemma OneKeyOut(before: seq<PodRef>, p: PodRef, after: seq<PodRef>)
    ensures multiset(Keys(before + [p] + after)) == multiset(Keys(before + after)) + multiset{p.Key()}
  {
    KeysAppend(before + [p], after);
    KeysAppend(before, [p]);
    KeysAppend(before, after);
    assert Keys([p]) == [p.Key()];
    hide Keys;
    OneOut(Keys(before), p.Key(), Keys(after));
  }

  lemma OneOut<T>(before: seq<T>, x: T, after: seq<T>)
    ensures multiset(before + [x] + after) == multiset(before + after) + multiset{x}
  {}

  lemma OtherMoveKeepsSound(w: Work, m: Move)
    requires Sound(w) && MoveEnabled(w, m) && !m.ClassifyNext? && !m.Inside?
    ensures Sound(NextWork(w, m))
  {
    hide E.Inv, E.Enabled, E.Apply, E.Init, KeysWith, Evictable;
    if m.SetRemaining? {
      E.InitInv(w.evictable, m.expired);
      StartsWith(w.evictable, m.expired);
    } else if m.PodsReply? && m.pods.Some? {
      NothingClassified(m.pods.value);
    }
  }

  lemma StartsWith(pods: seq<PodRef>, expired: bool)
    ensures E.Init(pods, expired).pods == pods && E.Init(pods, expired).recorded == []
  {}

  lemma NothingClassified(pods: seq<Pod>)
    ensures KeysWith(pods[..0], Skip) == [] && KeysWith(pods[..0], Block) == [] && Evictable(pods[..0]) == []
  {
    assert pods[..0] == [];
  }

  lemma OtherMoveKeepsAgreement(w: Work, j: Job, m: Move, now: int)
    requires Sound(w) && MoveEnabled(w, m) && !m.ClassifyNext? && !m.Inside? && Agrees(w, j)
    ensures Agrees(NextWork(w, m), Recorded(w, m, j, now))
  {
    hide E.Inv, E.Enabled, E.Apply, E.Init, KeysWith, Evictable, E.Distinct;
    if m.SetRemaining? {
      StartsWith(w.evictable, m.expired);
    } else if m.PodsReply? && m.pods.Some? {
      NothingClassified(m.pods.value);
    } else if m.Succeed? {
      SucceedFindsNothingLeft(w, j);
    }
  }

  lemma MoveKeeps(w: Work, j: Job, m: Move, now: int)
    requires Sound(w) && MoveEnabled(w, m)
    ensures Sound(NextWork(w, m))
    ensures Agrees(w, j) ==> Agrees(NextWork(w, m), Recorded(w, m, j, now))
  {
    hide Sound, Agrees, NextWork, Recorded;
    match m
    case ClassifyNext =>
      ClassifyKeepsSound(w);
      if Agrees(w, j) {
        ClassifyKeepsAgreement(w, j, now);
      }
    case Inside(act) => InsideKeeps(w, j, act, now);
    case _ =>
      OtherMoveKeepsSound(w, m);
      if Agrees(w, j) {
        OtherMoveKeepsAgreement(w, j, m, now);
      }
  }

  /** A worker that is done touches no record any more: what is left of evictAll
      is its deadline. */
  lemma DoneTouchesNothing(w: Work, m: Move)
    requires Sound(w) && w.pc.Done? && MoveEnabled(w, m)
    ensures m == Inside(E.Deadline) && !Touches(w, m) && NextWork(w, m).pc.Done?
  {
    ReturnedIsQuiet(w.ev.value, m.act);
  }

  /** What a step does to the registry. */
  lemma StepEffect(s: System, id: JobId, m: Move)
    requires Inv(s) && Enabled(s, Step(id, m))
    ensures !s.works[id].pc.Done? ==> id in s.jobs
    ensures var t := Apply(s, Step(id, m));
            t.works == s.works[id := NextWork(s.works[id], m)] && t.now == s.now
            && t.jobs == if id in s.jobs then s.jobs[id := Recorded(s.works[id], m, s.jobs[id], s.now)] else s.jobs
  {
    hide Sound, Agrees, Touched, NextWork;
    if s.works[id].pc.Done? {
      DoneTouchesNothing(s.works[id], m);
    }
  }

  lemma TouchedKeepsIdentity(w: Work, m: Move, j: Job, now: int)
    requires MoveEnabled(w, m)
    ensures Recorded(w, m, j, now).id == j.id && Recorded(w, m, j, now).nodeId == j.nodeId
    ensures Recorded(w, m, j, now).startedAt == j.startedAt
    ensures Recorded(w, m, j, now).updatedAt == now || Recorded(w, m, j, now) == j
    ensures Recorded(w, m, j, now).phase == j.phase || m.Begin? || m.Succeed? || m.Fail?
  {}

  lemma StepKeepsAgreement(s: System, id: JobId, m: Move)
    requires Inv(s) && Enabled(s, Step(id, m))
    ensures AllAgree(Apply(s, Step(id, m))) && AllSound(Apply(s, Step(id, m)))
  {
    hide Sound, Agrees;
    StepEffect(s, id, m);
    MoveKeeps(s.works[id], if id in s.jobs then s.jobs[id] else NewJob(id, "", 0), m, s.now);
    hide Apply, Recorded, NextWork, MoveEnabled;
  }

  lemma StepKeepsOnePerNode(s: System, id: JobId, m: Move)
    requires Inv(s) && Enabled(s, Step(id, m))
    ensures OnePerNode(Apply(s, Step(id, m)).jobs)
  {
    var t := Apply(s, Step(id, m));
    var w := s.works[id];
    StepEffect(s, id, m);
    if id in s.jobs {
      TouchedKeepsIdentity(w, m, s.jobs[id], s.now);
      if Finished(s.jobs[id]) {
        assert Agrees(w, s.jobs[id]);
        DoneTouchesNothing(w, m);
      }
      assert Finished(s.jobs[id]) ==> t.jobs[id] == s.jobs[id];
    }
    hide Apply, Recorded, NextWork, MoveEnabled, Agrees, Sound;
    forall node, i | Unfinished(t.jobs, node, i) ensures Unfinished(s.jobs, node, i) {}
  }

  lemma StepKeepsInv(s: System, id: JobId, m: Move)
    requires Inv(s) && Enabled(s, Step(id, m))
    ensures Inv(Apply(s, Step(id, m)))
  {
    hide AllAgree, AllSound, OnePerNode, Recorded, NextWork, MoveEnabled;
    StepEffect(s, id, m);
    if id in s.jobs {
      TouchedKeepsIdentity(s.works[id], m, s.jobs[id], s.now);
    }
    if s.works[id].pc.Done? {
      StillDone(s, id, m);
    }
    StepKeepsAgreement(s, id, m);
    StepKeepsOnePerNode(s, id, m);
    hide Apply;
  }

  lemma StillDone(s: System, id: JobId, m: Move)
    requires Inv(s) && Enabled(s, Step(id, m)) && s.works[id].pc.Done?
    ensures NextWork(s.works[id], m).pc.Done?
  {
    DoneTouchesNothing(s.works[id], m);
  }

  lemma NewWorkAgrees(id: JobId, nodeId: string, now: int)
    ensures NewJob(id, nodeId, now).id == id && NewJob(id, nodeId, now).updatedAt == now
    ensures Sound(INITIAL_WORK) && Agrees(INITIAL_WORK, NewJob(id, nodeId, now))
  {}

  /** A start adds one record and one worker, and changes no other. */
  lemma StartEffect(s: System, nodeId: string, id: JobId)
    requires WorkersHaveJobs(s) && Enabled(s, Start(nodeId, id))
    ensures id !in s.jobs
    ensures var t := Apply(s, Start(nodeId, id));
            && t.now == s.now && t.works == s.works[id := INITIAL_WORK]
            && id in t.jobs && t.jobs[id] == NewJob(id, nodeId, s.now)
            && (forall i :: i in t.jobs && i != id ==> i in s.jobs && t.jobs[i] == s.jobs[i])
            && (forall i :: i in s.jobs && !Finished(s.jobs[i]) ==> i in t.jobs)
  {}

  lemma StartKeepsOnePerNode(s: System, nodeId: string, id: JobId)
    requires Inv(s) && Enabled(s, Start(nodeId, id))
    ensures OnePerNode(Apply(s, Start(nodeId, id)).jobs)
  {
    var t := Apply(s, Start(nodeId, id));
    StartEffect(s, nodeId, id);
    hide AllAgree, AllSound, Apply;
    forall node, i | Unfinished(t.jobs, node, i) && i != id ensures Unfinished(s.jobs, node, i) {}
  }

  lemma StartKeepsAgreement(s: System, nodeId: string, id: JobId)
    requires Inv(s) && Enabled(s, Start(nodeId, id))
    ensures AllSound(Apply(s, Start(nodeId, id))) && AllAgree(Apply(s, Start(nodeId, id)))
  {
    hide Sound, Agrees, OnePerNode;
    StartEffect(s, nodeId, id);
    NewWorkAgrees(id, nodeId, s.now);
    hide Apply, Enabled;
  }

  /** A worker still running has an unfinished record. */
  lemma RunningIsUnfinished(s: System, i: JobId)
    requires Inv(s) && i in s.works && !s.works[i].pc.Done?
    ensures i in s.jobs && !Finished(s.jobs[i])
  {
    hide Sound, OnePerNode;
    assert Agrees(s.works[i], s.jobs[i]);
  }

  lemma StartKeepsWorkers(s: System, nodeId: string, id: JobId)
    requires Inv(s) && Enabled(s, Start(nodeId, id))
    ensures WorkersHaveJobs(Apply(s, Start(nodeId, id)))
  {
    hide AllSound, AllAgree, OnePerNode, Sound, Agrees, Finished;
    var t := Apply(s, Start(nodeId, id));
    StartEffect(s, nodeId, id);
    NewWorkAgrees(id, nodeId, s.now);
    hide Apply, Enabled, NewJob;
    forall i | i in t.works && !t.works[i].pc.Done? ensures i in t.jobs {
      if i != id {
        RunningIsUnfinished(s, i);
      }
    }
  }

  lemma StartKeepsInv(s: System, nodeId: string, id: JobId)
    requires Inv(s) && Enabled(s, Start(nodeId, id))
    ensures Inv(Apply(s, Start(nodeId, id)))
  {
    hide WorkersHaveJobs, AllSound, AllAgree, OnePerNode;
    StartKeepsWorkers(s, nodeId, id);
    StartKeepsAgreement(s, nodeId, id);
    StartKeepsOnePerNode(s, nodeId, id);
  }

  /** Every action of the whole system keeps the invariant. */
  lemma InvKept(s: System, a: Act)
    requires Inv(s) && Enabled(s, a)
    ensures Inv(Apply(s, a))
  {
    match a
    case Clock(_) =>
      assert AllAgree(Apply(s, a));
    case Start(nodeId, id) => StartKeepsInv(s, nodeId, id);
    case Step(id, m) => StepKeepsInv(s, id, m);
  }

  lemma {:induction false} RunKeepsInv(s: System, acts: seq<Act>)
    requires Inv(s) && RunFrom(s, acts).Some?
    ensures Inv(RunFrom(s, acts).value)
    decreases |acts|
  {
    if acts != [] {
      InvKept(s, acts[0]);
      RunKeepsInv(Apply(s, acts[0]), acts[1..]);
    }
  }

  lemma ReachableInv(s: System)
    requires Reachable(s)
    ensures Inv(s)
  {
    var now, acts :| RunFrom(System(now, map[], map[]), acts) == Some(s);
    RunKeepsInv(System(now, map[], map[]), acts);
  }

  // ------------------------------------------------------------ main results

  lemma {:induction false} EvictableMeans(pods: seq<Pod>, ref: PodRef)
    ensures ref in Evictable(pods) <==>
            exists p :: p in pods && p.name != "" && ActionOf(p) == Evict && RefOf(p) == ref
  {
    if pods != [] {
      EvictableMeans(pods[1..], ref);
      assert pods == [pods[0]] + pods[1..];
    }
  }

  /** What Kubernetes guarantees of a listing: no two named pods agree on
      namespace, name and UID. */
  ghost predicate DistinctPods(pods: seq<Pod>)
  {
    forall i, k :: 0 <= i < k < |pods| && pods[i].name != "" && pods[k].name != "" ==>
      TextOf(pods[i]) != TextOf(pods[k]) || pods[i].uid != pods[k].uid
  }

  lemma {:induction false} DistinctPodsDistinctRefs(pods: seq<Pod>)
    requires DistinctPods(pods)
    ensures E.Distinct(Evictable(pods))
  {
    hide ActionOf;
    if pods != [] {
      DistinctPodsDistinctRefs(pods[1..]);
      var rest := Evictable(pods[1..]);
      assert Evictable(pods) == rest || (Evictable(pods) == [RefOf(pods[0])] + rest && pods[0].name != "");
      forall ref ensures E.Occurs(Evictable(pods), ref) <= 1 {
        OccursInside(Evictable(pods[1..]), ref);
        if pods[0].name != "" && ref == RefOf(pods[0]) {
          FirstIsElsewhere(pods, ref);
        }
      }
    }
  }

  lemma FirstIsElsewhere(pods: seq<Pod>, ref: PodRef)
    requires DistinctPods(pods) && pods != [] && pods[0].name != "" && ref == RefOf(pods[0])
    ensures ref !in Evictable(pods[1..])
  {
    EvictableMeans(pods[1..], ref);
    hide ActionOf;
    assert forall k :: 0 <= k < |pods| - 1 ==> pods[k + 1] == pods[1..][k];
  }

  lemma OccursInside(refs: seq<PodRef>, ref: PodRef)
    ensures E.Occurs(refs, ref) > 0 <==> ref in refs
  {
    E.OccursIsMultiplicity(refs, ref);
    assert ref in refs <==> ref in multiset(refs);
  }

  /** A succeeded job: no pod listed was blocked; every evictable one had its
      eviction accepted, by namespace, name and UID, and was then missing from a
      later listing; the job lists the skipped ones in order, its Evicted is a
      permutation of the evictable ones' namespaces and names, and nothing
      remains. */
  lemma SucceededDrainIsComplete(s: System, id: JobId)
    requires Reachable(s) && id in s.jobs && s.jobs[id].phase == Succeeded
    ensures id in s.works && s.works[id].ev.Some? && s.works[id].listing.Some?
    ensures var w := s.works[id];
            && w.cordoned
            && (forall p :: p in w.listing.value ==> ActionOf(p) != Block)
            && (forall p :: p in w.listing.value && ActionOf(p) == Evict ==>
                  E.GoneAfter(w.ev.value.log, PodRef(if p.ns == "" then "default" else p.ns, p.name, p.uid)))
            && s.jobs[id].skipped == Texts(Those(w.listing.value, Skip))
            && s.jobs[id].remaining == 0
            && (DistinctPods(w.listing.value) ==>
                  multiset(s.jobs[id].evicted) == multiset(Texts(Those(w.listing.value, Evict))))
  {
    ReachableInv(s);
    hide Reachable;
    assert Agrees(s.works[id], s.jobs[id]) && Sound(s.works[id]);
    hide *;
    CompleteRecord(s.works[id], s.jobs[id]);
  }

  lemma CompleteRecord(w: Work, j: Job)
    requires Sound(w) && Agrees(w, j) && j.phase == Succeeded
    ensures w.ev.Some? && w.listing.Some? && w.cordoned
    ensures var pods := w.listing.value;
            && (forall p :: p in pods ==> ActionOf(p) != Block)
            && (forall p :: p in pods && ActionOf(p) == Evict ==>
                  E.GoneAfter(w.ev.value.log, PodRef(if p.ns == "" then "default" else p.ns, p.name, p.uid)))
            && j.skipped == Texts(Those(pods, Skip)) && j.remaining == 0
            && (DistinctPods(pods) ==> multiset(j.evicted) == multiset(Texts(Those(pods, Evict))))
  {
    var pods := w.listing.value;
    assert pods[..|pods|] == pods;
    E.NilFromInv(w.ev.value);
    hide E.Inv, E.GoneAfter, KeysWith, Evictable, E.Distinct;
    CompleteListing(w, pods, j);
    forall p | p in pods && ActionOf(p) == Evict ensures E.GoneAfter(w.ev.value.log, RefOf(p)) {
      EvictableMeans(pods, RefOf(p));
    }
  }

  lemma CompleteListing(w: Work, pods: seq<Pod>, j: Job)
    requires w.ev.Some? && KeysWith(pods, Block) == [] && Evictable(pods) == w.evictable == w.ev.value.pods
    requires j.evicted == Keys(w.ev.value.recorded)
    requires E.Distinct(w.evictable) ==> multiset(w.ev.value.recorded) == multiset(w.ev.value.pods)
    ensures forall p :: p in pods ==> ActionOf(p) != Block
    ensures KeysWith(pods, Skip) == Texts(Those(pods, Skip))
    ensures DistinctPods(pods) ==> multiset(j.evicted) == multiset(Texts(Those(pods, Evict)))
  {
    NoneBlocked(pods);
    KeysAreTexts(pods, Skip);
    KeysAreTexts(pods, Evict);
    EvictableKeys(pods);
    if DistinctPods(pods) {
      DistinctPodsDistinctRefs(pods);
      KeysPermute(w.ev.value.recorded, w.ev.value.pods);
    }
  }

  /** From the moment Remaining is set, on failed drains too, it is the number
      of evictable pods not yet recorded as evicted. */
  lemma RemainingIsExact(s: System, id: JobId)
    requires Reachable(s) && id in s.jobs && id in s.works && s.works[id].ev.Some?
    ensures s.works[id].listing.Some?
    ensures var pods := s.works[id].listing.value;
            DistinctPods(pods) ==>
              s.jobs[id].remaining == |Those(pods, Evict)| - |s.jobs[id].evicted| && s.jobs[id].remaining >= 0
  {
    ReachableInv(s);
    hide Reachable;
    var w := s.works[id];
    assert Agrees(w, s.jobs[id]) && Sound(w);
    hide Inv;
    var pods := w.listing.value;
    assert pods[..|pods|] == pods;
    KeysAreTexts(pods, Evict);
    EvictableKeys(pods);
    if DistinctPods(pods) {
      DistinctPodsDistinctRefs(pods);
    }
  }

  /** An eviction is only ever sent after the node was cordoned and its whole
      pod list classified with no pod blocked, and only for a pod classified
      evictable, under that pod's own namespace, name and UID; so never for a
      skipped pod. This holds of drains long finished and pruned, too. */
  lemma EvictionsAreGated(s: System, id: JobId, ref: PodRef)
    requires Reachable(s) && id in s.works && s.works[id].ev.Some?
    requires E.EvictionSent(ref) in s.works[id].ev.value.log
    ensures var w := s.works[id];
            && w.cordoned && w.listing.Some?
            && (forall p :: p in w.listing.value ==> ActionOf(p) != Block)
            && (exists p :: p in w.listing.value && ActionOf(p) == Evict && Names(p, ref))
            && (DistinctPods(w.listing.value) ==> forall p :: p in w.listing.value && ActionOf(p) == Skip ==> !Names(p, ref))
  {
    ReachableInv(s);
    hide Reachable;
    assert Sound(s.works[id]);
    hide Inv;
    SentWasGated(s.works[id], ref);
    hide ActionOf;
    OnlyOneNamed(s.works[id].listing.value, ref);
  }

  /** The pod is the one that this reference means. */
  predicate Names(p: Pod, ref: PodRef)
  {
    p.name != "" && ref.name == p.name && ref.uid == p.uid && ref.ns == if p.ns == "" then "default" else p.ns
  }

  lemma OnlyOneNamed(pods: seq<Pod>, ref: PodRef)
    requires exists p :: p in pods && ActionOf(p) == Evict && Names(p, ref)
    ensures DistinctPods(pods) ==> forall p :: p in pods && ActionOf(p) == Skip ==> !Names(p, ref)
  {
    hide ActionOf;
    var p :| p in pods && ActionOf(p) == Evict && Names(p, ref);
    var i :| 0 <= i < |pods| && pods[i] == p;
  }

  lemma SentWasGated(w: Work, ref: PodRef)
    requires Sound(w) && w.ev.Some? && E.EvictionSent(ref) in w.ev.value.log
    ensures w.cordoned && w.listing.Some?
    ensures forall p :: p in w.listing.value ==> ActionOf(p) != Block
    ensures exists p :: p in w.listing.value && ActionOf(p) == Evict && Names(p, ref)
  {
    assert E.Targets(w.ev.value) by { hide Reached, KeysWith, Evictable; }
    hide E.Inv, ActionOf, KeysWith, Evictable;
    var pods := w.listing.value;
    assert pods[..|pods|] == pods;
    OccursInside(w.evictable, ref);
    EvictableMeans(pods, ref);
    NoneBlocked(pods);
  }

  lemma NoneBlocked(pods: seq<Pod>)
    requires KeysWith(pods, Block) == []
    ensures forall p :: p in pods ==> ActionOf(p) != Block
  {
    KeysAreTexts(pods, Block);
    forall p | p in pods ensures ActionOf(p) != Block {
      FilterMembers(pods, (q: Pod) => q.name != "" && ActionOf(q) == Block, p);
      assert Those(pods, Block) == [];
    }
  }

  /** Why a drain failed, and that the record says so: the node could not be
      cordoned; or, cordoned, its pods could not be listed; or, listed, some
      would be lost, and the error lists just these; or evictAll gave the error. */
  lemma FailedDrainSaysWhy(s: System, id: JobId)
    requires Reachable(s) && id in s.jobs
    ensures s.jobs[id].phase != Failed ==> s.jobs[id].error == NoError
    ensures s.jobs[id].phase == Failed ==>
              && id in s.works
              && var w := s.works[id];
                 match s.jobs[id].error
                 case NoError => false
                 case CordonFailed => !w.cordoned && w.listing.None? && w.ev.None?
                 case ListFailed => w.cordoned && w.listing.None? && w.ev.None?
                 case Unmanaged(keys) =>
                   w.listing.Some? && w.ev.None? && keys == Texts(Those(w.listing.value, Block)) && keys != []
                 case EvictionFailed(f) => w.ev.Some? && w.ev.value.firstErr == Some(f)
  {
    ReachableInv(s);
    hide Reachable;
    assert Agrees(s.works[id], s.jobs[id]) && Sound(s.works[id]);
    hide Inv, E.Inv, KeysWith, Evictable, ActionOf;
    var w := s.works[id];
    if w.listing.Some? {
      assert w.listing.value[..|w.listing.value|] == w.listing.value;
      KeysAreTexts(w.listing.value, Block);
    }
  }

  /** At most one unfinished job per node, so the job StartDrain joins does not
      depend on the order of the registry's map. */
  lemma JoinedJobIsUnique(s: System, i: JobId, k: JobId)
    requires Reachable(s) && i in s.jobs && k in s.jobs && s.jobs[i].nodeId == s.jobs[k].nodeId
    requires s.jobs[i].phase in {Pending, Running} && s.jobs[k].phase in {Pending, Running}
    ensures i == k
  {
    ReachableInv(s);
    assert Unfinished(s.jobs, s.jobs[i].nodeId, i) && Unfinished(s.jobs, s.jobs[i].nodeId, k);
  }

  /** A worker that is not done can always change its own state, without its
      deadline's help; and it needs no more pods for that. */
  lemma WorkerMoves(w: Work) returns (m: Move)
    requires Sound(w) && !w.pc.Done?
    ensures MoveEnabled(w, m) && m != Inside(E.Deadline) && NextWork(w, m) != w && InTime(m, 0)
  {
    match w.pc
    case Starting => m := Begin;
    case Cordoning => m := CordonReply(false);
    case ListingPods => m := PodsReply(None);
    case Classifying(at) => m := if at < |w.listing.value| then ClassifyNext else Decide;
    case Counting => m := SetRemaining(true);
    case Evicting =>
      if w.ev.value.main == E.Returned {
        m := Leave;
      } else {
        var act := E.NoDeadlock(w.ev.value);
        m := Inside(act);
      }
    case Succeeding => m := Succeed;
    case Ending(_) => m := Move.Fail;
  }

  /** A worker that is not done finds its job registered and unfinished, and can
      always change its own state: it is never lost. */
  lemma WorkerFindsItsJob(s: System, id: JobId) returns (m: Move)
    requires Reachable(s) && id in s.works && !s.works[id].pc.Done?
    ensures id in s.jobs && !Finished(s.jobs[id])
    ensures MoveEnabled(s.works[id], m) && m != Inside(E.Deadline) && NextWork(s.works[id], m) != s.works[id]
  {
    ReachableInv(s);
    hide Reachable;
    RunningIsUnfinished(s, id);
    assert Sound(s.works[id]);
    hide Sound;
    m := WorkerMoves(s.works[id]);
  }

  // -------------------------------------------------- once the time is over

  /** A move of a drain whose context has ended, on a node of at most n pods. */
  predicate InTime(m: Move, n: nat)
  {
    match m
    case SetRemaining(expired) => expired
    case PodsReply(pods) => pods.Some? ==> |pods.value| <= n
    case _ => true
  }

  predicate Ended(w: Work, n: nat)
  {
    (w.ev.Some? ==> w.ev.value.ctxDone) && (w.listing.Some? ==> |w.listing.value| <= n)
  }

  /** How many moves are left, inside evictAll and around it. */
  function Left(w: Work, n: nat): nat
  {
    match w.pc
    case Starting => 4 * n + 20
    case Cordoning => 4 * n + 19
    case ListingPods => 4 * n + 18
    case Classifying(at) =>
      3 * |w.evictable| + (if w.listing.Some? && at <= |w.listing.value| then 4 * (|w.listing.value| - at) else 0) + 17
    case Counting => 3 * |w.evictable| + 16
    case Evicting => Within(w) + 2
    case Succeeding => Within(w) + 1
    case Ending(_) => Within(w) + 1
    case Done => Within(w)
  }

  function Within(w: Work): nat
  {
    if w.ev.Some? then E.Measure(w.ev.value) else 0
  }

  lemma FreshMeasure(pods: seq<PodRef>)
    ensures E.Measure(E.Init(pods, true)) <= 3 * |pods| + 13
  {
    IdleRanks(Min(E.DRAIN_WORKERS, |pods|));
  }

  lemma {:induction false} IdleRanks(k: nat)
    ensures E.RankSum(seq(k, _ => E.Idle)) == k
  {
    if k > 0 {
      IdleRanks(k - 1);
      var ws: seq<E.Worker> := seq(k, _ => E.Idle);
      assert ws[1..] == seq(k - 1, _ => E.Idle);
    }
  }

  lemma InsideRunsDown(w: Work, act: E.Act, n: nat)
    requires Sound(w) && MoveEnabled(w, Inside(act)) && Ended(w, n) && NextWork(w, Inside(act)) != w
    ensures Ended(NextWork(w, Inside(act)), n) && Left(NextWork(w, Inside(act)), n) < Left(w, n)
  {
    hide E.Inv, E.Measure, E.Enabled, E.Apply, KeysWith, Evictable;
    E.CancelledRunsDown(w.ev.value, act);
  }

  lemma AroundRunsDown(w: Work, m: Move, n: nat)
    requires Sound(w) && MoveEnabled(w, m) && Ended(w, n) && InTime(m, n) && !m.Inside?
    ensures Ended(NextWork(w, m), n) && Left(NextWork(w, m), n) < Left(w, n)
  {
    hide E.Inv, E.Measure, E.Init, KeysWith, Evictable, ActionOf, RefOf;
    if m.SetRemaining? {
      FreshMeasure(w.evictable);
      StartsEnded(w.evictable);
    }
  }

  lemma StartsEnded(pods: seq<PodRef>)
    ensures E.Init(pods, true).ctxDone
  {}

  /** Once the drain's context has ended, every move that changes the worker
      leaves fewer. */
  lemma EndedRunsDown(w: Work, m: Move, n: nat)
    requires Sound(w) && MoveEnabled(w, m) && Ended(w, n) && InTime(m, n) && NextWork(w, m) != w
    ensures Sound(NextWork(w, m)) && Ended(NextWork(w, m), n) && Left(NextWork(w, m), n) < Left(w, n)
  {
    hide Sound, Ended, Left, NextWork;
    MoveKeeps(w, NewJob("", "", 0), m, 0);
    if m.Inside? {
      InsideRunsDown(w, m.act, n);
    } else {
      AroundRunsDown(w, m, n);
    }
  }

  /** The worker after these moves, when each was enabled, in time, and changed
      it. */
  ghost function After(w: Work, moves: seq<Move>, n: nat): Option<Work>
    decreases |moves|
  {
    if moves == [] then Some(w)
    else if MoveEnabled(w, moves[0]) && InTime(moves[0], n) && NextWork(w, moves[0]) != w
    then After(NextWork(w, moves[0]), moves[1..], n)
    else None
  }

  /** A drain whose context has ended, on a node of at most n pods, changes its
      state at most `Left` more times; from the very beginning that is 4n + 20. */
  lemma {:induction false} EndedDrainIsShort(w: Work, moves: seq<Move>, n: nat)
    requires Sound(w) && Ended(w, n) && After(w, moves, n).Some?
    ensures |moves| <= Left(w, n)
    ensures w == INITIAL_WORK ==> |moves| <= 4 * n + 20
    decreases |moves|
  {
    hide Sound, Ended, InTime, NextWork, MoveEnabled;
    if moves != [] {
      EndedRunsDown(w, moves[0], n);
      EndedDrainIsShort(NextWork(w, moves[0]), moves[1..], n);
    }
  }

  /** ... and it reaches Done: while it is not there it can move. */
  lemma {:induction false} EndedDrainFinishes(w: Work, n: nat) returns (moves: seq<Move>)
    requires Sound(w) && Ended(w, n)
    ensures After(w, moves, n).Some? && After(w, moves, n).value.pc.Done?
    decreases Left(w, n)
  {
    hide Sound, Ended, NextWork, MoveEnabled, Left;
    moves := [];
    if !w.pc.Done? {
      var m := WorkerMoves(w);
      assert InTime(m, n);
      EndedRunsDown(w, m, n);
      var rest := EndedDrainFinishes(NextWork(w, m), n);
      moves := [m] + rest;
      assert moves[1..] == rest;
    }
  }

  /** Phases only move Pending, Running, then Succeeded or Failed. */
  predicate PhaseStep(from: Phase, to: Phase)
  {
    from == to || (from == Pending && to == Running) || (from == Running && (to == Succeeded || to == Failed))
  }

  predicate SameJob(j: Job, r: Job)
  {
    r.id == j.id && r.nodeId == j.nodeId && r.startedAt == j.startedAt
  }

  lemma RecordMoves(w: Work, m: Move, j: Job, now: int)
    requires Sound(w) && Agrees(w, j) && MoveEnabled(w, m)
    ensures var r := Recorded(w, m, j, now);
            PhaseStep(j.phase, r.phase) && SameJob(j, r) && (r == j || r.updatedAt == now) && (Finished(j) ==> r == j)
  {
    TouchedKeepsIdentity(w, m, j, now);
    if Finished(j) {
      DoneTouchesNothing(w, m);
    }
    hide Touched;
  }

  /** A start drops only what is stale, and changes nothing else. */
  lemma StartDropsOnlyStale(s: System, nodeId: string, id: JobId, i: JobId)
    requires Enabled(s, Start(nodeId, id)) && i in s.jobs && i in s.works
    ensures var t := Apply(s, Start(nodeId, id));
            if i in t.jobs then t.jobs[i] == s.jobs[i]
            else Finished(s.jobs[i]) && s.jobs[i].updatedAt + 3600000 < s.now
  {}

  /** One action never changes a finished record, moves phases only forward,
      keeps a job's identity, and removes a job only if it is finished and its
      last update is more than the retention ago. */
  lemma RecordLifecycle(s: System, a: Act, id: JobId)
    requires Inv(s) && Enabled(s, a) && id in s.jobs
    ensures var t := Apply(s, a);
            if id in t.jobs then
              PhaseStep(s.jobs[id].phase, t.jobs[id].phase) && SameJob(s.jobs[id], t.jobs[id]) &&
              (t.jobs[id] == s.jobs[id] || (s.jobs[id].phase in {Pending, Running} && t.jobs[id].updatedAt == s.now))
            else s.jobs[id].phase in {Succeeded, Failed} && s.jobs[id].updatedAt + 3600000 < s.now
    ensures id in Apply(s, a).works
  {
    hide Sound, Agrees, OnePerNode, NextWork, Recorded, MoveEnabled;
    match a
    case Clock(_) =>
    case Start(nodeId, newId) => StartDropsOnlyStale(s, nodeId, newId, id);
    case Step(worker, m) =>
      StepEffect(s, worker, m);
      if worker == id {
        RecordMoves(s.works[id], m, s.jobs[id], s.now);
      }
  }

  lemma {:induction false} GoneStaysGone(s: System, acts: seq<Act>, id: JobId)
    requires Inv(s) && RunFrom(s, acts).Some? && id in s.works && id !in s.jobs
    ensures var t := RunFrom(s, acts).value; id !in t.jobs && t.now >= s.now
    decreases |acts|
  {
    if acts != [] {
      InvKept(s, acts[0]);
      if acts[0].Step? {
        StepEffect(s, acts[0].id, acts[0].move);
      }
      GoneStaysGone(Apply(s, acts[0]), acts[1..], id);
    }
  }

  /** Over any further run a finished job's record never changes, and it stays
      pollable for at least the retention after its last update. */
  lemma {:induction false} FinishedJobStaysPollable(s: System, acts: seq<Act>, id: JobId)
    requires Inv(s) && RunFrom(s, acts).Some? && id in s.jobs && Finished(s.jobs[id])
    ensures var t := RunFrom(s, acts).value;
            && (id in t.jobs ==> t.jobs[id] == s.jobs[id])
            && (t.now <= s.jobs[id].updatedAt + 3600000 ==> id in t.jobs)
    decreases |acts|
  {
    if acts != [] {
      InvKept(s, acts[0]);
      RecordLifecycle(s, acts[0], id);
      var u := Apply(s, acts[0]);
      if id in u.jobs {
        FinishedJobStaysPollable(u, acts[1..], id);
      } else {
        GoneStaysGone(u, acts[1..], id);
      }
    }
  }
}
