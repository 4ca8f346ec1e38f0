/** `evictAll` and `awaitPodsGone` as a transition system: the feeder, up to
    five workers on an unbuffered channel, the buffered `accepted` channel, the
    poller and the first-error-wins cancel. One action is one channel
    operation, one API reply, one timer or one job update. The API server is
    the environment: any reply to an eviction, any listing of the node. */
module EvictAll {
  import opened Pods
  import opened Strings
  import opened Wrappers

  const DRAIN_WORKERS: nat := 5

  datatype Cause = CtxEnded | CallFailed | BadStatus(code: int)

  datatype Failure = EvictFailed(ref: PodRef, cause: Cause) | PollFailed(cause: Cause)

  /** `NoReply` is a transport error, which is also what a call made after the
      cancel gets. */
  datatype Reply = Status(code: int) | NoReply

  datatype Listing = Listed(present: set<PodRef>) | ListFailed

  /** What passes between the drain and the API server, in order. `sentAt` is
      where in the log the answered listing was requested. */
  datatype Event =
    | EvictionSent(ref: PodRef)
    | EvictionAnswered(ref: PodRef, code: int)
    | EvictionUnanswered(ref: PodRef)
    | ListingSent
    | ListingFailed
    | NodeListed(sentAt: nat, present: set<PodRef>)

  datatype Worker =
    | Idle                                 // receiving on `work`
    | Checking(ref: PodRef)                // about to look at ctx.Err()
    | Calling(ref: PodRef, doomed: bool)   // POST in flight; doomed: ctx had ended when it began
    | Waiting(ref: PodRef)                 // backing off after a 429
    | Failing(ref: PodRef, cause: Cause)   // about to call fail
    | Sending(ref: PodRef)                 // eviction accepted, sending on `accepted`
    | Exited

  datatype Poller =
    | Selecting
    | AwaitingList(sentAt: nat, doomed: bool)
    | Recording(gone: set<PodRef>)         // dropped from pending, about to update the job
    | Stopping(cause: Cause)               // about to call fail
    | Stopped

  /** `work` is closed once the main goroutine has left Feeding, `accepted` once
      it has left AwaitingWorkers. */
  datatype Main = Feeding | AwaitingWorkers | AwaitingPoller | Returned

  datatype State = State(
    pods: seq<PodRef>,
    main: Main,
    unsent: seq<PodRef>,
    workers: seq<Worker>,
    buffer: seq<PodRef>,
    poller: Poller,
    drained: bool,                         // the poller has seen `accepted` closed
    pending: set<PodRef>,
    expired: bool,                         // the drain's own deadline has passed
    ctxDone: bool,
    firstErr: Option<Failure>,
    fails: seq<Failure>,                   // history: every call of fail, in order
    log: seq<Event>,                       // history: what the API server saw
    recorded: seq<PodRef>)                 // history: pods recorded on the job, in order

  /** What one worker does next. */
  datatype WorkerAct =
    | Take | CheckCtx | EvictReply(reply: Reply) | BackoffOver | BackoffCancelled | ReportFailure | Send | Leave

  /** What the poller does next. */
  datatype PollerAct =
    | Receive | SeeClosed | Cancelled | Tick | ListReply(listing: Listing) | Record(gone: seq<PodRef>) | ReportEnd | Finish

  datatype Act =
    | Work(w: nat, wa: WorkerAct) | Poll(pa: PollerAct)
    | CloseWork | CloseAccepted | Return       // the main goroutine
    | Deadline                                 // the drain's own timeout ends ctx

  function Init(pods: seq<PodRef>, expired: bool): State
  {
    State(pods, Feeding, pods, seq(Min(DRAIN_WORKERS, |pods|), _ => Idle), [], Selecting, false, {},
          expired, expired, None, [], [], [])
  }

  predicate Accepts(code: int)
  {
    200 <= code < 300 || code == 404 || code == 410
  }

  /** The loop condition of the poller. */
  predicate InLoop(s: State)
  {
    !s.drained || s.pending != {}
  }

  predicate AcceptedClosed(s: State)
  {
    s.main == AwaitingPoller || s.main == Returned
  }

  /** `gone` holds each pod of `s` once, in the order of sorted keys. */
  ghost predicate ListsRefs(gone: seq<PodRef>, s: set<PodRef>)
  {
    NoDuplicates(gone) && Sorted(Keys(gone)) && forall p :: p in gone <==> p in s
  }

  ghost predicate WorkerEnabled(s: State, k: Worker, wa: WorkerAct)
  {
    match wa
    case Take => k.Idle? && s.main == Feeding && s.unsent != []
    case CheckCtx => k.Checking?
    case EvictReply(reply) => k.Calling? && (k.doomed ==> reply == NoReply)
    case BackoffOver => k.Waiting?
    case BackoffCancelled => k.Waiting? && s.ctxDone
    case ReportFailure => k.Failing?
    case Send => k.Sending? && |s.buffer| < |s.pods|
    case Leave => k.Idle? && s.main != Feeding
  }

  ghost predicate PollerEnabled(s: State, pa: PollerAct)
  {
    match pa
    case Receive => s.poller.Selecting? && !s.drained && s.buffer != []
    case SeeClosed => s.poller.Selecting? && !s.drained && s.buffer == [] && AcceptedClosed(s)
    case Cancelled => s.poller.Selecting? && InLoop(s) && s.ctxDone
    case Tick => s.poller.Selecting? && InLoop(s)
    case ListReply(listing) => s.poller.AwaitingList? && (s.poller.doomed ==> listing.ListFailed?)
    case Record(gone) => s.poller.Recording? && ListsRefs(gone, s.poller.gone)
    case ReportEnd => s.poller.Stopping?
    case Finish => s.poller.Selecting? && !InLoop(s)
  }

  ghost predicate AllExited(workers: seq<Worker>)
  {
    forall w :: 0 <= w < |workers| ==> workers[w].Exited?
  }

  ghost predicate Enabled(s: State, a: Act)
  {
    match a
    case Work(w, wa) => w < |s.workers| && WorkerEnabled(s, s.workers[w], wa)
    case Poll(pa) => PollerEnabled(s, pa)
    case CloseWork => s.main == Feeding && s.unsent == []
    case CloseAccepted => s.main == AwaitingWorkers && AllExited(s.workers)
    case Return => s.main == AwaitingPoller && s.poller.Stopped?
    case Deadline => !s.expired
  }

  /** The worker's own next state. A POST started after ctx ended is doomed. */
  function NextWorker(s: State, k: Worker, wa: WorkerAct): Worker
    requires WorkerEnabled(s, k, wa)
  {
    match wa
    case Take => Checking(s.unsent[0])
    case CheckCtx => if s.ctxDone then Failing(k.ref, CtxEnded) else Calling(k.ref, false)
    case EvictReply(reply) =>
      if reply.NoReply? then Failing(k.ref, CallFailed)
      else if Accepts(reply.code) then Sending(k.ref)
      else if reply.code == 429 then Waiting(k.ref)
      else Failing(k.ref, BadStatus(reply.code))
    case BackoffOver => Calling(k.ref, s.ctxDone)
    case BackoffCancelled => Failing(k.ref, CtxEnded)
    case ReportFailure => Idle
    case Send => Idle
    case Leave => Exited
  }

  /** The `fail` closure: the first caller's error is kept and cancels. */
  function Fail(s: State, f: Failure): State
  {
    s.(firstErr := if s.firstErr.None? then Some(f) else s.firstErr, ctxDone := true, fails := s.fails + [f])
  }

  /** What a worker's action does to everything else. */
  function WorkerEffect(s: State, k: Worker, wa: WorkerAct): State
    requires WorkerEnabled(s, k, wa)
  {
    match wa
    case Take => s.(unsent := s.unsent[1..])
    case CheckCtx => if s.ctxDone then s else s.(log := s.log + [EvictionSent(k.ref)])
    case EvictReply(reply) =>
      s.(log := s.log + [if reply.Status? then EvictionAnswered(k.ref, reply.code) else EvictionUnanswered(k.ref)])
    case BackoffOver => if s.ctxDone then s else s.(log := s.log + [EvictionSent(k.ref)])
    case BackoffCancelled => s
    case ReportFailure => Fail(s, EvictFailed(k.ref, k.cause))
    case Send => s.(buffer := s.buffer + [k.ref])
    case Leave => s
  }

  function ApplyPoller(s: State, pa: PollerAct): State
    requires PollerEnabled(s, pa)
  {
    match pa
    case Receive => s.(pending := s.pending + {s.buffer[0]}, buffer := s.buffer[1..])
    case SeeClosed => s.(drained := true)
    case Cancelled => s.(poller := Stopping(CtxEnded))
    case Tick =>
      if s.pending == {} then s
      else s.(poller := AwaitingList(|s.log|, s.ctxDone), log := if s.ctxDone then s.log else s.log + [ListingSent])
    case ListReply(listing) =>
      if listing.ListFailed? then
        s.(log := s.log + [ListingFailed], poller := Stopping(if s.ctxDone then CtxEnded else CallFailed))
      else
        var gone := s.pending - listing.present;
        s.(log := s.log + [NodeListed(s.poller.sentAt, listing.present)],
           pending := s.pending - gone,
           poller := if gone == {} then Selecting else Recording(gone))
    case Record(gone) => s.(recorded := s.recorded + gone, poller := Selecting)
    case ReportEnd => Fail(s, PollFailed(s.poller.cause)).(poller := Stopped)
    case Finish => s.(poller := Stopped)
  }

  ghost function Apply(s: State, a: Act): State
    requires Enabled(s, a)
  {
    match a
    case Work(w, wa) => WorkerEffect(s, s.workers[w], wa).(workers := s.workers[w := NextWorker(s, s.workers[w], wa)])
    case Poll(pa) => ApplyPoller(s, pa)
    case CloseWork => s.(main := AwaitingWorkers)
    case CloseAccepted => s.(main := AwaitingPoller)
    case Return => s.(main := Returned)
    case Deadline => s.(expired := true, ctxDone := true)
  }

  /** The state after a run of actions, when each was enabled in its turn. */
  ghost function RunFrom(s: State, acts: seq<Act>): Option<State>
    decreases |acts|
  {
    if acts == [] then Some(s)
    else if Enabled(s, acts[0]) then RunFrom(Apply(s, acts[0]), acts[1..])
    else None
  }

  ghost predicate Reachable(pods: seq<PodRef>, s: State)
  {
    exists expired, acts :: RunFrom(Init(pods, expired), acts) == Some(s)
  }

  // ------------------------------------------------------- where each pod is

  predicate Busy(k: Worker)
  {
    !k.Idle? && !k.Exited?
  }

  function Occurs(xs: seq<PodRef>, p: PodRef): nat
  {
    if xs == [] then 0 else (if xs[0] == p then 1 else 0) + Occurs(xs[1..], p)
  }

  /** How many workers hold `p`. */
  function InHands(workers: seq<Worker>, p: PodRef): nat
  {
    if workers == [] then 0
    else (if Busy(workers[0]) && workers[0].ref == p then 1 else 0) + InHands(workers[1..], p)
  }

  function BusyCount(workers: seq<Worker>): nat
  {
    if workers == [] then 0 else (if Busy(workers[0]) then 1 else 0) + BusyCount(workers[1..])
  }

  /** How often `p` was reported as failed. */
  function InFails(fails: seq<Failure>, p: PodRef): nat
  {
    if fails == [] then 0
    else (if fails[|fails| - 1].EvictFailed? && fails[|fails| - 1].ref == p then 1 else 0)
         + InFails(fails[..|fails| - 1], p)
  }

  function FailedCount(fails: seq<Failure>): nat
  {
    if fails == [] then 0
    else (if fails[|fails| - 1].EvictFailed? then 1 else 0) + FailedCount(fails[..|fails| - 1])
  }

  function PollerHand(p: Poller): set<PodRef>
  {
    if p.Recording? then p.gone else {}
  }

  /** How often `p` occurs over all its possible places: unsent, in a worker's
      hand, in the accepted buffer, pending, about to be recorded, recorded as
      gone, or failed. */
  function Places(s: State, p: PodRef): nat
  {
    Occurs(s.unsent, p) + InHands(s.workers, p) + Occurs(s.buffer, p)
    + (if p in s.pending then 1 else 0) + (if p in PollerHand(s.poller) then 1 else 0)
    + Occurs(s.recorded, p) + InFails(s.fails, p)
  }

  function Total(s: State): nat
  {
    |s.unsent| + BusyCount(s.workers) + |s.buffer| + |s.pending| + |PollerHand(s.poller)|
    + |s.recorded| + FailedCount(s.fails)
  }

  lemma {:induction false} WorkerChange(ws: seq<Worker>, w: nat, k: Worker, p: PodRef)
    requires w < |ws|
    ensures InHands(ws[w := k], p) + (if Busy(ws[w]) && ws[w].ref == p then 1 else 0)
            == InHands(ws, p) + (if Busy(k) && k.ref == p then 1 else 0)
    ensures BusyCount(ws[w := k]) + (if Busy(ws[w]) then 1 else 0)
            == BusyCount(ws) + (if Busy(k) then 1 else 0)
  {
    if w == 0 {
      assert ws[w := k][1..] == ws[1..];
    } else {
      WorkerChange(ws[1..], w - 1, k, p);
      assert ws[w := k][1..] == ws[1..][w - 1 := k];
    }
  }

  lemma {:induction false} OccursAppend(xs: seq<PodRef>, ys: seq<PodRef>, p: PodRef)
    ensures Occurs(xs + ys, p) == Occurs(xs, p) + Occurs(ys, p)
  {
    if xs == [] {
      assert xs + ys == ys;
    } else {
      OccursAppend(xs[1..], ys, p);
      assert (xs + ys)[1..] == xs[1..] + ys;
    }
  }

  lemma {:induction false} OccursIsMultiplicity(xs: seq<PodRef>, p: PodRef)
    ensures Occurs(xs, p) == multiset(xs)[p]
  {
    if xs != [] {
      OccursIsMultiplicity(xs[1..], p);
      assert xs == [xs[0]] + xs[1..];
    }
  }

  lemma ListingCounts(gone: seq<PodRef>, s: set<PodRef>, p: PodRef)
    requires ListsRefs(gone, s)
    ensures Occurs(gone, p) == if p in s then 1 else 0
    ensures |gone| == |s|
  {
    MultisetNoDuplicates(gone);
    OccursIsMultiplicity(gone, p);
    forall q ensures multiset(gone)[q] == multiset(s)[q] {
      assert q in gone <==> q in multiset(gone);
    }
    assert multiset(gone) == multiset(s);
    assert |multiset(gone)| == |gone| && |multiset(s)| == |s|;
  }

  lemma FailsAppend(fails: seq<Failure>, f: Failure, p: PodRef)
    ensures InFails(fails + [f], p) == InFails(fails, p) + (if f.EvictFailed? && f.ref == p then 1 else 0)
    ensures FailedCount(fails + [f]) == FailedCount(fails) + (if f.EvictFailed? then 1 else 0)
  {
    assert (fails + [f])[..|fails + [f]| - 1] == fails;
  }

  /** The received pod was already pending under an equal reference. */
  ghost predicate Merges(s: State, a: Act)
  {
    a.Poll? && a.pa.Receive? && s.buffer != [] && s.buffer[0] in s.pending
  }

  ghost predicate Kept(s: State, t: State, p: PodRef)
  {
    Places(t, p) == Places(s, p) && Total(t) == Total(s)
  }

  function Held(k: Worker, p: PodRef): nat
  {
    if Busy(k) && k.ref == p then 1 else 0
  }

  /** `e` and `n` are the effect and the next worker: what leaves or enters the
      worker's hand enters or leaves another place. */
  ghost predicate Balanced(s: State, k: Worker, e: State, n: Worker, p: PodRef)
  {
    && e.workers == s.workers
    && Places(e, p) + Held(n, p) == Places(s, p) + Held(k, p)
    && Total(e) + (if Busy(n) then 1 else 0) == Total(s) + (if Busy(k) then 1 else 0)
  }

  lemma ChannelBalances(s: State, k: Worker, wa: WorkerAct, p: PodRef)
    requires WorkerEnabled(s, k, wa) && (wa.Take? || wa.Send?)
    ensures Balanced(s, k, WorkerEffect(s, k, wa), NextWorker(s, k, wa), p)
  {
    if wa.Send? {
      OccursAppend(s.buffer, [k.ref], p);
    }
  }

  lemma FailBalances(s: State, k: Worker, p: PodRef)
    requires k.Failing?
    ensures Balanced(s, k, Fail(s, EvictFailed(k.ref, k.cause)), Idle, p)
  {
    FailsAppend(s.fails, EvictFailed(k.ref, k.cause), p);
  }

  lemma CallBalances(s: State, k: Worker, wa: WorkerAct, p: PodRef)
    requires WorkerEnabled(s, k, wa) && !wa.Take? && !wa.Send? && !wa.ReportFailure?
    ensures Balanced(s, k, WorkerEffect(s, k, wa), NextWorker(s, k, wa), p)
  {
    assert WorkerEffect(s, k, wa) == s.(log := WorkerEffect(s, k, wa).log);
  }

  lemma WorkerBalances(s: State, k: Worker, wa: WorkerAct, p: PodRef)
    requires WorkerEnabled(s, k, wa)
    ensures Balanced(s, k, WorkerEffect(s, k, wa), NextWorker(s, k, wa), p)
  {
    if wa.Take? || wa.Send? {
      ChannelBalances(s, k, wa, p);
    } else if wa.ReportFailure? {
      FailBalances(s, k, p);
    } else {
      CallBalances(s, k, wa, p);
    }
    hide Balanced;
  }

  lemma OtherWorker(e: State, w: nat, n: Worker, p: PodRef)
    requires w < |e.workers|
    ensures var t := e.(workers := e.workers[w := n]);
            && Places(t, p) + Held(e.workers[w], p) == Places(e, p) + Held(n, p)
            && Total(t) + (if Busy(e.workers[w]) then 1 else 0) == Total(e) + (if Busy(n) then 1 else 0)
  {
    WorkerChange(e.workers, w, n, p);
    hide Occurs, InHands, BusyCount, InFails, FailedCount;
  }

  lemma WorkerKeepsPods(s: State, w: nat, wa: WorkerAct, p: PodRef)
    requires Enabled(s, Work(w, wa))
    ensures Kept(s, Apply(s, Work(w, wa)), p)
  {
    hide WorkerEffect, NextWorker, WorkerEnabled, Places, Total, Held;
    var k := s.workers[w];
    WorkerBalances(s, k, wa, p);
    OtherWorker(WorkerEffect(s, k, wa), w, NextWorker(s, k, wa), p);
  }

  lemma RecordKeepsPods(s: State, gone: seq<PodRef>, p: PodRef)
    requires PollerEnabled(s, Record(gone))
    ensures Kept(s, ApplyPoller(s, Record(gone)), p)
  {
    ListingCounts(gone, s.poller.gone, p);
    OccursAppend(s.recorded, gone, p);
  }

  lemma SetSplits(pending: set<PodRef>, gone: set<PodRef>)
    requires gone <= pending
    ensures |pending| == |gone| + |pending - gone|
  {
    assert pending == gone + (pending - gone);
  }

  /** Pods found gone move from pending into the poller's hand. */
  lemma GoneKeepsPods(s: State, t: State, gone: set<PodRef>, p: PodRef)
    requires gone <= s.pending && PollerHand(s.poller) == {} && PollerHand(t.poller) == gone
    requires t == s.(pending := s.pending - gone, poller := t.poller, log := t.log)
    ensures Kept(s, t, p)
  {
    hide Occurs, InHands, BusyCount, InFails, FailedCount, PollerHand;
    SetSplits(s.pending, gone);
  }

  lemma ListReplyKeepsPods(s: State, listing: Listing, p: PodRef)
    requires PollerEnabled(s, ListReply(listing))
    ensures Kept(s, ApplyPoller(s, ListReply(listing)), p)
  {
    hide Kept;
    var t := ApplyPoller(s, ListReply(listing));
    if listing.Listed? {
      GoneKeepsPods(s, t, s.pending - listing.present, p);
    } else {
      SamePlaces(s, t, p);
    }
  }

  lemma ReceiveMergesAtMost(s: State, p: PodRef)
    requires PollerEnabled(s, Receive)
    ensures var t := ApplyPoller(s, Receive);
            && (s.buffer[0] !in s.pending ==> Kept(s, t, p))
            && Places(t, p) <= Places(s, p) && Total(t) <= Total(s)
            && (Places(s, p) > 0 ==> Places(t, p) > 0)
  {
    hide InHands, BusyCount, InFails, FailedCount;
  }

  lemma PollerKeepsPods(s: State, pa: PollerAct, p: PodRef)
    requires PollerEnabled(s, pa)
    ensures !Merges(s, Poll(pa)) ==> Kept(s, ApplyPoller(s, pa), p)
    ensures Places(ApplyPoller(s, pa), p) <= Places(s, p) && Total(ApplyPoller(s, pa)) <= Total(s)
    ensures Places(s, p) > 0 ==> Places(ApplyPoller(s, pa), p) > 0
  {
    if pa.Receive? {
      ReceiveMergesAtMost(s, p);
    } else if pa.Record? {
      RecordKeepsPods(s, pa.gone, p);
    } else if pa.ListReply? {
      ListReplyKeepsPods(s, pa.listing, p);
    } else {
      StillKeepsPods(s, pa, p);
    }
    hide Places, Total, ApplyPoller;
  }

  /** Places do not depend on the rest of the state. */
  lemma SamePlaces(s: State, t: State, p: PodRef)
    requires t == s.(drained := t.drained, poller := t.poller, log := t.log, firstErr := t.firstErr, ctxDone := t.ctxDone,
                     expired := t.expired, main := t.main)
    requires PollerHand(t.poller) == PollerHand(s.poller)
    ensures Kept(s, t, p)
  {
    hide PollerHand;
  }

  lemma StillKeepsPods(s: State, pa: PollerAct, p: PodRef)
    requires PollerEnabled(s, pa) && !pa.Receive? && !pa.Record? && !pa.ListReply?
    ensures Kept(s, ApplyPoller(s, pa), p)
  {
    hide Kept;
    if pa.ReportEnd? {
      EndKeepsPods(s, p);
    } else {
      SamePlaces(s, ApplyPoller(s, pa), p);
    }
  }

  lemma EndKeepsPods(s: State, p: PodRef)
    requires PollerEnabled(s, ReportEnd)
    ensures Kept(s, ApplyPoller(s, ReportEnd), p)
  {
    hide Occurs, InHands, BusyCount, InFails, FailedCount;
    FailsAppend(s.fails, PollFailed(s.poller.cause), p);
  }

  /** One action moves pods between places and loses none. Only a pod received
      while an equal reference is already pending merges with it. */
  lemma ActionKeepsPods(s: State, a: Act, p: PodRef)
    requires Enabled(s, a)
    ensures !Merges(s, a) ==> Kept(s, Apply(s, a), p)
    ensures Places(Apply(s, a), p) <= Places(s, p) && Total(Apply(s, a)) <= Total(s)
    ensures Places(s, p) > 0 ==> Places(Apply(s, a), p) > 0
  {
    hide Places, Total;
    if a.Work? {
      WorkerKeepsPods(s, a.w, a.wa, p);
    } else if a.Poll? {
      PollerKeepsPods(s, a.pa, p);
    } else {
      MainKeepsPods(s, a, p);
    }
  }

  lemma MainKeepsPods(s: State, a: Act, p: PodRef)
    requires Enabled(s, a) && ByMain(a)
    ensures Kept(s, Apply(s, a), p)
  {
    hide Kept;
    SamePlaces(s, Apply(s, a), p);
  }

  // ------------------------------------------------------------- invariants

  /** Control state: who may be where. */
  ghost predicate Shape(s: State)
  {
    && |s.workers| == Min(DRAIN_WORKERS, |s.pods|)
    && (s.main != Feeding ==> s.unsent == [])
    && (forall w :: 0 <= w < |s.workers| && s.workers[w].Exited? ==> s.main != Feeding)
    && (AcceptedClosed(s) ==> AllExited(s.workers))
    && (s.drained ==> AcceptedClosed(s) && s.buffer == [])
    && (s.poller.Stopped? ==> !InLoop(s) || s.firstErr.Some?)
    && (s.main == Returned ==> s.poller.Stopped?)
    && (s.poller.AwaitingList? ==> s.pending != {})
    && (s.poller.Recording? ==> s.poller.gone != {})
  }

  /** The first failure is the one kept, and it has cancelled. */
  ghost predicate FirstFailureWins(s: State)
  {
    && s.firstErr == (if s.fails == [] then None else Some(s.fails[0]))
    && (s.ctxDone <==> s.expired || s.fails != [])
    && (s.poller.AwaitingList? && s.poller.doomed ==> s.ctxDone)
    && (forall w :: 0 <= w < |s.workers| && s.workers[w].Calling? && s.workers[w].doomed ==> s.ctxDone)
  }

  /** A 2xx, or the pod was already gone (404, 410). */
  predicate AcceptedAt(e: Event, p: PodRef)
  {
    e.EvictionAnswered? && e.ref == p && (200 <= e.code <= 299 || e.code in {404, 410})
  }

  /** The eviction of `p` was accepted among the first `n` events. */
  ghost predicate AcceptedBefore(log: seq<Event>, n: nat, p: PodRef)
  {
    exists i :: 0 <= i < n && i < |log| && AcceptedAt(log[i], p)
  }

  /** The eviction of `p` was accepted, and a listing of the node requested
      after that came back without `p`. */
  ghost predicate GoneAfter(log: seq<Event>, p: PodRef)
  {
    exists j :: 0 <= j < |log| && log[j].NodeListed? && p !in log[j].present
                && log[j].sentAt < j && log[log[j].sentAt] == ListingSent && AcceptedBefore(log, log[j].sentAt, p)
  }

  /** The API server refused the eviction of `p` with a status that is neither
      success, nor "already gone", nor "blocked for now" (429). */
  ghost predicate Refused(log: seq<Event>, p: PodRef, code: int)
  {
    EvictionAnswered(p, code) in log && !(200 <= code <= 299) && code !in {404, 410, 429}
  }

  /** A failure's cause is what happened. */
  ghost predicate Genuine(s: State)
  {
    && (forall w :: 0 <= w < |s.workers| && s.workers[w].Failing? ==> CauseHolds(s, s.workers[w].ref, s.workers[w].cause))
    && (forall f :: f in s.fails && f.EvictFailed? ==> CauseHolds(s, f.ref, f.cause))
    && (forall w :: 0 <= w < |s.workers| && (s.workers[w].Calling? || s.workers[w].Waiting?) ==> Sent(s.log, s.workers[w].ref))
    && (s.poller.Stopping? ==> PollCauseHolds(s, s.poller.cause))
    && (forall f :: f in s.fails && f.PollFailed? ==> PollCauseHolds(s, f.cause))
    && (s.fails != [] && s.fails[0].cause.CtxEnded? ==> s.expired)
  }

  ghost predicate CauseHolds(s: State, p: PodRef, cause: Cause)
  {
    match cause
    case CtxEnded => s.ctxDone
    case BadStatus(code) => Refused(s.log, p, code)
    case CallFailed => Unanswered(s.log, p)
  }

  /** The eviction of `p` was sent, and a call for it got no answer. */
  predicate Unanswered(log: seq<Event>, p: PodRef)
  {
    EvictionSent(p) in log && EvictionUnanswered(p) in log
  }

  /** A poller failure's cause is what happened. */
  predicate PollCauseHolds(s: State, cause: Cause)
  {
    match cause
    case CtxEnded => s.ctxDone
    case BadStatus(_) => false
    case CallFailed => ListingFailed in s.log
  }

  predicate Sent(log: seq<Event>, p: PodRef)
  {
    EvictionSent(p) in log
  }

  /** Every place past the eviction has its evidence in the log. */
  ghost predicate Evidence(s: State)
  {
    && (forall w :: 0 <= w < |s.workers| && s.workers[w].Sending? ==> AcceptedBefore(s.log, |s.log|, s.workers[w].ref))
    && (forall p :: p in s.buffer ==> AcceptedBefore(s.log, |s.log|, p))
    && (forall p :: p in s.pending ==> AcceptedBefore(s.log, |s.log|, p))
    && (s.poller.AwaitingList? && !s.poller.doomed ==> s.poller.sentAt < |s.log| && s.log[s.poller.sentAt] == ListingSent)
    && (s.poller.AwaitingList? ==> forall p :: p in s.pending ==> AcceptedBefore(s.log, s.poller.sentAt, p))
    && (forall p :: p in PollerHand(s.poller) ==> GoneAfter(s.log, p))
    && (forall p :: p in s.recorded ==> GoneAfter(s.log, p))
  }

  ghost predicate Distinct(pods: seq<PodRef>)
  {
    forall p :: Occurs(pods, p) <= 1
  }

  /** Pod conservation. With pairwise distinct references it is exact. */
  ghost predicate Counts(s: State)
  {
    && Total(s) <= |s.pods|
    && (forall p :: Places(s, p) <= Occurs(s.pods, p))
    && (forall p :: Occurs(s.pods, p) > 0 ==> Places(s, p) > 0)
    && (Distinct(s.pods) ==> Total(s) == |s.pods|)
  }

  /** Only given pods are ever sent to eviction. */
  ghost predicate Targets(s: State)
  {
    forall p :: EvictionSent(p) in s.log ==> Occurs(s.pods, p) > 0
  }

  ghost predicate Inv(s: State)
  {
    Targets(s) && Shape(s) && FirstFailureWins(s) && Genuine(s) && Evidence(s) && Counts(s)
  }

  lemma {:induction false} IdleWorkers(n: nat, p: PodRef)
    ensures var ws: seq<Worker> := seq(n, _ => Idle); InHands(ws, p) == 0 && BusyCount(ws) == 0
  {
    var ws: seq<Worker> := seq(n, _ => Idle);
    if n > 0 {
      IdleWorkers(n - 1, p);
      assert ws[1..] == seq(n - 1, _ => Idle);
    }
  }

  lemma InitInv(pods: seq<PodRef>, expired: bool)
    ensures Inv(Init(pods, expired))
  {
    var s := Init(pods, expired);
    forall p ensures Places(s, p) == Occurs(pods, p) && Total(s) == |pods| {
      IdleWorkers(Min(DRAIN_WORKERS, |pods|), p);
    }
    var p0 := NO_REF;
    assert Places(s, p0) == Occurs(pods, p0);
  }

  predicate ByMain(a: Act)
  {
    a.CloseWork? || a.CloseAccepted? || a.Return? || a.Deadline?
  }

  lemma WorkerShapeKept(s: State, w: nat, wa: WorkerAct)
    requires Shape(s) && Enabled(s, Work(w, wa))
    ensures Shape(Apply(s, Work(w, wa)))
  {}

  lemma PollerShapeKept(s: State, pa: PollerAct)
    requires Shape(s) && PollerEnabled(s, pa)
    ensures Shape(ApplyPoller(s, pa))
  {}

  lemma WorkerFirstFailureKept(s: State, w: nat, wa: WorkerAct)
    requires FirstFailureWins(s) && Genuine(s) && Enabled(s, Work(w, wa))
    ensures FirstFailureWins(Apply(s, Work(w, wa)))
  {}

  lemma PollerFirstFailureKept(s: State, pa: PollerAct)
    requires FirstFailureWins(s) && PollerEnabled(s, pa)
    ensures FirstFailureWins(ApplyPoller(s, pa))
  {}

  /** A cause that held still holds once more is known. */
  lemma CauseSurvives(s: State, t: State, p: PodRef, cause: Cause)
    requires s.log <= t.log && (s.ctxDone ==> t.ctxDone)
    ensures CauseHolds(s, p, cause) ==> CauseHolds(t, p, cause)
    ensures Sent(s.log, p) ==> Sent(t.log, p)
    ensures PollCauseHolds(s, cause) ==> PollCauseHolds(t, cause)
  {
    assert forall e :: e in s.log ==> e in t.log;
  }

  /** What the moving worker knows next. */
  lemma OwnCause(s: State, w: nat, wa: WorkerAct)
    requires Genuine(s) && Enabled(s, Work(w, wa))
    ensures var t := Apply(s, Work(w, wa));
            && s.log <= t.log && (s.ctxDone ==> t.ctxDone)
            && (t.workers[w].Failing? ==> CauseHolds(t, t.workers[w].ref, t.workers[w].cause))
            && (t.workers[w].Calling? || t.workers[w].Waiting? ==> Sent(t.log, t.workers[w].ref))
            && (t.fails == s.fails
                || (s.workers[w].Failing? && t.fails == s.fails + [EvictFailed(s.workers[w].ref, s.workers[w].cause)]))
            && t.poller == s.poller
  {
    var t := Apply(s, Work(w, wa));
    if |t.log| > |s.log| {
      assert t.log[|s.log|] in t.log;
    }
    CauseSurvives(s, t, if Busy(s.workers[w]) then s.workers[w].ref else NO_REF, CallFailed);
  }

  lemma WorkerGenuineKept(s: State, w: nat, wa: WorkerAct)
    requires FirstFailureWins(s) && Genuine(s) && Enabled(s, Work(w, wa))
    ensures Genuine(Apply(s, Work(w, wa)))
  {
    var t := Apply(s, Work(w, wa));
    OwnCause(s, w, wa);
    assert forall v :: 0 <= v < |t.workers| && v != w ==> t.workers[v] == s.workers[v];
    assert t.expired == s.expired;
    hide CauseHolds, Sent, PollCauseHolds, WorkerEffect, NextWorker, Enabled, WorkerEnabled;
    forall cause ensures PollCauseHolds(s, cause) ==> PollCauseHolds(t, cause) { CauseSurvives(s, t, NO_REF, cause); }
    forall p, cause ensures CauseHolds(s, p, cause) ==> CauseHolds(t, p, cause) { CauseSurvives(s, t, p, cause); }
    forall p ensures Sent(s.log, p) ==> Sent(t.log, p) { CauseSurvives(s, t, p, CtxEnded); }
    if t.fails != [] && s.fails == [] {
      FirstCtxError(s, w);
    }
    hide Apply;
  }

  /** The first failure of all is a context error only when the deadline ended
      the context. */
  lemma FirstCtxError(s: State, w: nat)
    requires FirstFailureWins(s) && Genuine(s) && s.fails == [] && w < |s.workers|
    ensures s.workers[w].Failing? && s.workers[w].cause.CtxEnded? ==> s.expired
  {
    assert s.workers[w].Failing? ==> CauseHolds(s, s.workers[w].ref, s.workers[w].cause);
  }

  /** What the poller knows next. */
  lemma OwnPollCause(s: State, pa: PollerAct)
    requires Genuine(s) && PollerEnabled(s, pa)
    ensures var t := ApplyPoller(s, pa);
            && s.log <= t.log && (s.ctxDone ==> t.ctxDone) && t.workers == s.workers && t.expired == s.expired
            && (t.poller.Stopping? ==> PollCauseHolds(t, t.poller.cause))
            && (t.fails == s.fails || (s.poller.Stopping? && t.fails == s.fails + [PollFailed(s.poller.cause)]))
  {
    var t := ApplyPoller(s, pa);
    if pa.ListReply? {
      assert t.log[|s.log|] in t.log;
    }
  }

  lemma PollerGenuineKept(s: State, pa: PollerAct)
    requires FirstFailureWins(s) && Genuine(s) && PollerEnabled(s, pa)
    ensures Genuine(ApplyPoller(s, pa))
  {
    var t := ApplyPoller(s, pa);
    OwnPollCause(s, pa);
    assert s.poller.Stopping? && s.poller.cause.CtxEnded? ==> s.ctxDone;
    hide CauseHolds, Sent, PollCauseHolds, ApplyPoller, PollerEnabled;
    forall p, cause ensures CauseHolds(s, p, cause) ==> CauseHolds(t, p, cause) { CauseSurvives(s, t, p, cause); }
    forall p ensures Sent(s.log, p) ==> Sent(t.log, p) { CauseSurvives(s, t, p, CtxEnded); }
    forall cause ensures PollCauseHolds(s, cause) ==> PollCauseHolds(t, cause) { CauseSurvives(s, t, NO_REF, cause); }
  }

  /** A received pod is never already pending when references are distinct. */
  lemma DistinctNeverMerges(s: State, a: Act)
    requires Counts(s) && Distinct(s.pods)
    ensures !Merges(s, a)
  {
    if s.buffer != [] {
      var p := s.buffer[0];
      assert Occurs(s.buffer, p) >= 1 && Places(s, p) <= Occurs(s.pods, p);
    }
  }

  lemma SamePods(s: State, a: Act)
    requires Enabled(s, a)
    ensures Apply(s, a).pods == s.pods
  {}

  lemma CountsKept(s: State, a: Act)
    requires Counts(s) && Enabled(s, a)
    ensures Counts(Apply(s, a))
  {
    hide Places, Total, Occurs, Apply, Enabled, Merges, Distinct;
    var t := Apply(s, a);
    SamePods(s, a);
    if Distinct(s.pods) {
      DistinctNeverMerges(s, a);
    }
    ActionKeepsPods(s, a, NO_REF);
    forall p ensures Places(t, p) <= Occurs(s.pods, p) && (Occurs(s.pods, p) > 0 ==> Places(t, p) > 0) {
      ActionKeepsPods(s, a, p);
    }
  }

  lemma WorkerTargetsKept(s: State, w: nat, wa: WorkerAct)
    requires Targets(s) && Counts(s) && Enabled(s, Work(w, wa))
    ensures Targets(Apply(s, Work(w, wa)))
  {
    var t := Apply(s, Work(w, wa));
    forall p | EvictionSent(p) in t.log ensures Occurs(s.pods, p) > 0 {
      if EvictionSent(p) !in s.log {
        HeldCounts(s.workers, w);
        assert Places(s, p) <= Occurs(s.pods, p);
      }
    }
  }

  lemma PollerTargetsKept(s: State, pa: PollerAct)
    requires Targets(s) && PollerEnabled(s, pa)
    ensures Targets(ApplyPoller(s, pa))
  {}

  lemma {:induction false} HeldCounts(ws: seq<Worker>, w: nat)
    requires w < |ws|
    ensures Busy(ws[w]) ==> InHands(ws, ws[w].ref) >= 1
  {
    if w > 0 {
      HeldCounts(ws[1..], w - 1);
    }
  }

  lemma LogGrows(log: seq<Event>, more: seq<Event>, n: nat, p: PodRef)
    ensures AcceptedBefore(log, n, p) ==> AcceptedBefore(log + more, n, p)
    ensures AcceptedBefore(log, n, p) ==> AcceptedBefore(log + more, |log + more|, p)
    ensures GoneAfter(log, p) ==> GoneAfter(log + more, p)
  {
    if AcceptedBefore(log, n, p) {
      var i :| 0 <= i < n && i < |log| && AcceptedAt(log[i], p);
      assert (log + more)[i] == log[i];
    }
    if GoneAfter(log, p) {
      var j :| 0 <= j < |log| && log[j].NodeListed? && p !in log[j].present
               && log[j].sentAt < j && log[log[j].sentAt] == ListingSent && AcceptedBefore(log, log[j].sentAt, p);
      var i :| 0 <= i < log[j].sentAt && i < |log| && AcceptedAt(log[i], p);
      assert (log + more)[i] == log[i] && (log + more)[j] == log[j] && (log + more)[log[j].sentAt] == ListingSent;
    }
  }

  /** The evidence for one state's places survives a longer log. */
  lemma EvidenceSurvives(s: State, more: seq<Event>)
    requires Evidence(s)
    ensures Evidence(s.(log := s.log + more))
  {
    forall p, n ensures AcceptedBefore(s.log, n, p) ==> AcceptedBefore(s.log + more, n, p) {
      LogGrows(s.log, more, n, p);
    }
    forall p ensures AcceptedBefore(s.log, |s.log|, p) ==> AcceptedBefore(s.log + more, |s.log + more|, p) {
      LogGrows(s.log, more, |s.log|, p);
    }
    forall p ensures GoneAfter(s.log, p) ==> GoneAfter(s.log + more, p) {
      LogGrows(s.log, more, 0, p);
    }
  }

  lemma JustAccepted(log: seq<Event>, e: Event, p: PodRef)
    requires AcceptedAt(e, p)
    ensures AcceptedBefore(log + [e], |log| + 1, p)
  {
    assert (log + [e])[|log|] == e;
  }

  lemma WorkerLogs(s: State, w: nat, wa: WorkerAct) returns (more: seq<Event>)
    requires Enabled(s, Work(w, wa))
    ensures var t := Apply(s, Work(w, wa));
            && t.log == s.log + more && t.poller == s.poller && t.pending == s.pending && t.recorded == s.recorded
            && (t.workers[w].Sending? ==> |more| == 1 && AcceptedAt(more[0], t.workers[w].ref))
            && t.workers == s.workers[w := t.workers[w]]
            && (t.buffer == s.buffer || (s.workers[w].Sending? && t.buffer == s.buffer + [s.workers[w].ref]))
  {
    more := Apply(s, Work(w, wa)).log[|s.log|..];
  }

  lemma WorkerEvidenceKept(s: State, w: nat, wa: WorkerAct)
    requires Evidence(s) && Enabled(s, Work(w, wa))
    ensures Evidence(Apply(s, Work(w, wa)))
  {
    hide AcceptedBefore, GoneAfter;
    var t := Apply(s, Work(w, wa));
    var more := WorkerLogs(s, w, wa);
    EvidenceSurvives(s, more);
    if t.workers[w].Sending? {
      JustAccepted(s.log, more[0], t.workers[w].ref);
      assert more == [more[0]];
    }
    hide Apply;
  }

  /** A listing requested now is later than every eviction accepted so far. */
  lemma TickEvidenceKept(s: State)
    requires Evidence(s) && PollerEnabled(s, Tick)
    ensures Evidence(ApplyPoller(s, Tick))
  {
    hide AcceptedBefore, GoneAfter;
    var t := ApplyPoller(s, Tick);
    if t.log != s.log {
      EvidenceSurvives(s, [ListingSent]);
      forall p | p in s.pending ensures AcceptedBefore(t.log, |s.log|, p) {
        LogGrows(s.log, [ListingSent], |s.log|, p);
      }
    }
  }

  lemma PollerEvidenceKept(s: State, pa: PollerAct)
    requires Evidence(s) && PollerEnabled(s, pa)
    ensures Evidence(ApplyPoller(s, pa))
  {
    var t := ApplyPoller(s, pa);
    if pa.ListReply? && pa.listing.ListFailed? {
      EvidenceSurvives(s, [ListingFailed]);
    } else if pa.Tick? {
      TickEvidenceKept(s);
    } else if pa.ListReply? {
      var e := NodeListed(s.poller.sentAt, pa.listing.present);
      EvidenceSurvives(s, [e]);
      forall p | p in PollerHand(t.poller) ensures GoneAfter(t.log, p) {
        LogGrows(s.log, [e], s.poller.sentAt, p);
        assert t.log[|s.log|] == e;
      }
    } else if pa.Record? {
      forall p | p in t.recorded ensures GoneAfter(t.log, p) {
        assert p in s.recorded || p in pa.gone;
      }
    }
  }

  lemma MainGenuineKept(s: State, a: Act)
    requires FirstFailureWins(s) && Genuine(s) && Enabled(s, a) && ByMain(a)
    ensures FirstFailureWins(Apply(s, a)) && Genuine(Apply(s, a))
  {
    var t := Apply(s, a);
    assert t.log == s.log && t.workers == s.workers && t.poller == s.poller && t.fails == s.fails && (s.ctxDone ==> t.ctxDone);
    hide CauseHolds, Sent, PollCauseHolds;
    forall p, cause ensures CauseHolds(s, p, cause) ==> CauseHolds(t, p, cause) { CauseSurvives(s, t, p, cause); }
    forall cause ensures PollCauseHolds(s, cause) ==> PollCauseHolds(t, cause) { CauseSurvives(s, t, NO_REF, cause); }
  }

  lemma MainShapeKept(s: State, a: Act)
    requires Shape(s) && Enabled(s, a) && ByMain(a)
    ensures Shape(Apply(s, a))
  {}

  lemma MainEvidenceKept(s: State, a: Act)
    requires Evidence(s) && Targets(s) && Enabled(s, a) && ByMain(a)
    ensures Evidence(Apply(s, a)) && Targets(Apply(s, a))
  {
    hide AcceptedBefore, GoneAfter, Occurs;
    var t := Apply(s, a);
    assert t.log == s.log && t.workers == s.workers && t.poller == s.poller && t.buffer == s.buffer;
    assert t.pending == s.pending && t.recorded == s.recorded && t.pods == s.pods;
  }

  lemma MainInvKept(s: State, a: Act)
    requires Inv(s) && Enabled(s, a) && ByMain(a)
    ensures Inv(Apply(s, a))
  {
    hide Targets, Shape, FirstFailureWins, Genuine, Evidence, Counts, Apply, Enabled;
    MainGenuineKept(s, a);
    MainShapeKept(s, a);
    MainEvidenceKept(s, a);
    CountsKept(s, a);
  }

  lemma WorkerInvKept(s: State, w: nat, wa: WorkerAct)
    requires Inv(s) && Enabled(s, Work(w, wa))
    ensures Inv(Apply(s, Work(w, wa)))
  {
    hide Targets, Shape, FirstFailureWins, Genuine, Evidence, Counts, WorkerEffect, NextWorker, WorkerEnabled;
    var t := Apply(s, Work(w, wa));
    assert Targets(t) by { WorkerTargetsKept(s, w, wa); }
    assert Shape(t) by { WorkerShapeKept(s, w, wa); }
    assert FirstFailureWins(t) by { WorkerFirstFailureKept(s, w, wa); }
    assert Genuine(t) by { WorkerGenuineKept(s, w, wa); }
    assert Evidence(t) by { WorkerEvidenceKept(s, w, wa); }
    assert Counts(t) by { CountsKept(s, Work(w, wa)); }
  }

  lemma PollerInvKept(s: State, pa: PollerAct)
    requires Inv(s) && PollerEnabled(s, pa)
    ensures Inv(ApplyPoller(s, pa))
  {
    hide Targets, Shape, FirstFailureWins, Genuine, Evidence, Counts, ApplyPoller, PollerEnabled;
    var t := ApplyPoller(s, pa);
    assert Targets(t) by { PollerTargetsKept(s, pa); }
    assert Shape(t) by { PollerShapeKept(s, pa); }
    assert FirstFailureWins(t) by { PollerFirstFailureKept(s, pa); }
    assert Genuine(t) by { PollerGenuineKept(s, pa); }
    assert Evidence(t) by { PollerEvidenceKept(s, pa); }
    assert Counts(t) by { CountsKept(s, Poll(pa)); }
  }

  /** Every action keeps the invariant. */
  lemma InvKept(s: State, a: Act)
    requires Inv(s) && Enabled(s, a)
    ensures Inv(Apply(s, a))
    ensures Apply(s, a).pods == s.pods
  {
    hide Inv;
    if a.Work? {
      WorkerInvKept(s, a.w, a.wa);
    } else if a.Poll? {
      PollerInvKept(s, a.pa);
    } else {
      MainInvKept(s, a);
    }
  }

  lemma {:induction false} RunKeepsInv(s: State, acts: seq<Act>)
    requires Inv(s) && RunFrom(s, acts).Some?
    ensures Inv(RunFrom(s, acts).value)
    ensures RunFrom(s, acts).value.pods == s.pods
    decreases |acts|
  {
    if acts != [] {
      InvKept(s, acts[0]);
      RunKeepsInv(Apply(s, acts[0]), acts[1..]);
    }
  }

  lemma ReachableInv(pods: seq<PodRef>, s: State)
    requires Reachable(pods, s)
    ensures Inv(s) && s.pods == pods
  {
    var expired, acts :| RunFrom(Init(pods, expired), acts) == Some(s);
    InitInv(pods, expired);
    RunKeepsInv(Init(pods, expired), acts);
  }

  // ------------------------------------------------------------ main results

  lemma {:induction false} AllExitedHoldNothing(ws: seq<Worker>, p: PodRef)
    requires AllExited(ws)
    ensures InHands(ws, p) == 0 && BusyCount(ws) == 0
  {
    if ws != [] {
      AllExitedHoldNothing(ws[1..], p);
    }
  }

  lemma NilFromInv(s: State)
    requires Inv(s) && s.main == Returned && s.firstErr.None?
    ensures forall p :: p in s.pods ==> GoneAfter(s.log, p) && p in s.recorded
    ensures Distinct(s.pods) ==> multiset(s.recorded) == multiset(s.pods)
  {
    forall p
      ensures p in s.pods ==> p in s.recorded
      ensures Distinct(s.pods) ==> multiset(s.recorded)[p] == multiset(s.pods)[p]
    {
      AllExitedHoldNothing(s.workers, p);
      OccursIsMultiplicity(s.pods, p);
      OccursIsMultiplicity(s.recorded, p);
      assert p in s.pods <==> p in multiset(s.pods);
      assert p in s.recorded <==> p in multiset(s.recorded);
      assert Places(s, p) == Occurs(s.recorded, p);
    }
  }

  /** When `evictAll` returns nil, every pod it was given first had its eviction
      accepted and was then missing from a listing requested later. References
      being distinct, the recorded pods are a permutation of the given ones, so
      none remains. */
  lemma NilMeansEveryPodGone(pods: seq<PodRef>, s: State)
    requires Reachable(pods, s)
    requires s.main == Returned && s.firstErr.None?
    ensures forall p :: p in pods ==> GoneAfter(s.log, p) && p in s.recorded
    ensures Distinct(pods) ==> multiset(s.recorded) == multiset(pods)
  {
    ReachableInv(pods, s);
    NilFromInv(s);
  }

  /** At every reachable step each given pod is in exactly one place, and the
      ones not recorded are |pods| - |recorded|. */
  lemma EachPodInOnePlace(pods: seq<PodRef>, s: State, p: PodRef)
    requires Reachable(pods, s) && Distinct(pods)
    ensures p in pods ==> Places(s, p) == 1
    ensures p !in pods ==> Places(s, p) == 0
    ensures |s.recorded| + |PollerHand(s.poller)| <= |pods|
  {
    ReachableInv(pods, s);
    OccursIsMultiplicity(pods, p);
    assert p in pods <==> p in multiset(pods);
  }

  /** The error returned is the one of the first call of `fail`; an error never
      turns into nil nor into another one. */
  lemma FirstErrorIsReturned(pods: seq<PodRef>, s: State, acts: seq<Act>)
    requires Reachable(pods, s) && s.firstErr.Some?
    requires RunFrom(s, acts).Some?
    ensures s.fails != [] && s.firstErr.value == s.fails[0] && s.ctxDone
    ensures RunFrom(s, acts).value.firstErr == s.firstErr
  {
    ReachableInv(pods, s);
    FailKept(s, acts);
  }

  /** Why `evictAll` failed: the drain's deadline passed; or one of its pods was
      refused with a status other than 2xx, 404, 410 and 429, or was sent to
      eviction and a call for it got no answer; or a listing failed. A
      PodDisruptionBudget alone never fails it. */
  lemma ErrorHasItsCause(pods: seq<PodRef>, s: State)
    requires Reachable(pods, s) && s.firstErr.Some?
    ensures var f := s.firstErr.value;
            && (f.EvictFailed? ==> f.ref in pods)
            && match f.cause
               case CtxEnded => s.expired
               case BadStatus(code) => f.EvictFailed? && Refused(s.log, f.ref, code)
               case CallFailed =>
                 if f.EvictFailed? then EvictionSent(f.ref) in s.log && EvictionUnanswered(f.ref) in s.log
                 else ListingFailed in s.log
  {
    ReachableInv(pods, s);
    hide Reachable, Evidence, Shape, Targets;
    var f := s.firstErr.value;
    assert f in s.fails;
    if f.EvictFailed? {
      assert CauseHolds(s, f.ref, f.cause);
      FailedCounts(s.fails, 0);
      OccursIsMultiplicity(pods, f.ref);
      assert f.ref in pods <==> f.ref in multiset(pods);
    } else {
      assert PollCauseHolds(s, f.cause);
    }
  }

  lemma {:induction false} FailedCounts(fails: seq<Failure>, i: nat)
    requires i < |fails| && fails[i].EvictFailed?
    ensures InFails(fails, fails[i].ref) >= 1
  {
    if i < |fails| - 1 {
      FailedCounts(fails[..|fails| - 1], i);
    }
  }

  lemma {:induction false} FailKept(s: State, acts: seq<Act>)
    requires s.firstErr.Some? && RunFrom(s, acts).Some?
    ensures RunFrom(s, acts).value.firstErr == s.firstErr
    decreases |acts|
  {
    if acts != [] {
      FailKept(Apply(s, acts[0]), acts[1..]);
    }
  }

  // --------------------------------------------- no deadlock, and termination

  /** The accepted channel has room for every pod, so a worker never blocks on
      the poller, whatever the poller is doing. */
  lemma SendNeverBlocks(s: State, w: nat)
    requires Inv(s)
    requires w < |s.workers| && s.workers[w].Sending?
    ensures Enabled(s, Work(w, Send))
  {
    BusyWorkerCounts(s.workers, w);
  }

  lemma {:induction false} BusyWorkerCounts(ws: seq<Worker>, w: nat)
    requires w < |ws| && Busy(ws[w])
    ensures BusyCount(ws) >= 1
  {
    if w > 0 {
      BusyWorkerCounts(ws[1..], w - 1);
    }
  }

  /** What worker `w` can do now. It has always something to do, unless it
      waits for work or has left. */
  function WorkerMove(s: State, w: nat): Act
    requires w < |s.workers|
  {
    var k := s.workers[w];
    Work(w, match k
            case Idle => if s.main == Feeding then Take else Leave
            case Checking(_) => CheckCtx
            case Calling(_, _) => EvictReply(NoReply)
            case Waiting(_) => BackoffOver
            case Failing(_, _) => ReportFailure
            case Sending(_) => Send
            case Exited => Leave)
  }

  lemma WorkerMoves(s: State, w: nat)
    requires Inv(s)
    requires w < |s.workers| && !s.workers[w].Exited?
    requires s.main == Feeding ==> s.unsent != []
    ensures Enabled(s, WorkerMove(s, w)) && Apply(s, WorkerMove(s, w)) != s
  {
    if s.workers[w].Sending? {
      SendNeverBlocks(s, w);
    }
    assert Apply(s, WorkerMove(s, w)).workers[w] != s.workers[w];
  }

  /** `evictAll` cannot deadlock: until it returns, some process or pending API
      reply can change the state, even if the deadline never passes. */
  lemma NoDeadlock(s: State) returns (a: Act)
    requires Inv(s) && s.main != Returned
    ensures a != Deadline && Enabled(s, a) && Apply(s, a) != s
  {
    if s.main == Feeding {
      if s.unsent == [] {
        a := CloseWork;
      } else {
        a := WorkerMove(s, 0);
        WorkerMoves(s, 0);
      }
    } else if s.main == AwaitingWorkers {
      if AllExited(s.workers) {
        a := CloseAccepted;
      } else {
        var w: nat :| w < |s.workers| && !s.workers[w].Exited?;
        a := WorkerMove(s, w);
        WorkerMoves(s, w);
      }
    } else {
      match s.poller
      case Stopped => a := Return;
      case Stopping(_) => a := Poll(ReportEnd);
      case AwaitingList(_, _) => a := Poll(ListReply(ListFailed));
      case Recording(gone) =>
        var xs := RefListing(gone);
        a := Poll(Record(xs));
      case Selecting =>
        a := Poll(if s.drained then (if s.pending == {} then Finish else Tick)
                  else if s.buffer != [] then Receive else SeeClosed);
    }
  }

  /** The pods of a set in order of their keys. */
  lemma {:induction false} RefListing(s: set<PodRef>) returns (xs: seq<PodRef>)
    ensures ListsRefs(xs, s)
    decreases |s|
  {
    if s == {} {
      xs := [];
    } else {
      var m := LeastKey(s);
      var rest := RefListing(s - {m});
      xs := [m] + rest;
      forall i, j | 0 <= i < j < |xs| ensures Le(Keys(xs)[i], Keys(xs)[j]) && xs[i] != xs[j] {
        assert xs[j] == rest[j - 1] && rest[j - 1] in s - {m};
        if i > 0 {
          assert Keys(rest)[i - 1] == Keys(xs)[i] && Keys(rest)[j - 1] == Keys(xs)[j];
        }
      }
    }
  }

  lemma {:induction false} LeastKey(s: set<PodRef>) returns (m: PodRef)
    requires s != {}
    ensures m in s && forall p :: p in s ==> Le(m.Key(), p.Key())
    decreases |s|
  {
    var x :| x in s;
    LeReflexive(x.Key());
    if s == {x} {
      m := x;
    } else {
      var y := LeastKey(s - {x});
      LeTotal(x.Key(), y.Key());
      if Le(x.Key(), y.Key()) {
        m := x;
        forall p | p in s && p != x ensures Le(x.Key(), p.Key()) {
          LeTransitive(x.Key(), y.Key(), p.Key());
        }
      } else {
        m := y;
      }
    }
  }

  /** How many moves a worker has left once ctx has ended. */
  function WorkerRank(k: Worker): nat
  {
    match k
    case Exited => 0
    case Idle => 1
    case Failing(_, _) => 2
    case Checking(_) => 3
    case Sending(_) => 3
    case Calling(_, doomed) => if doomed then 3 else 5
    case Waiting(_) => 4
  }

  function RankSum(ws: seq<Worker>): nat
  {
    if ws == [] then 0 else WorkerRank(ws[0]) + RankSum(ws[1..])
  }

  function PollerRank(p: Poller): nat
  {
    match p
    case Stopped => 0
    case Stopping(_) => 1
    case AwaitingList(_, doomed) => if doomed then 2 else 5
    case Selecting => 3
    case Recording(_) => 4
  }

  function MainRank(m: Main): nat
  {
    match m
    case Feeding => 3
    case AwaitingWorkers => 2
    case AwaitingPoller => 1
    case Returned => 0
  }

  function Measure(s: State): nat
  {
    3 * |s.unsent| + RankSum(s.workers) + |s.buffer| + (if s.drained then 0 else 1)
    + PollerRank(s.poller) + MainRank(s.main) + (if s.expired then 0 else 1)
  }

  lemma {:induction false} RankChange(ws: seq<Worker>, w: nat, k: Worker)
    requires w < |ws|
    ensures RankSum(ws[w := k]) + WorkerRank(ws[w]) == RankSum(ws) + WorkerRank(k)
  {
    if w == 0 {
      assert ws[w := k][1..] == ws[1..];
    } else {
      RankChange(ws[1..], w - 1, k);
      assert ws[w := k][1..] == ws[1..][w - 1 := k];
    }
  }

  /** What a worker logs once ctx has ended: no eviction sent. */
  lemma CancelledWorkerLogs(s: State, k: Worker, wa: WorkerAct)
    requires s.ctxDone && WorkerEnabled(s, k, wa)
    ensures var e := WorkerEffect(s, k, wa);
            e.ctxDone && (e.log == s.log || exists x: Event :: !x.EvictionSent? && e.log == s.log + [x])
  {}

  lemma CancelledPollerLogs(s: State, pa: PollerAct)
    requires s.ctxDone && PollerEnabled(s, pa)
    ensures var t := ApplyPoller(s, pa);
            t.ctxDone && (t.log == s.log || exists x: Event :: !x.EvictionSent? && t.log == s.log + [x])
  {}

  /** Once ctx has ended it stays ended, and no eviction reaches the API server
      any more. */
  lemma CancelledSendsNothing(s: State, a: Act, p: PodRef)
    requires s.ctxDone && Enabled(s, a)
    ensures Apply(s, a).ctxDone
    ensures EvictionSent(p) in Apply(s, a).log ==> EvictionSent(p) in s.log
  {
    hide WorkerEffect, NextWorker, WorkerEnabled, ApplyPoller, PollerEnabled;
    if a.Work? {
      CancelledWorkerLogs(s, s.workers[a.w], a.wa);
    } else if a.Poll? {
      CancelledPollerLogs(s, a.pa);
    }
  }

  lemma WorkerRunsDown(s: State, w: nat, wa: WorkerAct)
    requires s.ctxDone && Enabled(s, Work(w, wa))
    ensures Measure(Apply(s, Work(w, wa))) < Measure(s)
    ensures Apply(s, Work(w, wa)) != s
  {
    var k := s.workers[w];
    RankChange(s.workers, w, NextWorker(s, k, wa));
    assert Apply(s, Work(w, wa)).workers[w] != k;
  }

  lemma PollerRunsDown(s: State, pa: PollerAct)
    requires s.ctxDone && PollerEnabled(s, pa)
    ensures ApplyPoller(s, pa).ctxDone
    ensures ApplyPoller(s, pa) != s ==> Measure(ApplyPoller(s, pa)) < Measure(s)
    ensures ApplyPoller(s, pa) == s ==> pa == Tick && s.pending == {}
  {
    hide RankSum;
    assert ApplyPoller(s, pa).workers == s.workers && ApplyPoller(s, pa).unsent == s.unsent;
  }

  lemma MainRunsDown(s: State, a: Act)
    requires s.ctxDone && Enabled(s, a) && ByMain(a)
    ensures Apply(s, a).ctxDone && Apply(s, a) != s && Measure(Apply(s, a)) < Measure(s)
  {
    hide RankSum;
  }

  /** Once ctx has ended, every action that changes the state decreases the
      measure. The only one that does not is a tick with nothing pending. */
  lemma CancelledRunsDown(s: State, a: Act)
    requires s.ctxDone && Enabled(s, a)
    ensures Apply(s, a).ctxDone
    ensures Apply(s, a) != s ==> Measure(Apply(s, a)) < Measure(s)
    ensures Apply(s, a) == s ==> a == Poll(Tick) && s.pending == {}
  {
    hide Measure, ApplyPoller;
    if a.Work? {
      CancelledSendsNothing(s, a, NO_REF);
      WorkerRunsDown(s, a.w, a.wa);
      hide Apply;
    } else if a.Poll? {
      PollerRunsDown(s, a.pa);
    } else {
      MainRunsDown(s, a);
    }
  }

  ghost predicate EveryStepMoves(s: State, acts: seq<Act>)
    decreases |acts|
  {
    acts == [] ||
    (Enabled(s, acts[0]) && Apply(s, acts[0]) != s && EveryStepMoves(Apply(s, acts[0]), acts[1..]))
  }

  lemma {:induction false} RankBound(ws: seq<Worker>)
    ensures RankSum(ws) <= 5 * |ws|
  {
    if ws != [] {
      RankBound(ws[1..]);
    }
  }

  /** After the cancel, at most 3 * |pods| + 35 more actions can change the
      state, in whatever order they come. */
  lemma CancelledRunIsShort(pods: seq<PodRef>, s: State, acts: seq<Act>)
    requires Reachable(pods, s) && s.ctxDone && EveryStepMoves(s, acts)
    ensures |acts| <= 3 * |pods| + 35
  {
    ReachableInv(pods, s);
    RankBound(s.workers);
    RunBound(s, acts);
  }

  lemma {:induction false} RunBound(s: State, acts: seq<Act>)
    requires s.ctxDone && EveryStepMoves(s, acts)
    ensures |acts| <= Measure(s)
    decreases |acts|
  {
    if acts != [] {
      CancelledRunsDown(s, acts[0]);
      RunBound(Apply(s, acts[0]), acts[1..]);
    }
  }

  lemma {:induction false} RunAppend(s: State, acts: seq<Act>, a: Act)
    requires RunFrom(s, acts).Some? && Enabled(RunFrom(s, acts).value, a)
    ensures RunFrom(s, acts + [a]) == Some(Apply(RunFrom(s, acts).value, a))
    decreases |acts|
  {
    if acts == [] {
      assert RunFrom(s, [a]) == RunFrom(Apply(s, a), []);
    } else {
      RunAppend(Apply(s, acts[0]), acts[1..], a);
      assert (acts + [a])[1..] == acts[1..] + [a];
    }
  }

  lemma ReachableStep(pods: seq<PodRef>, s: State, a: Act)
    requires Reachable(pods, s) && Enabled(s, a)
    ensures Reachable(pods, Apply(s, a))
  {
    var expired, acts :| RunFrom(Init(pods, expired), acts) == Some(s);
    RunAppend(Init(pods, expired), acts, a);
  }

  /** From every cancelled reachable state the return is reached, and by
      CancelledRunIsShort every long enough run of moves ends there. */
  lemma {:induction false} CancelledReturns(pods: seq<PodRef>, s: State) returns (acts: seq<Act>)
    requires Reachable(pods, s) && s.ctxDone
    ensures EveryStepMoves(s, acts)
    ensures RunFrom(s, acts).Some? && RunFrom(s, acts).value.main == Returned
    decreases Measure(s)
  {
    if s.main == Returned {
      acts := [];
    } else {
      ReachableInv(pods, s);
      var a := NoDeadlock(s);
      CancelledRunsDown(s, a);
      ReachableStep(pods, s, a);
      var rest := CancelledReturns(pods, Apply(s, a));
      acts := [a] + rest;
      assert acts[1..] == rest;
    }
  }
}
