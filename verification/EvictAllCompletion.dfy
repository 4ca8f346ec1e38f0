/** When `evictAll` succeeds: as long as nothing has failed, a server that
    accepts the evictions and lets the pods go brings it to a nil return, in
    whatever order the processes move. */
module EvictAllCompletion {
  import opened Pods
  import opened EvictAll
  import opened Strings
  import opened Wrappers

  /** What one listing tells the poller: a pending pod that is missing is taken
      out to be recorded, and one that is present stays pending. */
  lemma ListingIsNoticed(s: State, present: set<PodRef>, p: PodRef)
    requires Enabled(s, Poll(ListReply(Listed(present)))) && p in s.pending
    ensures var t := Apply(s, Poll(ListReply(Listed(present))));
            if p in present then p in t.pending && !(t.poller.Recording? && p in t.poller.gone)
            else t.poller.Recording? && p in t.poller.gone && p !in t.pending
  {
    assert p !in present ==> p in s.pending - present;
  }

  /** The pods found gone are recorded by namespace and name, in order. */
  lemma RecordedInOrder(s: State, gone: seq<PodRef>)
    requires Enabled(s, Poll(Record(gone)))
    ensures Apply(s, Poll(Record(gone))).recorded == s.recorded + gone
    ensures forall p :: p in gone <==> p in s.poller.gone
    ensures forall i, j :: 0 <= i < j < |gone| ==> Le(gone[i].ns + "/" + gone[i].name, gone[j].ns + "/" + gone[j].name)
  {
    forall i, j | 0 <= i < j < |gone|
      ensures Le(gone[i].ns + "/" + gone[i].name, gone[j].ns + "/" + gone[j].name)
    {
      assert Keys(gone)[i] == gone[i].Key() && Keys(gone)[j] == gone[j].Key();
    }
  }

  /** Nothing has failed and ctx has not ended. */
  ghost predicate Unhurt(s: State)
  {
    && !s.ctxDone && !s.poller.Stopping?
    && forall w :: 0 <= w < |s.workers| ==> !s.workers[w].Failing?
  }

  /** The server accepts each eviction it answers (2xx, or the pod was already
      gone) and each listing it answers lacks a pod that is waited for. */
  ghost predicate Helps(s: State, a: Act)
  {
    match a
    case Work(_, wa) => wa.EvictReply? ==> wa.reply.Status? && (200 <= wa.reply.code <= 299 || wa.reply.code in {404, 410})
    case Poll(pa) => pa.ListReply? ==> pa.listing.Listed? && exists p :: p in s.pending && p !in pa.listing.present
    case Deadline => false
    case _ => true
  }

  ghost predicate EveryStepHelps(s: State, acts: seq<Act>)
    decreases |acts|
  {
    acts == [] ||
    (Enabled(s, acts[0]) && Helps(s, acts[0]) && Apply(s, acts[0]) != s && EveryStepHelps(Apply(s, acts[0]), acts[1..]))
  }

  // ------------------------------------------------------------ running down

  /** How many moves a worker has left until its pod is in the job's record. */
  function WorkerLoad(k: Worker): nat
  {
    match k
    case Idle => 1
    case Checking(_) => 8
    case Calling(_, _) => 7
    case Waiting(_) => 8
    case Sending(_) => 6
    case Failing(_, _) => 0
    case Exited => 0
  }

  function LoadSum(ws: seq<Worker>): nat
  {
    if ws == [] then 0 else WorkerLoad(ws[0]) + LoadSum(ws[1..])
  }

  function PollerLoad(p: Poller, pending: nat): nat
  {
    match p
    case Selecting => 3 * pending + 1
    case AwaitingList(_, _) => 3 * pending
    case Recording(_) => 3 * pending + 2
    case Stopping(_) => 0
    case Stopped => 0
  }

  function Load(s: State): nat
  {
    8 * |s.unsent| + LoadSum(s.workers) + 4 * |s.buffer| + (if s.drained then 0 else 1)
    + PollerLoad(s.poller, |s.pending|) + MainRank(s.main)
  }

  lemma {:induction false} LoadChange(ws: seq<Worker>, w: nat, k: Worker)
    requires w < |ws|
    ensures LoadSum(ws[w := k]) + WorkerLoad(ws[w]) == LoadSum(ws) + WorkerLoad(k)
  {
    if w == 0 {
      assert ws[w := k][1..] == ws[1..];
    } else {
      LoadChange(ws[1..], w - 1, k);
      assert ws[w := k][1..] == ws[1..][w - 1 := k];
    }
  }

  lemma WorkerHelped(s: State, w: nat, wa: WorkerAct)
    requires Unhurt(s) && Enabled(s, Work(w, wa)) && Helps(s, Work(w, wa))
    ensures Unhurt(Apply(s, Work(w, wa))) && Load(Apply(s, Work(w, wa))) < Load(s)
  {
    LoadChange(s.workers, w, NextWorker(s, s.workers[w], wa));
    hide LoadSum;
  }

  lemma FewerPending(pending: set<PodRef>, gone: set<PodRef>)
    requires gone != {} && gone <= pending
    ensures |pending - gone| < |pending|
  {
    SetSplits(pending, gone);
  }

  lemma PollerHelped(s: State, pa: PollerAct)
    requires Unhurt(s) && PollerEnabled(s, pa) && Helps(s, Poll(pa)) && ApplyPoller(s, pa) != s
    ensures Unhurt(ApplyPoller(s, pa)) && Load(ApplyPoller(s, pa)) < Load(s)
  {
    hide LoadSum;
    if pa.ListReply? {
      var p :| p in s.pending && p !in pa.listing.present;
      assert p in s.pending - pa.listing.present;
      FewerPending(s.pending, s.pending - pa.listing.present);
    }
  }

  /** With the server's help every move brings the end nearer. */
  lemma HelpRunsDown(s: State, a: Act)
    requires Unhurt(s) && Enabled(s, a) && Helps(s, a) && Apply(s, a) != s
    ensures Unhurt(Apply(s, a)) && Load(Apply(s, a)) < Load(s)
  {
    if a.Work? {
      WorkerHelped(s, a.w, a.wa);
      hide *;
    } else if a.Poll? {
      PollerHelped(s, a.pa);
    } else {
      hide LoadSum;
    }
  }

  // ---------------------------------------------------------------- the end

  /** What worker `w` can do next with the server's help. */
  lemma WorkerCanGoOn(s: State, w: nat) returns (a: Act)
    requires Inv(s) && Unhurt(s) && w < |s.workers| && !s.workers[w].Exited?
    requires s.main == Feeding ==> s.unsent != []
    ensures Enabled(s, a) && Helps(s, a) && Apply(s, a) != s
  {
    WorkerMoves(s, w);
    a := if s.workers[w].Calling? then Work(w, EvictReply(Status(201))) else WorkerMove(s, w);
    if s.workers[w].Calling? {
      assert Apply(s, a).workers[w] == Sending(s.workers[w].ref);
    }
  }

  lemma PollerCanGoOn(s: State) returns (a: Act)
    requires Inv(s) && Unhurt(s) && s.main == AwaitingPoller && !s.poller.Stopped?
    ensures Enabled(s, a) && Helps(s, a) && Apply(s, a) != s
  {
    match s.poller
    case AwaitingList(sentAt, doomed) =>
      a := Poll(ListReply(Listed({})));
      assert exists p :: p in s.pending && p !in {};
    case Recording(gone) =>
      var xs := RefListing(gone);
      a := Poll(Record(xs));
    case Selecting =>
      a := Poll(if s.drained then (if s.pending == {} then Finish else Tick) else if s.buffer != [] then Receive else SeeClosed);
  }

  /** Until it returns, `evictAll` can go on. */
  lemma CanGoOn(s: State) returns (a: Act)
    requires Inv(s) && Unhurt(s) && s.main != Returned
    ensures Enabled(s, a) && Helps(s, a) && Apply(s, a) != s
  {
    hide Helps, Apply, Enabled;
    if s.main == Feeding && s.unsent != [] {
      a := WorkerCanGoOn(s, 0);
    } else if s.main == AwaitingWorkers && !AllExited(s.workers) {
      var w: nat :| w < |s.workers| && !s.workers[w].Exited?;
      a := WorkerCanGoOn(s, w);
    } else if s.main == AwaitingPoller && !s.poller.Stopped? {
      a := PollerCanGoOn(s);
    } else {
      a := MainCanGoOn(s);
    }
  }

  lemma MainCanGoOn(s: State) returns (a: Act)
    requires s.main == Feeding ==> s.unsent == []
    requires s.main == AwaitingWorkers ==> AllExited(s.workers)
    requires s.main == AwaitingPoller ==> s.poller.Stopped?
    requires s.main != Returned
    ensures Enabled(s, a) && Helps(s, a) && Apply(s, a) != s
  {
    a := if s.main == Feeding then CloseWork else if s.main == AwaitingWorkers then CloseAccepted else Return;
  }

  /** A run that the server helps all along ends nowhere but in a nil return. */
  lemma HelpedRunEndsInNil(pods: seq<PodRef>, s: State)
    requires Reachable(pods, s) && Unhurt(s)
    requires forall a :: Enabled(s, a) && Helps(s, a) ==> Apply(s, a) == s
    ensures s.main == Returned && s.firstErr.None?
  {
    ReachableInv(pods, s);
    hide Reachable;
    if s.main != Returned {
      var a := CanGoOn(s);
    }
  }

  /** ... and ends there soon: from the start after at most 8 * |pods| + 10
      moves, in whatever order the processes take them. */
  lemma {:induction false} HelpedRunIsShort(s: State, acts: seq<Act>)
    requires Unhurt(s) && EveryStepHelps(s, acts)
    ensures |acts| <= Load(s)
    ensures s == Init(s.pods, false) ==> |acts| <= 8 * |s.pods| + 10
    decreases |acts|
  {
    hide Unhurt, Helps, Load;
    if acts != [] {
      HelpRunsDown(s, acts[0]);
      HelpedRunIsShort(Apply(s, acts[0]), acts[1..]);
    }
    if s == Init(s.pods, false) {
      FirstLoad(s.pods);
    }
  }

  lemma FirstLoad(pods: seq<PodRef>)
    ensures Load(Init(pods, false)) <= 8 * |pods| + 10
  {
    IdleLoad(Min(DRAIN_WORKERS, |pods|));
  }

  lemma {:induction false} IdleLoad(k: nat)
    ensures LoadSum(seq(k, _ => Idle)) == k
  {
    if k > 0 {
      IdleLoad(k - 1);
      var ws: seq<Worker> := seq(k, _ => Idle);
      assert ws[1..] == seq(k - 1, _ => Idle);
    }
  }

  /** From every reachable state in which nothing has failed, a server that helps
      brings evictAll to return nil, with every pod recorded as gone. */
  lemma {:induction false} HelpedDrainSucceeds(pods: seq<PodRef>, s: State) returns (acts: seq<Act>)
    requires Reachable(pods, s) && Unhurt(s)
    ensures EveryStepHelps(s, acts) && RunFrom(s, acts).Some?
    ensures var t := RunFrom(s, acts).value;
            t.main == Returned && t.firstErr.None? && forall p :: p in pods ==> p in t.recorded
    decreases Load(s)
  {
    hide Unhurt, Helps, Load, Enabled, Apply, Reachable, EveryStepHelps, RunFrom, GoneAfter;
    ReachableInv(pods, s);
    if s.main == Returned {
      acts := [];
      HelpedEnd(pods, s);
    } else {
      var a := CanGoOn(s);
      HelpRunsDown(s, a);
      ReachableStep(pods, s, a);
      var rest := HelpedDrainSucceeds(pods, Apply(s, a));
      acts := [a] + rest;
      OneStepMore(s, a, rest);
    }
  }

  lemma HelpedEnd(pods: seq<PodRef>, s: State)
    requires Reachable(pods, s) && Unhurt(s) && s.main == Returned
    ensures EveryStepHelps(s, []) && RunFrom(s, []) == Some(s) && s.firstErr.None?
    ensures forall p :: p in pods ==> p in s.recorded
  {
    ReachableInv(pods, s);
    NilMeansEveryPodGone(pods, s);
  }

  lemma OneStepMore(s: State, a: Act, rest: seq<Act>)
    requires Enabled(s, a) && Helps(s, a) && Apply(s, a) != s && EveryStepHelps(Apply(s, a), rest)
    ensures EveryStepHelps(s, [a] + rest) && RunFrom(s, [a] + rest) == RunFrom(Apply(s, a), rest)
  {
    assert ([a] + rest)[1..] == rest;
    hide Helps, Apply, Enabled;
  }

  // ------------------------------------------------- no failure is lost

  /** The server refused an eviction for good, or a call got no answer. */
  predicate Troubling(e: Event)
  {
    match e
    case EvictionAnswered(_, code) => !(200 <= code <= 299) && code !in {404, 410, 429}
    case EvictionUnanswered(_) => true
    case ListingFailed => true
    case _ => false
  }

  /** Whoever met trouble has reported it, or is about to. */
  ghost predicate TroubleIsKnown(s: State)
  {
    (exists e :: e in s.log && Troubling(e)) ==>
      s.fails != [] || s.poller.Stopping? || exists w :: 0 <= w < |s.workers| && s.workers[w].Failing?
  }

  lemma WorkerKnowsTrouble(s: State, w: nat, wa: WorkerAct)
    requires TroubleIsKnown(s) && Enabled(s, Work(w, wa))
    ensures TroubleIsKnown(Apply(s, Work(w, wa)))
  {
    var t := Apply(s, Work(w, wa));
    assert t.poller == s.poller;
    assert t.fails == [] ==> s.fails == [] && !s.workers[w].Failing?;
    assert forall v :: 0 <= v < |t.workers| && v != w ==> t.workers[v] == s.workers[v];
    forall e | e in t.log && Troubling(e) && !t.workers[w].Failing? ensures e in s.log {}
  }

  lemma PollerKnowsTrouble(s: State, pa: PollerAct)
    requires TroubleIsKnown(s) && PollerEnabled(s, pa)
    ensures TroubleIsKnown(ApplyPoller(s, pa))
  {
    var t := ApplyPoller(s, pa);
    assert t.workers == s.workers;
    forall e | e in t.log && Troubling(e) && !t.poller.Stopping? ensures e in s.log {}
  }

  lemma TroubleStaysKnown(s: State, a: Act)
    requires TroubleIsKnown(s) && Enabled(s, a)
    ensures TroubleIsKnown(Apply(s, a))
  {
    hide Troubling;
    if a.Work? {
      WorkerKnowsTrouble(s, a.w, a.wa);
      hide Apply, Enabled, TroubleIsKnown;
    } else if a.Poll? {
      PollerKnowsTrouble(s, a.pa);
    }
  }

  lemma {:induction false} RunKnowsTrouble(s: State, acts: seq<Act>)
    requires TroubleIsKnown(s) && RunFrom(s, acts).Some?
    ensures TroubleIsKnown(RunFrom(s, acts).value)
    decreases |acts|
  {
    hide TroubleIsKnown, Apply, Enabled;
    if acts != [] {
      TroubleStaysKnown(s, acts[0]);
      RunKnowsTrouble(Apply(s, acts[0]), acts[1..]);
    }
  }

  /** A nil return means that no eviction was refused but for now (429), that no
      call stayed without an answer, and that no listing failed. */
  lemma NilMeansNoTrouble(pods: seq<PodRef>, s: State, e: Event)
    requires Reachable(pods, s) && s.main == Returned && s.firstErr.None? && e in s.log
    ensures e.EvictionAnswered? ==> 200 <= e.code <= 299 || e.code in {404, 410, 429}
    ensures !e.EvictionUnanswered? && !e.ListingFailed?
  {
    ReachableInv(pods, s);
    var expired, acts :| RunFrom(Init(pods, expired), acts) == Some(s);
    RunKnowsTrouble(Init(pods, expired), acts);
  }

  // ------------------------------------------------- evictions in flight

  /** Evictions sent and not answered yet. */
  function InFlight(log: seq<Event>): int
  {
    if log == [] then 0
    else
      var e := log[|log| - 1];
      InFlight(log[..|log| - 1]) +
      (if e.EvictionSent? then 1 else if e.EvictionAnswered? || e.EvictionUnanswered? then -1 else 0)
  }

  function CallingCount(ws: seq<Worker>): nat
  {
    if ws == [] then 0 else (if ws[0].Calling? then 1 else 0) + CallingCount(ws[1..])
  }

  lemma {:induction false} CallingChange(ws: seq<Worker>, w: nat, k: Worker)
    requires w < |ws|
    ensures CallingCount(ws[w := k]) + (if ws[w].Calling? then 1 else 0) == CallingCount(ws) + (if k.Calling? then 1 else 0)
  {
    if w == 0 {
      assert ws[w := k][1..] == ws[1..];
    } else {
      CallingChange(ws[1..], w - 1, k);
      assert ws[w := k][1..] == ws[1..][w - 1 := k];
    }
  }

  lemma {:induction false} CallingAtMost(ws: seq<Worker>)
    ensures CallingCount(ws) <= |ws|
    ensures (forall w :: 0 <= w < |ws| ==> ws[w].Idle?) ==> CallingCount(ws) == 0
  {
    if ws != [] {
      CallingAtMost(ws[1..]);
    }
  }

  lemma OneMoreEvent(log: seq<Event>, e: Event)
    ensures InFlight(log + [e]) == InFlight(log) +
              if e.EvictionSent? then 1 else if e.EvictionAnswered? || e.EvictionUnanswered? then -1 else 0
  {
    assert (log + [e])[..|log|] == log;
  }

  lemma WorkerFlight(s: State, k: Worker, wa: WorkerAct)
    requires WorkerEnabled(s, k, wa) && !WorkerEffect(s, k, wa).ctxDone
    ensures var e, n := WorkerEffect(s, k, wa), NextWorker(s, k, wa);
            && !s.ctxDone && e.workers == s.workers && e.pods == s.pods
            && InFlight(e.log) + (if k.Calling? then 1 else 0) == InFlight(s.log) + (if n.Calling? then 1 else 0)
  {
    var e := WorkerEffect(s, k, wa);
    if e.log != s.log {
      OneMoreEvent(s.log, e.log[|s.log|]);
    }
    hide InFlight;
  }

  lemma PollerFlight(s: State, pa: PollerAct)
    requires PollerEnabled(s, pa) && !ApplyPoller(s, pa).ctxDone
    ensures var t := ApplyPoller(s, pa);
            !s.ctxDone && t.workers == s.workers && t.pods == s.pods && InFlight(t.log) == InFlight(s.log)
  {
    var t := ApplyPoller(s, pa);
    if t.log != s.log {
      OneMoreEvent(s.log, t.log[|s.log|]);
    }
    hide InFlight;
  }

  lemma FlightKept(s: State, a: Act)
    requires InFlight(s.log) == CallingCount(s.workers) && Enabled(s, a) && !Apply(s, a).ctxDone
    ensures !s.ctxDone && InFlight(Apply(s, a).log) == CallingCount(Apply(s, a).workers)
    ensures |Apply(s, a).workers| == |s.workers| && Apply(s, a).pods == s.pods
  {
    hide InFlight, CallingCount, WorkerEffect, NextWorker, WorkerEnabled, ApplyPoller, PollerEnabled;
    if a.Work? {
      WorkerFlight(s, s.workers[a.w], a.wa);
      CallingChange(s.workers, a.w, NextWorker(s, s.workers[a.w], a.wa));
    } else if a.Poll? {
      PollerFlight(s, a.pa);
    }
  }

  lemma {:induction false} FlightOfRun(s: State, acts: seq<Act>)
    requires InFlight(s.log) == CallingCount(s.workers) && RunFrom(s, acts).Some? && !RunFrom(s, acts).value.ctxDone
    ensures !s.ctxDone
    ensures var t := RunFrom(s, acts).value;
            InFlight(t.log) == CallingCount(t.workers) && |t.workers| == |s.workers| && t.pods == s.pods
    decreases |acts|
  {
    hide InFlight, CallingCount, Apply, Enabled;
    if acts != [] {
      StillOpen(Apply(s, acts[0]), acts[1..]);
      FlightKept(s, acts[0]);
      FlightOfRun(Apply(s, acts[0]), acts[1..]);
    }
  }

  lemma {:induction false} StillOpen(s: State, acts: seq<Act>)
    requires RunFrom(s, acts).Some? && !RunFrom(s, acts).value.ctxDone
    ensures !s.ctxDone
    decreases |acts|
  {
    hide Apply, Enabled;
    if acts != [] {
      StillOpen(Apply(s, acts[0]), acts[1..]);
      if s.ctxDone {
        CancelledSendsNothing(s, acts[0], NO_REF);
      }
    }
  }

  /** Five workers, or one per pod if there are fewer; until the context ends
      the evictions in flight are the workers' calls, so never more than five. */
  lemma AtMostFiveInFlight(pods: seq<PodRef>, s: State)
    requires Reachable(pods, s)
    ensures |s.workers| == if |pods| < 5 then |pods| else 5
    ensures !s.ctxDone ==> 0 <= InFlight(s.log) <= 5
  {
    ReachableInv(pods, s);
    var expired, acts :| RunFrom(Init(pods, expired), acts) == Some(s);
    if !s.ctxDone {
      CallingAtMost(Init(pods, expired).workers);
      FlightOfRun(Init(pods, expired), acts);
      CallingAtMost(s.workers);
    }
  }
}
