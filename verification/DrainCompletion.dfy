/** When a drain succeeds: on a node none of whose pods is blocked, as long as
    nothing has failed and the API server helps, every worker comes to write
    phase succeeded, whatever the other drains do meanwhile. */
module DrainCompletion {
  import opened Pods
  import opened DrainRegistry
  import opened DrainSystem
  import opened Wrappers
  import E = EvictAll
  import C = EvictAllCompletion

  /** Nothing has failed so far, and no listed pod is blocked. */
  ghost predicate OnCourse(w: Work, pods: seq<Pod>)
  {
    && Sound(w) && !w.pc.Ending? && !w.pc.Done?
    && (w.listing.Some? ==> w.listing.value == pods)
    && (forall p :: p in pods ==> ActionOf(p) != Block)
    && (w.ev.Some? ==> C.Unhurt(w.ev.value))
  }

  /** The node can be cordoned and has these pods, the deadline is not over, and
      the server accepts evictions and lets pods go. */
  ghost predicate Helps(w: Work, m: Move, pods: seq<Pod>)
  {
    match m
    case CordonReply(ok) => ok
    case PodsReply(reply) => reply == Some(pods)
    case SetRemaining(expired) => !expired
    case Inside(act) => w.ev.Some? && C.Helps(w.ev.value, act)
    case _ => true
  }

  /** How many moves are left with that help. */
  function Load(w: Work, n: nat): nat
  {
    match w.pc
    case Starting => 9 * n + 20
    case Cordoning => 9 * n + 19
    case ListingPods => 9 * n + 18
    case Classifying(at) => 8 * |w.evictable| + (if at <= n then 9 * (n - at) else 0) + 15
    case Counting => 8 * |w.evictable| + 14
    case Evicting => (if w.ev.Some? then C.Load(w.ev.value) else 0) + 2
    case Succeeding => 1
    case Ending(_) => 0
    case Done => 0
  }

  lemma NoneToRefuse(pods: seq<Pod>)
    requires forall p :: p in pods ==> ActionOf(p) != Block
    ensures KeysWith(pods, Block) == []
  {
    hide ActionOf;
  }

  lemma AroundHelped(w: Work, m: Move, pods: seq<Pod>)
    requires OnCourse(w, pods) && MoveEnabled(w, m) && Helps(w, m, pods) && !m.Inside?
    ensures NextWork(w, m).ev.Some? ==> C.Unhurt(NextWork(w, m).ev.value)
    ensures NextWork(w, m).listing.Some? ==> NextWork(w, m).listing.value == pods
    ensures !NextWork(w, m).pc.Ending? && (NextWork(w, m).pc.Done? ==> m.Succeed?)
    ensures Load(NextWork(w, m), |pods|) < Load(w, |pods|)
  {
    hide C.Load, KeysWith, Evictable, ActionOf, RefOf;
    if m.SetRemaining? {
      C.FirstLoad(w.evictable);
    } else if m.Decide? {
      assert pods[..|pods|] == pods;
      NoneToRefuse(pods);
    } else if m.Leave? {
      hide E.Reachable;
      assert E.FirstFailureWins(w.ev.value);
    }
  }

  lemma InsideHelped(w: Work, act: E.Act, pods: seq<Pod>)
    requires OnCourse(w, pods) && MoveEnabled(w, Inside(act)) && Helps(w, Inside(act), pods)
    requires NextWork(w, Inside(act)) != w
    ensures C.Unhurt(NextWork(w, Inside(act)).ev.value) && NextWork(w, Inside(act)) == w.(ev := NextWork(w, Inside(act)).ev)
    ensures w.pc.Evicting? && Load(NextWork(w, Inside(act)), |pods|) < Load(w, |pods|)
  {
    hide C.Load, KeysWith, Evictable, C.Unhurt, E.Apply, E.Enabled, E.Inv;
    C.HelpRunsDown(w.ev.value, act);
    if !w.pc.Evicting? {
      ReturnedIsQuiet(w.ev.value, act);
    }
  }

  /** With that help every move keeps the drain on course and brings it nearer to
      phase succeeded. */
  lemma HelpKeepsCourse(w: Work, m: Move, pods: seq<Pod>)
    requires OnCourse(w, pods) && MoveEnabled(w, m) && Helps(w, m, pods) && NextWork(w, m) != w
    ensures m.Succeed? || OnCourse(NextWork(w, m), pods)
    ensures Load(NextWork(w, m), |pods|) < Load(w, |pods|)
  {
    hide Sound, Load, C.Unhurt, NextWork, MoveEnabled, Helps;
    MoveKeeps(w, NewJob("", "", 0), m, 0);
    if m.Inside? {
      InsideHelped(w, m.act, pods);
    } else {
      AroundHelped(w, m, pods);
    }
  }

  lemma CanGoOn(w: Work, pods: seq<Pod>) returns (m: Move)
    requires OnCourse(w, pods)
    ensures MoveEnabled(w, m) && Helps(w, m, pods) && NextWork(w, m) != w
  {
    hide E.Inv, C.Unhurt, KeysWith, Evictable;
    match w.pc
    case Starting => m := Begin;
    case Cordoning => m := CordonReply(true);
    case ListingPods => m := PodsReply(Some(pods));
    case Classifying(at) => m := if at < |w.listing.value| then ClassifyNext else Decide;
    case Counting => m := SetRemaining(false);
    case Evicting =>
      if w.ev.value.main == E.Returned {
        m := Leave;
      } else {
        var act := C.CanGoOn(w.ev.value);
        m := Inside(act);
      }
    case Succeeding => m := Succeed;
  }

  ghost predicate EveryMoveHelps(w: Work, moves: seq<Move>, pods: seq<Pod>)
    decreases |moves|
  {
    moves == [] ||
    (MoveEnabled(w, moves[0]) && Helps(w, moves[0], pods) && NextWork(w, moves[0]) != w
     && EveryMoveHelps(NextWork(w, moves[0]), moves[1..], pods))
  }

  /** So a helped drain of a node with n pods makes at most 9n + 20 moves. */
  lemma {:induction false} HelpedDrainIsShort(w: Work, moves: seq<Move>, pods: seq<Pod>)
    requires OnCourse(w, pods) && EveryMoveHelps(w, moves, pods)
    ensures |moves| <= Load(w, |pods|)
    ensures w == INITIAL_WORK ==> |moves| <= 9 * |pods| + 20
    decreases |moves|
  {
    hide OnCourse, NextWork, MoveEnabled, Helps;
    if moves != [] {
      var next := NextWork(w, moves[0]);
      HelpKeepsCourse(w, moves[0], pods);
      if moves[0].Succeed? {
        SucceedIsLast(w, moves[1..], pods);
      } else {
        HelpedDrainIsShort(next, moves[1..], pods);
      }
    }
  }

  lemma SucceedIsLast(w: Work, rest: seq<Move>, pods: seq<Pod>)
    requires OnCourse(w, pods) && MoveEnabled(w, Succeed) && EveryMoveHelps(NextWork(w, Succeed), rest, pods)
    ensures rest == []
  {
    if rest != [] {
      var done := NextWork(w, Succeed);
      assert MoveEnabled(done, rest[0]) && Helps(done, rest[0], pods);
      ReturnedIsQuiet(done.ev.value, rest[0].act);
    }
  }

  /** The moves of one worker as actions of the system. */
  function Steps(id: JobId, moves: seq<Move>): (acts: seq<Act>)
    ensures |acts| == |moves| && forall i :: 0 <= i < |moves| ==> acts[i] == Step(id, moves[i])
  {
    seq(|moves|, i requires 0 <= i < |moves| => Step(id, moves[i]))
  }

  /** Every drain can succeed: from any reachable state of the whole system in
      which it has not failed, on a node whose pods are none of them blocked, a
      server that helps brings its record to phase succeeded. */
  lemma HelpedDrainSucceeds(s: System, id: JobId, pods: seq<Pod>) returns (moves: seq<Move>)
    requires Reachable(s) && id in s.works && OnCourse(s.works[id], pods)
    ensures EveryMoveHelps(s.works[id], moves, pods) && RunFrom(s, Steps(id, moves)).Some?
    ensures var t := RunFrom(s, Steps(id, moves)).value;
            id in t.jobs && t.jobs[id].phase == Succeeded && id in t.works && t.works[id].listing == Some(pods)
  {
    ReachableInv(s);
    moves := HelpedOn(s, id, pods);
  }

  /** ... so every drain that is started can, from its first move on. */
  lemma StartedDrainCanSucceed(s: System, nodeId: string, id: JobId, pods: seq<Pod>) returns (moves: seq<Move>)
    requires Reachable(s) && Enabled(s, Start(nodeId, id)) && forall p :: p in pods ==> ActionOf(p) != Block
    ensures |moves| <= 9 * |pods| + 20
    ensures var r := RunFrom(Apply(s, Start(nodeId, id)), Steps(id, moves));
            r.Some? && id in r.value.jobs && r.value.jobs[id].nodeId == nodeId && r.value.jobs[id].phase == Succeeded
            && id in r.value.works && r.value.works[id].listing == Some(pods)
  {
    var t := Apply(s, Start(nodeId, id));
    ReachableInv(s);
    hide Reachable, RunFrom;
    InvKept(s, Start(nodeId, id));
    StartEffect(s, nodeId, id);
    hide Inv, Apply;
    moves := HelpedOn(t, id, pods);
    HelpedDrainIsShort(INITIAL_WORK, moves, pods);
    KeepsNode(t, id, moves);
  }

  lemma {:induction false} KeepsNode(s: System, id: JobId, moves: seq<Move>)
    requires Inv(s) && id in s.jobs && RunFrom(s, Steps(id, moves)).Some?
    ensures var t := RunFrom(s, Steps(id, moves)).value; id in t.jobs ==> t.jobs[id].nodeId == s.jobs[id].nodeId
    decreases |moves|
  {
    hide Inv, Apply, Enabled;
    if moves != [] {
      assert Steps(id, moves)[1..] == Steps(id, moves[1..]);
      InvKept(s, Step(id, moves[0]));
      RecordLifecycle(s, Step(id, moves[0]), id);
      StillThere(s, id, moves[0]);
      KeepsNode(Apply(s, Step(id, moves[0])), id, moves[1..]);
    }
  }

  lemma StillThere(s: System, id: JobId, m: Move)
    requires Inv(s) && id in s.jobs && Enabled(s, Step(id, m))
    ensures id in Apply(s, Step(id, m)).jobs
  {
    StepEffect(s, id, m);
  }

  lemma {:induction false} HelpedOn(s: System, id: JobId, pods: seq<Pod>) returns (moves: seq<Move>)
    requires Inv(s) && id in s.works && OnCourse(s.works[id], pods)
    ensures EveryMoveHelps(s.works[id], moves, pods) && RunFrom(s, Steps(id, moves)).Some?
    ensures var t := RunFrom(s, Steps(id, moves)).value;
            id in t.jobs && t.jobs[id].phase == Succeeded && id in t.works && t.works[id].listing == Some(pods)
    decreases Load(s.works[id], |pods|)
  {
    hide Inv, OnCourse, NextWork, MoveEnabled, Helps, EveryMoveHelps, RunFrom, Apply, Enabled, Load;
    var w := s.works[id];
    var m := CanGoOn(w, pods);
    HelpKeepsCourse(w, m, pods);
    OneMove(s, id, m);
    var t := Apply(s, Step(id, m));
    if m.Succeed? {
      moves := [];
      SucceedIsWritten(s, id, pods);
    } else {
      moves := HelpedOn(t, id, pods);
    }
    OneMoveMore(s, id, m, moves, pods);
    moves := [m] + moves;
  }

  lemma OneMove(s: System, id: JobId, m: Move)
    requires Inv(s) && id in s.works && MoveEnabled(s.works[id], m)
    ensures Enabled(s, Step(id, m))
    ensures var t := Apply(s, Step(id, m)); Inv(t) && id in t.works && t.works[id] == NextWork(s.works[id], m)
  {
    InvKept(s, Step(id, m));
    hide Inv, NextWork, MoveEnabled;
  }

  lemma SucceedIsWritten(s: System, id: JobId, pods: seq<Pod>)
    requires Inv(s) && id in s.works && OnCourse(s.works[id], pods) && MoveEnabled(s.works[id], Succeed)
    ensures var t := Apply(s, Step(id, Succeed));
            && id in t.jobs && t.jobs[id].phase == Succeeded && id in t.works && t.works[id].listing == Some(pods)
            && EveryMoveHelps(t.works[id], [], pods) && RunFrom(t, Steps(id, [])) == Some(t)
  {
    hide E.Inv, C.Unhurt, KeysWith, Evictable, AllAgree, OnePerNode;
  }

  lemma OneMoveMore(s: System, id: JobId, m: Move, rest: seq<Move>, pods: seq<Pod>)
    requires Enabled(s, Step(id, m)) && id in s.works && MoveEnabled(s.works[id], m)
    requires Helps(s.works[id], m, pods) && NextWork(s.works[id], m) != s.works[id]
    requires EveryMoveHelps(NextWork(s.works[id], m), rest, pods)
    ensures EveryMoveHelps(s.works[id], [m] + rest, pods)
    ensures RunFrom(s, Steps(id, [m] + rest)) == RunFrom(Apply(s, Step(id, m)), Steps(id, rest))
  {
    hide Helps, Apply, Enabled, NextWork, MoveEnabled;
    assert ([m] + rest)[1..] == rest;
    assert Steps(id, [m] + rest)[1..] == Steps(id, rest);
  }
}
