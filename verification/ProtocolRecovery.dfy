/** What dropped connections do to a benchmark: it can still be completed exactly if each of them has served its purpose
    in the last round. */
module ProtocolRecovery {
  import opened Options
  import opened BenchmarkPlan
  import opened RoundProtocol
  import opened ProtocolInvariant
  import opened ProtocolSteps
  import opened ProtocolProgress

  // ----- A connection that is needed and down stays so

  lemma DownStaysDown(c: Setup, s: State, step: Step, w: nat)
    requires Shaped(c, s) && Enabled(c, s, step) && w < c.workers && !s.links[w].up
    ensures !Apply(c, s, step).links[w].up
  {
  }

  /** The handler of a connection that is down and not past its work. */
  predicate Stranded(c: Setup, h: Handler, l: Link, r: nat, w: nat)
    requires c.workers >= 1 && r < |c.plan|
  {
    !l.up && LinkInv(c, h, l, r, w) && !PastWork(h, l)
  }

  lemma StrandedHandler(c: Setup, s: State, step: Step)
    requires Shaped(c, s) && Enabled(c, s, step) && !IsServerStep(step) && !IsWorkerStep(step) && step.r < |c.plan|
    requires Stranded(c, s.rounds[step.r].handlers[step.w], s.links[step.w], step.r, step.w)
    ensures var s' := Apply(c, s, step); !PastWork(s'.rounds[step.r].handlers[step.w], s'.links[step.w])
  {
  }

  lemma StrandedWorker(c: Setup, h: Handler, l: Link, r: nat, w: nat, step: Step)
    requires c.workers >= 1 && r < |c.plan| && Stranded(c, h, l, r, w) && WorkerCan(l, step)
    ensures !PastWork(h, WorkerStep(c, l, step))
  {
  }

  /** What a step of the server does to handlers and connections. */
  lemma ServerTouches(c: Setup, s: State, step: Step)
    requires Shaped(c, s) && Enabled(c, s, step) && IsServerStep(step) && !step.BeginRound?
    ensures var s', r := Apply(c, s, step), |s.rounds| - 1;
      && s'.links == s.links && |s'.rounds| == |s.rounds|
      && s'.rounds[r].handlers == (if step.Spawn? then s.rounds[r].handlers[s.server.k := Starting] else s.rounds[r].handlers)
      && (s'.server == Between <==> step.TakeResult? && s.server.k + 1 == c.workers)
  {
  }

  lemma BeginRoundKeepsViable(c: Setup, s: State, w: nat)
    requires Shaped(c, s) && Enabled(c, s, BeginRound) && w < c.workers
    ensures Viable(c, Apply(c, s, BeginRound), w) ==> Viable(c, s, w)
    ensures s.links[w].up ==> Viable(c, Apply(c, s, BeginRound), w)
  {
  }

  lemma ServerKeepsStranded(c: Setup, s: State, step: Step, w: nat)
    requires Inv(c, s) && Enabled(c, s, step) && IsServerStep(step) && w < c.workers && !Viable(c, s, w)
    ensures !Viable(c, Apply(c, s, step), w)
  {
    if step.BeginRound? {
      BeginRoundKeepsViable(c, s, w);
    } else {
      ServerTouches(c, s, step);
      if step.TakeResult? && s.server.k + 1 == c.workers {
        LastResultEndsRound(c, s);
      }
    }
  }

  lemma HandlerKeepsStranded(c: Setup, s: State, step: Step, w: nat)
    requires Inv(c, s) && Enabled(c, s, step) && !IsServerStep(step) && !IsWorkerStep(step) && w < c.workers && !Viable(c, s, w)
    ensures !Viable(c, Apply(c, s, step), w)
  {
    OnlyCurrentHandlersAct(c, s, step.r, step.w);
    HandlerTouches(c, s, step);
    if step.w == w {
      if PastWork(s.rounds[step.r].handlers[w], s.links[w]) {
        assert |s.rounds| < |c.plan|;
      } else {
        StrandedHandler(c, s, step);
      }
    }
  }

  lemma WorkerStaysStranded(c: Setup, s: State, step: Step)
    requires Shaped(c, s) && Enabled(c, s, step) && IsWorkerStep(step) && s.server != Between
    requires Stranded(c, s.rounds[|s.rounds| - 1].handlers[step.w], s.links[step.w], |s.rounds| - 1, step.w)
    ensures var s' := Apply(c, s, step); !PastWork(s'.rounds[|s.rounds| - 1].handlers[step.w], s'.links[step.w])
  {
    StrandedWorker(c, s.rounds[|s.rounds| - 1].handlers[step.w], s.links[step.w], |s.rounds| - 1, step.w, step);
  }

  lemma WorkerKeepsStranded(c: Setup, s: State, step: Step, w: nat)
    requires Inv(c, s) && Enabled(c, s, step) && IsWorkerStep(step) && w < c.workers && !Viable(c, s, w)
    ensures !Viable(c, Apply(c, s, step), w)
  {
    DownStaysDown(c, s, step, w);
    if |s.rounds| == |c.plan| && step.w == w {
      assert LinkHolds(c, s, w);
      WorkerStaysStranded(c, s, step);
    }
  }

  lemma StrandedStays(c: Setup, s: State, step: Step, w: nat)
    requires Inv(c, s) && Enabled(c, s, step) && w < c.workers && !Viable(c, s, w)
    ensures !Viable(c, Apply(c, s, step), w)
  {
    if IsServerStep(step) {
      ServerKeepsStranded(c, s, step, w);
    } else if IsWorkerStep(step) {
      WorkerKeepsStranded(c, s, step, w);
    } else {
      HandlerKeepsStranded(c, s, step, w);
    }
  }

  lemma {:induction false} StrandedForEver(c: Setup, steps: seq<Step>, more: seq<Step>, w: nat)
    requires c.Valid() && Execute(c, steps).Some? && Execute(c, steps + more).Some?
    requires w < c.workers && !Viable(c, Execute(c, steps).value, w)
    ensures !Viable(c, Execute(c, steps + more).value, w)
  {
    if more == [] {
      assert steps + more == steps;
    } else {
      var init, step := more[..|more| - 1], more[|more| - 1];
      LastOfMore(steps, more);
      LastStep(c, steps + init, step);
      StrandedForEver(c, steps, init, w);
      RunKeepsInv(c, steps + init);
      StrandedStays(c, Execute(c, steps + init).value, step, w);
    }
  }

  // ----- Otherwise the benchmark goes on

  lemma HandlerGoesOn(c: Setup, s: State, step: Step)
    requires Shaped(c, s) && Enabled(c, s, step) && !IsServerStep(step) && !IsWorkerStep(step) && GoesOn(step)
    requires step.r < |c.plan| && LinkInv(c, s.rounds[step.r].handlers[step.w], s.links[step.w], step.r, step.w)
    requires PastWork(s.rounds[step.r].handlers[step.w], s.links[step.w])
    ensures var h, l := s.rounds[step.r].handlers[step.w], s.links[step.w];
      var s' := Apply(c, s, step);
      var h', l' := s'.rounds[step.r].handlers[step.w], s'.links[step.w];
      LinkLeft(h', l') + 1 == LinkLeft(h, l) && PastWork(h', l')
  {
  }

  /** A worker whose connection is down and past its work does nothing but notice. */
  lemma WorkerIsDone(c: Setup, h: Handler, l: Link, r: nat, w: nat, step: Step)
    requires c.workers >= 1 && r < |c.plan| && LinkInv(c, h, l, r, w) && WorkerCan(l, step) && GoesOn(step)
    requires !l.up
    ensures !PastWork(h, l)
  {
  }

  /** Only the round under way, one handler of it and one connection have changed, and the connection is viable. */
  lemma OthersStayViable(c: Setup, s: State, s': State, w: nat)
    requires Shaped(c, s) && Shaped(c, s') && AllViable(c, s) && s.server != Between && s'.server == s.server && w < c.workers
    requires |s'.rounds| == |s.rounds|
    requires var r := |s.rounds| - 1;
      s'.rounds[r].handlers == s.rounds[r].handlers[w := s'.rounds[r].handlers[w]] && s'.links == s.links[w := s'.links[w]]
    requires Viable(c, s', w)
    ensures AllViable(c, s')
  {
    forall i | 0 <= i < c.workers ensures Viable(c, s', i) {
      assert Viable(c, s, i);
    }
  }

  lemma HandlerCounts(c: Setup, s: State, step: Step)
    requires Shaped(c, s) && Enabled(c, s, step) && GoesOn(step) && !IsServerStep(step) && !IsWorkerStep(step)
    requires s.server != Between && step.r == |s.rounds| - 1 && Viable(c, s, step.w)
    requires LinkInv(c, s.rounds[step.r].handlers[step.w], s.links[step.w], step.r, step.w)
    ensures var s' := Apply(c, s, step); StepsLeft(c, s') == StepsLeft(c, s) - 1 && Viable(c, s', step.w)
  {
    var r, w, s' := step.r, step.w, Apply(c, s, step);
    HandlerTouches(c, s, step);
    if s.links[w].up {
      HandlerUsesOne(c, s, step);
    } else {
      HandlerGoesOn(c, s, step);
    }
    LinkAdvanced(c, s, s', r, w, s'.rounds[r].handlers[w], s'.links[w]);
  }

  lemma HandlerGoingOn(c: Setup, s: State, step: Step)
    requires Inv(c, s) && Enabled(c, s, step) && AllViable(c, s) && GoesOn(step) && !IsServerStep(step) && !IsWorkerStep(step)
    ensures StepsLeft(c, Apply(c, s, step)) == StepsLeft(c, s) - 1 && AllViable(c, Apply(c, s, step))
  {
    HandlerTouches(c, s, step);
    OnlyCurrentHandlersAct(c, s, step.r, step.w);
    assert Viable(c, s, step.w);
    HandlerCounts(c, s, step);
    OthersStayViable(c, s, Apply(c, s, step), step.w);
  }

  lemma WorkerHasLink(c: Setup, s: State, step: Step)
    requires Shaped(c, s) && IsWorkerStep(step) && step.w < c.workers && WorkerCan(s.links[step.w], step) && GoesOn(step)
    requires LinkHolds(c, s, step.w) && Viable(c, s, step.w)
    ensures s.server != Between && s.links[step.w].up
  {
    if s.server != Between {
      if !s.links[step.w].up {
        WorkerIsDone(c, s.rounds[|s.rounds| - 1].handlers[step.w], s.links[step.w], |s.rounds| - 1, step.w, step);
      }
    }
  }

  lemma WorkerGoesOn(c: Setup, s: State, step: Step)
    requires Shaped(c, s) && Enabled(c, s, step) && IsWorkerStep(step) && GoesOn(step) && SomeWorkInEveryRound(c)
    requires s.server != Between && s.links[step.w].up && LinkHolds(c, s, step.w)
    ensures var s' := Apply(c, s, step);
      s'.links[step.w].up && StepsLeft(c, s') == StepsLeft(c, s) - 1
  {
    var r, w, s' := |s.rounds| - 1, step.w, Apply(c, s, step);
    WorkerUsesOne(c, s.rounds[r].handlers[w], s.links[w], r, w, step);
    LinkAdvanced(c, s, s', r, w, s.rounds[r].handlers[w], s'.links[w]);
  }

  lemma WorkerGoingOn(c: Setup, s: State, step: Step)
    requires Inv(c, s) && Enabled(c, s, step) && AllViable(c, s) && GoesOn(step) && IsWorkerStep(step) && SomeWorkInEveryRound(c)
    ensures StepsLeft(c, Apply(c, s, step)) == StepsLeft(c, s) - 1 && AllViable(c, Apply(c, s, step))
  {
    assert LinkHolds(c, s, step.w) && Viable(c, s, step.w);
    WorkerHasLink(c, s, step);
    WorkerGoesOn(c, s, step);
    OthersStayViable(c, s, Apply(c, s, step), step.w);
  }

  lemma ServerKeepsViable(c: Setup, s: State, step: Step, w: nat)
    requires Shaped(c, s) && Enabled(c, s, step) && IsServerStep(step) && w < c.workers && Viable(c, s, w)
    requires step.Spawn? ==> s.rounds[|s.rounds| - 1].handlers[s.server.k] == Absent
    ensures Viable(c, Apply(c, s, step), w)
  {
    if step.BeginRound? {
      BeginRoundKeepsViable(c, s, w);
    } else {
      ServerTouches(c, s, step);
    }
  }

  lemma ServerGoingOn(c: Setup, s: State, step: Step)
    requires Inv(c, s) && Enabled(c, s, step) && AllViable(c, s) && IsServerStep(step)
    ensures StepsLeft(c, Apply(c, s, step)) == StepsLeft(c, s) - 1 && AllViable(c, Apply(c, s, step))
  {
    ServerStepCounts(c, s, step);
    if step.Spawn? {
      SpawnsInEmptyPlaces(c, s);
    }
    forall w | 0 <= w < c.workers ensures Viable(c, Apply(c, s, step), w) {
      assert Viable(c, s, w);
      ServerKeepsViable(c, s, step, w);
    }
  }

  lemma GoingOn(c: Setup, s: State, step: Step)
    requires Inv(c, s) && Enabled(c, s, step) && AllViable(c, s) && GoesOn(step) && SomeWorkInEveryRound(c)
    ensures StepsLeft(c, Apply(c, s, step)) == StepsLeft(c, s) - 1 && AllViable(c, Apply(c, s, step))
  {
    if IsServerStep(step) {
      ServerGoingOn(c, s, step);
    } else if IsWorkerStep(step) {
      WorkerGoingOn(c, s, step);
    } else {
      HandlerGoingOn(c, s, step);
    }
  }

  lemma OneMoreStep(c: Setup, steps: seq<Step>, step: Step)
    requires c.Valid() && Execute(c, steps).Some? && Enabled(c, Execute(c, steps).value, step)
    ensures Execute(c, steps + [step]) == Some(Apply(c, Execute(c, steps).value, step))
  {
    assert (steps + [step])[..|steps|] == steps;
  }

  lemma OneMoreGoingOn(c: Setup, steps: seq<Step>) returns (step: Step)
    requires c.Valid() && SomeWorkInEveryRound(c) && Execute(c, steps).Some? && AllViable(c, Execute(c, steps).value)
    requires !Complete(c, Execute(c, steps).value)
    ensures Execute(c, steps + [step]).Some? && AllViable(c, Execute(c, steps + [step]).value)
    ensures 0 <= StepsLeft(c, Execute(c, steps + [step]).value) < StepsLeft(c, Execute(c, steps).value)
  {
    var s := Execute(c, steps).value;
    RunKeepsInv(c, steps);
    step := SomebodyCanMove(c, s);
    GoingOn(c, s, step);
    OneMoreStep(c, steps, step);
    StepKeepsInv(c, s, step);
    StepsLeftBounds(c, Apply(c, s, step));
  }

  lemma NothingMore(steps: seq<Step>)
    ensures steps + [] == steps
  {
  }

  lemma Associates(steps: seq<Step>, step: Step, rest: seq<Step>)
    ensures steps + ([step] + rest) == (steps + [step]) + rest
  {
  }

  lemma CarryOn(c: Setup, steps: seq<Step>) returns (more: seq<Step>)
    requires c.Valid() && SomeWorkInEveryRound(c) && Execute(c, steps).Some? && AllViable(c, Execute(c, steps).value)
    ensures CompletesWith(c, steps, more)
    decreases StepsLeft(c, Execute(c, steps).value)
  {
    if Complete(c, Execute(c, steps).value) {
      more := [];
      NothingMore(steps);
    } else {
      var step := OneMoreGoingOn(c, steps);
      var rest := CarryOn(c, steps + [step]);
      more := [step] + rest;
      Associates(steps, step, rest);
    }
  }

  /** The run can be carried on to completion. */
  ghost predicate CanStillComplete(c: Setup, steps: seq<Step>)
    requires c.Valid()
  {
    exists more :: CompletesWith(c, steps, more)
  }

  predicate CompletesWith(c: Setup, steps: seq<Step>, more: seq<Step>)
    requires c.Valid()
  {
    Execute(c, steps + more).Some? && Complete(c, Execute(c, steps + more).value)
  }

  /** A benchmark with work in every round can still be completed, after whatever has happened, if and only if every
      connection is up or has delivered its worker's result of the last round. */
  lemma CompletableIffAllViable(c: Setup, steps: seq<Step>)
    requires c.Valid() && SomeWorkInEveryRound(c) && Execute(c, steps).Some?
    ensures CanStillComplete(c, steps) <==> AllViable(c, Execute(c, steps).value)
  {
    var s := Execute(c, steps).value;
    if AllViable(c, s) {
      var more := CarryOn(c, steps);
    } else if CanStillComplete(c, steps) {
      var more :| CompletesWith(c, steps, more);
      var w :| 0 <= w < c.workers && !Viable(c, s, w);
      StrandedForEver(c, steps, more, w);
    }
  }
}
