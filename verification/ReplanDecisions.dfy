/** What deciding and proposing write, and when a decision can be had. */
module ReplanDecisions {
  // From `decide_replan` in syncinerary/agents/rescue.py and the writes of the two proposers, read off
  // the steps of the replan protocol.

  import opened Schedule
  import opened ReplanProtocol

  /** The worker is about to write the decision the traveler asked for. */
  predicate Commits(s: State, step: Step, e: EventId, traveler: Traveler, approve: bool)
  {
    step.CommitDecision? && step.w < |s.phases| && s.phases[step.w] == RowsHeld(e, traveler, approve)
  }

  /** From `s` to `t` exactly this event was decided, by `traveler`. */
  predicate EventDecided(s: State, t: State, e: EventId, traveler: Traveler, approve: bool)
  {
    && e in s.events && e in t.events && t.events.Keys == s.events.Keys
    && t.events[e] == Event(s.events[e].proposal, if approve then Approved else Declined, Some(traveler))
    && forall f | f in s.events && f != e :: t.events[f] == s.events[f]
  }

  /** The status of a version after the decision about `proposal` on `parent`. */
  function StatusAfter(s: State, v: VersionId, parent: VersionId, proposal: VersionId, approve: bool): ItineraryStatus
    requires v in s.versions
  {
    if v == proposal then (if approve then Active else Rejected)
    else if v == parent && approve then Superseded
    else s.versions[v].status
  }

  /** Approved, its proposal replaces its parent as the active version; rejected, its proposal is
      rejected and the plan stays. Nothing else about any version changed. */
  predicate VersionsDecided(s: State, t: State, e: EventId, approve: bool)
    requires e in s.events
  {
    && s.events[e].proposal in s.versions && ParentOf(s, e) in s.versions
    && t.versions.Keys == s.versions.Keys
    && forall v | v in s.versions :: t.versions[v]
         == s.versions[v].(status := StatusAfter(s, v, ParentOf(s, e), s.events[e].proposal, approve))
  }

  predicate Decided(s: State, t: State, e: EventId, traveler: Traveler, approve: bool)
  {
    EventDecided(s, t, e, traveler, approve) && VersionsDecided(s, t, e, approve)
  }

  lemma CommitDecidesEvent(s: State, step: Step, t: State, e: EventId, traveler: Traveler, approve: bool)
    requires Next(s, step, t) && Commits(s, step, e, traveler, approve)
    ensures EventDecided(s, t, e, traveler, approve) && t.phases == s.phases[step.w := Idle]
  {
  }

  lemma CommitDecidesVersions(s: State, step: Step, t: State, e: EventId, traveler: Traveler, approve: bool)
    requires Next(s, step, t) && Commits(s, step, e, traveler, approve)
    requires e in s.events && EventAgrees(s, e)
    ensures VersionsDecided(s, t, e, approve)
  {
  }

  /** A decision decides, whichever way. */
  lemma DecisionDecides(s: State, step: Step, t: State, e: EventId, traveler: Traveler, approve: bool)
    requires Core(s) && Next(s, step, t) && Commits(s, step, e, traveler, approve)
    ensures Decided(s, t, e, traveler, approve) && t.phases == s.phases[step.w := Idle]
  {
    CommitDecidesEvent(s, step, t, e, traveler, approve);
    assert EventAgrees(s, e);
    CommitDecidesVersions(s, step, t, e, traveler, approve);
  }

  /** A proposal adds one version below the active one, numbered last, and one event waiting for it;
      nothing that exists changes. */
  lemma ProposalAdds(s: State, step: Step, t: State, base: VersionId)
    requires Core(s) && Next(s, step, t) && step.CommitProposal? && s.phases[step.w].base == base
    ensures HasStatus(s, base, Active) && step.version !in s.versions && step.event !in s.events
    ensures t.versions.Keys == s.versions.Keys + {step.version} && t.events.Keys == s.events.Keys + {step.event}
    ensures HasStatus(t, step.version, Proposed) && t.versions[step.version].parent == Some(base)
    ensures forall v | v in s.versions :: s.versions[v].no < t.versions[step.version].no
    ensures exists v :: v in s.versions && s.versions[v].no + 1 == t.versions[step.version].no
    ensures t.events[step.event] == Event(step.version, Pending, None)
    ensures forall v | v in s.versions :: t.versions[v] == s.versions[v]
    ensures forall f | f in s.events :: t.events[f] == s.events[f]
  {
    assert PhaseHolds(s, s.phases[step.w]);
  }

  /** Decisions lock rows in the order of their ids: first the smaller of the proposal and its parent, then
      the other one too; while only the event is held, no row is. */
  lemma RowsAscend(s: State, step: Step, t: State, v: VersionId)
    requires Next(s, step, t) && Decider(t.phases[step.w])
    ensures var p, e := t.phases[step.w], t.phases[step.w].event;
      && e in t.events
      && (step.HoldEvent? ==> !HoldsRow(t, p, v))
      && (step.HoldFirst? ==>
            (HoldsRow(t, p, v) <==> v in {ParentOf(t, e), t.events[e].proposal} && v <= ParentOf(t, e) && v <= t.events[e].proposal))
      && (step.HoldSecond? ==> (HoldsRow(t, p, v) <==> v in {ParentOf(t, e), t.events[e].proposal}))
  {
  }

  /** Only a commit writes, and a step is its own worker's alone. */
  lemma OnlyCommitsWrite(s: State, step: Step, t: State)
    requires Next(s, step, t)
    ensures step.CommitProposal? || step.CommitDecision? || (t.versions == s.versions && t.events == s.events)
    ensures |t.phases| == |s.phases| && forall o | 0 <= o < |s.phases| && o != step.w :: t.phases[o] == s.phases[o]
  {
  }

  /** A commit or an abort releases every lock of its worker; so does a recheck that fails: of the active
      version under a proposal, or of the two versions of a decision. */
  lemma LocksReleased(s: State, step: Step, t: State, v: VersionId, e: EventId)
    requires Next(s, step, t)
    requires var p := s.phases[step.w];
      || step.CommitProposal? || step.CommitDecision? || step.Abort?
      || (step.LockBase? && !HasStatus(s, p.base, Active))
      || (step.HoldSecond? && !(HasStatus(s, s.events[p.event].proposal, Proposed) && HasStatus(s, ParentOf(s, p.event), Active)))
    ensures !HoldsRow(t, t.phases[step.w], v) && !HoldsEvent(t.phases[step.w], e)
  {
  }

  // ----- from a trip nobody is working on -----

  predicate AllIdle(s: State)
  {
    forall w | 0 <= w < |s.phases| :: s.phases[w].Idle?
  }

  /** `s` with one worker in a phase. */
  function Busy(s: State, w: Worker, p: Phase): State
    requires w < |s.phases|
  {
    s.(phases := s.phases[w := p])
  }

  lemma FourStates(a: State, b: State, c: State, d: State, e: State, p: Step, q: Step, r: Step, l: Step)
    requires Next(a, p, b) && Next(b, q, c) && Next(c, r, d) && Next(d, l, e)
    ensures IsRun([a, b, c, d, e], [p, q, r, l])
  {
    var states, steps := [a, b, c, d, e], [p, q, r, l];
    forall i | 0 <= i < |steps| ensures Next(states[i], steps[i], states[i + 1]) {
      assert i == 0 || i == 1 || i == 2 || i == 3;
    }
  }

  lemma HoldSteps(s: State, w: Worker, e: EventId, traveler: Traveler, approve: bool)
    requires w < |s.phases| && AllIdle(s) && e in s.events && s.events[e].status == Pending
    ensures var event, first := Busy(s, w, EventHeld(e, traveler, approve)), Busy(s, w, FirstHeld(e, traveler, approve));
      Next(s, HoldEvent(w, e, traveler, approve), event) && Next(event, HoldFirst(w), first)
  {
    assert forall o | 0 <= o < |s.phases| && o != w :: Busy(s, w, EventHeld(e, traveler, approve)).phases[o].Idle?;
  }

  lemma RowsStep(s: State, w: Worker, e: EventId, traveler: Traveler, approve: bool)
    requires Core(s) && w < |s.phases| && AllIdle(s) && e in s.events && s.events[e].status == Pending
    requires HasStatus(s, ParentOf(s, e), Active)
    ensures Next(Busy(s, w, FirstHeld(e, traveler, approve)), HoldSecond(w), Busy(s, w, RowsHeld(e, traveler, approve)))
  {
    var first := Busy(s, w, FirstHeld(e, traveler, approve));
    assert EventAgrees(s, e);
    assert forall o | 0 <= o < |s.phases| && o != w :: first.phases[o].Idle?;
    assert first.phases[w := RowsHeld(e, traveler, approve)] == s.phases[w := RowsHeld(e, traveler, approve)];
  }

  lemma RowsDecide(s: State, w: Worker, e: EventId, traveler: Traveler, approve: bool) returns (t: State)
    requires Core(s) && w < |s.phases| && AllIdle(s) && e in s.events && s.events[e].status == Pending
    requires HasStatus(s, ParentOf(s, e), Active)
    ensures Next(Busy(s, w, RowsHeld(e, traveler, approve)), CommitDecision(w), t)
    ensures Decided(s, t, e, traveler, approve) && t.phases == s.phases
  {
    var rows := Busy(s, w, RowsHeld(e, traveler, approve));
    t := Decide(rows, w);
    assert EventAgrees(s, e);
    assert rows.phases[w := Idle] == s.phases;
  }

  /** Whichever decision is asked for, four steps reach it while the event is pending on the active plan. */
  lemma DecisionReachable(s: State, w: Worker, e: EventId, traveler: Traveler, approve: bool) returns (states: seq<State>, steps: seq<Step>)
    requires Core(s) && w < |s.phases| && AllIdle(s) && e in s.events && s.events[e].status == Pending
    requires HasStatus(s, ParentOf(s, e), Active)
    ensures IsRun(states, steps) && |steps| == 4 && states[0] == s && steps[0] == HoldEvent(w, e, traveler, approve)
    ensures Decided(s, states[4], e, traveler, approve) && states[4].phases == s.phases
  {
    HoldSteps(s, w, e, traveler, approve);
    RowsStep(s, w, e, traveler, approve);
    var t := RowsDecide(s, w, e, traveler, approve);
    var event, first := Busy(s, w, EventHeld(e, traveler, approve)), Busy(s, w, FirstHeld(e, traveler, approve));
    var rows := Busy(s, w, RowsHeld(e, traveler, approve));
    states := [s, event, first, rows, t];
    steps := [HoldEvent(w, e, traveler, approve), HoldFirst(w), HoldSecond(w), CommitDecision(w)];
    FourStates(s, event, first, rows, t, steps[0], steps[1], steps[2], steps[3]);
  }

  /** A run from `s` after which `e` is decided as asked. */
  ghost predicate Reaches(s: State, states: seq<State>, steps: seq<Step>, e: EventId, traveler: Traveler, approve: bool)
  {
    && IsRun(states, steps) && states[0] == s && e in states[|steps|].events
    && states[|steps|].events[e].status == (if approve then Approved else Declined)
    && states[|steps|].events[e].decidedBy == Some(traveler)
  }

  lemma {:induction false} StuckThrough(states: seq<State>, steps: seq<Step>, j: nat, e: EventId)
    requires IsRun(states, steps) && Core(states[0]) && Stuck(states[0], e) && j < |states|
    ensures Core(states[j]) && Stuck(states[j], e)
  {
    if j == 0 {
    } else {
      StuckThrough(states, steps, j - 1, e);
      var s, step, t := states[j - 1], steps[j - 1], states[j];
      assert Next(s, step, t);
      StuckStep(s, step, t, e);
      StepKeepsCore(s, step, t);
    }
  }

  /** On a trip nobody is working on, a pending event can be decided, either way, exactly while its
      parent is the active version. */
  lemma DecidableIff(s: State, e: EventId, traveler: Traveler, approve: bool)
    requires Core(s) && AllIdle(s) && |s.phases| > 0 && e in s.events && s.events[e].status == Pending
    ensures (exists states, steps :: Reaches(s, states, steps, e, traveler, approve)) <==> HasStatus(s, ParentOf(s, e), Active)
  {
    if HasStatus(s, ParentOf(s, e), Active) {
      var states, steps := DecisionReachable(s, 0, e, traveler, approve);
      assert Reaches(s, states, steps, e, traveler, approve);
    } else {
      assert Stuck(s, e);
      forall states, steps | IsRun(states, steps) && states[0] == s ensures !Reaches(s, states, steps, e, traveler, approve) {
        StuckThrough(states, steps, |steps|, e);
      }
    }
  }

  /** The number after the largest. */
  lemma {:induction false} LargestNo(s: State, keys: set<VersionId>) returns (no: nat)
    requires keys <= s.versions.Keys && keys != {}
    ensures (forall v | v in keys :: s.versions[v].no < no) && exists v :: v in keys && s.versions[v].no + 1 == no
    decreases keys
  {
    var v :| v in keys;
    no := s.versions[v].no + 1;
    if keys == {v} {
    } else {
      var rest := LargestNo(s, keys - {v});
      if rest > no {
        no := rest;
      }
      forall u | u in keys ensures s.versions[u].no < no {
        assert u == v || u in keys - {v};
      }
    }
  }

  /** With nothing pending, three steps of either proposer reach a proposal on the active plan. */
  lemma ProposalReachable(s: State, w: Worker, manual: bool, base: VersionId, v: VersionId, e: EventId)
    returns (states: seq<State>, steps: seq<Step>)
    requires Core(s) && w < |s.phases| && AllIdle(s) && NoPending(s) && HasStatus(s, base, Active)
    requires v !in s.versions && e !in s.events
    ensures IsRun(states, steps) && |steps| == 3 && states[0] == s
    ensures steps[0] == (if manual then StartManual(w, base) else StartRescue(w, base))
    ensures var t := states[3];
      && HasStatus(t, v, Proposed) && t.versions[v].parent == Some(base) && t.phases == s.phases
      && e in t.events && t.events[e] == Event(v, Pending, None)
  {
    var start := if manual then StartManual(w, base) else StartRescue(w, base);
    var no := LargestNo(s, s.versions.Keys);
    var planning, writing := Busy(s, w, Planning(manual, base)), Busy(s, w, Writing(manual, base, no));
    assert IsNextNo(planning, no);
    assert planning.phases[w := Writing(manual, base, no)] == writing.phases;
    var t := State(s.versions[v := Version(no, Proposed, Some(base))], s.events[e := Event(v, Pending, None)], s.phases);
    assert writing.phases[w := Idle] == s.phases;
    states, steps := [s, planning, writing, t], [start, LockBase(w), CommitProposal(w, v, e)];
    assert Next(s, start, planning);
    assert Next(planning, LockBase(w), writing);
    assert Next(writing, CommitProposal(w, v, e), t);
  }

  // ----- who decided -----

  /** Some step before `j` asked for this decision. */
  ghost predicate Asked(steps: seq<Step>, j: nat, e: EventId, traveler: Traveler, approve: bool)
  {
    exists i, w :: 0 <= i < j && i < |steps| && steps[i] == HoldEvent(w, e, traveler, approve)
  }

  ghost predicate AskedFor(steps: seq<Step>, j: nat, p: Phase)
  {
    Decider(p) ==> Asked(steps, j, p.event, p.traveler, p.approve)
  }

  /** A step carries the request on, or is it. */
  lemma RequestCarried(s: State, step: Step, t: State, w: Worker)
    requires Next(s, step, t) && w < |t.phases| && Decider(t.phases[w])
    ensures w < |s.phases|
    ensures var p, q := s.phases[w], t.phases[w];
      || step == HoldEvent(w, q.event, q.traveler, q.approve)
      || (Decider(p) && p.event == q.event && p.traveler == q.traveler && p.approve == q.approve)
  {
  }

  lemma {:induction false} PhasesAskedFor(states: seq<State>, steps: seq<Step>, j: nat, w: Worker)
    requires IsRun(states, steps) && Initial(states[0]) && j < |states| && w < |states[j].phases|
    ensures AskedFor(steps, j, states[j].phases[w])
  {
    if j == 0 || !Decider(states[j].phases[w]) {
    } else {
      var q := states[j].phases[w];
      RequestCarried(states[j - 1], steps[j - 1], states[j], w);
      PhasesAskedFor(states, steps, j - 1, w);
      if steps[j - 1] == HoldEvent(w, q.event, q.traveler, q.approve) {
      } else {
        assert Asked(steps, j - 1, q.event, q.traveler, q.approve);
      }
    }
  }

  /** Only a commit of a decider decides an event. */
  lemma DecidedByCommit(s: State, step: Step, t: State, e: EventId)
    requires Core(s) && Next(s, step, t) && e in t.events && t.events[e].status != Pending
    ensures e in s.events
    ensures s.events[e].status == Pending ==>
      && step.CommitDecision? && s.phases[step.w].RowsHeld? && s.phases[step.w].event == e
      && Decided(s, t, e, s.phases[step.w].traveler, s.phases[step.w].approve)
  {
    if step.CommitDecision? {
      var p := s.phases[step.w];
      DecisionDecides(s, step, t, p.event, p.traveler, p.approve);
    }
  }

  lemma JustDecided(states: seq<State>, steps: seq<Step>, j: nat, s: State, step: Step, t: State, e: EventId)
    requires IsRun(states, steps) && Initial(states[0]) && j < |steps| && s == states[j] && step == steps[j] && t == states[j + 1]
    requires e in s.events && s.events[e].status == Pending && e in t.events && t.events[e].status != Pending
    ensures t.events[e].decidedBy.Some? && Asked(steps, j, e, t.events[e].decidedBy.value, t.events[e].status == Approved)
  {
    CoreOfRun(states, steps, j);
    DecidedByCommit(s, step, t, e);
    PhasesAskedFor(states, steps, j, step.w);
  }

  lemma DecidedEarlier(states: seq<State>, steps: seq<Step>, j: nat, e: EventId)
    requires IsRun(states, steps) && Initial(states[0]) && j < |steps| && e in states[j + 1].events
    requires states[j + 1].events[e].status != Pending
    ensures e in states[j].events
    ensures states[j].events[e].status != Pending ==> states[j + 1].events[e] == states[j].events[e]
  {
    CoreOfRun(states, steps, j);
    DecidedByCommit(states[j], steps[j], states[j + 1], e);
    assert EventAgrees(states[j], e);
    StepMovesForward(states[j], steps[j], states[j + 1], e, states[j].events[e].proposal);
  }

  lemma AskedSooner(steps: seq<Step>, i: nat, j: nat, e: EventId, traveler: Traveler, approve: bool)
    requires Asked(steps, i, e, traveler, approve) && i <= j
    ensures Asked(steps, j, e, traveler, approve)
  {
  }

  /** Every decision in every run was asked for, by the traveler recorded with it. */
  lemma {:induction false} DecisionWasAsked(states: seq<State>, steps: seq<Step>, j: nat, e: EventId)
    requires IsRun(states, steps) && Initial(states[0]) && j < |states|
    requires e in states[j].events && states[j].events[e].status != Pending
    ensures states[j].events[e].decidedBy.Some?
    ensures Asked(steps, j, e, states[j].events[e].decidedBy.value, states[j].events[e].status == Approved)
    decreases j
  {
    if j == 0 {
    } else {
      DecidedEarlier(states, steps, j - 1, e);
      if states[j - 1].events[e].status == Pending {
        JustDecided(states, steps, j - 1, states[j - 1], steps[j - 1], states[j], e);
      } else {
        DecisionWasAsked(states, steps, j - 1, e);
      }
      AskedSooner(steps, j - 1, j, e, states[j].events[e].decidedBy.value, states[j].events[e].status == Approved);
    }
  }
}
