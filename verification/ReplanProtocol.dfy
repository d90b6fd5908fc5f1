/** Proposing and deciding replans. */
module ReplanProtocol {
  // From syncinerary/agents/rescue.py and syncinerary/agents/manual_itinerary.py. Several workers run
  // transactions against one trip's append-only itinerary versions. A proposer reads the active
  // version, releases its transaction while it talks to providers, then locks the version row,
  // rechecks and writes. A decider locks the event row, then both version rows in id order,
  // rechecks and writes. A step below is what happens between two points at which other workers can
  // interfere: the reads that start a transaction, waiting for a lock together with the rechecks
  // behind it, or the writes with their commit, which is when they become visible.

  import opened Schedule

  type VersionId = nat
  type EventId = nat
  type Worker = nat
  type Traveler = nat

  datatype ItineraryStatus = Proposed | Active | Superseded | Rejected

  datatype ReplanStatus = Pending | Approved | Declined

  datatype Version = Version(no: nat, status: ItineraryStatus, parent: Option<VersionId>)

  datatype Event = Event(proposal: VersionId, status: ReplanStatus, decidedBy: Option<Traveler>)

  /** Where a worker is. The last four kinds hold row locks. */
  datatype Phase =
    | Idle
    | Planning(manual: bool, base: VersionId)
    | Writing(manual: bool, base: VersionId, no: nat)
    | EventHeld(event: EventId, traveler: Traveler, approve: bool)
    | FirstHeld(event: EventId, traveler: Traveler, approve: bool)
    | RowsHeld(event: EventId, traveler: Traveler, approve: bool)

  datatype State = State(versions: map<VersionId, Version>, events: map<EventId, Event>, phases: seq<Phase>)

  /** `StartRescue` and `StartManual` are the first read transactions; `LockBase` takes the
      row lock, rechecks and reads the next version number; `Abort` is any exception. */
  datatype Step =
    | StartRescue(w: Worker, base: VersionId)
    | StartManual(w: Worker, base: VersionId)
    | LockBase(w: Worker)
    | CommitProposal(w: Worker, version: VersionId, event: EventId)
    | HoldEvent(w: Worker, event: EventId, traveler: Traveler, approve: bool)
    | HoldFirst(w: Worker)
    | HoldSecond(w: Worker)
    | CommitDecision(w: Worker)
    | Abort(w: Worker)

  predicate HasStatus(s: State, v: VersionId, status: ItineraryStatus)
  {
    v in s.versions && s.versions[v].status == status
  }

  predicate EverActive(s: State, v: VersionId)
  {
    HasStatus(s, v, Active) || HasStatus(s, v, Superseded)
  }

  predicate NoPending(s: State)
  {
    forall e | e in s.events :: s.events[e].status != Pending
  }

  /** Version numbers start at 1 and go one past the largest. */
  predicate IsNextNo(s: State, no: nat)
  {
    && (forall v | v in s.versions :: s.versions[v].no < no)
    && (no == 1 || exists v | v in s.versions :: s.versions[v].no + 1 == no)
  }

  function Decider(p: Phase): bool { p.EventHeld? || p.FirstHeld? || p.RowsHeld? }

  function ParentOf(s: State, e: EventId): VersionId
    requires e in s.events
  {
    var proposal := s.events[e].proposal;
    if proposal in s.versions && s.versions[proposal].parent.Some?
    then s.versions[proposal].parent.value else proposal
  }

  function FirstRow(s: State, e: EventId): VersionId
    requires e in s.events
  {
    if ParentOf(s, e) < s.events[e].proposal then ParentOf(s, e) else s.events[e].proposal
  }

  function SecondRow(s: State, e: EventId): VersionId
    requires e in s.events
  {
    if ParentOf(s, e) < s.events[e].proposal then s.events[e].proposal else ParentOf(s, e)
  }

  predicate HoldsEvent(p: Phase, e: EventId) { Decider(p) && p.event == e }

  predicate HoldsRow(s: State, p: Phase, v: VersionId)
  {
    || (p.Writing? && p.base == v)
    || (p.FirstHeld? && p.event in s.events && FirstRow(s, p.event) == v)
    || (p.RowsHeld? && p.event in s.events && (FirstRow(s, p.event) == v || SecondRow(s, p.event) == v))
  }

  predicate RowFree(s: State, w: Worker, v: VersionId)
  {
    forall o | 0 <= o < |s.phases| && o != w :: !HoldsRow(s, s.phases[o], v)
  }

  predicate EventFree(s: State, w: Worker, e: EventId)
  {
    forall o | 0 <= o < |s.phases| && o != w :: !HoldsEvent(s.phases[o], e)
  }

  predicate Enabled(s: State, step: Step)
  {
    && step.w < |s.phases|
    && var p := s.phases[step.w];
       match step
       case StartRescue(_, base) => p.Idle? && HasStatus(s, base, Active) && NoPending(s)
       case StartManual(_, base) => p.Idle? && HasStatus(s, base, Active) && NoPending(s)
       case LockBase(w) => p.Planning? && RowFree(s, w, p.base)
       case CommitProposal(_, v, e) => p.Writing? && v !in s.versions && e !in s.events
       case HoldEvent(w, e, _, _) => p.Idle? && e in s.events && s.events[e].status == Pending && EventFree(s, w, e)
       case HoldFirst(w) => p.EventHeld? && p.event in s.events && RowFree(s, w, FirstRow(s, p.event))
       case HoldSecond(w) => p.FirstHeld? && p.event in s.events && RowFree(s, w, SecondRow(s, p.event))
       case CommitDecision(_) => p.RowsHeld? && p.event in s.events
       case Abort(_) => !p.Idle?
  }

  /** The recheck under the base row's lock. Only a manual edit looks again for pending events. */
  predicate RecheckPasses(s: State, p: Phase)
    requires p.Planning?
  {
    HasStatus(s, p.base, Active) && (p.manual ==> NoPending(s))
  }

  ghost predicate Next(s: State, step: Step, t: State)
  {
    && Enabled(s, step)
    && var w := step.w;
       var p := s.phases[w];
       match step
       case StartRescue(_, base) => t == s.(phases := s.phases[w := Planning(false, base)])
       case StartManual(_, base) => t == s.(phases := s.phases[w := Planning(true, base)])
       case LockBase(_) =>
         if RecheckPasses(s, p)
         then exists no: nat | IsNextNo(s, no) :: t == s.(phases := s.phases[w := Writing(p.manual, p.base, no)])
         else t == s.(phases := s.phases[w := Idle])
       case CommitProposal(_, v, e) =>
         t == State(s.versions[v := Version(p.no, Proposed, Some(p.base))],
                    s.events[e := Event(v, Pending, None)],
                    s.phases[w := Idle])
       case HoldEvent(_, e, traveler, approve) => t == s.(phases := s.phases[w := EventHeld(e, traveler, approve)])
       case HoldFirst(_) => t == s.(phases := s.phases[w := FirstHeld(p.event, p.traveler, p.approve)])
       case HoldSecond(_) =>
         if HasStatus(s, s.events[p.event].proposal, Proposed) && HasStatus(s, ParentOf(s, p.event), Active)
         then t == s.(phases := s.phases[w := RowsHeld(p.event, p.traveler, p.approve)])
         else t == s.(phases := s.phases[w := Idle])
       case CommitDecision(_) => t == Decide(s, w)
       case Abort(_) => t == s.(phases := s.phases[w := Idle])
  }

  function SetStatus(versions: map<VersionId, Version>, v: VersionId, status: ItineraryStatus): map<VersionId, Version>
  {
    if v in versions then versions[v := versions[v].(status := status)] else versions
  }

  function Decide(s: State, w: Worker): State
    requires w < |s.phases| && s.phases[w].RowsHeld? && s.phases[w].event in s.events
  {
    var p := s.phases[w];
    var event := s.events[p.event];
    if p.approve then
      State(SetStatus(SetStatus(s.versions, ParentOf(s, p.event), Superseded), event.proposal, Active),
            s.events[p.event := event.(status := Approved, decidedBy := Some(p.traveler))],
            s.phases[w := Idle])
    else
      State(SetStatus(s.versions, event.proposal, Rejected),
            s.events[p.event := event.(status := Declined, decidedBy := Some(p.traveler))],
            s.phases[w := Idle])
  }

  /** The versions that were ever active, oldest first, each the parent of the next; only the
      last is active now. */
  ghost predicate IsChain(s: State, chain: seq<VersionId>)
  {
    && chain != []
    && (forall i, j | 0 <= i < j < |chain| :: chain[i] != chain[j])
    && (forall v :: v in chain <==> EverActive(s, v))
    && HasStatus(s, chain[|chain| - 1], Active)
    && (forall i | 0 <= i < |chain| - 1 :: HasStatus(s, chain[i], Superseded))
    && (forall i | 0 <= i < |chain| - 1 :: s.versions[chain[i + 1]].parent == Some(chain[i]))
  }

  ghost predicate OneChain(s: State)
  {
    exists chain :: IsChain(s, chain)
  }

  predicate Agrees(event: Event, status: ItineraryStatus)
  {
    match event.status
    case Pending => status == Proposed && event.decidedBy == None
    case Approved => (status == Active || status == Superseded) && event.decidedBy.Some?
    case Declined => status == Rejected && event.decidedBy.Some?
  }

  predicate EventAgrees(s: State, e: EventId)
    requires e in s.events
  {
    var proposal := s.events[e].proposal;
    && proposal in s.versions
    && s.versions[proposal].parent.Some?
    && s.versions[proposal].parent.value != proposal
    && EverActive(s, s.versions[proposal].parent.value)
    && Agrees(s.events[e], s.versions[proposal].status)
  }

  ghost predicate EventsAgree(s: State)
  {
    && (forall e | e in s.events :: EventAgrees(s, e))
    && (forall e, f | e in s.events && f in s.events && e != f :: s.events[e].proposal != s.events[f].proposal)
  }

  ghost predicate LocksExclusive(s: State)
  {
    && (forall a, b, v | 0 <= a < |s.phases| && 0 <= b < |s.phases| && a != b ::
          !(HoldsRow(s, s.phases[a], v) && HoldsRow(s, s.phases[b], v)))
    && (forall a, b | 0 <= a < |s.phases| && 0 <= b < |s.phases| && a != b && Decider(s.phases[a]) && Decider(s.phases[b]) ::
          s.phases[a].event != s.phases[b].event)
  }

  predicate PhaseHolds(s: State, p: Phase)
  {
    match p
    case Idle => true
    case Planning(_, base) => EverActive(s, base)
    case Writing(manual, base, no) =>
      HasStatus(s, base, Active) && IsNextNo(s, no) && (manual ==> NoPending(s))
    case EventHeld(e, _, _) => e in s.events && s.events[e].status == Pending
    case FirstHeld(e, _, _) => e in s.events && s.events[e].status == Pending
    case RowsHeld(e, _, _) =>
      e in s.events && s.events[e].status == Pending && HasStatus(s, ParentOf(s, e), Active)
  }

  ghost predicate PhasesHold(s: State)
  {
    forall w | 0 <= w < |s.phases| :: PhaseHolds(s, s.phases[w])
  }

  ghost predicate NumbersDistinct(s: State)
  {
    forall v, u | v in s.versions && u in s.versions && v != u :: s.versions[v].no != s.versions[u].no
  }

  predicate AfterParent(s: State, v: VersionId)
    requires v in s.versions
  {
    var parent := s.versions[v].parent;
    parent.Some? ==> parent.value in s.versions && s.versions[parent.value].no < s.versions[v].no
  }

  /** A version is numbered after its parent. */
  ghost predicate NumbersGrow(s: State)
  {
    forall v | v in s.versions :: AfterParent(s, v)
  }

  ghost predicate OnlyActive(s: State, v: VersionId)
  {
    HasStatus(s, v, Active) && forall u: VersionId | HasStatus(s, u, Active) :: u == v
  }

  ghost predicate OneActive(s: State)
  {
    exists v: VersionId :: OnlyActive(s, v)
  }

  /** What holds whatever the parents of the versions look like. */
  ghost predicate Core(s: State)
  {
    OneActive(s) && EventsAgree(s) && LocksExclusive(s) && PhasesHold(s) && NumbersDistinct(s) && NumbersGrow(s)
  }

  ghost predicate Invariant(s: State)
  {
    Core(s) && OneChain(s)
  }

  /** A trip whose plan was just solved: one active version, nothing in flight. */
  ghost predicate Initial(s: State)
  {
    && s.events == map[]
    && (forall w | 0 <= w < |s.phases| :: s.phases[w].Idle?)
    && (exists v: VersionId :: HasStatus(s, v, Active) && s.versions.Keys == {v} && s.versions[v].parent == None)
  }

  lemma InitialHolds(s: State)
    requires Initial(s)
    ensures Invariant(s)
  {
    var v: VersionId :| HasStatus(s, v, Active) && s.versions.Keys == {v} && s.versions[v].parent == None;
    assert IsChain(s, [v]);
    assert OnlyActive(s, v) by {
      forall u: VersionId | HasStatus(s, u, Active) ensures u == v {
        assert u in s.versions.Keys;
      }
    }
    assert NumbersDistinct(s) && NumbersGrow(s) by {
      assert forall u | u in s.versions :: u == v;
    }
  }

  lemma ActiveUnique(s: State, v: VersionId, u: VersionId)
    requires OneActive(s) && HasStatus(s, v, Active) && HasStatus(s, u, Active)
    ensures v == u
  {
  }

  lemma ActiveStep(s: State, step: Step, t: State)
    requires Core(s) && Next(s, step, t)
    ensures OneActive(t)
  {
    var v :| OnlyActive(s, v);
    if step.CommitDecision? {
      ActiveAfterDecision(s, step, t, v);
    } else {
      if !step.CommitProposal? {
        RowsUntouched(s, step, t);
      }
      forall u: VersionId | HasStatus(t, u, Active) ensures u == v {
        assert HasStatus(s, u, Active);
      }
      assert HasStatus(t, v, Active) && OnlyActive(t, v);
    }
  }

  lemma ActiveAfterDecision(s: State, step: Step, t: State, v: VersionId)
    requires Core(s) && Next(s, step, t) && step.CommitDecision? && OnlyActive(s, v)
    ensures OneActive(t)
  {
    var e := s.phases[step.w].event;
    assert PhaseHolds(s, s.phases[step.w]) && EventAgrees(s, e);
    var parent, proposal := ParentOf(s, e), s.events[e].proposal;
    assert HasStatus(s, parent, Active) && parent == v && proposal != v;
    var now := if s.phases[step.w].approve then proposal else v;
    forall u: VersionId | HasStatus(t, u, Active) ensures u == now {
      if u != proposal && u != parent {
        assert HasStatus(s, u, Active);
      }
    }
    assert HasStatus(t, now, Active) && OnlyActive(t, now);
  }

  /** Nothing but statuses and decisions of existing rows ever changes. */
  ghost predicate Extends(s: State, t: State)
  {
    && |t.phases| == |s.phases|
    && (forall v | v in s.versions ::
          v in t.versions && t.versions[v].no == s.versions[v].no && t.versions[v].parent == s.versions[v].parent)
    && (forall e | e in s.events :: e in t.events && t.events[e].proposal == s.events[e].proposal)
  }

  lemma NextExtends(s: State, step: Step, t: State)
    requires Next(s, step, t)
    ensures Extends(s, t)
    ensures forall o | 0 <= o < |s.phases| && o != step.w :: t.phases[o] == s.phases[o]
  {
  }

  /** The rows a phase holds do not depend on what others write. */
  lemma RowsStable(s: State, t: State, p: Phase, v: VersionId)
    requires Extends(s, t) && EventsAgree(s) && PhaseHolds(s, p)
    ensures HoldsRow(t, p, v) == HoldsRow(s, p, v)
  {
    if Decider(p) {
      assert EventAgrees(s, p.event);
    }
  }

  /** A chain survives any step that activates or retires nothing. */
  lemma ChainKept(s: State, t: State, chain: seq<VersionId>)
    requires IsChain(s, chain) && Extends(s, t)
    requires forall v: VersionId | v in s.versions :: t.versions[v].status == s.versions[v].status || (!EverActive(s, v) && !EverActive(t, v))
    requires forall v: VersionId | v in t.versions && v !in s.versions :: !EverActive(t, v)
    ensures IsChain(t, chain)
  {
    forall v: VersionId ensures v in chain <==> EverActive(t, v) {
      assert v in chain <==> EverActive(s, v);
    }
    forall i | 0 <= i < |chain| ensures chain[i] in s.versions {
      assert chain[i] in chain;
      assert EverActive(s, chain[i]);
    }
  }

  /** Approving appends the proposal to the chain. */
  lemma ChainGrows(s: State, w: Worker, chain: seq<VersionId>)
    requires IsChain(s, chain) && OneActive(s) && EventsAgree(s) && PhasesHold(s)
    requires w < |s.phases| && s.phases[w].RowsHeld? && s.phases[w].approve
    ensures IsChain(Decide(s, w), chain + [s.events[s.phases[w].event].proposal])
  {
    var e := s.phases[w].event;
    assert PhaseHolds(s, s.phases[w]) && EventAgrees(s, e);
    var parent, proposal := ParentOf(s, e), s.events[e].proposal;
    var t := Decide(s, w);
    assert HasStatus(s, parent, Active) && HasStatus(s, proposal, Proposed);
    ActiveUnique(s, parent, chain[|chain| - 1]);
    assert !EverActive(s, proposal);
    var longer := chain + [proposal];
    forall v: VersionId ensures v in longer <==> EverActive(t, v) {
      assert v in chain <==> EverActive(s, v);
    }
    forall i | 0 <= i < |chain| ensures chain[i] in s.versions && chain[i] != proposal {
      assert chain[i] in chain;
      assert EverActive(s, chain[i]);
    }
    forall i | 0 <= i < |chain| - 1 ensures chain[i] != parent {
      assert chain[i] != chain[|chain| - 1];
    }
  }

  lemma ChainAfterDecision(s: State, step: Step, t: State)
    requires Invariant(s) && Next(s, step, t) && step.CommitDecision?
    ensures OneChain(t)
  {
    var chain :| IsChain(s, chain);
    var w := step.w;
    var e := s.phases[w].event;
    assert PhaseHolds(s, s.phases[w]) && EventAgrees(s, e);
    if s.phases[w].approve {
      ChainGrows(s, w, chain);
    } else {
      NextExtends(s, step, t);
      ChainAfterRejection(s, w, t, chain);
    }
  }

  lemma ChainAfterRejection(s: State, w: Worker, t: State, chain: seq<VersionId>)
    requires IsChain(s, chain) && Extends(s, t) && EventsAgree(s) && PhasesHold(s)
    requires w < |s.phases| && s.phases[w].RowsHeld? && !s.phases[w].approve && t == Decide(s, w)
    ensures IsChain(t, chain)
  {
    var e := s.phases[w].event;
    assert PhaseHolds(s, s.phases[w]) && EventAgrees(s, e);
    ChainKept(s, t, chain);
  }

  lemma ChainStep(s: State, step: Step, t: State)
    requires Invariant(s) && Next(s, step, t)
    ensures OneChain(t)
  {
    if step.CommitDecision? {
      ChainAfterDecision(s, step, t);
    } else {
      var chain :| IsChain(s, chain);
      NextExtends(s, step, t);
      if !step.CommitProposal? {
        RowsUntouched(s, step, t);
      }
      ChainKept(s, t, chain);
    }
  }

  /** Only a commit touches rows; every other step leaves them alone. */
  lemma RowsUntouched(s: State, step: Step, t: State)
    requires Next(s, step, t) && !step.CommitProposal? && !step.CommitDecision?
    ensures t.versions == s.versions && t.events == s.events
  {
  }

  lemma EventsAfterProposal(s: State, step: Step, t: State)
    requires Core(s) && Next(s, step, t) && step.CommitProposal?
    ensures EventsAgree(t)
  {
    assert PhaseHolds(s, s.phases[step.w]);
    forall e | e in t.events ensures EventAgrees(t, e) {
      if e != step.event {
        assert EventAgrees(s, e);
      }
    }
    forall e | e in s.events ensures s.events[e].proposal != step.version {
      assert EventAgrees(s, e);
    }
  }

  lemma EventsAfterDecision(s: State, step: Step, t: State)
    requires Core(s) && Next(s, step, t) && step.CommitDecision?
    ensures EventsAgree(t)
  {
    var e := s.phases[step.w].event;
    assert PhaseHolds(s, s.phases[step.w]) && EventAgrees(s, e);
    forall f | f in t.events ensures EventAgrees(t, f) {
      assert EventAgrees(s, f);
    }
  }

  lemma EventsStep(s: State, step: Step, t: State)
    requires Core(s) && Next(s, step, t)
    ensures EventsAgree(t)
  {
    if step.CommitProposal? {
      EventsAfterProposal(s, step, t);
    } else if step.CommitDecision? {
      EventsAfterDecision(s, step, t);
    } else {
      RowsUntouched(s, step, t);
      forall e | e in t.events ensures EventAgrees(t, e) {
        assert EventAgrees(s, e);
      }
    }
  }

  /** A number or a parent is written once, with the version. */
  lemma NumbersStep(s: State, step: Step, t: State)
    requires Core(s) && Next(s, step, t)
    ensures NumbersDistinct(t) && NumbersGrow(t)
  {
    if step.CommitProposal? {
      NextExtends(s, step, t);
      assert PhaseHolds(s, s.phases[step.w]);
      NumbersOfNew(s, t, step.version);
    } else if step.CommitDecision? {
      NextExtends(s, step, t);
      NumbersKept(s, t);
    } else {
      RowsUntouched(s, step, t);
    }
  }

  lemma NumbersKept(s: State, t: State)
    requires NumbersDistinct(s) && NumbersGrow(s) && Extends(s, t) && t.versions.Keys == s.versions.Keys
    ensures NumbersDistinct(t) && NumbersGrow(t)
  {
    forall v | v in t.versions ensures AfterParent(t, v) {
      assert v in s.versions.Keys;
      assert AfterParent(s, v);
    }
    forall v, u | v in t.versions && u in t.versions && v != u ensures t.versions[v].no != t.versions[u].no {
      assert v in s.versions.Keys && u in s.versions.Keys;
    }
  }

  /** A new version is numbered last. */
  lemma NumbersOfNew(s: State, t: State, v: VersionId)
    requires NumbersDistinct(s) && NumbersGrow(s) && Extends(s, t) && v !in s.versions
    requires t.versions.Keys == s.versions.Keys + {v} && IsNextNo(s, t.versions[v].no)
    requires t.versions[v].parent.Some? && t.versions[v].parent.value in s.versions
    ensures NumbersDistinct(t) && NumbersGrow(t)
  {
    forall u | u in t.versions ensures AfterParent(t, u) {
      assert u in s.versions.Keys + {v};
      if u != v {
        assert AfterParent(s, u);
      }
    }
    forall u, w | u in t.versions && w in t.versions && u != w ensures t.versions[u].no != t.versions[w].no {
      assert u in s.versions.Keys + {v} && w in s.versions.Keys + {v};
    }
  }

  /** Exclusion survives when the moving worker gains no row and no event another one holds. */
  lemma LocksKept(s: State, t: State, w: Worker)
    requires Core(s) && Extends(s, t) && w < |s.phases|
    requires forall o | 0 <= o < |s.phases| && o != w :: t.phases[o] == s.phases[o]
    requires forall o, v: VersionId | 0 <= o < |s.phases| && o != w && HoldsRow(t, t.phases[w], v) :: !HoldsRow(s, s.phases[o], v)
    requires Decider(t.phases[w]) ==> EventFree(s, w, t.phases[w].event)
    ensures LocksExclusive(t)
  {
    forall a, b, v: VersionId | 0 <= a < |t.phases| && 0 <= b < |t.phases| && a != b
      ensures !(HoldsRow(t, t.phases[a], v) && HoldsRow(t, t.phases[b], v))
    {
      if a != w {
        RowsStable(s, t, s.phases[a], v);
      }
      if b != w {
        RowsStable(s, t, s.phases[b], v);
      }
    }
    forall a, b | 0 <= a < |t.phases| && 0 <= b < |t.phases| && a != b && Decider(t.phases[a]) && Decider(t.phases[b])
      ensures t.phases[a].event != t.phases[b].event
    {
      if a == w {
        assert !HoldsEvent(s.phases[b], t.phases[w].event);
      } else if b == w {
        assert !HoldsEvent(s.phases[a], t.phases[w].event);
      }
    }
  }

  /** The rows held after a step were held before it or were free. */
  lemma GainedRowsWereFree(s: State, step: Step, t: State, o: Worker, v: VersionId)
    requires Core(s) && Next(s, step, t) && o < |s.phases| && o != step.w
    requires HoldsRow(t, t.phases[step.w], v)
    ensures !HoldsRow(s, s.phases[o], v)
  {
    RowsUntouched(s, step, t);
    assert !HoldsRow(s, s.phases[step.w], v) || !HoldsRow(s, s.phases[o], v);
  }

  lemma LocksStep(s: State, step: Step, t: State)
    requires Core(s) && Next(s, step, t)
    ensures LocksExclusive(t)
  {
    NextExtends(s, step, t);
    var w := step.w;
    forall o, v: VersionId | 0 <= o < |s.phases| && o != w && HoldsRow(t, t.phases[w], v)
      ensures !HoldsRow(s, s.phases[o], v)
    {
      GainedRowsWereFree(s, step, t, o, v);
    }
    LocksKept(s, t, w);
  }

  lemma OwnPhaseStep(s: State, step: Step, t: State)
    requires Core(s) && Next(s, step, t)
    ensures PhaseHolds(t, t.phases[step.w])
  {
    assert PhaseHolds(s, s.phases[step.w]);
    if !step.CommitProposal? && !step.CommitDecision? {
      RowsUntouched(s, step, t);
    }
  }

  /** While a writer holds the active row nobody else writes or decides. */
  lemma WriterAlone(s: State, a: Worker, b: Worker)
    requires Core(s) && a < |s.phases| && b < |s.phases| && a != b && s.phases[a].Writing?
    ensures !s.phases[b].Writing? && !s.phases[b].RowsHeld?
  {
    assert PhaseHolds(s, s.phases[a]) && PhaseHolds(s, s.phases[b]);
    var base := s.phases[a].base;
    if s.phases[b].Writing? {
      ActiveUnique(s, base, s.phases[b].base);
    } else if s.phases[b].RowsHeld? {
      ActiveUnique(s, base, ParentOf(s, s.phases[b].event));
    }
    assert !(HoldsRow(s, s.phases[a], base) && HoldsRow(s, s.phases[b], base));
  }

  lemma OneRowsHolder(s: State, a: Worker, b: Worker)
    requires Core(s) && a < |s.phases| && b < |s.phases| && a != b
    requires s.phases[a].RowsHeld?
    ensures !s.phases[b].RowsHeld?
  {
    assert PhaseHolds(s, s.phases[a]) && PhaseHolds(s, s.phases[b]);
    var parent := ParentOf(s, s.phases[a].event);
    if s.phases[b].RowsHeld? {
      ActiveUnique(s, parent, ParentOf(s, s.phases[b].event));
    }
    assert !(HoldsRow(s, s.phases[a], parent) && HoldsRow(s, s.phases[b], parent));
  }

  lemma OthersAfterProposal(s: State, step: Step, t: State, o: Worker)
    requires Core(s) && Next(s, step, t) && o < |s.phases| && o != step.w && step.CommitProposal?
    ensures PhaseHolds(t, s.phases[o])
  {
    var p := s.phases[o];
    assert PhaseHolds(s, p) && PhaseHolds(s, s.phases[step.w]);
    WriterAlone(s, step.w, o);
    if Decider(p) {
      assert EventAgrees(s, p.event);
    }
  }

  lemma OthersAfterDecision(s: State, step: Step, t: State, o: Worker)
    requires Core(s) && Next(s, step, t) && o < |s.phases| && o != step.w && step.CommitDecision?
    ensures PhaseHolds(t, s.phases[o])
  {
    var p := s.phases[o];
    assert PhaseHolds(s, p) && PhaseHolds(s, s.phases[step.w]);
    OneRowsHolder(s, step.w, o);
    if p.Writing? {
      WriterAlone(s, o, step.w);
    }
  }

  lemma OtherPhaseStep(s: State, step: Step, t: State, o: Worker)
    requires Core(s) && Next(s, step, t) && o < |s.phases| && o != step.w
    ensures PhaseHolds(t, s.phases[o])
  {
    assert PhaseHolds(s, s.phases[o]);
    if step.CommitProposal? {
      OthersAfterProposal(s, step, t, o);
    } else if step.CommitDecision? {
      OthersAfterDecision(s, step, t, o);
    } else {
      RowsUntouched(s, step, t);
    }
  }

  lemma StepKeepsCore(s: State, step: Step, t: State)
    requires Core(s) && Next(s, step, t)
    ensures Core(t)
  {
    ActiveStep(s, step, t);
    EventsStep(s, step, t);
    LocksStep(s, step, t);
    NumbersStep(s, step, t);
    NextExtends(s, step, t);
    forall w | 0 <= w < |t.phases| ensures PhaseHolds(t, t.phases[w]) {
      if w == step.w {
        OwnPhaseStep(s, step, t);
      } else {
        OtherPhaseStep(s, step, t, w);
      }
    }
  }

  /** Every step keeps the invariant. */
  lemma StepKeepsInvariant(s: State, step: Step, t: State)
    requires Invariant(s) && Next(s, step, t)
    ensures Invariant(t)
  {
    ChainStep(s, step, t);
    StepKeepsCore(s, step, t);
  }

  // ----- whole runs -----

  ghost predicate IsRun(states: seq<State>, steps: seq<Step>)
  {
    && |states| == |steps| + 1
    && forall i | 0 <= i < |steps| :: Next(states[i], steps[i], states[i + 1])
  }

  lemma {:induction false} RunKeepsInvariant(states: seq<State>, steps: seq<Step>, i: nat)
    requires IsRun(states, steps) && Initial(states[0]) && i < |states|
    ensures Invariant(states[i])
  {
    if i == 0 {
      InitialHolds(states[0]);
    } else {
      RunKeepsInvariant(states, steps, i - 1);
      var s, step, t := states[i - 1], steps[i - 1], states[i];
      assert Next(s, step, t);
      StepKeepsInvariant(s, step, t);
    }
  }

  /** In every state of every run exactly one version is active, the versions ever active form
      one parent chain, and every event agrees with the version it proposed. */
  lemma AlwaysConsistent(states: seq<State>, steps: seq<Step>, i: nat)
    requires IsRun(states, steps) && Initial(states[0]) && i < |states|
    ensures exists v: VersionId ::
      HasStatus(states[i], v, Active) && forall u: VersionId | HasStatus(states[i], u, Active) :: u == v
    ensures OneChain(states[i])
    ensures forall e | e in states[i].events :: EventAgrees(states[i], e)
    ensures NumbersDistinct(states[i])
  {
    var s := states[i];
    RunKeepsInvariant(states, steps, i);
    var chain :| IsChain(s, chain);
    var v := chain[|chain| - 1];
    forall u: VersionId | HasStatus(s, u, Active) ensures u == v {
      ActiveUnique(s, u, v);
    }
  }

  /** What one step may do to rows that exist: a decided event is frozen; a version leaves
      PROPOSED once, leaves ACTIVE only for SUPERSEDED, and never leaves the other two. */
  lemma StepMovesForward(s: State, step: Step, t: State, e: EventId, v: VersionId)
    requires Core(s) && Next(s, step, t) && e in s.events && v in s.versions
    ensures e in t.events && v in t.versions
    ensures s.events[e].status != Pending ==> t.events[e] == s.events[e]
    ensures s.versions[v].status == Active ==> HasStatus(t, v, Active) || HasStatus(t, v, Superseded)
    ensures s.versions[v].status == Superseded || s.versions[v].status == Rejected ==> t.versions[v] == s.versions[v]
  {
    assert PhaseHolds(s, s.phases[step.w]);
    if step.CommitDecision? {
      assert EventAgrees(s, s.phases[step.w].event);
    }
  }

  /** Each event is decided at most once: whatever runs later, its decision and the traveler
      recorded with it stay. */
  lemma {:induction false} DecidedOnce(states: seq<State>, steps: seq<Step>, i: nat, j: nat, e: EventId)
    requires IsRun(states, steps) && Initial(states[0]) && i <= j < |states|
    requires e in states[i].events && states[i].events[e].status != Pending
    ensures e in states[j].events && states[j].events[e] == states[i].events[e]
  {
    if i == j {
    } else {
      DecidedOnce(states, steps, i, j - 1, e);
      RunKeepsInvariant(states, steps, j - 1);
      assert EventAgrees(states[j - 1], e);
      StepMovesForward(states[j - 1], steps[j - 1], states[j], e, states[j - 1].events[e].proposal);
    }
  }

  predicate Approves(s: State, step: Step, e: EventId)
  {
    && step.CommitDecision? && step.w < |s.phases|
    && s.phases[step.w].RowsHeld? && s.phases[step.w].approve && s.phases[step.w].event == e
  }

  /** An approval is never based on a stale plan: it replaces exactly the version that was
      active when it committed, and leaves every other version alone. */
  lemma ApprovalReplacesTheActive(s: State, step: Step, t: State, e: EventId)
    requires Core(s) && Next(s, step, t) && Approves(s, step, e)
    ensures
      && e in s.events && e in t.events && s.events[e].status == Pending && t.events[e].status == Approved
      && HasStatus(s, ParentOf(s, e), Active) && HasStatus(t, ParentOf(s, e), Superseded)
      && HasStatus(t, s.events[e].proposal, Active)
      && forall v: VersionId | v != ParentOf(s, e) && v != s.events[e].proposal ::
           (v in t.versions <==> v in s.versions) && (v in s.versions ==> t.versions[v] == s.versions[v])
  {
    var p := s.phases[step.w];
    assert PhaseHolds(s, p) && EventAgrees(s, p.event);
  }

  // ----- two pending proposals -----

  /** Two rescues may both start while nothing is pending, and the second is not stopped by its
      recheck: two pending proposals on one parent are reachable. */
  lemma TwoPendingReachable() returns (states: seq<State>, steps: seq<Step>, last: State)
    ensures IsRun(states, steps) && Initial(states[0]) && last == states[|steps|]
    ensures 0 in last.events && 1 in last.events
    ensures last.events[0].status == Pending && last.events[1].status == Pending
    ensures last.events[0].proposal != last.events[1].proposal && ParentOf(last, 0) == ParentOf(last, 1)
  {
    states, steps := FirstOfTheRace();
    states, steps := SecondOfTheRace(states, steps);
    last := Race(2, [Idle, Idle]);
    assert HasStatus(states[0], 0, Active);
  }

  lemma Extended(states: seq<State>, steps: seq<Step>, step: Step, t: State) returns (longer: seq<State>, taken: seq<Step>)
    requires IsRun(states, steps) && Next(states[|steps|], step, t)
    ensures longer == states + [t] && taken == steps + [step] && IsRun(longer, taken)
    ensures longer[0] == states[0] && longer[|taken|] == t
  {
    longer, taken := states + [t], steps + [step];
  }

  /** Two proposals on version 0, with the first `n` of them committed. */
  function Race(n: nat, phases: seq<Phase>): State
  {
    var versions: map<VersionId, Version> := map[0 := Version(1, Active, None)];
    var events: map<EventId, Event> := map[];
    if n == 0 then State(versions, events, phases)
    else
      var v1, e1 := versions[1 := Version(2, Proposed, Some(0))], events[0 := Event(1, Pending, None)];
      if n == 1 then State(v1, e1, phases)
      else State(v1[2 := Version(3, Proposed, Some(0))], e1[1 := Event(2, Pending, None)], phases)
  }

  /** Both rescues start, and the first one commits its proposal. */
  lemma FirstOfTheRace() returns (states: seq<State>, steps: seq<Step>)
    ensures IsRun(states, steps) && states[0] == Race(0, [Idle, Idle]) && states[|steps|] == Race(1, [Idle, Planning(false, 0)])
  {
    states, steps := [Race(0, [Idle, Idle])], [];
    states, steps := Extended(states, steps, StartRescue(0, 0), Race(0, [Planning(false, 0), Idle]));
    states, steps := Extended(states, steps, StartRescue(1, 0), Race(0, [Planning(false, 0), Planning(false, 0)]));
    var s := states[2];
    assert s.versions[0].no + 1 == 2 && IsNextNo(s, 2);
    states, steps := Extended(states, steps, LockBase(0), Race(0, [Writing(false, 0, 2), Planning(false, 0)]));
    states, steps := Extended(states, steps, CommitProposal(0, 1, 0), Race(1, [Idle, Planning(false, 0)]));
  }

  /** The second one commits too. */
  lemma SecondOfTheRace(before: seq<State>, taken: seq<Step>) returns (states: seq<State>, steps: seq<Step>)
    requires IsRun(before, taken) && before[|taken|] == Race(1, [Idle, Planning(false, 0)])
    ensures IsRun(states, steps) && states[0] == before[0] && states[|steps|] == Race(2, [Idle, Idle])
  {
    var s := Race(1, [Idle, Planning(false, 0)]);
    assert s.versions[1].no + 1 == 3 && IsNextNo(s, 3);
    states, steps := Extended(before, taken, LockBase(1), Race(1, [Idle, Writing(false, 0, 3)]));
    states, steps := Extended(states, steps, CommitProposal(1, 2, 1), Race(2, [Idle, Idle]));
  }

  /** A pending event whose parent is no longer active, with no proposal left in flight. */
  predicate Stuck(s: State, e: EventId)
  {
    && e in s.events && s.events[e].status == Pending
    && !HasStatus(s, ParentOf(s, e), Active)
    && forall w | 0 <= w < |s.phases| ::
         !s.phases[w].Writing? && (s.phases[w].Planning? ==> !HasStatus(s, s.phases[w].base, Active))
  }

  /** Approving one proposal sticks every other pending one. */
  lemma ApprovalSticksTheOthers(s: State, step: Step, t: State, e: EventId, f: EventId)
    requires Core(s) && Next(s, step, t) && Approves(s, step, e)
    requires f in s.events && s.events[f].status == Pending && f != e
    ensures Stuck(t, f)
  {
    assert PhaseHolds(s, s.phases[step.w]) && EventAgrees(s, e) && EventAgrees(s, f);
    if HasStatus(s, ParentOf(s, f), Active) {
      ActiveUnique(s, ParentOf(s, f), ParentOf(s, e));
    }
    forall w | 0 <= w < |t.phases|
      ensures !t.phases[w].Writing? && (t.phases[w].Planning? ==> !HasStatus(t, t.phases[w].base, Active))
    {
      if w != step.w {
        assert PhaseHolds(s, s.phases[w]);
        if s.phases[w].Writing? {
          WriterAlone(s, w, step.w);
        } else if s.phases[w].Planning? && HasStatus(s, s.phases[w].base, Active) {
          ActiveUnique(s, s.phases[w].base, ParentOf(s, e));
        }
      }
    }
  }

  lemma StuckAfterDecision(s: State, step: Step, t: State, f: EventId)
    requires Core(s) && Next(s, step, t) && Stuck(s, f) && step.CommitDecision?
    ensures Stuck(t, f) && t.versions.Keys == s.versions.Keys
  {
    var e := s.phases[step.w].event;
    assert PhaseHolds(s, s.phases[step.w]) && EventAgrees(s, e) && EventAgrees(s, f);
    forall w | 0 <= w < |t.phases|
      ensures !t.phases[w].Writing? && (t.phases[w].Planning? ==> !HasStatus(t, t.phases[w].base, Active))
    {
      assert PhaseHolds(s, s.phases[w]);
    }
  }

  /** A stuck event stays pending and no further version is ever written. */
  lemma StuckStep(s: State, step: Step, t: State, f: EventId)
    requires Core(s) && Next(s, step, t) && Stuck(s, f)
    ensures Stuck(t, f) && t.versions.Keys == s.versions.Keys
  {
    if step.CommitDecision? {
      StuckAfterDecision(s, step, t, f);
    } else {
      assert !s.phases[step.w].Writing?;
      RowsUntouched(s, step, t);
    }
  }

  lemma CoreOfRun(states: seq<State>, steps: seq<Step>, i: nat)
    requires IsRun(states, steps) && Initial(states[0]) && i < |steps|
    ensures Core(states[i]) && Next(states[i], steps[i], states[i + 1])
  {
    RunKeepsInvariant(states, steps, i);
  }

  /** It stays so through any run, and the run adds no version. */
  lemma {:induction false} StuckForever(states: seq<State>, steps: seq<Step>, i: nat, j: nat, f: EventId)
    requires IsRun(states, steps) && Initial(states[0]) && i <= j < |states|
    requires Stuck(states[i], f)
    ensures Stuck(states[j], f) && states[j].versions.Keys == states[i].versions.Keys
  {
    if i == j {
    } else {
      StuckForever(states, steps, i, j - 1, f);
      var s, step, t := states[j - 1], steps[j - 1], states[j];
      CoreOfRun(states, steps, j - 1);
      StuckStep(s, step, t, f);
    }
  }

  /** With two proposals pending, approving one leaves the other pending for good: from then on
      no proposal can start, and replanning never gives the trip another version. */
  lemma SecondProposalBlocksTheTrip(states: seq<State>, steps: seq<Step>, i: nat, j: nat, e: EventId, f: EventId)
    requires IsRun(states, steps) && Initial(states[0]) && i < j < |states|
    requires Approves(states[i], steps[i], e)
    requires f in states[i].events && states[i].events[f].status == Pending && f != e
    ensures f in states[j].events && states[j].events[f].status == Pending
    ensures states[j].versions.Keys == states[i].versions.Keys
    ensures forall w, base: VersionId :: !Enabled(states[j], StartRescue(w, base)) && !Enabled(states[j], StartManual(w, base))
  {
    var s := states[i];
    RunKeepsInvariant(states, steps, i);
    assert PhaseHolds(s, s.phases[steps[i].w]) && EventAgrees(s, e);
    ApprovalSticksTheOthers(s, steps[i], states[i + 1], e, f);
    StuckForever(states, steps, i + 1, j, f);
  }

  ghost predicate ManualOnly(s: State)
  {
    && (forall w | 0 <= w < |s.phases| ::
          (s.phases[w].Planning? || s.phases[w].Writing?) ==> s.phases[w].manual)
    && (forall e, f | e in s.events && f in s.events && s.events[e].status == Pending && s.events[f].status == Pending :: e == f)
  }

  /** The recheck of the manual path is what prevents this: while no rescue starts, at most one
      proposal is ever pending. */
  lemma {:induction false} ManualEditsKeepOnePending(states: seq<State>, steps: seq<Step>, i: nat)
    requires IsRun(states, steps) && Initial(states[0]) && i < |states|
    requires forall k | 0 <= k < |steps| :: !steps[k].StartRescue?
    ensures ManualOnly(states[i])
  {
    if i == 0 {
    } else {
      ManualEditsKeepOnePending(states, steps, i - 1);
      RunKeepsInvariant(states, steps, i - 1);
      ManualStep(states[i - 1], steps[i - 1], states[i]);
    }
  }

  lemma ManualStep(s: State, step: Step, t: State)
    requires Core(s) && ManualOnly(s) && Next(s, step, t) && !step.StartRescue?
    ensures ManualOnly(t)
  {
    assert PhaseHolds(s, s.phases[step.w]);
    if !step.CommitProposal? && !step.CommitDecision? {
      RowsUntouched(s, step, t);
    }
  }

  ghost predicate OnePending(s: State)
  {
    forall e, f | e in s.events && f in s.events && s.events[e].status == Pending && s.events[f].status == Pending :: e == f
  }

  /** A pending event can be decided while its parent is active. */
  ghost predicate AllDecidable(s: State)
  {
    forall e | e in s.events && s.events[e].status == Pending :: HasStatus(s, ParentOf(s, e), Active)
  }

  predicate NoOtherPending(s: State, e: EventId)
  {
    forall f | f in s.events && f != e :: s.events[f].status != Pending
  }

  /** A run has one pending event at most throughout exactly when every proposal is written while
      none is pending: the guard that only the manual path has. */
  lemma OnePendingIff(states: seq<State>, steps: seq<Step>)
    requires IsRun(states, steps) && Initial(states[0])
    ensures (forall i | 0 <= i < |states| :: OnePending(states[i]))
       <==> (forall i | 0 <= i < |steps| && steps[i].CommitProposal? :: NoPending(states[i]))
  {
    if forall i | 0 <= i < |states| :: OnePending(states[i]) {
      forall i | 0 <= i < |steps| && steps[i].CommitProposal? ensures NoPending(states[i]) {
        SecondProposalShows(states[i], steps[i], states[i + 1]);
      }
    }
    if forall i | 0 <= i < |steps| && steps[i].CommitProposal? :: NoPending(states[i]) {
      forall i | 0 <= i < |states| ensures OnePending(states[i]) {
        OnePendingKept(states, steps, i);
      }
    }
  }

  lemma SecondProposalShows(s: State, step: Step, t: State)
    requires Next(s, step, t) && step.CommitProposal? && OnePending(t)
    ensures NoPending(s)
  {
    forall e | e in s.events ensures s.events[e].status != Pending {
      assert e in t.events && t.events[step.event].status == Pending;
    }
  }

  lemma {:induction false} OnePendingKept(states: seq<State>, steps: seq<Step>, i: nat)
    requires IsRun(states, steps) && Initial(states[0]) && i < |states|
    requires forall k | 0 <= k < |steps| && steps[k].CommitProposal? :: NoPending(states[k])
    ensures OnePending(states[i])
  {
    if i == 0 {
    } else {
      OnePendingKept(states, steps, i - 1);
      var s, step, t := states[i - 1], steps[i - 1], states[i];
      assert Next(s, step, t);
      if !step.CommitProposal? && !step.CommitDecision? {
        RowsUntouched(s, step, t);
      }
    }
  }

  /** In a run every pending event can always be decided exactly when no approval commits while
      another event is pending. */
  lemma AlwaysDecidableIff(states: seq<State>, steps: seq<Step>)
    requires IsRun(states, steps) && Initial(states[0])
    ensures (forall i | 0 <= i < |states| :: AllDecidable(states[i]))
       <==> (forall i, e | 0 <= i < |steps| && Approves(states[i], steps[i], e) :: NoOtherPending(states[i], e))
  {
    if forall i | 0 <= i < |states| :: AllDecidable(states[i]) {
      forall i, e | 0 <= i < |steps| && Approves(states[i], steps[i], e) ensures NoOtherPending(states[i], e) {
        OtherPendingIsStuck(states, steps, i, e);
      }
    }
    if forall i, e | 0 <= i < |steps| && Approves(states[i], steps[i], e) :: NoOtherPending(states[i], e) {
      forall i | 0 <= i < |states| ensures AllDecidable(states[i]) {
        DecidableKept(states, steps, i);
      }
    }
  }

  lemma OtherPendingIsStuck(states: seq<State>, steps: seq<Step>, i: nat, e: EventId)
    requires IsRun(states, steps) && Initial(states[0]) && i < |steps| && Approves(states[i], steps[i], e)
    requires AllDecidable(states[i + 1])
    ensures NoOtherPending(states[i], e)
  {
    var s, t := states[i], states[i + 1];
    RunKeepsInvariant(states, steps, i);
    forall f | f in s.events && f != e ensures s.events[f].status != Pending {
      if s.events[f].status == Pending {
        ApprovalSticksTheOthers(s, steps[i], t, e, f);
      }
    }
  }

  lemma {:induction false} DecidableKept(states: seq<State>, steps: seq<Step>, i: nat)
    requires IsRun(states, steps) && Initial(states[0]) && i < |states|
    requires forall k, e | 0 <= k < |steps| && Approves(states[k], steps[k], e) :: NoOtherPending(states[k], e)
    ensures AllDecidable(states[i])
  {
    if i == 0 {
    } else {
      DecidableKept(states, steps, i - 1);
      RunKeepsInvariant(states, steps, i - 1);
      var s, step, t := states[i - 1], steps[i - 1], states[i];
      assert Next(s, step, t);
      DecidableStep(s, step, t);
    }
  }

  lemma DecidableStep(s: State, step: Step, t: State)
    requires Core(s) && Next(s, step, t) && AllDecidable(s)
    requires forall e | Approves(s, step, e) :: NoOtherPending(s, e)
    ensures AllDecidable(t)
  {
    assert PhaseHolds(s, s.phases[step.w]);
    if step.CommitDecision? {
      var e := s.phases[step.w].event;
      assert EventAgrees(s, e);
      assert s.phases[step.w].approve ==> Approves(s, step, e);
      forall f | f in t.events && t.events[f].status == Pending ensures HasStatus(t, ParentOf(t, f), Active) {
        assert EventAgrees(s, f);
      }
    } else if step.CommitProposal? {
      forall f | f in t.events && t.events[f].status == Pending ensures HasStatus(t, ParentOf(t, f), Active) {
        if f != step.event {
          assert EventAgrees(s, f);
        }
      }
    } else {
      RowsUntouched(s, step, t);
    }
  }

  // ----- no deadlock -----

  lemma {:induction false} Above(keys: set<nat>) returns (bound: nat)
    ensures forall k | k in keys :: k < bound
  {
    bound := 0;
    if keys == {} {
    } else {
      var one :| one in keys;
      var rest := Above(keys - {one});
      bound := if one < rest then rest else one + 1;
      forall k | k in keys ensures k < bound {
        assert k == one || k in keys - {one};
      }
    }
  }

  predicate Holding(p: Phase) { p.Writing? || Decider(p) }

  /** Following a chain of workers that wait for each other's rows reaches one that can move:
      rows are taken in increasing id order. */
  lemma {:induction false} WaitChainEnds(s: State, w: Worker, bound: nat) returns (step: Step)
    requires Core(s) && w < |s.phases| && s.phases[w].FirstHeld?
    requires forall v | v in s.versions :: v < bound
    ensures Enabled(s, step) && Holding(s.phases[step.w]) && !step.Abort?
    decreases bound - SecondRow(s, s.phases[w].event)
  {
    var p := s.phases[w];
    assert PhaseHolds(s, p) && EventAgrees(s, p.event);
    var row := SecondRow(s, p.event);
    if RowFree(s, w, row) {
      step := HoldSecond(w);
    } else {
      var o :| 0 <= o < |s.phases| && o != w && HoldsRow(s, s.phases[o], row);
      assert PhaseHolds(s, s.phases[o]);
      if s.phases[o].FirstHeld? {
        assert EventAgrees(s, s.phases[o].event);
        step := WaitChainEnds(s, o, bound);
      } else {
        step := CommitStep(s, o);
      }
    }
  }

  lemma CommitStep(s: State, w: Worker) returns (step: Step)
    requires Core(s) && w < |s.phases| && (s.phases[w].Writing? || s.phases[w].RowsHeld?)
    ensures Enabled(s, step) && Holding(s.phases[step.w]) && !step.Abort?
  {
    assert PhaseHolds(s, s.phases[w]);
    if s.phases[w].Writing? {
      var v := Above(s.versions.Keys);
      var e := Above(s.events.Keys);
      step := CommitProposal(w, v, e);
    } else {
      step := CommitDecision(w);
    }
  }

  /** Whenever some worker holds a lock, some lock holder can go on without aborting. */
  lemma NoDeadlock(s: State, w: Worker) returns (step: Step)
    requires Core(s) && w < |s.phases| && Holding(s.phases[w])
    ensures Enabled(s, step) && Holding(s.phases[step.w]) && !step.Abort?
  {
    var p := s.phases[w];
    assert PhaseHolds(s, p);
    var bound := Above(s.versions.Keys);
    if p.FirstHeld? {
      step := WaitChainEnds(s, w, bound);
    } else if p.EventHeld? {
      var row := FirstRow(s, p.event);
      if RowFree(s, w, row) {
        step := HoldFirst(w);
      } else {
        var o :| 0 <= o < |s.phases| && o != w && HoldsRow(s, s.phases[o], row);
        if s.phases[o].FirstHeld? {
          step := WaitChainEnds(s, o, bound);
        } else {
          step := CommitStep(s, o);
        }
      }
    } else {
      step := CommitStep(s, w);
    }
  }
}
