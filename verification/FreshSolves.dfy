/** Saving a freshly solved plan beside the replan protocol. */
module FreshSolves {
  // From `solver_node` in syncinerary/agents/solver/stage2_route.py: it reads the active and the
  // latest version, retires the one it read as active and adds its own as active. It takes no lock
  // of its own and rechecks nothing, but its update waits for a worker that holds the row.

  import opened Schedule
  import opened ReplanProtocol
  import opened ReplanDecisions

  /** The solve that read `read` as active and `latest` as the latest version adds version `v`. */
  ghost predicate Saves(s: State, read: VersionId, latest: VersionId, v: VersionId, t: State)
  {
    && v !in s.versions && read in s.versions && latest in s.versions
    && (forall o | 0 <= o < |s.phases| :: !HoldsRow(s, s.phases[o], read))
    && exists no: nat | IsNextNo(s, no) :: t == Saved(s, read, latest, v, no)
  }

  function Saved(s: State, read: VersionId, latest: VersionId, v: VersionId, no: nat): State
  {
    s.(versions := SetStatus(s.versions, read, Superseded)[v := Version(no, Active, Some(latest))])
  }

  /** A solve can be saved whenever no worker holds the row it retires. */
  lemma SaveReachable(s: State, read: VersionId, latest: VersionId, v: VersionId) returns (t: State)
    requires read in s.versions && latest in s.versions && v !in s.versions
    requires forall o | 0 <= o < |s.phases| :: !HoldsRow(s, s.phases[o], read)
    ensures Saves(s, read, latest, v, t)
    ensures HasStatus(t, v, Active) && HasStatus(t, read, Superseded) && t.versions[v].parent == Some(latest)
  {
    var no := LargestNo(s, s.versions.Keys);
    assert IsNextNo(s, no);
    t := Saved(s, read, latest, v, no);
  }

  /** What a save does to the rows. */
  lemma SaveFacts(s: State, read: VersionId, latest: VersionId, v: VersionId, t: State)
    requires Saves(s, read, latest, v, t)
    ensures Extends(s, t) && t.events == s.events && t.phases == s.phases
    ensures t.versions.Keys == s.versions.Keys + {v} && HasStatus(t, v, Active) && t.versions[v].parent == Some(latest)
    ensures IsNextNo(s, t.versions[v].no)
    ensures forall u | u in s.versions :: t.versions[u].status == if u == read then Superseded else s.versions[u].status
  {
  }

  /** One version stays active exactly when the version the solve read as active still is when it
      is saved; otherwise two are. */
  lemma OneActiveIff(s: State, read: VersionId, latest: VersionId, v: VersionId, t: State)
    requires Core(s) && Saves(s, read, latest, v, t)
    ensures OneActive(t) <==> HasStatus(s, read, Active)
  {
    SaveFacts(s, read, latest, v, t);
    var a :| OnlyActive(s, a);
    if a == read {
      forall u: VersionId | HasStatus(t, u, Active) ensures u == v {
        assert u != v ==> HasStatus(s, u, Active);
      }
      assert OnlyActive(t, v);
    } else {
      assert HasStatus(t, a, Active) && a != v;
    }
  }

  /** A decided plan may be overtaken: an approval between the solve's read and its save leaves two
      active versions. */
  lemma StaleSaveMakesTwo(s: State, step: Step, t: State, e: EventId, latest: VersionId, v: VersionId, u: State)
    requires Core(s) && Next(s, step, t) && Approves(s, step, e) && Saves(t, ParentOf(s, e), latest, v, u)
    ensures HasStatus(s, ParentOf(s, e), Active)
    ensures HasStatus(u, v, Active) && HasStatus(u, s.events[e].proposal, Active) && v != s.events[e].proposal
  {
    ApprovalReplacesTheActive(s, step, t, e);
    SaveFacts(t, ParentOf(s, e), latest, v, u);
    assert EventAgrees(s, e);
  }

  // ----- what a save of an up-to-date solve keeps -----

  lemma EventsKept(s: State, read: VersionId, latest: VersionId, v: VersionId, t: State)
    requires EventsAgree(s) && HasStatus(s, read, Active) && Saves(s, read, latest, v, t)
    requires forall o | 0 <= o < |s.phases| :: PhaseHolds(s, s.phases[o])
    ensures forall e | e in t.events :: EventAgrees(t, e)
  {
    SaveFacts(s, read, latest, v, t);
    forall e | e in t.events ensures EventAgrees(t, e) {
      assert EventAgrees(s, e);
    }
  }

  lemma PhasesKept(s: State, read: VersionId, latest: VersionId, v: VersionId, t: State, w: Worker)
    requires Core(s) && HasStatus(s, read, Active) && Saves(s, read, latest, v, t) && w < |s.phases|
    ensures PhaseHolds(t, t.phases[w])
  {
    SaveFacts(s, read, latest, v, t);
    var p := s.phases[w];
    assert PhaseHolds(s, p) && !HoldsRow(s, p, read);
    if p.Writing? {
      ActiveUnique(s, p.base, read);
    } else if Decider(p) {
      assert EventAgrees(s, p.event);
      if p.RowsHeld? {
        ActiveUnique(s, ParentOf(s, p.event), read);
      }
    }
  }

  lemma LocksKeptBySave(s: State, read: VersionId, latest: VersionId, v: VersionId, t: State)
    requires Core(s) && Saves(s, read, latest, v, t)
    ensures LocksExclusive(t)
  {
    SaveFacts(s, read, latest, v, t);
    forall a, b, row: VersionId | 0 <= a < |t.phases| && 0 <= b < |t.phases| && a != b
      ensures !(HoldsRow(t, t.phases[a], row) && HoldsRow(t, t.phases[b], row))
    {
      assert PhaseHolds(s, s.phases[a]) && PhaseHolds(s, s.phases[b]);
      RowsStable(s, t, s.phases[a], row);
      RowsStable(s, t, s.phases[b], row);
    }
  }

  /** Saving keeps one active version, agreeing events, exclusive locks and growing numbers. */
  lemma SaveKeepsCore(s: State, read: VersionId, latest: VersionId, v: VersionId, t: State)
    requires Core(s) && HasStatus(s, read, Active) && Saves(s, read, latest, v, t)
    ensures Core(t)
  {
    OneActiveIff(s, read, latest, v, t);
    EventsKept(s, read, latest, v, t);
    LocksKeptBySave(s, read, latest, v, t);
    SaveFacts(s, read, latest, v, t);
    NumbersOfNew(s, t, v);
    forall w | 0 <= w < |t.phases| ensures PhaseHolds(t, t.phases[w]) {
      PhasesKept(s, read, latest, v, t, w);
    }
  }

  // ----- the parent chain -----

  /** Numbers grow along a chain. */
  lemma {:induction false} ChainNumbers(s: State, chain: seq<VersionId>, i: nat, j: nat)
    requires IsChain(s, chain) && NumbersGrow(s) && i <= j < |chain| && chain[i] in s.versions && chain[j] in s.versions
    ensures s.versions[chain[i]].no <= s.versions[chain[j]].no
    decreases j - i
  {
    if i == j {
    } else {
      assert HasStatus(s, chain[j - 1], Superseded) && AfterParent(s, chain[j]);
      ChainNumbers(s, chain, i, j - 1);
    }
  }

  /** No version that was ever active has the active one as its parent. */
  lemma ActiveHasNoChild(s: State, child: VersionId, a: VersionId)
    requires OneChain(s) && OneActive(s) && NumbersGrow(s) && HasStatus(s, a, Active) && EverActive(s, child)
    ensures s.versions[child].parent != Some(a)
  {
    var chain :| IsChain(s, chain);
    var last := |chain| - 1;
    ActiveUnique(s, a, chain[last]);
    assert child in chain;
    var i :| 0 <= i <= last && chain[i] == child;
    if i == 0 {
      ChainNumbers(s, chain, 0, last);
      assert AfterParent(s, child);
    } else {
      assert s.versions[chain[i - 1 + 1]].parent == Some(chain[i - 1]);
      assert chain[i - 1] != chain[last];
    }
  }

  lemma ChainGrowsBySave(s: State, read: VersionId, v: VersionId, t: State, chain: seq<VersionId>)
    requires OneActive(s) && IsChain(s, chain) && HasStatus(s, read, Active) && Saves(s, read, read, v, t)
    ensures IsChain(t, chain + [v])
  {
    SaveFacts(s, read, read, v, t);
    var longer, last := chain + [v], |chain| - 1;
    ActiveUnique(s, read, chain[last]);
    forall u: VersionId ensures u in longer <==> EverActive(t, u) {
      assert u in chain <==> EverActive(s, u);
    }
    forall i | 0 <= i <= last ensures chain[i] in s.versions && chain[i] != v {
      assert chain[i] in chain;
      assert EverActive(s, chain[i]);
    }
    forall i | 0 <= i < last ensures chain[i] != read {
      assert chain[i] != chain[last];
    }
  }

  /** The versions ever active still form one parent chain exactly when the solve found the active
      version to be the latest one: its own version hangs below the latest of any status, be that a
      pending or a rejected proposal. */
  lemma OneChainIff(s: State, read: VersionId, latest: VersionId, v: VersionId, t: State)
    requires Invariant(s) && HasStatus(s, read, Active) && Saves(s, read, latest, v, t)
    ensures OneChain(t) <==> latest == read
  {
    SaveFacts(s, read, latest, v, t);
    if latest == read {
      var chain :| IsChain(s, chain);
      ChainGrowsBySave(s, read, v, t, chain);
    } else if chain :| IsChain(t, chain) {
      SaveKeepsCore(s, read, latest, v, t);
      BrokenChain(s, read, latest, v, t, chain);
    }
  }

  lemma BrokenChain(s: State, read: VersionId, latest: VersionId, v: VersionId, t: State, chain: seq<VersionId>)
    requires Invariant(s) && Core(t) && HasStatus(s, read, Active) && Saves(s, read, latest, v, t) && IsChain(t, chain)
    ensures latest == read
  {
    SaveFacts(s, read, latest, v, t);
    var last := |chain| - 1;
    ActiveUnique(t, v, chain[last]);
    assert EverActive(t, read) && read in chain && read != v;
    var i :| 0 <= i < last && chain[i] == read;
    var child := chain[i + 1];
    assert t.versions[child].parent == Some(read);
    if i + 1 < last {
      assert child in chain && child != v;
      assert EverActive(t, child);
      ActiveHasNoChild(s, child, read);
    }
  }

  // ----- histories with saves in between -----

  /** One move of a trip: a step of some worker, or the save of a solve, up to date or not. */
  datatype Move = Work(step: Step) | Save(read: VersionId, latest: VersionId, version: VersionId)

  ghost predicate Moves(s: State, move: Move, t: State)
  {
    match move
    case Work(step) => Next(s, step, t)
    case Save(read, latest, v) => Saves(s, read, latest, v, t)
  }

  ghost predicate History(states: seq<State>, moves: seq<Move>)
  {
    && |states| == |moves| + 1 && Initial(states[0])
    && forall i | 0 <= i < |moves| :: Moves(states[i], moves[i], states[i + 1])
  }

  /** The version a save read as active still is. */
  predicate UpToDate(s: State, move: Move)
  {
    move.Save? ==> HasStatus(s, move.read, Active)
  }

  /** Besides, the save found no later version than that one. */
  predicate OnTop(s: State, move: Move)
  {
    move.Save? ==> HasStatus(s, move.read, Active) && move.latest == move.read
  }

  lemma MoveKeepsCore(s: State, move: Move, t: State)
    requires Core(s) && Moves(s, move, t) && UpToDate(s, move)
    ensures Core(t)
  {
    match move
    case Work(step) => StepKeepsCore(s, step, t);
    case Save(read, latest, v) => SaveKeepsCore(s, read, latest, v, t);
  }

  /** Solves that are saved while up to date leave one active version and agreeing events in every
      state of every history, whatever becomes of the chain. */
  lemma {:induction false} HistoryKeepsCore(states: seq<State>, moves: seq<Move>, i: nat)
    requires History(states, moves) && i < |states|
    requires forall k | 0 <= k < i :: UpToDate(states[k], moves[k])
    ensures Core(states[i])
    decreases i
  {
    if i == 0 {
      InitialHolds(states[0]);
    } else {
      HistoryKeepsCore(states, moves, i - 1);
      assert Moves(states[i - 1], moves[i - 1], states[i - 1 + 1]);
      MoveKeepsCore(states[i - 1], moves[i - 1], states[i]);
    }
  }

  lemma OneActiveMove(s: State, move: Move, t: State)
    requires Core(s) && Moves(s, move, t) && OneActive(t)
    ensures UpToDate(s, move)
  {
    if move.Save? {
      OneActiveIff(s, move.read, move.latest, move.version, t);
    }
  }

  lemma {:induction false} SavesUpToDate(states: seq<State>, moves: seq<Move>, i: nat)
    requires History(states, moves) && i <= |moves|
    requires forall k | 0 <= k < |states| :: OneActive(states[k])
    ensures forall k | 0 <= k < i :: UpToDate(states[k], moves[k])
    decreases i
  {
    if i == 0 {
    } else {
      SavesUpToDate(states, moves, i - 1);
      HistoryKeepsCore(states, moves, i - 1);
      OneActiveMove(states[i - 1], moves[i - 1], states[i]);
    }
  }

  /** A history has one active version throughout exactly when every save is up to date. */
  lemma AlwaysOneActiveIff(states: seq<State>, moves: seq<Move>)
    requires History(states, moves)
    ensures (forall i | 0 <= i < |states| :: OneActive(states[i]))
       <==> (forall i | 0 <= i < |moves| :: UpToDate(states[i], moves[i]))
  {
    if forall i | 0 <= i < |states| :: OneActive(states[i]) {
      SavesUpToDate(states, moves, |moves|);
    }
    if forall i | 0 <= i < |moves| :: UpToDate(states[i], moves[i]) {
      forall i | 0 <= i < |states| ensures OneActive(states[i]) {
        HistoryKeepsCore(states, moves, i);
      }
    }
  }

  lemma MoveKeepsInvariant(s: State, move: Move, t: State)
    requires Invariant(s) && Moves(s, move, t) && OnTop(s, move)
    ensures Invariant(t)
  {
    MoveKeepsCore(s, move, t);
    match move
    case Work(step) => StepKeepsInvariant(s, step, t);
    case Save(read, latest, v) => OneChainIff(s, read, latest, v, t);
  }

  lemma {:induction false} HistoryKeepsInvariant(states: seq<State>, moves: seq<Move>, i: nat)
    requires History(states, moves) && i < |states|
    requires forall k | 0 <= k < i :: OnTop(states[k], moves[k])
    ensures Invariant(states[i])
    decreases i
  {
    if i == 0 {
      InitialHolds(states[0]);
    } else {
      HistoryKeepsInvariant(states, moves, i - 1);
      assert Moves(states[i - 1], moves[i - 1], states[i - 1 + 1]);
      MoveKeepsInvariant(states[i - 1], moves[i - 1], states[i]);
    }
  }

  lemma ChainHasOneActive(s: State, chain: seq<VersionId>)
    requires IsChain(s, chain)
    ensures OneActive(s)
  {
    var last := chain[|chain| - 1];
    forall u: VersionId | HasStatus(s, u, Active) ensures u == last {
      assert EverActive(s, u) && u in chain;
    }
    assert OnlyActive(s, last);
  }

  lemma OneChainMove(s: State, move: Move, t: State)
    requires Invariant(s) && Moves(s, move, t) && OneChain(t)
    ensures OnTop(s, move)
  {
    if move.Save? {
      var chain :| IsChain(t, chain);
      ChainHasOneActive(t, chain);
      OneActiveMove(s, move, t);
      OneChainIff(s, move.read, move.latest, move.version, t);
    }
  }

  lemma {:induction false} SavesOnTop(states: seq<State>, moves: seq<Move>, i: nat)
    requires History(states, moves) && i <= |moves|
    requires forall k | 0 <= k < |states| :: OneChain(states[k])
    ensures forall k | 0 <= k < i :: OnTop(states[k], moves[k])
    decreases i
  {
    if i == 0 {
    } else {
      SavesOnTop(states, moves, i - 1);
      HistoryKeepsInvariant(states, moves, i - 1);
      OneChainMove(states[i - 1], moves[i - 1], states[i]);
    }
  }

  /** The versions ever active form one parent chain throughout exactly when every save is up to date
      and finds the version it retires to be the latest. */
  lemma AlwaysOneChainIff(states: seq<State>, moves: seq<Move>)
    requires History(states, moves)
    ensures (forall i | 0 <= i < |states| :: OneChain(states[i]))
       <==> (forall i | 0 <= i < |moves| :: OnTop(states[i], moves[i]))
  {
    if forall i | 0 <= i < |states| :: OneChain(states[i]) {
      SavesOnTop(states, moves, |moves|);
    }
    if forall i | 0 <= i < |moves| :: OnTop(states[i], moves[i]) {
      forall i | 0 <= i < |states| ensures OneChain(states[i]) {
        HistoryKeepsInvariant(states, moves, i);
      }
    }
  }

  lemma MoveKeepsStuck(s: State, move: Move, t: State, f: EventId)
    requires Core(s) && Moves(s, move, t) && UpToDate(s, move) && Stuck(s, f)
    ensures Stuck(t, f)
  {
    match move
    case Work(step) => StuckStep(s, step, t, f);
    case Save(read, latest, v) =>
      SaveFacts(s, read, latest, v, t);
      assert EventAgrees(s, f);
      forall w | 0 <= w < |t.phases|
        ensures !t.phases[w].Writing? && (t.phases[w].Planning? ==> !HasStatus(t, t.phases[w].base, Active))
      {
        assert PhaseHolds(s, s.phases[w]);
      }
  }

  lemma MoveOfHistory(states: seq<State>, moves: seq<Move>, i: nat, s: State, move: Move, t: State)
    requires History(states, moves) && i < |moves| && s == states[i] && move == moves[i] && t == states[i + 1]
    requires forall k | 0 <= k <= i :: UpToDate(states[k], moves[k])
    ensures Core(s) && Moves(s, move, t) && UpToDate(s, move)
  {
    HistoryKeepsCore(states, moves, i);
  }

  lemma {:induction false} StuckThrough(states: seq<State>, moves: seq<Move>, i: nat, j: nat, f: EventId)
    requires History(states, moves) && i <= j < |states| && Stuck(states[i], f)
    requires forall k | 0 <= k < j :: UpToDate(states[k], moves[k])
    ensures Stuck(states[j], f)
    decreases j
  {
    if i == j {
    } else {
      var s, move, t := states[j - 1], moves[j - 1], states[j];
      StuckThrough(states, moves, i, j - 1, f);
      MoveOfHistory(states, moves, j - 1, s, move, t);
      MoveKeepsStuck(s, move, t, f);
    }
  }

  /** A stuck event stays stuck, and while it does no proposal starts: a fresh solve, saved while up to
      date, gives the trip a new plan but does not free it for replanning. */
  lemma SolvesDoNotFree(states: seq<State>, moves: seq<Move>, i: nat, j: nat, f: EventId)
    requires History(states, moves) && i <= j < |states| && Stuck(states[i], f)
    requires forall k | 0 <= k < j :: UpToDate(states[k], moves[k])
    ensures f in states[j].events && states[j].events[f].status == Pending
    ensures forall w, base: VersionId :: !Enabled(states[j], StartRescue(w, base)) && !Enabled(states[j], StartManual(w, base))
  {
    StuckThrough(states, moves, i, j, f);
  }
}
