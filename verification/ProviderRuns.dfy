/** The peer provider under concurrency: calls to engage and to disengage peers,
    interleaved between their critical sections. A call is identified with the
    one context it may create. */
module ProviderRuns {
  import Provider

  type PeerName = Provider.PeerName
  type Ctx = Provider.Ctx

  /** Where a call to engage a peer is. */
  datatype Phase =
    | Started       // has an eligible Cache object
    | Cleared       // found no entry on the fast path
    | Opened        // has created its context
    | Losing        // found an entry under the write lock, has yet to cancel
    | Engaging      // has put its entry in, Engage is running
    | Failing       // Engage returned an error, has yet to cancel
    | RollingBack   // has cancelled, has yet to take the entry out
    | Ended

  datatype Call = Call(name: PeerName, phase: Phase)

  datatype World = World(peers: map<PeerName, Ctx>, calls: map<Ctx, Call>, open: set<Ctx>)

  datatype Step =
    | Begin(c: Ctx, name: PeerName)
    | FastCheck(c: Ctx)
    | FailBuild(c: Ctx)
    | OpenContext(c: Ctx)
    | Insert(c: Ctx)
    | CancelLoser(c: Ctx)
    | EngageSucceeds(c: Ctx)
    | EngageFails(c: Ctx)
    | CancelFailed(c: Ctx)
    | RollBack(c: Ctx)
    | Disengage(name: PeerName)

  predicate At(w: World, c: Ctx, phase: Phase) {
    c in w.calls && w.calls[c].phase == phase
  }

  predicate Enabled(w: World, step: Step) {
    match step
    case Begin(c, name) => c !in w.calls && name != ""
    case FastCheck(c) => At(w, c, Started)
    case FailBuild(c) => At(w, c, Cleared)
    case OpenContext(c) => At(w, c, Cleared)
    case Insert(c) => At(w, c, Opened)
    case CancelLoser(c) => At(w, c, Losing)
    case EngageSucceeds(c) => At(w, c, Engaging)
    case EngageFails(c) => At(w, c, Engaging)
    case CancelFailed(c) => At(w, c, Failing)
    case RollBack(c) => At(w, c, RollingBack)
    case Disengage(_) => true
  }

  function To(w: World, c: Ctx, phase: Phase): World
    requires c in w.calls
  {
    w.(calls := w.calls[c := w.calls[c].(phase := phase)])
  }

  function Apply(w: World, step: Step): World
    requires Enabled(w, step)
  {
    match step
    case Begin(c, name) => w.(calls := w.calls[c := Call(name, Started)])
    case FastCheck(c) => To(w, c, if w.calls[c].name in w.peers then Ended else Cleared)
    case FailBuild(c) => To(w, c, Ended)
    case OpenContext(c) => To(w, c, Opened).(open := w.open + {c})
    case Insert(c) =>
      if w.calls[c].name in w.peers then To(w, c, Losing)
      else To(w, c, Engaging).(peers := w.peers[w.calls[c].name := c])
    case CancelLoser(c) => To(w, c, Ended).(open := w.open - {c})
    case EngageSucceeds(c) => To(w, c, Ended)
    case EngageFails(c) => To(w, c, Failing)
    case CancelFailed(c) => To(w, c, RollingBack).(open := w.open - {c})
    case RollBack(c) => To(w, c, Ended).(peers := w.peers - {w.calls[c].name})
    case Disengage(name) =>
      if name in w.peers then w.(open := w.open - {w.peers[name]}, peers := w.peers - {name}) else w
  }

  const NOBODY := World(map[], map[], {})

  predicate Runs(w: World, steps: seq<Step>)
    decreases |steps|
  {
    steps == [] || (Enabled(w, steps[0]) && Runs(Apply(w, steps[0]), steps[1..]))
  }

  function After(w: World, steps: seq<Step>): World
    requires Runs(w, steps)
    decreases |steps|
  {
    if steps == [] then w else After(Apply(w, steps[0]), steps[1..])
  }

  // ---------------------------------------------------------------- invariant

  /** Between putting its entry in and the end of the call. */
  predicate InFlight(w: World, c: Ctx) {
    At(w, c, Engaging) || At(w, c, Failing) || At(w, c, RollingBack)
  }

  /** A peer is not disengaged while a call to engage it is in flight; `Start`
      sees to that by handling one event after the other. */
  predicate Orderly(w: World, step: Step) {
    step.Disengage? ==> forall c :: c in w.calls && w.calls[c].name == step.name ==> !InFlight(w, c)
  }

  predicate OrderlyRun(w: World, steps: seq<Step>)
    requires Runs(w, steps)
    decreases |steps|
  {
    steps == [] || (Orderly(w, steps[0]) && OrderlyRun(Apply(w, steps[0]), steps[1..]))
  }

  predicate IsEntry(w: World, c: Ctx) {
    c in w.calls && w.calls[c].name in w.peers && w.peers[w.calls[c].name] == c
  }

  ghost predicate FlightsAreEntries(w: World) {
    forall c :: InFlight(w, c) ==> IsEntry(w, c)
  }

  /** An entry belongs to a call that put it there; its context is open unless the
      call is about to take the entry out. */
  predicate EntryHeld(w: World, name: PeerName)
    requires name in w.peers
  {
    var c := w.peers[name];
    && c in w.calls && w.calls[c].name == name
    && (c in w.open <==> w.calls[c].phase != RollingBack)
    && (InFlight(w, c) || w.calls[c].phase == Ended)
  }

  ghost predicate OpenAccounted(w: World) {
    && (forall c :: c in w.open ==> At(w, c, Opened) || At(w, c, Losing) || IsEntry(w, c))
    && (forall c :: At(w, c, Opened) || At(w, c, Losing) ==> c in w.open)
  }

  ghost predicate Inv(w: World) {
    FlightsAreEntries(w) && OpenAccounted(w) && forall name :: name in w.peers ==> EntryHeld(w, name)
  }

  lemma StepFlights(w: World, step: Step)
    requires Inv(w) && Enabled(w, step) && Orderly(w, step)
    ensures FlightsAreEntries(Apply(w, step))
  {
    var w' := Apply(w, step);
    forall c | InFlight(w', c) ensures IsEntry(w', c) {
      assert step.RollBack? ==> IsEntry(w, step.c);
      assert InFlight(w, c) || step == Insert(c);
    }
  }

  lemma StepEntries(w: World, step: Step, name: PeerName)
    requires Inv(w) && Enabled(w, step) && Orderly(w, step) && name in Apply(w, step).peers
    ensures EntryHeld(Apply(w, step), name)
  {
    assert name in w.peers ==> EntryHeld(w, name);
    if step.Disengage? && step.name in w.peers {
      assert EntryHeld(w, step.name);
    } else if step.RollBack? {
      assert IsEntry(w, step.c);
    }
  }

  lemma StepOpen(w: World, step: Step)
    requires Inv(w) && Enabled(w, step) && Orderly(w, step)
    ensures OpenAccounted(Apply(w, step))
  {
    var w' := Apply(w, step);
    forall c | c in w'.open ensures At(w', c, Opened) || At(w', c, Losing) || IsEntry(w', c) {
      assert c in w.open || step == OpenContext(c);
      if step.RollBack? {
        assert IsEntry(w, step.c) && EntryHeld(w, w.calls[step.c].name);
      }
    }
    forall c | At(w', c, Opened) || At(w', c, Losing) ensures c in w'.open {
      assert c in w.open || step == OpenContext(c);
      assert step.Disengage? && step.name in w.peers ==> EntryHeld(w, step.name);
    }
  }

  lemma StepInv(w: World, step: Step)
    requires Inv(w) && Enabled(w, step) && Orderly(w, step)
    ensures Inv(Apply(w, step))
  {
    StepFlights(w, step);
    StepOpen(w, step);
    forall name | name in Apply(w, step).peers ensures EntryHeld(Apply(w, step), name) {
      StepEntries(w, step, name);
    }
  }

  lemma {:induction false} RunInv(w: World, steps: seq<Step>)
    requires Inv(w) && Runs(w, steps) && OrderlyRun(w, steps)
    ensures Inv(After(w, steps))
    decreases |steps|
  {
    if steps != [] {
      StepInv(w, steps[0]);
      RunInv(Apply(w, steps[0]), steps[1..]);
    }
  }

  /** A context that was created and not cancelled, by a call past its decision. */
  predicate Holds(w: World, c: Ctx) {
    c in w.open && !At(w, c, Opened) && !At(w, c, Losing)
  }

  /** In orderly runs, with any number of calls at once and any of them failing:
      a context past its call's decision is open only if it is its name's entry,
      so no name has two; and when all calls have ended the open contexts are
      exactly the entries. */
  lemma ContextsConserved(steps: seq<Step>)
    requires Runs(NOBODY, steps) && OrderlyRun(NOBODY, steps)
    ensures var w := After(NOBODY, steps);
      && (forall c :: Holds(w, c) || InFlight(w, c) ==> IsEntry(w, c))
      && (forall c, d :: (Holds(w, c) || InFlight(w, c)) && (Holds(w, d) || InFlight(w, d)) ==>
            (w.calls[c].name == w.calls[d].name ==> c == d))
      && ((forall c :: c in w.calls ==> w.calls[c].phase == Ended) ==>
            forall c :: c in w.open <==> IsEntry(w, c))
  {
    RunInv(NOBODY, steps);
  }

  /** Without disengagement every interleaving is orderly. */
  lemma {:induction false} EngagesAloneAreOrderly(w: World, steps: seq<Step>)
    requires Runs(w, steps) && forall i :: 0 <= i < |steps| ==> !steps[i].Disengage?
    ensures OrderlyRun(w, steps)
    decreases |steps|
  {
    if steps != [] {
      EngagesAloneAreOrderly(Apply(w, steps[0]), steps[1..]);
    }
  }

  // --------------------------------------------------------- why order matters

  lemma {:induction false} RunsInTwo(w: World, first: seq<Step>, second: seq<Step>)
    requires Runs(w, first) && Runs(After(w, first), second)
    ensures Runs(w, first + second) && After(w, first + second) == After(After(w, first), second)
    decreases |first|
  {
    if first == [] {
      assert first + second == second;
    } else {
      assert (first + second)[1..] == first[1..] + second;
      RunsInTwo(Apply(w, first[0]), first[1..], second);
    }
  }

  lemma RunsOne(w: World, step: Step)
    requires Enabled(w, step)
    ensures Runs(w, [step]) && After(w, [step]) == Apply(w, step)
  {
    assert [step][1..] == [];
  }

  /** A new peer comes in under a free name. */
  lemma NewPeer(w: World, c: Ctx, name: PeerName) returns (steps: seq<Step>)
    requires name != "" && name !in w.peers && c !in w.calls
    ensures Runs(w, steps)
    ensures After(w, steps) == World(w.peers[name := c], w.calls[c := Call(name, Ended)], w.open + {c})
  {
    steps := [];
    var todo := [Begin(c, name), FastCheck(c), OpenContext(c), Insert(c), EngageSucceeds(c)];
    for i := 0 to 5
      invariant Runs(w, steps)
      invariant var now := After(w, steps);
        && (i == 0 ==> now == w)
        && (i > 0 ==> now.calls == w.calls[c := Call(name, [Started, Cleared, Opened, Engaging, Ended][i - 1])])
        && now.open == (if i < 3 then w.open else w.open + {c})
        && now.peers == (if i < 4 then w.peers else w.peers[name := c])
    {
      RunsOne(After(w, steps), todo[i]);
      RunsInTwo(w, steps, [todo[i]]);
      steps := steps + [todo[i]];
    }
  }

  /** A call for a name that has an entry ends at once and changes nothing. */
  lemma KnownPeer(w: World, c: Ctx, name: PeerName)
    requires name != "" && name in w.peers && c !in w.calls
    ensures Runs(w, [Begin(c, name)] + [FastCheck(c)])
    ensures After(w, [Begin(c, name)] + [FastCheck(c)]) == w.(calls := w.calls[c := Call(name, Ended)])
  {
    RunsOne(w, Begin(c, name));
    RunsOne(Apply(w, Begin(c, name)), FastCheck(c));
    RunsInTwo(w, [Begin(c, name)], [FastCheck(c)]);
  }

  /** A call that finds an entry only under the write lock cancels its context and
      changes nothing else. */
  lemma LostRace(w: World, c: Ctx)
    requires At(w, c, Opened) && w.calls[c].name in w.peers
    ensures Runs(w, [Insert(c)] + [CancelLoser(c)])
    ensures After(w, [Insert(c)] + [CancelLoser(c)]) ==
      World(w.peers, w.calls[c := Call(w.calls[c].name, Ended)], w.open - {c})
  {
    RunsOne(w, Insert(c));
    RunsOne(Apply(w, Insert(c)), CancelLoser(c));
    RunsInTwo(w, [Insert(c)], [CancelLoser(c)]);
  }

  /** A call in flight fails and rolls back by name. */
  lemma {:induction false} FailAndRollBack(w: World, c: Ctx) returns (steps: seq<Step>)
    requires InFlight(w, c)
    ensures Runs(w, steps)
    ensures After(w, steps) ==
      World(w.peers - {w.calls[c].name}, w.calls[c := Call(w.calls[c].name, Ended)],
            if At(w, c, RollingBack) then w.open else w.open - {c})
    decreases if At(w, c, Engaging) then 2 else if At(w, c, Failing) then 1 else 0
  {
    var step :=
      if At(w, c, Engaging) then EngageFails(c) else if At(w, c, Failing) then CancelFailed(c) else RollBack(c);
    RunsOne(w, step);
    if step == RollBack(c) {
      steps := [step];
    } else {
      var rest := FailAndRollBack(Apply(w, step), c);
      RunsInTwo(w, [step], rest);
      steps := [step] + rest;
    }
  }

  /** The rollback deletes by name: if a peer is disengaged while a call for it is
      in flight, the run can go on so that a later peer of that name keeps an open
      context that no entry leads to. */
  lemma DisorderLeaksContext(w: World, name: PeerName, c: Ctx, later: Ctx) returns (steps: seq<Step>)
    requires Inv(w) && name != "" && InFlight(w, c) && w.calls[c].name == name && later !in w.calls
    ensures |steps| > 0 && steps[0] == Disengage(name) && Runs(w, steps)
    ensures var end := After(w, steps);
      later in end.open && At(end, later, Ended) && name !in end.peers && !IsEntry(end, later)
  {
    assert IsEntry(w, c);
    RunsOne(w, Disengage(name));
    var w1 := Apply(w, Disengage(name));
    var enter := NewPeer(w1, later, name);
    RunsInTwo(w, [Disengage(name)], enter);
    var w2 := After(w1, enter);
    var leave := FailAndRollBack(w2, c);
    RunsInTwo(w, [Disengage(name)] + enter, leave);
    steps := [Disengage(name)] + enter + leave;
  }
}
