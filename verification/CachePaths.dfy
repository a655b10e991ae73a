/** Runs of the cache protocol, built step by step. */
module CachePaths {
  import opened Wrappers
  import opened CacheProtocol
  import opened CacheDurability

  /** Steps lead from `from` to `s`; no uninstall removes anything if `kept`. */
  ghost predicate Leads(from: State, kept: bool, s: State) {
    exists states, steps :: Path(states, steps, kept) && states[0] == from && states[|states| - 1] == s
  }

  ghost predicate Path(states: seq<State>, steps: seq<Step>, kept: bool) {
    && |states| == |steps| + 1
    && forall i :: 0 <= i < |steps| ==> Next(states[i], steps[i], states[i + 1]) && (kept ==> !IsDeletion(steps[i]))
  }

  ghost predicate Reachable(s: State) { Leads(Init(s.confusable), false, s) }

  lemma LeadsNowhere(s: State, kept: bool)
    ensures Leads(s, kept, s)
  {
    assert Path([s], [], kept) && [s][0] == s && [s][|[s]| - 1] == s;
  }

  lemma LeadsOn(from: State, kept: bool, s: State, step: Step, s': State)
    requires Leads(from, kept, s) && Next(s, step, s') && (kept ==> !IsDeletion(step))
    ensures Leads(from, kept, s')
  {
    hide Next, IsDeletion;
    var states, steps :| Path(states, steps, kept) && states[0] == from && states[|states| - 1] == s;
    assert Path(states + [s'], steps + [step], kept);
  }

  /** A reachable state is the end of a run of the system. */
  lemma ReachableIsBehaviour(s: State)
    requires Reachable(s)
    ensures exists states, steps :: Behaviour(states, steps) && states[|states| - 1] == s
  {
    hide Next;
    var states, steps :| Path(states, steps, false) && states[0] == Init(s.confusable) && states[|states| - 1] == s;
    assert Behaviour(states, steps);
  }

  lemma ReachableIsInv(s: State)
    requires Reachable(s)
    ensures Inv(s)
  {
    ReachableIsBehaviour(s);
    hide Inv, Behaviour, Reachable;
    var states, steps :| Behaviour(states, steps) && states[|states| - 1] == s;
    BehaviourLength(states, steps);
    BehaviourInv(states, steps, |states| - 1);
  }

  /** One run's own step, as a step of the system. */
  lemma ActLeads(from: State, kept: bool, s: State, r: RunId, a: Action, run': Run, final': Option<Entry>)
    requires Leads(from, kept, s) && r in s.runs && LocalStep(r, s.runs[r], s.final, a, run', final')
    requires kept ==> !IsDeletion(Act(r, a))
    ensures Leads(from, kept, s.(final := final', runs := s.runs[r := run']))
  {
    hide LocalStep, Leads, IsDeletion;
    LeadsOn(from, kept, s, Act(r, a), s.(final := final', runs := s.runs[r := run']));
  }

  lemma AcquireLeads(from: State, kept: bool, s: State, r: RunId, lock: Lock)
    requires Leads(from, kept, s) && r in s.runs && GrantOf(s.runs[r], lock) == Waiting && Compatible(s, lock)
    ensures Leads(from, kept, s.(runs := s.runs[r := WithGrant(s.runs[r], lock, Held)]))
  {
    hide Leads, Compatible;
    LeadsOn(from, kept, s, Acquire(r, lock), s.(runs := s.runs[r := WithGrant(s.runs[r], lock, Held)]));
  }
}
