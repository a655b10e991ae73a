/** The promotion of the cache protocol is the publication transaction as seen from one
    cache key: every protocol step is a rename or removal in the platform directory
    that stays within the states of the transaction's plan. */
module ProtocolRefinement {
  import opened Wrappers
  import opened Validation
  import opened PlatformDir
  import opened Publication
  import P = CacheProtocol

  function Seen(view: Payload -> P.Entry, h: Entries, n: string): Option<P.Entry> {
    if n in h then Some(view(h[n])) else None
  }

  /** The protocol's state of run `r` shows what the directory holds. */
  ghost predicate Mirrors(plan: Plan, view: Payload -> P.Entry, h: Entries, r: P.RunId, run: P.Run, final: Option<P.Entry>) {
    && final == Seen(view, h, plan.key)
    && run.backup == Seen(view, h, plan.backup)
    && Seen(view, h, plan.staging) == (if run.staging.Some? then Some(P.Entry(r, run.staging.value)) else None)
  }

  /** Where in its plan a promotion stands. */
  ghost predicate At(plan: Plan, h: Entries, tx: P.Tx)
    requires plan.Valid()
  {
    match tx
    case Start => h == plan.before
    case Keep(_) => Plan.Like(h, plan.before, {plan.staging})
    case Aside(moved) => h == plan.Aside() && (moved <==> plan.key in plan.before)
    case InPlace(moved) => h == plan.Over() && (moved <==> plan.key in plan.before)
    case Committed(moved, _) => Plan.Like(h, plan.Over(), {plan.backup})
    case Undo(published, moved) =>
      if published then plan.Wrecked(h) && (moved <==> plan.key in plan.before)
      else if moved then plan.key in plan.before && (h == plan.Aside() || h == plan.Aside() - {plan.staging})
      else Plan.Like(h, plan.before, {plan.staging}) || h == plan.before - {plan.staging}
    case DropStaging => Undone(plan, h) || plan.Wrecked(h)
  }

  /** The undo is over: the old entry is back, or its backup is still aside. */
  ghost predicate Undone(plan: Plan, h: Entries)
    requires plan.Valid()
  {
    || Plan.Like(h, plan.before, {plan.staging}) || h == plan.before - {plan.staging}
    || Plan.Like(h, plan.Aside(), {plan.staging}) || h == plan.Aside() - {plan.staging}
  }

  /** What the step does to the directory; `wreck` is what a removal under way leaves,
      and a removal of the staging directory succeeds as the protocol says. */
  function DirAfter(plan: Plan, h: Entries, a: P.TxAction, wreck: Payload, run': P.Run): Entries {
    match a
    case TxMoveAside => if plan.key in h then (h - {plan.key})[plan.backup := h[plan.key]] else h
    case TxPromote => if plan.staging in h then (h - {plan.staging})[plan.key := h[plan.staging]] else h
    case TxFinish(removed) => if removed then h - {plan.backup} else h
    case TxKept => h - {plan.staging}
    case TxUndoFinal => h - {plan.key}
    case TxRestore => if plan.backup in h then (h - {plan.backup})[plan.key := h[plan.backup]] else h
    case TxDropStaging => if run'.staging == None then h - {plan.staging} else h
    case TxTear => if plan.key in h then h[plan.key := wreck] else h
    case TxTearBackup => if plan.backup in h then h[plan.backup := wreck] else h
    case TxTearStaging => if plan.staging in h then h[plan.staging := wreck] else h
    case _ => h
  }

  /** The wreck looks to the protocol like what it was, and is not complete. */
  predicate WreckShows(view: Payload -> P.Entry, wreck: Payload, r: P.RunId, run: P.Run, final: Option<P.Entry>, a: P.TxAction) {
    match a
    case TxTear => Some(view(wreck)) == P.Torn(final)
    case TxTearBackup => Some(view(wreck)) == P.Torn(run.backup)
    case TxTearStaging => view(wreck) == P.Entry(r, false)
    case _ => true
  }

  /** Each step of a promotion keeps the picture and its place in the plan, and every
      directory on the way, those half-way through a removal included, is one the
      crash analysis covers: recoverable, or the wreck of a rollback. */
  lemma TxStepIsPublicationStep(plan: Plan, view: Payload -> P.Entry, wreck: Payload, h: Entries, r: P.RunId, run: P.Run,
                                final: Option<P.Entry>, a: P.TxAction, run': P.Run, final': Option<P.Entry>)
    requires plan.Valid() && run.task.Promoting? && At(plan, h, run.task.tx) && Mirrors(plan, view, h, r, run, final)
    requires P.TxStep(r, run, final, a, run', final') && WreckShows(view, wreck, r, run, final, a)
    ensures var h' := DirAfter(plan, h, a, wreck, run');
            && (plan.Recoverable(h') || plan.Wrecked(h'))
            && (!run.task.tx.Undo? && !run.task.tx.DropStaging? && !a.TxFail? ==> plan.Recoverable(h'))
            && Mirrors(plan, view, h', r, run', final')
            && (if run'.task.Promoting? then At(plan, h', run'.task.tx) else Ended(plan, h', run.task.tx))
  {
    var h' := DirAfter(plan, h, a, wreck, run');
    StepKeepsPlace(plan, wreck, h, r, run, final, a, run', final');
    StepKeepsPicture(plan, view, wreck, h, r, run, final, a, run', final');
    PlacedIsCovered(plan, h', run.task.tx, run'.task);
    OnlyUndosWreck(r, run, final, a, run', final');
    hide At, Ended, DirAfter, Mirrors, Plan.OnTheWay, Plan.Recoverable, Plan.Wrecked;
    plan.OnTheWayIsRecoverable(h');
  }

  lemma OnlyUndosWreck(r: P.RunId, run: P.Run, final: Option<P.Entry>, a: P.TxAction, run': P.Run, final': Option<P.Entry>)
    requires run.task.Promoting? && P.TxStep(r, run, final, a, run', final')
    ensures run'.task.Promoting? && (run'.task.tx.Undo? || run'.task.tx.DropStaging?) ==>
              run.task.tx.Undo? || run.task.tx.DropStaging? || a.TxFail?
  {
  }

  /** How a promotion ends. */
  ghost predicate Ended(plan: Plan, h: Entries, tx: P.Tx)
    requires plan.Valid()
  {
    if tx.Committed? then h == plan.Fresh() || Plan.Like(h, plan.Over(), {plan.backup})
    else if tx.Keep? then h == plan.before - {plan.staging}
    else tx.DropStaging? && (Undone(plan, h) || plan.Wrecked(h))
  }

  lemma StepKeepsPicture(plan: Plan, view: Payload -> P.Entry, wreck: Payload, h: Entries, r: P.RunId, run: P.Run,
                         final: Option<P.Entry>, a: P.TxAction, run': P.Run, final': Option<P.Entry>)
    requires plan.Valid() && run.task.Promoting? && At(plan, h, run.task.tx) && Mirrors(plan, view, h, r, run, final)
    requires P.TxStep(r, run, final, a, run', final') && WreckShows(view, wreck, r, run, final, a)
    ensures Mirrors(plan, view, DirAfter(plan, h, a, wreck, run'), r, run', final')
  {
    if Tears(a) || a.TxDropStaging? {
      TearKeepsPicture(plan, view, wreck, h, r, run, final, a, run', final');
    } else {
      MoveKeepsPicture(plan, view, wreck, h, r, run, final, a, run', final');
    }
  }

  lemma MoveKeepsPicture(plan: Plan, view: Payload -> P.Entry, wreck: Payload, h: Entries, r: P.RunId, run: P.Run,
                         final: Option<P.Entry>, a: P.TxAction, run': P.Run, final': Option<P.Entry>)
    requires plan.Valid() && run.task.Promoting? && At(plan, h, run.task.tx) && Mirrors(plan, view, h, r, run, final)
    requires P.TxStep(r, run, final, a, run', final') && !Tears(a) && !a.TxDropStaging?
    ensures Mirrors(plan, view, DirAfter(plan, h, a, wreck, run'), r, run', final')
  {
  }

  lemma TearKeepsPicture(plan: Plan, view: Payload -> P.Entry, wreck: Payload, h: Entries, r: P.RunId, run: P.Run,
                         final: Option<P.Entry>, a: P.TxAction, run': P.Run, final': Option<P.Entry>)
    requires plan.Valid() && run.task.Promoting? && Mirrors(plan, view, h, r, run, final)
    requires P.TxStep(r, run, final, a, run', final') && WreckShows(view, wreck, r, run, final, a)
    requires Tears(a) || a.TxDropStaging?
    ensures Mirrors(plan, view, DirAfter(plan, h, a, wreck, run'), r, run', final')
  {
    hide At;
  }

  ghost predicate Shows(plan: Plan, h: Entries, run: P.Run, final: Option<P.Entry>) {
    && (final.Some? <==> plan.key in h) && (run.backup.Some? <==> plan.backup in h)
    && (run.staging.Some? <==> plan.staging in h)
  }

  /** A promotion going forward. */
  predicate Forward(a: P.TxAction) {
    a.TxKeep? || a.TxMoveAside? || a.TxNothingThere? || a.TxPromote? || a.TxCommit? || a.TxFinish? || a.TxKept?
  }

  /** A removal that has begun. */
  predicate Tears(a: P.TxAction) { a.TxTear? || a.TxTearBackup? || a.TxTearStaging? }

  ghost predicate Placed(plan: Plan, h: Entries, tx: P.Tx, task: P.Task)
    requires plan.Valid()
  {
    if task.Promoting? then At(plan, h, task.tx) else Ended(plan, h, tx)
  }

  lemma ForwardKeepsPlace(plan: Plan, wreck: Payload, h: Entries, r: P.RunId, run: P.Run, final: Option<P.Entry>, a: P.TxAction,
                          run': P.Run, final': Option<P.Entry>)
    requires plan.Valid() && run.task.Promoting? && At(plan, h, run.task.tx) && Shows(plan, h, run, final) && Forward(a)
    requires P.TxStep(r, run, final, a, run', final')
    ensures Placed(plan, DirAfter(plan, h, a, wreck, run'), run.task.tx, run'.task)
  {
  }

  lemma TearKeepsPlace(plan: Plan, wreck: Payload, h: Entries, r: P.RunId, run: P.Run, final: Option<P.Entry>, a: P.TxAction,
                       run': P.Run, final': Option<P.Entry>)
    requires plan.Valid() && run.task.Promoting? && At(plan, h, run.task.tx) && Shows(plan, h, run, final) && Tears(a)
    requires P.TxStep(r, run, final, a, run', final')
    ensures Placed(plan, DirAfter(plan, h, a, wreck, run'), run.task.tx, run'.task)
  {
    assert run'.task == run.task;
  }

  /** Undoing each step arrives at a state already passed. */
  lemma UndoKeepsPlace(plan: Plan, wreck: Payload, h: Entries, r: P.RunId, run: P.Run, final: Option<P.Entry>, a: P.TxAction,
                       run': P.Run, final': Option<P.Entry>)
    requires plan.Valid() && run.task.Promoting? && At(plan, h, run.task.tx) && Shows(plan, h, run, final)
    requires !Forward(a) && !Tears(a) && !a.TxDropStaging? && P.TxStep(r, run, final, a, run', final')
    ensures Placed(plan, DirAfter(plan, h, a, wreck, run'), run.task.tx, run'.task)
  {
    plan.StepsUndo();
    assert run'.task.Promoting?;
    if a.TxUndoFinal? { assert h - {plan.key} == plan.Over() - {plan.key}; }
  }

  lemma DropKeepsPlace(plan: Plan, h: Entries)
    requires plan.Valid() && (Undone(plan, h) || plan.Wrecked(h))
    ensures Undone(plan, h - {plan.staging}) || plan.Wrecked(h - {plan.staging})
  {
    if Plan.Like(h, plan.before, {plan.staging}) || h == plan.before - {plan.staging} {
      assert h - {plan.staging} == plan.before - {plan.staging};
    } else if plan.Wrecked(h) {
      assert h - {plan.staging} == h;
    } else {
      assert h - {plan.staging} == plan.Aside() - {plan.staging};
    }
  }

  lemma StepKeepsPlace(plan: Plan, wreck: Payload, h: Entries, r: P.RunId, run: P.Run, final: Option<P.Entry>, a: P.TxAction,
                       run': P.Run, final': Option<P.Entry>)
    requires plan.Valid() && run.task.Promoting? && At(plan, h, run.task.tx) && Shows(plan, h, run, final)
    requires P.TxStep(r, run, final, a, run', final')
    ensures Placed(plan, DirAfter(plan, h, a, wreck, run'), run.task.tx, run'.task)
  {
    if Forward(a) {
      ForwardKeepsPlace(plan, wreck, h, r, run, final, a, run', final');
    } else if Tears(a) {
      TearKeepsPlace(plan, wreck, h, r, run, final, a, run', final');
    } else if !a.TxDropStaging? {
      UndoKeepsPlace(plan, wreck, h, r, run, final, a, run', final');
    } else {
      hide Undone, Plan.Wrecked;
      DropKeepsPlace(plan, h);
    }
  }

  lemma PlacedIsCovered(plan: Plan, h: Entries, tx: P.Tx, task: P.Task)
    requires plan.Valid() && Placed(plan, h, tx, task)
    ensures plan.OnTheWay(h) || (plan.Wrecked(h) && (if task.Promoting? then task.tx.Undo? || task.tx.DropStaging? else tx.Undo? || tx.DropStaging?))
  {
  }
}
