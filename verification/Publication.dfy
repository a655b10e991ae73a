/** Publishing a prepared staging directory: the old entry steps aside into a
    backup, the staged one is renamed into place and validated, and whatever goes
    wrong in between is undone when the transaction is dropped. */
module Publication {
  import opened PayloadTree
  import opened Validation
  import opened PlatformDir
  import opened Wrappers

  datatype PublishResult = Reused | Published | Failed

  /** The names one publication works with and the directory it started from. */
  datatype Plan = Plan(before: Entries, key: string, staging: string, backup: string) {
    ghost predicate Valid() {
      && key != staging && key != backup && staging != backup
      && staging in before && backup !in before
    }

    /** `h` is `base` except for what is inside the directories `torn`. */
    static ghost predicate Like(h: Entries, base: Entries, torn: set<string>) {
      forall n :: (n in h <==> n in base) && (n in h && n !in torn ==> h[n] == base[n])
    }

    // The directory states a publication passes through.

    ghost function Aside(): Entries
      requires Valid()
    {
      if key in before then (before - {key})[backup := before[key]] else before
    }

    ghost function Over(): Entries
      requires Valid()
    {
      (Aside() - {staging})[key := before[staging]]
    }

    ghost function Fresh(): Entries
      requires Valid()
    {
      (before - {staging})[key := before[staging]]
    }

    /** A state a publication passes through. What a removal under way has left of
        the staging directory or of an obsolete backup does not matter. */
    ghost predicate OnTheWay(h: Entries)
      requires Valid()
    {
      || Like(h, before, {staging}) || Like(h, Aside(), {staging})
      || Like(h, Over(), {backup}) || Like(h, Fresh(), {})
      || Like(h, before - {staging}, {}) || Like(h, Aside() - {staging}, {})
    }

    /** The rollback is in the middle of deleting what it had put in place. */
    ghost predicate Wrecked(h: Entries)
      requires Valid()
    {
      Like(h, Over(), {key})
    }

    /** The final entry is the old one or the staged one, the old one is never gone
        from both places, and nothing else moved. */
    ghost predicate Recoverable(h: Entries)
      requires Valid()
    {
      && Elsewhere(h)
      && (key in h ==> (key in before && h[key] == before[key]) || h[key] == before[staging])
      && (key in before && key !in h ==> backup in h && h[backup] == before[key])
      && (key !in h && backup in h ==> key in before)
    }

    ghost predicate Elsewhere(h: Entries) {
      forall n :: n != key && n != staging && n != backup ==> (n in h <==> n in before) && (n in h ==> h[n] == before[n])
    }

    /** What a crash may find: a recoverable state or a wreck with the old entry
        beside it. */
    lemma OnTheWayIsRecoverable(h: Entries)
      requires Valid()
      ensures OnTheWay(h) ==> Recoverable(h)
      ensures Wrecked(h) ==> Elsewhere(h) && key in h && (key in before ==> backup in h && h[backup] == before[key])
    {
    }

    lemma DiscardingStaysOnTheWay(h: Entries, wreck: Payload)
      requires Valid() && OnTheWay(h)
      ensures OnTheWay(h - {staging}) && (staging in h ==> OnTheWay(h[staging := wreck]))
      ensures Like(h, before, {staging}) || h == before - {staging} ==> h - {staging} == before - {staging}
    {
      if Like(h, before, {staging}) || Like(h, before - {staging}, {}) {
        DiscardingFrom(h, before, wreck);
      } else if Like(h, Aside(), {staging}) || Like(h, Aside() - {staging}, {}) {
        DiscardingFrom(h, Aside(), wreck);
      } else {
        assert h - {staging} == h;
      }
    }

    lemma DiscardingFrom(h: Entries, base: Entries, wreck: Payload)
      requires Like(h, base, {staging}) || Like(h, base - {staging}, {})
      ensures h - {staging} == base - {staging}
      ensures staging in h ==> Like(h[staging := wreck], base, {staging})
    {
    }

    lemma DiscardedBackupIsOnTheWay(wreck: Payload)
      requires Valid() && backup in Over()
      ensures OnTheWay(Over()) && OnTheWay(Over()[backup := wreck]) && OnTheWay(Over() - {backup})
      ensures Over() - {backup} == Fresh() && Like(Over()[backup := wreck], Over(), {backup})
    {
      assert Like(Over()[backup := wreck], Over(), {backup});
      assert Over() - {backup} == Fresh();
    }

    /** Undoing each step arrives at a state already passed. */
    lemma StepsUndo()
      requires Valid()
      ensures key in before ==> (Aside() - {backup})[key := before[key]] == before
      ensures key in before ==> ((Aside() - {staging}) - {backup})[key := before[key]] == before - {staging}
      ensures Over() - {key} == Aside() - {staging}
      ensures Over() - {backup} == Fresh()
      ensures key !in before ==> Over() == Fresh()
    {
    }
  }

  class PromotionTransaction {
    const dir: Dir
    const key: string
    /** The staging directory while this transaction still owns it. */
    var staging: Option<string>
    var backup: Option<string>
    var published: bool
    var committed: bool

    constructor (dir: Dir, key: string, staging: string)
      ensures this.dir == dir && this.key == key && this.staging == Some(staging)
      ensures backup == None && !published && !committed
    {
      this.dir, this.key, this.staging := dir, key, Some(staging);
      backup, published, committed := None, false, false;
    }

    /** The directory has only been in states of the plan since history index `from`. */
    ghost predicate InFlight(plan: Plan, from: nat)
      reads this, dir
    {
      && plan.Valid() && plan.key == key && dir.Valid()
      && from < |dir.history|
      && forall i :: from <= i < |dir.history| ==> plan.OnTheWay(dir.history[i])
    }

    /** The same, but for the wreck of a rollback. */
    ghost predicate Landed(plan: Plan, from: nat)
      reads this, dir
    {
      && plan.Valid() && plan.key == key && dir.Valid()
      && from < |dir.history|
      && forall i :: from <= i < |dir.history| ==> plan.OnTheWay(dir.history[i]) || plan.Wrecked(dir.history[i])
    }

    /** The transaction still owes an undo: its fields say which step it reached. */
    ghost predicate Undecided(plan: Plan)
      requires plan.Valid()
      reads this, dir
    {
      && !committed
      && staging == Some(plan.staging)
      && (backup == None || (backup == Some(plan.backup) && plan.key in plan.before))
      && (backup == None && published ==> plan.key !in plan.before)
      && (if published then dir.entries == plan.Over()
          else if backup == None then Plan.Like(dir.entries, plan.before, {plan.staging})
          else dir.entries == plan.Aside())
    }

    method CleanupStaging(fault: Fault) returns (ok: bool, ghost wreck: Payload)
      requires dir.Valid()
      modifies this`staging, dir
      ensures dir.Valid()
      ensures ok <==> old(staging) == None || fault == NoFault
      ensures staging == if ok then None else old(staging)
      ensures old(staging) == None ==> dir.entries == old(dir.entries) && dir.history == old(dir.history)
      ensures ok && old(staging).Some? ==>
                && dir.entries == old(dir.entries) - {old(staging).value}
                && ((&& old(staging).value in old(dir.entries)
                     && dir.history == old(dir.history) + [old(dir.entries)[old(staging).value := wreck], dir.entries])
                    || (dir.history == old(dir.history) && dir.entries == old(dir.entries)))
      ensures !ok ==>
                || (dir.entries == old(dir.entries) && dir.history == old(dir.history))
                || (&& old(staging).value in old(dir.entries)
                    && dir.entries == old(dir.entries)[old(staging).value := wreck]
                    && dir.history == old(dir.history) + [dir.entries])
    {
      wreck := Payload(Absent, Other(0));
      if staging.None? { return true, wreck; }
      var r;
      r, wreck := dir.RemoveDirAll(staging.value, fault);
      if r == Error { return false, wreck; }
      assert r == NotFound ==> dir.entries == old(dir.entries) - {staging.value};
      staging := None;
      return true, wreck;
    }

    /** Keeps a valid existing entry (Reused) or moves it out of the way; `Published`
        means that publication goes on. */
    method PreserveExisting(expected: Metadata, env: Environment, replaceExisting: bool, backupName: string,
                            faulty: bool, ghost plan: Plan, ghost from: nat)
      returns (r: PublishResult)
      requires InFlight(plan, from) && Undecided(plan) && !published && backup == None && backupName == plan.backup
      requires dir.entries == plan.before
      modifies this, dir
      ensures InFlight(plan, from) && !published
      ensures r == Reused ==>
                && committed && dir.entries == plan.before - {plan.staging}
                && key in plan.before && !replaceExisting && Accepts(plan.before[key], expected, env)
      ensures r != Reused ==> Undecided(plan)
      ensures r == Published ==>
                && dir.entries == plan.Aside() && (key in plan.before ==> backup.Some?)
                && (key in plan.before && !replaceExisting ==> !Accepts(plan.before[key], expected, env))
      ensures r == Failed ==> faulty
    {
      var fault := *;
      if faulty && fault { return Failed; }
      if key in dir.entries {
        if !replaceExisting {
          var verdict := ValidateCachedBinary(dir.entries[key], expected, env, faulty);
          if verdict == ReadError { return Failed; }
          if verdict == Valid {
            r := DiscardSuperseded(faulty, plan, from);
            return;
          }
        }
        fault := *;
        var moved := dir.Rename(key, backupName, faulty && fault);
        if !moved { return Failed; }
        backup := Some(backupName);
      }
      return Published;
    }

    method DiscardSuperseded(faulty: bool, ghost plan: Plan, ghost from: nat) returns (r: PublishResult)
      requires InFlight(plan, from) && Undecided(plan) && !published && backup == None && dir.entries == plan.before
      modifies this, dir
      ensures InFlight(plan, from) && !published
      ensures r == Reused || (r == Failed && faulty && Undecided(plan))
      ensures r == Reused ==> committed && dir.entries == plan.before - {plan.staging}
    {
      var fault: Fault := *;
      var clean;
      ghost var wreck;
      clean, wreck := CleanupStaging(if faulty then fault else NoFault);
      plan.DiscardingStaysOnTheWay(plan.before, wreck);
      if !clean { return Failed; }
      committed := true;
      return Reused;
    }

    /** Renames the staged directory into place and validates it there. */
    method PromoteAndValidate(expected: Metadata, env: Environment, faulty: bool, ghost plan: Plan, ghost from: nat)
      returns (r: PublishResult)
      requires InFlight(plan, from) && Undecided(plan) && !published
      requires dir.entries == plan.Aside() && (key in plan.before ==> backup.Some?)
      modifies this, dir
      ensures InFlight(plan, from)
      ensures r == Published ==>
                && committed && Accepts(plan.before[plan.staging], expected, env)
                && (dir.entries == plan.Fresh() || (faulty && Plan.Like(dir.entries, plan.Over(), {plan.backup})))
      ensures r != Published ==> r == Failed && Undecided(plan)
      ensures !faulty && r == Failed ==> !Accepts(plan.before[plan.staging], expected, env)
    {
      var promoted := Promote(faulty, plan, from);
      if !promoted { return Failed; }
      var verdict := ValidateCachedBinary(dir.entries[key], expected, env, faulty);
      if verdict != Valid { return Failed; }
      Commit(faulty, plan, from);
      return Published;
    }

    method Promote(faulty: bool, ghost plan: Plan, ghost from: nat) returns (ok: bool)
      requires InFlight(plan, from) && Undecided(plan) && !published
      requires dir.entries == plan.Aside() && (key in plan.before ==> backup.Some?)
      modifies this`published, dir
      ensures InFlight(plan, from) && Undecided(plan)
      ensures published == ok && (!ok ==> faulty)
    {
      var fault := *;
      ok := dir.Rename(staging.value, key, faulty && fault);
      published := ok;
    }

    method Commit(faulty: bool, ghost plan: Plan, ghost from: nat)
      requires InFlight(plan, from) && Undecided(plan) && published
      modifies this, dir
      ensures InFlight(plan, from) && committed && staging == None
      ensures dir.entries == plan.Fresh() || (faulty && Plan.Like(dir.entries, plan.Over(), {plan.backup}))
    {
      plan.StepsUndo();
      if backup.Some? { plan.DiscardedBackupIsOnTheWay(Payload(Absent, Other(0))); }
      hide Plan.OnTheWay;
      committed := true;
      staging := None;
      if backup.Some? {
        // A backup that cannot be deleted is left to the startup sweep.
        var fault: Fault := *;
        var removal;
        ghost var wreck;
        removal, wreck := dir.RemoveDirAll(backup.value, if faulty then fault else NoFault);
        plan.DiscardedBackupIsOnTheWay(wreck);
        backup := None;
      }
    }

    /** The undo that runs however the transaction ends. */
    method Drop(faulty: bool, ghost plan: Plan, ghost from: nat)
      requires InFlight(plan, from) && (committed || Undecided(plan))
      modifies this, dir
      ensures Landed(plan, from) && (old(committed) ==> InFlight(plan, from))
      ensures old(committed) ==> dir.entries == old(dir.entries)
      ensures !old(committed) && !faulty ==> dir.entries == plan.before - {plan.staging}
    {
      if committed { return; }
      RestoreOld(faulty, plan, from);
      DropStaging(faulty, plan, from);
    }

    /** Removes the staging directory; its guard is dropped last and tries once more. */
    method DropStaging(faulty: bool, ghost plan: Plan, ghost from: nat)
      requires Landed(plan, from) && staging == Some(plan.staging)
      modifies this`staging, dir
      ensures Landed(plan, from)
      ensures !faulty ==> dir.entries == old(dir.entries) - {plan.staging}
    {
      var clean := TryDropStaging(faulty, plan, from);
      if !clean { clean := TryDropStaging(faulty, plan, from); }
    }

    method TryDropStaging(faulty: bool, ghost plan: Plan, ghost from: nat) returns (clean: bool)
      requires Landed(plan, from) && staging == Some(plan.staging)
      modifies this`staging, dir
      ensures Landed(plan, from) && (clean || (faulty && staging == old(staging)))
      ensures clean ==> dir.entries == old(dir.entries) - {plan.staging}
    {
      var fault: Fault := *;
      ghost var before, history := dir.entries, dir.history;
      ghost var wreck;
      clean, wreck := CleanupStaging(if faulty then fault else NoFault);
      hide Plan.OnTheWay, Plan.Wrecked;
      CleaningLands(plan, before, wreck);
      assert history[|history| - 1] == before;
      assert forall i :: from <= i < |history| ==> dir.history[i] == history[i];
    }

    static lemma CleaningLands(plan: Plan, h: Entries, wreck: Payload)
      requires plan.Valid() && (plan.OnTheWay(h) || plan.Wrecked(h))
      ensures plan.OnTheWay(h - {plan.staging}) || plan.Wrecked(h - {plan.staging})
      ensures plan.staging in h ==> plan.OnTheWay(h[plan.staging := wreck])
    {
      if plan.OnTheWay(h) {
        plan.DiscardingStaysOnTheWay(h, wreck);
      } else {
        assert h - {plan.staging} == h;
      }
    }

    method RestoreOld(faulty: bool, ghost plan: Plan, ghost from: nat)
      requires InFlight(plan, from) && Undecided(plan)
      modifies this`backup, dir
      ensures Landed(plan, from)
      ensures !faulty ==> Plan.Like(dir.entries, plan.before, {plan.staging}) || dir.entries == plan.before - {plan.staging}
    {
      plan.StepsUndo();
      if published { RemoveFinal(faulty, plan, from); }
      if backup.Some? {
        var name := backup.value;
        backup := None;
        if key !in dir.entries {
          var refused := *;
          var restored := dir.Rename(name, key, faulty && refused);
        }
      }
    }

    /** Deletes what was put in place; only half of it, or nothing, if that fails. */
    method RemoveFinal(faulty: bool, ghost plan: Plan, ghost from: nat)
      requires InFlight(plan, from) && dir.entries == plan.Over()
      modifies dir
      ensures Landed(plan, from)
      ensures dir.entries == plan.Aside() - {plan.staging} || (faulty && key in dir.entries)
    {
      plan.StepsUndo();
      var fault: Fault := *;
      var removal;
      ghost var wreck;
      removal, wreck := dir.RemoveDirAll(key, if faulty then fault else NoFault);
      assert plan.Wrecked(plan.Over()[key := wreck]);
    }

    /** One publication from beginning to end. */
    method Run(expected: Metadata, env: Environment, replaceExisting: bool, backupName: string,
               faulty: bool, dropFaulty: bool, ghost plan: Plan)
      returns (r: PublishResult)
      requires dir.Valid() && staging == Some(plan.staging) && backup == None && !published && !committed
      requires plan == Plan(dir.entries, key, plan.staging, backupName) && plan.Valid()
      modifies this, dir
      ensures dir.Valid()
      // Rollback is exact: a failed publication costs only the staging directory.
      ensures r == Failed && !dropFaulty ==> dir.entries == plan.before - {plan.staging}
      ensures r == Reused ==>
                && !replaceExisting && key in plan.before && Accepts(plan.before[key], expected, env)
                && dir.entries == plan.before - {plan.staging}
      ensures r == Published ==>
                && Accepts(plan.before[plan.staging], expected, env)
                && (dir.entries == plan.Fresh() || (faulty && Plan.Like(dir.entries, plan.Over(), {plan.backup})))
      ensures !faulty ==> (r == Reused <==> key in plan.before && !replaceExisting && Accepts(plan.before[key], expected, env))
      ensures !faulty ==> (r == Failed ==> !Accepts(plan.before[plan.staging], expected, env))
      // Every state on the way is one a crash can be recovered from, except for the
      // wreck of a rollback.
      ensures |old(dir.history)| <= |dir.history|
      ensures forall i :: |old(dir.history)| - 1 <= i < |dir.history| ==>
                plan.Recoverable(dir.history[i]) || (r == Failed && plan.Wrecked(dir.history[i]))
    {
      ghost var from := |dir.history| - 1;
      r := PreserveExisting(expected, env, replaceExisting, backupName, faulty, plan, from);
      if r == Published {
        r := PromoteAndValidate(expected, env, faulty, plan, from);
      }
      Drop(dropFaulty, plan, from);
      forall i | from <= i < |dir.history| ensures plan.OnTheWay(dir.history[i]) ==> plan.Recoverable(dir.history[i]) {
        plan.OnTheWayIsRecoverable(dir.history[i]);
      }
    }
  }
}
