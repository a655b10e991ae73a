/** The startup sweep: it groups abandoned work directories by key, restores a
    backup where the final entry is missing and deletes the rest. */
module Recovery {
  import opened Names
  import opened Ordering
  import opened Validation
  import opened PlatformDir
  import opened Publication
  import opened Wrappers

  function Codes(s: string): seq<int> { seq(|s|, i requires 0 <= i < |s| => s[i] as int) }

  function PathOrder(): string -> seq<int> { (s: string) => Codes(s) }

  lemma CodesInjective(a: string, b: string)
    requires Codes(a) == Codes(b)
    ensures a == b
  {
    forall i | 0 <= i < |a| ensures a[i] == b[i] {
      assert Codes(a)[i] == a[i] as int && Codes(b)[i] == b[i] as int;
    }
  }

  /** What the sweep finds around it: keys whose publication lock is taken, the names
      whose rename or removal the file system lets succeed, and what a removal leaves
      that stops half-way. */
  datatype Surroundings = Surroundings(
    locked: set<string>, renameable: set<string>, removable: set<string>, wrecks: map<string, Payload>)

  predicate WorkOf(n: string, key: string) { WorkDirCacheKey(n) == Some(key) }

  /** Work directories belong to keys that are published names themselves. */
  ghost predicate WellNamed(entries: Entries) {
    forall n :: n in entries && WorkDirCacheKey(n).Some? ==> WorkDirCacheKey(WorkDirCacheKey(n).value) == None
  }

  predicate Candidate(entries: Entries, around: Surroundings, key: string, n: string) {
    n in entries && WorkOf(n, key) && LooksLikeBackup(n) && n in around.renameable
  }

  /** The backup the sweep puts back under `key`: of all it can rename, the one
      whose name sorts last. */
  ghost predicate Heir(entries: Entries, around: Surroundings, key: string, n: string) {
    && key !in entries
    && Candidate(entries, around, key, n)
    && forall m :: Candidate(entries, around, key, m) ==> m == n || Before(Codes(m), Codes(n))
  }

  function Lookup(entries: Entries, n: string): Option<Payload> {
    if n in entries then Some(entries[n]) else None
  }

  /** The entry an unlocked key has after the sweep. */
  ghost function Inherited(entries: Entries, around: Surroundings, key: string): Option<Payload> {
    if key in entries then Some(entries[key])
    else if exists b :: Heir(entries, around, key, b) then
      var b :| Heir(entries, around, key, b); Some(entries[b])
    else None
  }

  /** What is left of work directory `n` of an unlocked key. */
  ghost function Leftover(entries: Entries, around: Surroundings, key: string, n: string): Option<Payload> {
    if Heir(entries, around, key, n) then None else Remains(entries, around, n)
  }

  /** What an attempt to remove `n` leaves. */
  function Remains(entries: Entries, around: Surroundings, n: string): Option<Payload> {
    if n in around.removable then None
    else if n in around.wrecks && n in entries then Some(around.wrecks[n])
    else Lookup(entries, n)
  }

  function RemovalFault(around: Surroundings, n: string): Fault {
    if n in around.removable then NoFault
    else if n in around.wrecks then Stopped(around.wrecks[n])
    else Refused
  }

  ghost function AfterSweep(before: Entries, around: Surroundings, n: string): Option<Payload> {
    match WorkDirCacheKey(n)
    case Some(key) => if key in around.locked then Lookup(before, n) else Leftover(before, around, key, n)
    case None => if n in around.locked then Lookup(before, n) else Inherited(before, around, n)
  }

  /** The whole outcome of a sweep over one directory. */
  ghost predicate Swept(before: Entries, after: Entries, around: Surroundings) {
    forall n :: Lookup(after, n) == AfterSweep(before, around, n)
  }

  // ----- crash atomicity

  /** The entry is the old one or the staged one, and is there if it was before. */
  ghost predicate Atomic(plan: Plan, after: Entries)
    requires plan.Valid()
  {
    && (plan.key in plan.before ==> plan.key in after)
    && (plan.key in after ==>
          || (plan.key in plan.before && after[plan.key] == plan.before[plan.key])
          || after[plan.key] == plan.before[plan.staging])
  }

  /** The names belong together: key, staging directory and backup of one entry. */
  ghost predicate WellChosen(plan: Plan) {
    && plan.Valid()
    && WorkDirCacheKey(plan.key) == None
    && WorkOf(plan.staging, plan.key) && WorkOf(plan.backup, plan.key) && LooksLikeBackup(plan.backup)
  }

  /** A directory of the key that is neither this publication's backup nor its staging
      directory, but looks like a backup and can be renamed. */
  predicate Stale(plan: Plan, crashed: Entries, around: Surroundings, n: string) {
    n != plan.staging && n != plan.backup && Candidate(crashed, around, plan.key, n)
  }

  /** The entry is missing and a stale backup sorts behind this publication's own. */
  ghost predicate Overtaken(plan: Plan, crashed: Entries, around: Surroundings) {
    && plan.key !in crashed
    && exists n :: Stale(plan, crashed, around, n) && SortsBehindOwn(plan, crashed, around, n)
  }

  predicate SortsBehindOwn(plan: Plan, crashed: Entries, around: Surroundings, n: string) {
    && (Candidate(crashed, around, plan.key, plan.backup) ==> Before(Codes(plan.backup), Codes(n)))
    && (Candidate(crashed, around, plan.key, plan.staging) ==> Before(Codes(plan.staging), Codes(n)))
  }

  /** Where it is needed, the publication's own backup can be renamed. */
  predicate BackupUsable(plan: Plan, crashed: Entries, around: Surroundings) {
    plan.key in plan.before && plan.key !in crashed ==> plan.backup in around.renameable
  }

  /** While the entry is missing, the staging directory is not half deleted. */
  ghost predicate StagingWhole(plan: Plan, crashed: Entries)
    requires plan.Valid()
  {
    plan.key !in crashed && plan.staging in crashed ==> crashed[plan.staging] == plan.before[plan.staging]
  }

  lemma OvertakenMeansStaleHeir(plan: Plan, crashed: Entries, around: Surroundings)
    ensures Overtaken(plan, crashed, around) <==>
            exists n :: Stale(plan, crashed, around, n) && Heir(crashed, around, plan.key, n)
  {
    if Overtaken(plan, crashed, around) {
      var n :| Stale(plan, crashed, around, n) && SortsBehindOwn(plan, crashed, around, n);
      HeirExists(crashed, around, plan.key, n);
      var h :| Heir(crashed, around, plan.key, h);
      assert Candidate(crashed, around, plan.key, n);
      BeforeTrichotomy(Codes(n), Codes(h));
      assert Stale(plan, crashed, around, h);
    }
    if n :| Stale(plan, crashed, around, n) && Heir(crashed, around, plan.key, n) {
      assert SortsBehindOwn(plan, crashed, around, n);
    }
  }

  /** Interrupt a publication in any recoverable state and let a sweep finish: the
      outcome is atomic unless a stale backup of the key overtakes the publication's
      own, and in that case the entry becomes such a stale backup. The own backup
      must be renameable where it is needed; a staging directory that is taken for a
      backup must not be half deleted. */
  lemma CrashThenSweep(plan: Plan, crashed: Entries, after: Entries, around: Surroundings)
    requires WellChosen(plan) && plan.Recoverable(crashed)
    requires plan.key !in around.locked && Swept(crashed, after, around)
    ensures !Overtaken(plan, crashed, around)
            && BackupUsable(plan, crashed, around) && (LooksLikeBackup(plan.staging) ==> StagingWhole(plan, crashed))
            ==> Atomic(plan, after)
    ensures Overtaken(plan, crashed, around) ==>
              exists n :: Stale(plan, crashed, around, n) && plan.key in after && n in plan.before && after[plan.key] == plan.before[n]
    ensures forall n :: WorkOf(n, plan.key) && n in after ==> n !in around.removable
  {
    var key := plan.key;
    assert Lookup(after, key) == Inherited(crashed, around, key);
    HeirUnique(crashed, around, key);
    OvertakenMeansStaleHeir(plan, crashed, around);
    if key !in crashed && Candidate(crashed, around, key, plan.backup) {
      HeirExists(crashed, around, key, plan.backup);
    }
    forall n | WorkOf(n, key) && n in after ensures n !in around.removable {
      assert Lookup(after, n) == Leftover(crashed, around, key, n);
    }
  }

  /** A crash in the middle of a rollback's deletion is the other exception: the wreck
      stays the entry and the old one is deleted, so the outcome is atomic only if
      the wreck happens to equal one of the two. */
  lemma WreckStays(plan: Plan, crashed: Entries, after: Entries, around: Surroundings)
    requires WellChosen(plan) && plan.Wrecked(crashed)
    requires plan.key !in around.locked && Swept(crashed, after, around)
    ensures Atomic(plan, after) <==>
            (plan.key in plan.before && crashed[plan.key] == plan.before[plan.key]) || crashed[plan.key] == plan.before[plan.staging]
    ensures plan.key in after && after[plan.key] == crashed[plan.key]
    ensures plan.backup in around.removable ==> plan.backup !in after
  {
    assert Lookup(after, plan.key) == Inherited(crashed, around, plan.key);
    assert Lookup(after, plan.backup) == Leftover(crashed, around, plan.key, plan.backup);
  }

  /** The plan of an installer: the names it really uses for one version. */
  function InstallerPlan(before: Entries, version: string, sha256: string, digest: PathDigest, suffix: string,
                         pid: string, nanos: string): Plan {
    var key := EntryName(version, sha256, digest);
    Plan(before, key, StagingName(key, suffix), BackupName(SafeComponent(key, digest), pid, nanos))
  }

  /** Such names belong together, and the staging directory is taken for a backup only
      if the key contains the marker. */
  lemma InstallerPlanIsWellChosen(before: Entries, version: string, sha256: string, digest: PathDigest, suffix: string,
                                  pid: string, nanos: string)
    requires |sha256| == 64 && AllHex(sha256) && AllAlphanumeric(suffix) && AllDigits(pid) && AllDigits(nanos)
    requires var plan := InstallerPlan(before, version, sha256, digest, suffix, pid, nanos);
             plan.staging in before && plan.backup !in before
    ensures var plan := InstallerPlan(before, version, sha256, digest, suffix, pid, nanos);
            && WellChosen(plan)
            && (LooksLikeBackup(plan.staging) <==> Contains(plan.key, BACKUP))
  {
    hide WorkDirCacheKey, LooksLikeBackup, Contains;
    var raw := version + "-sha256-" + sha256;
    var key := EntryName(version, sha256, digest);
    ComponentIsClean(raw, digest);
    ComponentIdempotent(raw, digest);
    PublishedIsNotWorkDir(raw, digest);
    SweepAndInstallerAgree(raw, digest, pid, nanos, suffix);
    BackupLooksLikeBackup(key, pid, nanos);
    StagingLooksLikeBackup(key, suffix);
    EntryIsNotLockFile(version, sha256, raw, digest);
    HexKeyConfusableInside(key);
  }

  /** Crash atomicity in the installer's own names: interrupt the publication of any
      version in any recoverable state, sweep, and the entry is the old or the new
      one, for every state of the directory in which no stale backup overtakes the
      publication's own. */
  lemma CrashAtomicity(plan: Plan, version: string, sha256: string, digest: PathDigest, suffix: string, pid: string,
                       nanos: string, crashed: Entries, after: Entries, around: Surroundings)
    requires |sha256| == 64 && AllHex(sha256) && AllAlphanumeric(suffix) && AllDigits(pid) && AllDigits(nanos)
    requires plan == InstallerPlan(plan.before, version, sha256, digest, suffix, pid, nanos)
    requires plan.staging in plan.before && plan.backup !in plan.before && plan.key !in around.locked
    requires Swept(crashed, after, around)
    ensures WellChosen(plan)
    ensures && plan.Recoverable(crashed) && !Overtaken(plan, crashed, around) && BackupUsable(plan, crashed, around)
            && (Contains(plan.key, BACKUP) ==> StagingWhole(plan, crashed))
            ==> Atomic(plan, after)
  {
    InstallerPlanIsWellChosen(plan.before, version, sha256, digest, suffix, pid, nanos);
    hide InstallerPlan, WellChosen, Swept, LooksLikeBackup, Contains;
    if plan.Recoverable(crashed) { CrashThenSweep(plan, crashed, after, around); }
  }

  /** Which of two backups the sweep prefers is decided by their names, not by their
      age: of process 9 and process 10, the backup of process 9 wins. */
  lemma BackupOrderIsNotAge(key: string, older: string, newer: string)
    ensures Before(Codes(BackupName(key, "10", newer)), Codes(BackupName(key, "9", older)))
  {
    var head := "." + key + BACKUP;
    var a, b := "10-" + newer, "9-" + older;
    assert BackupName(key, "10", newer) == head + a && BackupName(key, "9", older) == head + b;
    assert Codes(head + a) == Codes(head) + Codes(a) && Codes(head + b) == Codes(head) + Codes(b);
    BeforeBehindPrefix(Codes(head), Codes(a), Codes(b));
  }

  /** A staging directory abandoned before publication, while the entry is
      missing, becomes the entry exactly when its name is taken for a backup:
      for a key that ends in a hex digit, when the key contains the marker. */
  lemma AbandonedStagingInstalled(crashed: Entries, after: Entries, around: Surroundings, key: string, suffix: string)
    requires AllAlphanumeric(suffix) && key != "" && IsHex(key[|key| - 1])
    requires WorkDirCacheKey(key) == None && key !in crashed && key !in around.locked
    requires StagingName(key, suffix) in crashed && StagingName(key, suffix) in around.renameable
    requires forall n :: n in crashed && WorkOf(n, key) ==> n == StagingName(key, suffix)
    requires Swept(crashed, after, around)
    ensures key in after <==> Contains(key, BACKUP)
    ensures key in after ==> after[key] == crashed[StagingName(key, suffix)]
  {
    var staging := StagingName(key, suffix);
    StagingRoundTrip(key, suffix);
    StagingLooksLikeBackup(key, suffix);
    HexKeyConfusableInside(key);
    if Contains(key, BACKUP) {
      assert Heir(crashed, around, key, staging);
    }
    assert Lookup(after, key) == Inherited(crashed, around, key);
    HeirUnique(crashed, around, key);
  }

  lemma HeirUnique(entries: Entries, around: Surroundings, key: string)
    ensures forall a, b :: Heir(entries, around, key, a) && Heir(entries, around, key, b) ==> a == b
  {
    forall a, b | Heir(entries, around, key, a) && Heir(entries, around, key, b) ensures a == b {
      BeforeTrichotomy(Codes(a), Codes(b));
    }
  }

  lemma HeirExists(entries: Entries, around: Surroundings, key: string, n: string)
    requires key !in entries && Candidate(entries, around, key, n)
    ensures exists b :: Heir(entries, around, key, b)
  {
    var later := set m | m in entries && Candidate(entries, around, key, m) && Before(Codes(n), Codes(m));
    LastOfLater(entries, around, key, n, later);
  }

  lemma {:induction false} LastOfLater(entries: Entries, around: Surroundings, key: string, n: string, later: set<string>)
    requires key !in entries && Candidate(entries, around, key, n)
    requires forall m :: m in later <==> Candidate(entries, around, key, m) && Before(Codes(n), Codes(m))
    ensures exists b :: Heir(entries, around, key, b)
    decreases later
  {
    if later == {} {
      forall m | Candidate(entries, around, key, m) ensures m == n || Before(Codes(m), Codes(n)) {
        BeforeTrichotomy(Codes(m), Codes(n));
        if Codes(m) == Codes(n) { CodesInjective(m, n); }
      }
      assert Heir(entries, around, key, n);
    } else {
      var m :| m in later;
      var rest := set k | k in later && Before(Codes(m), Codes(k));
      BeforeTrichotomy(Codes(m), Codes(m));
      assert m !in rest;
      forall k | Candidate(entries, around, key, k) && Before(Codes(m), Codes(k)) ensures k in later {
        BeforeTransitive(Codes(n), Codes(m), Codes(k));
      }
      LastOfLater(entries, around, key, m, rest);
    }
  }

  /** After a sweep an unlocked key has an entry exactly when it had one before or
      some directory taken for its backup could be renamed; whether the others are
      deleted does not depend on that, so failing renames lose the entry. */
  lemma EntryAfterSweep(before: Entries, after: Entries, around: Surroundings, key: string)
    requires WorkDirCacheKey(key) == None && key !in around.locked && Swept(before, after, around)
    ensures key in after <==> key in before || exists n :: Candidate(before, around, key, n)
    ensures (forall n :: !Candidate(before, around, key, n)) ==>
              forall n :: WorkOf(n, key) && n in around.removable ==> n !in after
  {
    assert Lookup(after, key) == Inherited(before, around, key);
    if key !in before && exists n :: Candidate(before, around, key, n) {
      var n :| Candidate(before, around, key, n);
      HeirExists(before, around, key, n);
    }
    forall n | WorkOf(n, key) && n in around.removable ensures n !in after {
      assert Lookup(after, n) == Leftover(before, around, key, n);
    }
  }

  /** Such a key comes from a version that contains the marker. */
  lemma ConfusableKeyExample(sha256: string, digest: PathDigest)
    requires |sha256| == 64 && AllHex(sha256)
    ensures Contains(EntryName("1-backup-2", sha256, digest), BACKUP)
  {
    var raw := "1-backup-2" + "-sha256-" + sha256;
    forall i | 0 <= i < |raw| ensures IsSafe(raw[i]) {
      if i >= 18 { assert raw[i] == sha256[i - 18]; }
    }
    assert raw[|raw| - 1] == sha256[63];
    assert Clean(raw);
    assert raw[1..9] == BACKUP;
    assert OccursAt(raw, BACKUP, 1);
  }

  // ----- the sweep itself

  /** Work directories of each key, in listing order. */
  ghost predicate Grouped(entries: Entries, seen: set<string>, candidates: map<string, seq<string>>) {
    && (forall key :: key in candidates ==> candidates[key] != [])
    && (forall key, i, j :: key in candidates && 0 <= i < j < |candidates[key]| ==> candidates[key][i] != candidates[key][j])
    && (forall key, n :: key in candidates && n in candidates[key] ==> n in seen && n in entries && WorkOf(n, key))
    && (forall n, key :: n in seen && WorkOf(n, key) ==> key in candidates && n in candidates[key])
  }

  lemma GroupedStep(entries: Entries, seen: set<string>, candidates: map<string, seq<string>>, n: string)
    requires Grouped(entries, seen, candidates) && n in entries && n !in seen
    ensures WorkDirCacheKey(n).None? ==> Grouped(entries, seen + {n}, candidates)
    ensures WorkDirCacheKey(n).Some? ==> Grouped(entries, seen + {n}, Extended(candidates, WorkDirCacheKey(n).value, n))
  {
    if WorkDirCacheKey(n).Some? {
      var key := WorkDirCacheKey(n).value;
      var more := Extended(candidates, key, n);
      forall k, m | k in more ensures m in more[k] <==> (k in candidates && m in candidates[k]) || (k == key && m == n) {}
    }
  }

  function Extended(candidates: map<string, seq<string>>, key: string, n: string): map<string, seq<string>> {
    candidates[key := (if key in candidates then candidates[key] else []) + [n]]
  }

  method GroupWorkDirs(dir: Dir) returns (candidates: map<string, seq<string>>)
    ensures Grouped(dir.entries, dir.entries.Keys, candidates)
  {
    candidates := map[];
    var pending := dir.entries.Keys;
    ghost var seen := {};
    while pending != {}
      invariant pending + seen == dir.entries.Keys && pending !! seen
      invariant Grouped(dir.entries, seen, candidates)
      decreases |pending|
    {
      var n :| n in pending;
      GroupedStep(dir.entries, seen, candidates, n);
      pending := pending - {n};
      seen := seen + {n};
      var key := WorkDirCacheKey(n);
      if key.Some? { candidates := Extended(candidates, key.value, n); }
    }
  }

  function BackupsAmong(group: seq<string>): (r: seq<string>)
    ensures forall n :: n in r <==> n in group && LooksLikeBackup(n)
  {
    if group == [] then []
    else (if LooksLikeBackup(group[0]) then [group[0]] else []) + BackupsAmong(group[1..])
  }

  /** Tries the backups from the last name to the first until one can be renamed. */
  method RestoreBackup(dir: Dir, key: string, group: seq<string>, around: Surroundings)
    returns (restored: Option<string>)
    requires dir.Valid() && key !in dir.entries
    requires forall n :: n in group <==> n in dir.entries && WorkOf(n, key)
    modifies dir
    ensures dir.Valid()
    ensures restored.Some? ==>
              && Heir(old(dir.entries), around, key, restored.value)
              && dir.entries == (old(dir.entries) - {restored.value})[key := old(dir.entries)[restored.value]]
    ensures restored.None? ==>
              && dir.entries == old(dir.entries)
              && forall n :: !Candidate(old(dir.entries), around, key, n)
  {
    var backups := SortBy(BackupsAmong(group), PathOrder());
    SortByKeeps(BackupsAmong(group), PathOrder());
    SortByMembers(BackupsAmong(group), PathOrder());
    hide WorkDirCacheKey, LooksLikeBackup, Heir, SortBy, Codes;
    var i := |backups|;
    while i > 0
      invariant 0 <= i <= |backups|
      invariant dir.Valid() && dir.entries == old(dir.entries)
      invariant forall j :: i <= j < |backups| ==> backups[j] !in around.renameable
    {
      i := i - 1;
      assert backups[i] in backups;
      var ok := dir.Rename(backups[i], key, backups[i] !in around.renameable);
      if ok {
        LastRenameableIsHeir(old(dir.entries), around, key, backups, i);
        return Some(backups[i]);
      }
    }
    assert forall n :: Candidate(old(dir.entries), around, key, n) ==> n in backups;
    return None;
  }

  lemma LastRenameableIsHeir(entries: Entries, around: Surroundings, key: string, backups: seq<string>, i: nat)
    requires key !in entries && SortedBy(backups, PathOrder())
    requires forall n :: Candidate(entries, around, key, n) ==> n in backups
    requires i < |backups| && Candidate(entries, around, key, backups[i])
    requires forall j :: i < j < |backups| ==> backups[j] !in around.renameable
    ensures Heir(entries, around, key, backups[i])
  {
    forall m | Candidate(entries, around, key, m) ensures m == backups[i] || Before(Codes(m), Codes(backups[i])) {
      var j :| 0 <= j < |backups| && backups[j] == m;
      assert j < i ==> !Before(PathOrder()(backups[i]), PathOrder()(backups[j]));
      BeforeTrichotomy(Codes(m), Codes(backups[i]));
      if Codes(m) == Codes(backups[i]) { CodesInjective(m, backups[i]); }
    }
  }

  /** What sweeping one unlocked key does. */
  ghost function AfterGroup(before: Entries, around: Surroundings, key: string, n: string): Option<Payload> {
    if WorkOf(n, key) then Leftover(before, around, key, n)
    else if n == key then Inherited(before, around, key)
    else Lookup(before, n)
  }

  predicate Unrepeated(group: seq<string>) { forall i, j :: 0 <= i < j < |group| ==> group[i] != group[j] }

  method DeleteGroup(dir: Dir, group: seq<string>, restored: Option<string>, around: Surroundings) returns (removed: nat)
    requires dir.Valid() && Unrepeated(group)
    requires restored.Some? ==> restored.value !in dir.entries
    modifies dir
    ensures dir.Valid()
    ensures |dir.entries| + removed == |old(dir.entries)|
    ensures forall n :: Lookup(dir.entries, n) ==
                        if n in group && restored != Some(n) then Remains(old(dir.entries), around, n) else Lookup(old(dir.entries), n)
  {
    removed := 0;
    for i := 0 to |group|
      invariant dir.Valid() && |dir.entries| + removed == |old(dir.entries)|
      invariant forall n :: Lookup(dir.entries, n) ==
                            if n in group[..i] && restored != Some(n) then Remains(old(dir.entries), around, n)
                            else Lookup(old(dir.entries), n)
    {
      ghost var now := dir.entries;
      if restored != Some(group[i]) {
        var r;
        ghost var wreck;
        r, wreck := dir.RemoveDirAll(group[i], RemovalFault(around, group[i]));
        if r == Removed { removed := removed + 1; }
      }
      RemovedOne(old(dir.entries), now, dir.entries, group, i, restored, around);
    }
    assert group[..|group|] == group;
  }

  lemma RemovedOne(before: Entries, now: Entries, next: Entries, group: seq<string>, i: nat, restored: Option<string>,
                   around: Surroundings)
    requires i < |group| && forall j :: 0 <= j < i ==> group[j] != group[i]
    requires forall n :: Lookup(now, n) ==
                         if n in group[..i] && restored != Some(n) then Remains(before, around, n) else Lookup(before, n)
    requires forall n :: Lookup(next, n) ==
                         if n == group[i] && restored != Some(n) then Remains(now, around, n) else Lookup(now, n)
    ensures forall n :: Lookup(next, n) ==
                        if n in group[..i + 1] && restored != Some(n) then Remains(before, around, n) else Lookup(before, n)
  {
    assert group[..i + 1] == group[..i] + [group[i]];
    assert group[i] !in group[..i];
    forall n ensures Lookup(next, n) ==
                     if n in group[..i + 1] && restored != Some(n) then Remains(before, around, n) else Lookup(before, n)
    {
      assert Lookup(now, n) == if n in group[..i] && restored != Some(n) then Remains(before, around, n) else Lookup(before, n);
    }
  }

  method SweepGroup(dir: Dir, key: string, group: seq<string>, around: Surroundings) returns (removed: nat)
    requires dir.Valid() && WorkDirCacheKey(key) == None && Unrepeated(group)
    requires forall n :: n in group <==> n in dir.entries && WorkOf(n, key)
    modifies dir
    ensures dir.Valid()
    ensures forall n :: Lookup(dir.entries, n) == AfterGroup(old(dir.entries), around, key, n)
    ensures |dir.entries| + removed == |old(dir.entries)|
  {
    ghost var before := dir.entries;
    var restored: Option<string> := None;
    if key !in dir.entries {
      restored := RestoreBackup(dir, key, group, around);
    }
    ghost var mid := dir.entries;
    removed := DeleteGroup(dir, group, restored, around);
    hide AfterGroup, WorkDirCacheKey;
    forall n ensures Lookup(dir.entries, n) == AfterGroup(before, around, key, n) {
      assert Lookup(dir.entries, n) == if n in group && restored != Some(n) then Remains(mid, around, n) else Lookup(mid, n);
      GroupOutcome(before, mid, around, key, restored, n);
    }
  }

  /** The restored backup or its absence, and then the deletions, make up the outcome. */
  lemma GroupOutcome(before: Entries, mid: Entries, around: Surroundings, key: string, restored: Option<string>, n: string)
    requires WorkDirCacheKey(key) == None
    requires key in before ==> restored == None
    requires restored.Some? ==>
               && Heir(before, around, key, restored.value)
               && mid == (before - {restored.value})[key := before[restored.value]]
    requires restored.None? ==> mid == before && (key !in before ==> forall m :: !Candidate(before, around, key, m))
    ensures AfterGroup(before, around, key, n) ==
            if n in before && WorkOf(n, key) && restored != Some(n) then Remains(mid, around, n) else Lookup(mid, n)
  {
    HeirUnique(before, around, key);
    hide WorkDirCacheKey, LooksLikeBackup;
  }

  lemma HeirsDependOnGroup(a: Entries, b: Entries, around: Surroundings, key: string)
    requires forall n :: WorkOf(n, key) || n == key ==> Lookup(a, n) == Lookup(b, n)
    ensures forall n :: Heir(a, around, key, n) <==> Heir(b, around, key, n)
    ensures Inherited(a, around, key) == Inherited(b, around, key)
    ensures forall n :: WorkOf(n, key) ==> Leftover(a, around, key, n) == Leftover(b, around, key, n)
  {
    assert Lookup(a, key) == Lookup(b, key);
    forall n ensures Candidate(a, around, key, n) <==> Candidate(b, around, key, n) {
      assert WorkOf(n, key) ==> Lookup(a, n) == Lookup(b, n);
    }
    HeirUnique(a, around, key);
    hide WorkDirCacheKey, LooksLikeBackup, Codes, Before;
    forall n ensures Heir(a, around, key, n) <==> Heir(b, around, key, n) {}
    SameHeirs(a, b, around, key);
    forall n | WorkOf(n, key) ensures Leftover(a, around, key, n) == Leftover(b, around, key, n) {
      assert Lookup(a, n) == Lookup(b, n);
    }
  }

  lemma SameHeirs(a: Entries, b: Entries, around: Surroundings, key: string)
    requires Lookup(a, key) == Lookup(b, key)
    requires forall n :: WorkOf(n, key) ==> Lookup(a, n) == Lookup(b, n)
    requires forall n :: Heir(a, around, key, n) <==> Heir(b, around, key, n)
    ensures Inherited(a, around, key) == Inherited(b, around, key)
  {
    HeirUnique(a, around, key);
    HeirUnique(b, around, key);
    forall n | Heir(a, around, key, n) ensures Lookup(a, n) == Lookup(b, n) && n in a && n in b {
      assert WorkOf(n, key);
    }
    hide Heir, WorkOf;
  }

  /** A key not yet swept counts as locked: sweeping it next extends the outcome. */
  lemma SweptStep(before: Entries, now: Entries, next: Entries, around: Surroundings, key: string, pending: set<string>)
    requires WorkDirCacheKey(key) == None && key in pending && key !in around.locked
    requires Swept(before, now, around.(locked := around.locked + pending))
    requires forall n :: Lookup(next, n) == AfterGroup(now, around, key, n)
    ensures Swept(before, next, around.(locked := around.locked + (pending - {key})))
  {
    var around0 := around.(locked := around.locked + pending);
    var around1 := around.(locked := around.locked + (pending - {key}));
    forall n | WorkOf(n, key) || n == key ensures Lookup(now, n) == Lookup(before, n) {
      assert Lookup(now, n) == AfterSweep(before, around0, n);
    }
    HeirsDependOnGroup(now, before, around, key);
    forall n ensures Lookup(next, n) == AfterSweep(before, around1, n) {
      assert Lookup(next, n) == AfterGroup(now, around, key, n);
      assert Lookup(now, n) == AfterSweep(before, around0, n);
      LocksOnlyGate(before, around, around0, around1, n);
    }
  }

  /** Apart from deciding which keys are swept, locks do not matter. */
  lemma LocksOnlyGate(before: Entries, around: Surroundings, around0: Surroundings, around1: Surroundings, n: string)
    requires around0.(locked := {}) == around1.(locked := {}) == around.(locked := {})
    ensures forall key :: Inherited(before, around0, key) == Inherited(before, around1, key) == Inherited(before, around, key)
    ensures forall key :: Leftover(before, around0, key, n) == Leftover(before, around1, key, n) == Leftover(before, around, key, n)
  {
    forall key, m ensures Heir(before, around0, key, m) <==> Heir(before, around, key, m) {}
    forall key, m ensures Heir(before, around1, key, m) <==> Heir(before, around, key, m) {}
    forall key ensures Inherited(before, around0, key) == Inherited(before, around1, key) == Inherited(before, around, key) {
      HeirUnique(before, around, key);
    }
  }

  method SweepNext(dir: Dir, key: string, group: seq<string>, around: Surroundings,
                   ghost before: Entries, ghost candidates: map<string, seq<string>>, ghost pending: set<string>)
    returns (removed: nat)
    requires dir.Valid() && WellNamed(before) && Grouped(before, before.Keys, candidates)
    requires key in pending && key in candidates && candidates[key] == group
    requires Swept(before, dir.entries, around.(locked := around.locked + pending))
    modifies dir
    ensures dir.Valid()
    ensures Swept(before, dir.entries, around.(locked := around.locked + (pending - {key})))
    ensures |dir.entries| + removed == |old(dir.entries)|
  {
    if key in around.locked {
      assert around.locked + (pending - {key}) == around.locked + pending;
      return 0;
    }
    ghost var now := dir.entries;
    GroupStillThere(before, now, around, candidates, key, pending);
    removed := SweepGroup(dir, key, group, around);
    SweptStep(before, now, dir.entries, around, key, pending);
  }

  /** The startup sweep of one directory, with the number of directories removed. */
  method CleanStaleStagingEntries(dir: Dir, around: Surroundings) returns (removed: nat)
    requires dir.Valid() && WellNamed(dir.entries)
    modifies dir
    ensures dir.Valid()
    ensures Swept(old(dir.entries), dir.entries, around)
    ensures |dir.entries| + removed == |old(dir.entries)|
  {
    var candidates := GroupWorkDirs(dir);
    NothingSwept(dir.entries, around, candidates);
    removed := SweepGroups(dir, around, candidates, dir.entries);
  }

  method SweepGroups(dir: Dir, around: Surroundings, candidates: map<string, seq<string>>, ghost before: Entries)
    returns (removed: nat)
    requires dir.Valid() && WellNamed(before) && Grouped(before, before.Keys, candidates)
    requires Swept(before, dir.entries, around.(locked := around.locked + candidates.Keys))
    modifies dir
    ensures dir.Valid()
    ensures Swept(before, dir.entries, around)
    ensures |dir.entries| + removed == |old(dir.entries)|
  {
    var pending := candidates.Keys;
    removed := 0;
    while pending != {}
      invariant dir.Valid() && |dir.entries| + removed == |old(dir.entries)|
      invariant pending <= candidates.Keys
      invariant Swept(before, dir.entries, around.(locked := around.locked + pending))
      decreases |pending|
    {
      var key :| key in pending;
      var count := SweepNext(dir, key, candidates[key], around, before, candidates, pending);
      removed := removed + count;
      pending := pending - {key};
    }
    assert around.(locked := around.locked + pending) == around by { assert around.locked + pending == around.locked; }
  }

  lemma NothingSwept(before: Entries, around: Surroundings, candidates: map<string, seq<string>>)
    requires Grouped(before, before.Keys, candidates)
    ensures Swept(before, before, around.(locked := around.locked + candidates.Keys))
  {
    var keys := candidates.Keys;
    var all := around.(locked := around.locked + keys);
    forall n ensures Lookup(before, n) == AfterSweep(before, all, n) {
      if WorkDirCacheKey(n) == None && n !in all.locked {
        forall b ensures !Heir(before, all, n, b) {
          assert b in before && WorkOf(b, n) ==> n in keys;
        }
      }
    }
  }

  lemma GroupStillThere(before: Entries, now: Entries, around: Surroundings,
                        candidates: map<string, seq<string>>, key: string, pending: set<string>)
    requires WellNamed(before) && Grouped(before, before.Keys, candidates)
    requires key in pending && key in candidates
    requires Swept(before, now, around.(locked := around.locked + pending))
    ensures WorkDirCacheKey(key) == None
    ensures forall n :: n in candidates[key] <==> n in now && WorkOf(n, key)
  {
    assert candidates[key][0] in candidates[key];
    forall n ensures n in candidates[key] <==> n in now && WorkOf(n, key) {
      if WorkOf(n, key) {
        assert Lookup(now, n) == AfterSweep(before, around.(locked := around.locked + pending), n) == Lookup(before, n);
        if n in before { assert n in before.Keys; }
      }
    }
  }

  // ----- the whole tree

  function Sum(counts: seq<nat>): nat {
    if counts == [] then 0 else Sum(counts[..|counts| - 1]) + counts[|counts| - 1]
  }

  predicate Different(dirs: seq<Dir>) { forall i, j :: 0 <= i < j < |dirs| ==> dirs[i] != dirs[j] }

  method GroupAll(dirs: seq<Dir>) returns (listings: seq<map<string, seq<string>>>)
    ensures |listings| == |dirs|
    ensures forall i :: 0 <= i < |dirs| ==> Grouped(dirs[i].entries, dirs[i].entries.Keys, listings[i])
  {
    listings := [];
    for i := 0 to |dirs|
      invariant |listings| == i
      invariant forall j :: 0 <= j < i ==> Grouped(dirs[j].entries, dirs[j].entries.Keys, listings[j])
    {
      var candidates := GroupWorkDirs(dirs[i]);
      listings := listings + [candidates];
    }
  }

  /** The startup sweep of every platform directory: all of them are listed before any
      is touched, and each fares as if it were alone. `counts` says how the number of
      removals adds up. */
  method CleanStaleStagingTree(dirs: seq<Dir>, arounds: seq<Surroundings>) returns (removed: nat, ghost counts: seq<nat>)
    requires |arounds| == |dirs| && Different(dirs)
    requires forall i :: 0 <= i < |dirs| ==> dirs[i].Valid() && WellNamed(dirs[i].entries)
    modifies set d | d in dirs
    ensures |counts| == |dirs| && removed == Sum(counts)
    ensures forall i :: 0 <= i < |dirs| ==>
              && dirs[i].Valid() && Swept(old(dirs[i].entries), dirs[i].entries, arounds[i])
              && |dirs[i].entries| + counts[i] == |old(dirs[i].entries)|
  {
    var listings := GroupAll(dirs);
    hide Swept, WellNamed, Grouped;
    removed, counts := 0, [];
    for i := 0 to |dirs|
      invariant |counts| == i && removed == Sum(counts)
      invariant forall j :: i <= j < |dirs| ==> unchanged(dirs[j])
      invariant forall j :: 0 <= j < i ==>
                  && dirs[j].Valid() && Swept(old(dirs[j].entries), dirs[j].entries, arounds[j])
                  && |dirs[j].entries| + counts[j] == |old(dirs[j].entries)|
    {
      NothingSwept(dirs[i].entries, arounds[i], listings[i]);
      var count := SweepGroups(dirs[i], arounds[i], listings[i], dirs[i].entries);
      removed := removed + count;
      counts := counts + [count];
    }
  }

  // ----- publish, crash, sweep

  /** A name the installer prints in a platform directory. */
  ghost predicate Printed(n: string, digest: PathDigest) {
    || (exists v :: n == SafeComponent(v, digest))
    || (exists v, suffix :: AllAlphanumeric(suffix) && n == StagingName(SafeComponent(v, digest), suffix))
    || (exists v, pid, nanos :: AllDigits(pid) && AllDigits(nanos) && n == BackupName(SafeComponent(v, digest), pid, nanos))
  }

  /** A work directory the installer made belongs to a published name. */
  lemma PrintedIsWellNamed(n: string, digest: PathDigest)
    requires Printed(n, digest) && WorkDirCacheKey(n).Some?
    ensures WorkDirCacheKey(WorkDirCacheKey(n).value) == None
  {
    hide WorkDirCacheKey;
    if v :| n == SafeComponent(v, digest) {
      PublishedIsNotWorkDir(v, digest);
    } else if v, suffix :| AllAlphanumeric(suffix) && n == StagingName(SafeComponent(v, digest), suffix) {
      ComponentIsClean(v, digest);
      StagingRoundTrip(SafeComponent(v, digest), suffix);
      PublishedIsNotWorkDir(v, digest);
    } else {
      var v, pid, nanos :| AllDigits(pid) && AllDigits(nanos) && n == BackupName(SafeComponent(v, digest), pid, nanos);
      ComponentIsClean(v, digest);
      BackupRoundTrip(SafeComponent(v, digest), pid, nanos);
      PublishedIsNotWorkDir(v, digest);
    }
  }

  lemma CrashedIsWellNamed(plan: Plan, crashed: Entries)
    requires WellChosen(plan) && WellNamed(plan.before) && (plan.Recoverable(crashed) || plan.Wrecked(crashed))
    ensures WellNamed(crashed)
  {
    plan.OnTheWayIsRecoverable(crashed);
    forall n | n in crashed && WorkDirCacheKey(n).Some? ensures WorkDirCacheKey(WorkDirCacheKey(n).value) == None {
      assert n in plan.before || n == plan.key || n == plan.staging || n == plan.backup;
    }
  }

  /** The whole story in the installer's own names: a publication runs with whatever
      faults, the machine stops in any of the states it went through, and the next
      start sweeps what is left. The outcome is atomic except after a crash in a
      rollback's deletion, under a stale backup that sorts behind this one, or with a
      half-deleted staging directory under a key that contains the marker. */
  method PublishCrashSweep(dir: Dir, version: string, sha256: string, digest: PathDigest, suffix: string, pid: string,
                           nanos: string, expected: Metadata, env: Environment, replaceExisting: bool, around: Surroundings)
    returns (crashed: Entries, restarted: Dir)
    requires |sha256| == 64 && AllHex(sha256) && AllAlphanumeric(suffix) && AllDigits(pid) && AllDigits(nanos)
    requires dir.Valid() && forall n :: n in dir.entries ==> Printed(n, digest)
    requires var plan := InstallerPlan(dir.entries, version, sha256, digest, suffix, pid, nanos);
             plan.staging in dir.entries && plan.backup !in dir.entries && plan.key !in around.locked
    modifies dir
    ensures fresh(restarted) && restarted.Valid() && Swept(crashed, restarted.entries, around)
    ensures var plan := InstallerPlan(old(dir.entries), version, sha256, digest, suffix, pid, nanos);
            && WellChosen(plan)
            && (plan.Recoverable(crashed) || plan.Wrecked(crashed))
            && (&& plan.Recoverable(crashed) && !Overtaken(plan, crashed, around) && BackupUsable(plan, crashed, around)
                && (Contains(plan.key, BACKUP) ==> StagingWhole(plan, crashed))
                ==> Atomic(plan, restarted.entries))
  {
    ghost var before := dir.entries;
    var plan := InstallerPlan(dir.entries, version, sha256, digest, suffix, pid, nanos);
    InstallerPlanIsWellChosen(before, version, sha256, digest, suffix, pid, nanos);
    forall n | n in before && WorkDirCacheKey(n).Some? ensures WorkDirCacheKey(WorkDirCacheKey(n).value) == None {
      PrintedIsWellNamed(n, digest);
    }
    hide InstallerPlan, WorkDirCacheKey, LooksLikeBackup, Contains, Printed, Swept;
    crashed := PublishUntilCrash(dir, plan, expected, env, replaceExisting);
    CrashedIsWellNamed(plan, crashed);
    restarted := new Dir(crashed);
    var removed := CleanStaleStagingEntries(restarted, around);
    CrashAtomicity(plan, version, sha256, digest, suffix, pid, nanos, crashed, restarted.entries, around);
  }

  /** Runs a publication and stops in one of the states it went through. */
  method PublishUntilCrash(dir: Dir, plan: Plan, expected: Metadata, env: Environment, replaceExisting: bool)
    returns (crashed: Entries)
    requires dir.Valid() && plan.Valid() && plan.before == dir.entries
    modifies dir
    ensures plan.Recoverable(crashed) || plan.Wrecked(crashed)
  {
    var start := |dir.history| - 1;
    var transaction := new PromotionTransaction(dir, plan.key, plan.staging);
    var faulty, dropFaulty := *, *;
    var result := transaction.Run(expected, env, replaceExisting, plan.backup, faulty, dropFaulty, plan);
    var moment: nat :| start <= moment < |dir.history|;
    crashed := dir.history[moment];
  }
}
