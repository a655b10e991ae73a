/** Names inside the cache: path components, work directories and lock files.
    The installer prints these names and the startup sweep parses them again, so
    both must arrive at the same key and the same lock file. */
module Names {
  import opened Wrappers

  predicate IsDigit(c: char) { '0' <= c <= '9' }

  predicate IsAlphanumeric(c: char) {
    IsDigit(c) || 'a' <= c <= 'z' || 'A' <= c <= 'Z'
  }

  predicate IsSafe(c: char) {
    IsAlphanumeric(c) || c == '.' || c == '-' || c == '_'
  }

  predicate IsHex(c: char) { IsDigit(c) || 'a' <= c <= 'f' }

  predicate AllHex(s: string) { forall i :: 0 <= i < |s| ==> IsHex(s[i]) }

  predicate AllDigits(s: string) { s != "" && forall i :: 0 <= i < |s| ==> IsDigit(s[i]) }

  predicate AllAlphanumeric(s: string) { forall i :: 0 <= i < |s| ==> IsAlphanumeric(s[i]) }

  /** The first six bytes of a SHA-256 (FIPS 180-4) of a name, in lower-case hex. */
  ghost predicate IsPathDigest(f: string -> string) {
    forall v :: |f(v)| == 12 && AllHex(f(v))
  }

  const SAMPLE_DIGEST: string -> string := (v: string) => "000000000000"

  type PathDigest = f: string -> string | IsPathDigest(f) ghost witness SAMPLE_DIGEST

  // ----- safe path components

  /** A name that is already usable as one path component. */
  predicate Clean(v: string) {
    && v != ""
    && (forall i :: 0 <= i < |v| ==> IsSafe(v[i]))
    && v[0] != '.' && v[|v| - 1] != '.'
  }

  function TrimStart(s: string): (r: string)
    ensures r != "" ==> r[0] != '.'
    ensures forall c :: c in r ==> c in s
  {
    if s == "" || s[0] != '.' then s else TrimStart(s[1..])
  }

  function TrimEnd(s: string): (r: string)
    ensures r <= s
    ensures r != "" ==> r[|r| - 1] != '.'
  {
    if s == "" || s[|s| - 1] != '.' then s else TrimEnd(s[..|s| - 1])
  }

  function TrimDots(s: string): string { TrimEnd(TrimStart(s)) }

  function Sanitized(v: string): (r: string) {
    seq(|v|, i requires 0 <= i < |v| => if IsSafe(v[i]) then v[i] else '_')
  }

  /** What is left of a name after unsafe characters and outer dots are gone. */
  function Stem(v: string): string {
    var trimmed := TrimDots(Sanitized(v));
    if trimmed == "" then "_" else trimmed
  }

  function SafeComponent(v: string, digest: PathDigest): string {
    if Clean(v) then v else Stem(v) + "-" + digest(v)
  }

  const UPPER := "ABCDEFGHIJKLMNOPQRSTUVWXYZ"
  const LOWER := "abcdefghijklmnopqrstuvwxyz"
  const DIGITS := "0123456789"

  /** The characters that a component may contain, spelled out. */
  predicate Keeps(c: char) { c in UPPER || c in LOWER || c in DIGITS || c in ".-_" }

  lemma UpperCharacters(c: char)
    ensures c in UPPER <==> 'A' <= c <= 'Z'
  {
    if 'A' <= c <= 'Z' { assert UPPER[c as int - 'A' as int] == c; }
  }

  lemma LowerCharacters(c: char)
    ensures c in LOWER <==> 'a' <= c <= 'z'
  {
    if 'a' <= c <= 'z' { assert LOWER[c as int - 'a' as int] == c; }
  }

  lemma DigitCharacters(c: char)
    ensures c in DIGITS <==> '0' <= c <= '9'
  {
    if '0' <= c <= '9' { assert DIGITS[c as int - '0' as int] == c; }
  }

  lemma SafeCharacters(c: char)
    ensures IsSafe(c) <==> Keeps(c)
  {
    UpperCharacters(c);
    LowerCharacters(c);
    DigitCharacters(c);
    assert c in ".-_" <==> c == '.' || c == '-' || c == '_';
  }

  predicate Dots(s: string) { forall i :: 0 <= i < |s| ==> s[i] == '.' }

  lemma {:induction false} TrimStartIsTail(s: string) returns (i: nat)
    ensures i <= |s| && TrimStart(s) == s[i..] && Dots(s[..i])
  {
    i := 0;
    if s != "" && s[0] == '.' {
      var k := TrimStartIsTail(s[1..]);
      i := k + 1;
      assert s[1..][k..] == s[i..] && s[..i] == [s[0]] + s[1..][..k];
    }
  }

  lemma {:induction false} TrimEndIsHead(s: string)
    ensures Dots(s[|TrimEnd(s)|..])
  {
    if s != "" && s[|s| - 1] == '.' {
      TrimEndIsHead(s[..|s| - 1]);
      assert s[|TrimEnd(s)|..] == s[..|s| - 1][|TrimEnd(s)|..] + [s[|s| - 1]];
    }
  }

  /** Where the dots around are cut off. */
  lemma DotsAreTrimmed(s: string) returns (i: nat, j: nat)
    ensures i <= j <= |s| && Dots(s[..i]) && Dots(s[j..]) && TrimDots(s) == s[i..j]
    ensures i < j ==> s[i] != '.' && s[j - 1] != '.'
  {
    i := TrimStartIsTail(s);
    hide Dots, TrimStart, TrimEnd;
    var tail := s[i..];
    TrimEndIsHead(tail);
    var kept := TrimEnd(tail);
    j := i + |kept|;
    PartsOfTail(s, i, kept);
  }

  lemma PartsOfTail(s: string, i: nat, kept: string)
    requires i <= |s| && kept <= s[i..]
    ensures i + |kept| <= |s| && s[i + |kept|..] == s[i..][|kept|..] && s[i..i + |kept|] == kept
    ensures kept != "" ==> s[i] == kept[0] && s[i + |kept| - 1] == kept[|kept| - 1] && s[i..][0] == s[i]
  {
  }

  /** Only dots are left out in front of `i` and from `j` on. */
  predicate CutOut(v: string, i: int, j: int) {
    0 <= i <= j <= |v| && Dots(v[..i]) && Dots(v[j..]) && (i < j ==> v[i] != '.' && v[j - 1] != '.')
  }

  /** `r` has each character of `v` that may be kept, and an underscore for each other. */
  predicate Replaces(r: string, v: string) {
    |r| == |v| && forall i :: 0 <= i < |v| ==> if Keeps(v[i]) then r[i] == v[i] else r[i] == '_'
  }

  lemma SanitizedReplaces(v: string)
    ensures Replaces(Sanitized(v), v)
    ensures forall i :: 0 <= i < |v| ==> (Sanitized(v)[i] == '.' <==> v[i] == '.')
  {
    forall i | 0 <= i < |v| ensures IsSafe(v[i]) <==> Keeps(v[i]) { SafeCharacters(v[i]); }
    hide Keeps;
  }

  lemma StemSpells(v: string) returns (i: nat, j: nat)
    ensures CutOut(v, i, j) && if i == j then Stem(v) == "_" else Replaces(Stem(v), v[i..j])
  {
    SanitizedReplaces(v);
    hide Keeps;
    i, j := DotsAreTrimmed(Sanitized(v));
    assert Dots(v[..i]) by { assert forall k :: 0 <= k < i ==> Sanitized(v)[..i][k] == '.'; }
    assert Dots(v[j..]) by { assert forall k :: 0 <= k < |v| - j ==> Sanitized(v)[j..][k] == '.'; }
    assert Sanitized(v)[i..j] == TrimDots(Sanitized(v));
  }

  /** The component of `v` when it is not `v`: the dots around are cut off, each
      character that is not safe becomes an underscore, so does an empty rest, and a dash
      and the digest of the name follow. */
  ghost predicate Rewritten(v: string, component: string, digest: PathDigest) {
    exists i, j, stem :: CutOut(v, i, j) && (if i == j then stem == "_" else Replaces(stem, v[i..j]))
                         && component == stem + "-" + digest(v)
  }

  lemma DirtyIsRewritten(v: string, digest: PathDigest)
    requires !Clean(v)
    ensures Rewritten(v, SafeComponent(v, digest), digest)
  {
    hide Keeps, Replaces, CutOut, Stem, Clean;
    var i, j := StemSpells(v);
  }

  lemma CleanIsKept(v: string)
    ensures Clean(v) <==> v != "" && (forall i :: 0 <= i < |v| ==> Keeps(v[i])) && v[0] != '.' && v[|v| - 1] != '.'
  {
    forall i | 0 <= i < |v| ensures IsSafe(v[i]) <==> Keeps(v[i]) { SafeCharacters(v[i]); }
    hide Keeps, IsSafe;
  }

  /** A name stays if and only if its characters are safe and the outer ones no dots, and
      is rewritten otherwise. */
  lemma ComponentSpells(v: string, digest: PathDigest)
    ensures v != "" && (forall i :: 0 <= i < |v| ==> Keeps(v[i])) && v[0] != '.' && v[|v| - 1] != '.' <==>
            SafeComponent(v, digest) == v
    ensures SafeComponent(v, digest) != v ==> Rewritten(v, SafeComponent(v, digest), digest)
  {
    CleanIsKept(v);
    if !Clean(v) {
      DirtyIsRewritten(v, digest);
      ComponentIsClean(v, digest);
    }
    hide Keeps, Rewritten, IsSafe, Stem;
  }

  lemma VersionsAreKept(digest: PathDigest)
    ensures SafeComponent("1.2.3", digest) == "1.2.3"
    ensures exists d :: SafeComponent("../a b", digest) == "_a_b-" + d && |d| == 12
  {
    var v := "../a b";
    assert Sanitized(v) == ".._a_b" && TrimStart(".._a_b") == TrimStart("._a_b") == "_a_b";
    assert SafeComponent(v, digest) == "_a_b-" + digest(v);
  }

  lemma StemIsClean(v: string)
    ensures Clean(Stem(v))
  {
    var t := TrimStart(Sanitized(v));
    var r := TrimEnd(t);
    forall i | 0 <= i < |r| ensures IsSafe(r[i]) {
      assert r[i] == t[i] && t[i] in t && t[i] in Sanitized(v);
    }
    if r != "" { assert r[0] == t[0]; }
  }

  lemma TrimKeepsClean(v: string)
    requires Clean(v)
    ensures Stem(v) == v
  {
    assert Sanitized(v) == v;
  }

  /** The imperative form: one pass that replaces and remembers, then a trim. */
  method SafePathComponent(value: string, digest: PathDigest) returns (r: string)
    ensures r == SafeComponent(value, digest)
  {
    var sanitized, lossy := "", value == "";
    for i := 0 to |value|
      invariant sanitized == Sanitized(value[..i])
      invariant lossy <==> value == "" || exists j :: 0 <= j < i && !IsSafe(value[j])
    {
      var ch := value[i];
      if IsSafe(ch) {
        sanitized := sanitized + [ch];
      } else {
        lossy := true;
        sanitized := sanitized + ['_'];
      }
      assert value[..i + 1] == value[..i] + [ch];
    }
    assert value[..|value|] == value;
    var trimmed := TrimDots(sanitized);
    if trimmed == "" { trimmed := "_"; }
    StemIsClean(value);
    if Clean(value) { TrimKeepsClean(value); }
    if lossy || trimmed != value {
      r := trimmed + "-" + digest(value);
    } else {
      r := trimmed;
    }
  }

  lemma ComponentIsClean(v: string, digest: PathDigest)
    ensures Clean(SafeComponent(v, digest))
  {
    if !Clean(v) {
      StemIsClean(v);
      var r := SafeComponent(v, digest);
      forall i | 0 <= i < |r| ensures IsSafe(r[i]) {
        if i > |Stem(v)| { assert r[i] == digest(v)[i - |Stem(v)| - 1]; }
      }
      assert r[|r| - 1] == digest(v)[11];
    }
  }

  lemma ComponentIdempotent(v: string, digest: PathDigest)
    ensures SafeComponent(SafeComponent(v, digest), digest) == SafeComponent(v, digest)
  {
    ComponentIsClean(v, digest);
  }

  /** The documented claim is that distinct names never share a component. They
      do, and exactly in these cases: one of them is already clean and equals
      what the other was rewritten to, or both were rewritten from the same stem
      under colliding digests. */
  lemma ComponentCollisions(v: string, w: string, digest: PathDigest)
    requires v != w
    ensures SafeComponent(v, digest) == SafeComponent(w, digest) <==>
            || (!Clean(w) && v == Stem(w) + "-" + digest(w))
            || (!Clean(v) && w == Stem(v) + "-" + digest(v))
            || (!Clean(v) && !Clean(w) && Stem(v) == Stem(w) && digest(v) == digest(w))
  {
    ComponentIsClean(v, digest);
    ComponentIsClean(w, digest);
    if !Clean(v) && !Clean(w) && SafeComponent(v, digest) == SafeComponent(w, digest) {
      var r := SafeComponent(v, digest);
      assert |Stem(v)| == |r| - 13 == |Stem(w)|;
      assert Stem(v) == r[..|r| - 13] == Stem(w);
      assert digest(v) == r[|r| - 12..] == digest(w);
    }
  }

  lemma ComponentCollisionExample(digest: PathDigest)
    ensures "a/b" != "a_b-" + digest("a/b")
    ensures SafeComponent("a/b", digest) == SafeComponent("a_b-" + digest("a/b"), digest)
  {
    var v, w := "a/b", "a_b-" + digest("a/b");
    StemOfExample();
    assert !IsSafe(v[1]);
    assert SafeComponent(v, digest) == w;
    ComponentIsClean(v, digest);
    assert SafeComponent(w, digest) == w;
  }

  lemma StemOfExample()
    ensures Stem("a/b") == "a_b"
  {
    assert Clean("a_b");
    TrimKeepsClean("a_b");
    assert Sanitized("a/b") == "a_b" == Sanitized("a_b");
  }

  // ----- work directory names

  const STAGING := "-staging-"
  const BACKUP := "-backup-"

  predicate OccursAt(s: string, m: string, i: nat) {
    i + |m| <= |s| && s[i..i + |m|] == m
  }

  predicate Contains(s: string, m: string) {
    exists i: nat :: i <= |s| && OccursAt(s, m, i)
  }

  /** Index of the last occurrence of `m` in `s` at or before `from`. */
  function RFind(s: string, m: string, from: nat): (r: Option<nat>)
    requires from <= |s|
    ensures r.Some? ==> r.value <= from && OccursAt(s, m, r.value)
    ensures r.Some? ==> forall j: nat :: r.value < j <= from ==> !OccursAt(s, m, j)
    ensures r.None? ==> forall j: nat :: j <= from ==> !OccursAt(s, m, j)
  {
    if OccursAt(s, m, from) then Some(from)
    else if from == 0 then None
    else RFind(s, m, from - 1)
  }

  /** The cache key a work directory belongs to, if the name is one. */
  function WorkDirCacheKey(name: string): Option<string> {
    if name == "" || name[0] != '.' then None
    else
      var rest := name[1..];
      var s, b := RFind(rest, STAGING, |rest|), RFind(rest, BACKUP, |rest|);
      var index :=
        if s.Some? && b.Some? then Some(if b.value >= s.value then b.value else s.value)
        else if s.Some? then s
        else b;
      if index.None? || index.value == 0 then None else Some(rest[..index.value])
  }

  function StagingName(key: string, suffix: string): string {
    "." + key + STAGING + suffix
  }

  function BackupName(key: string, pid: string, nanos: string): string {
    "." + key + BACKUP + pid + "-" + nanos
  }

  lemma OccurrenceSpells(s: string, m: string, i: nat, k: nat)
    requires k < |m|
    ensures OccursAt(s, m, i) ==> s[i + k] == m[k]
  {
    if OccursAt(s, m, i) { assert s[i..i + |m|][k] == m[k]; }
  }

  /** The last marker in a name decides its key. */
  lemma LastMarkerDecides(name: string, key: string, marker: string)
    requires name != "" && name[0] == '.' && key != ""
    requires marker == STAGING || marker == BACKUP
    requires |key| <= |name[1..]| && name[1..][..|key|] == key && OccursAt(name[1..], marker, |key|)
    requires forall j: nat :: j > |key| ==> !OccursAt(name[1..], STAGING, j) && !OccursAt(name[1..], BACKUP, j)
    ensures WorkDirCacheKey(name) == Some(key)
  {
  }

  /** Behind the first dash of a backup marker every dash stands before a digit. */
  lemma DashesBeforeDigits(key: string, pid: string, nanos: string)
    requires AllDigits(pid) && AllDigits(nanos)
    ensures var rest := key + BACKUP + pid + "-" + nanos;
            forall j :: |key| < j < |rest| && rest[j] == '-' ==> j + 1 < |rest| && IsDigit(rest[j + 1])
  {
    var rest := key + BACKUP + pid + "-" + nanos;
    forall j | |key| < j < |rest| ensures rest[j] == '-' ==> j + 1 < |rest| && IsDigit(rest[j + 1]) {
      assert j < |key| + 8 ==> rest[j] == BACKUP[j - |key|];
      assert |key| + 8 <= j < |key| + 8 + |pid| ==> rest[j] == pid[j - |key| - 8];
      assert j > |key| + 8 + |pid| ==> rest[j] == nanos[j - |key| - 9 - |pid|];
      assert j == |key| + 7 ==> rest[j + 1] == pid[0];
      assert j == |key| + 8 + |pid| ==> rest[j + 1] == nanos[0];
    }
  }

  /** Parsing a printed backup name gives the key back, whatever the key contains. */
  lemma BackupRoundTrip(key: string, pid: string, nanos: string)
    requires key != "" && AllDigits(pid) && AllDigits(nanos)
    ensures WorkDirCacheKey(BackupName(key, pid, nanos)) == Some(key)
  {
    var rest := key + BACKUP + pid + "-" + nanos;
    assert BackupName(key, pid, nanos)[1..] == rest;
    DashesBeforeDigits(key, pid, nanos);
    forall j: nat | j > |key| ensures !OccursAt(rest, STAGING, j) && !OccursAt(rest, BACKUP, j) {
      OccurrenceSpells(rest, STAGING, j, 0);
      OccurrenceSpells(rest, STAGING, j, 1);
      OccurrenceSpells(rest, BACKUP, j, 0);
      OccurrenceSpells(rest, BACKUP, j, 1);
    }
    assert rest[..|key|] == key && rest[|key|..|key| + 8] == BACKUP;
    LastMarkerDecides(BackupName(key, pid, nanos), key, BACKUP);
  }

  lemma StagingRoundTrip(key: string, suffix: string)
    requires key != "" && AllAlphanumeric(suffix)
    ensures WorkDirCacheKey(StagingName(key, suffix)) == Some(key)
  {
    var rest := key + STAGING + suffix;
    assert StagingName(key, suffix)[1..] == rest;
    forall j: nat | |key| < j < |rest| ensures rest[j] == '-' ==> j == |key| + 8 {
      assert j < |key| + 9 ==> rest[j] == STAGING[j - |key|];
      assert j >= |key| + 9 ==> rest[j] == suffix[j - |key| - 9];
    }
    forall j: nat | j > |key| ensures !OccursAt(rest, STAGING, j) && !OccursAt(rest, BACKUP, j) {
      OccurrenceSpells(rest, STAGING, j, 0);
      OccurrenceSpells(rest, STAGING, j, 8);
      OccurrenceSpells(rest, BACKUP, j, 0);
      OccurrenceSpells(rest, BACKUP, j, 7);
    }
    assert rest[..|key|] == key && rest[|key|..|key| + 9] == STAGING;
    LastMarkerDecides(StagingName(key, suffix), key, STAGING);
  }

  /** No published entry is ever mistaken for a work directory. */
  lemma PublishedIsNotWorkDir(v: string, digest: PathDigest)
    ensures WorkDirCacheKey(SafeComponent(v, digest)) == None
  {
    ComponentIsClean(v, digest);
  }

  // ----- lock files

  const LOCK_SUFFIX := "-cache.lock"
  const USE_LOCK_SUFFIX := "-cache.use.lock"

  function LockName(entry: string, digest: PathDigest): string {
    SafeComponent(entry, digest) + LOCK_SUFFIX
  }

  function UseLockName(entry: string, digest: PathDigest): string {
    SafeComponent(entry, digest) + USE_LOCK_SUFFIX
  }

  /** Directory name of the digest-bound entry for one version. */
  function EntryName(version: string, sha256: string, digest: PathDigest): string {
    SafeComponent(version + "-sha256-" + sha256, digest)
  }

  /** The sweep, which knows only a work directory's name, and the installer,
      which knows the entry, open the same publication lock file. */
  lemma SweepAndInstallerAgree(v: string, digest: PathDigest, pid: string, nanos: string, suffix: string)
    requires AllDigits(pid) && AllDigits(nanos) && AllAlphanumeric(suffix)
    ensures var entry := SafeComponent(v, digest);
            && WorkDirCacheKey(BackupName(SafeComponent(entry, digest), pid, nanos)) == Some(entry)
            && WorkDirCacheKey(StagingName(entry, suffix)) == Some(entry)
            && LockName(entry, digest) == entry + LOCK_SUFFIX
  {
    var entry := SafeComponent(v, digest);
    ComponentIsClean(v, digest);
    BackupRoundTrip(entry, pid, nanos);
    StagingRoundTrip(entry, suffix);
  }

  /** Different entries never share a lock file, and no publication lock is
      anybody's use lock. */
  lemma LocksAreSeparate(v: string, w: string, digest: PathDigest)
    ensures LockName(v, digest) != UseLockName(w, digest)
    ensures LockName(v, digest) == LockName(w, digest) <==> SafeComponent(v, digest) == SafeComponent(w, digest)
    ensures UseLockName(v, digest) == UseLockName(w, digest) <==> SafeComponent(v, digest) == SafeComponent(w, digest)
  {
    var a, b := SafeComponent(v, digest), SafeComponent(w, digest);
    var l, u := LockName(v, digest), UseLockName(w, digest);
    assert l[|l| - 11] == '-' && u[|u| - 11] == 'h';
    if LockName(v, digest) == LockName(w, digest) {
      assert a == l[..|l| - 11] == b;
    }
    if UseLockName(v, digest) == UseLockName(w, digest) {
      assert a == UseLockName(v, digest)[..|u| - 15];
      assert b == u[..|u| - 15];
    }
  }

  /** An entry directory ends in a hex digit, so it is never one of the lock
      files that live beside it. */
  lemma EntryIsNotLockFile(version: string, sha256: string, v: string, digest: PathDigest)
    requires |sha256| == 64 && AllHex(sha256)
    ensures IsHex(EntryName(version, sha256, digest)[|EntryName(version, sha256, digest)| - 1])
    ensures EntryName(version, sha256, digest) != LockName(v, digest)
    ensures EntryName(version, sha256, digest) != UseLockName(v, digest)
  {
    var raw := version + "-sha256-" + sha256;
    var entry := EntryName(version, sha256, digest);
    if Clean(raw) {
      assert entry[|entry| - 1] == sha256[63];
    } else {
      assert entry[|entry| - 1] == digest(raw)[11];
    }
    assert LockName(v, digest)[|LockName(v, digest)| - 1] == 'k';
    assert UseLockName(v, digest)[|UseLockName(v, digest)| - 1] == 'k';
  }

  // ----- how the sweep tells a backup from a staging directory

  /** The sweep looks for the backup marker anywhere in a work directory's name. */
  predicate LooksLikeBackup(name: string) { Contains(name, BACKUP) }

  lemma BackupLooksLikeBackup(key: string, pid: string, nanos: string)
    ensures LooksLikeBackup(BackupName(key, pid, nanos))
  {
    assert OccursAt(BackupName(key, pid, nanos), BACKUP, |key| + 1);
  }

  /** A staging directory is taken for a backup exactly when its key, followed by
      the dash of its own marker, contains the backup marker. */
  lemma StagingLooksLikeBackup(key: string, suffix: string)
    requires AllAlphanumeric(suffix)
    ensures LooksLikeBackup(StagingName(key, suffix)) <==> Contains(key + "-", BACKUP)
  {
    if Contains(key + "-", BACKUP) {
      var i: nat :| i <= |key| + 1 && OccursAt(key + "-", BACKUP, i);
      MarkerInKeyIsInName(key, suffix, i);
    }
    if LooksLikeBackup(StagingName(key, suffix)) {
      var i: nat :| i <= |StagingName(key, suffix)| && OccursAt(StagingName(key, suffix), BACKUP, i);
      BackupMarkerEndsInKey(key, suffix, i);
      MarkerInNameIsInKey(key, suffix, i);
    }
  }

  lemma MarkerInKeyIsInName(key: string, suffix: string, i: nat)
    requires OccursAt(key + "-", BACKUP, i)
    ensures Contains(StagingName(key, suffix), BACKUP)
  {
    var name, head := StagingName(key, suffix), key + "-";
    assert name[1..1 + |head|] == head;
    assert name[i + 1..i + 9] == head[i..i + 8];
    assert OccursAt(name, BACKUP, i + 1);
  }

  lemma MarkerInNameIsInKey(key: string, suffix: string, i: nat)
    requires OccursAt(StagingName(key, suffix), BACKUP, i) && i + 7 <= |key| + 1
    ensures Contains(key + "-", BACKUP)
  {
    var name, head := StagingName(key, suffix), key + "-";
    OccurrenceSpells(name, BACKUP, i, 0);
    assert name[1..1 + |head|] == head;
    assert head[i - 1..i + 7] == name[i..i + 8];
    assert OccursAt(head, BACKUP, i - 1);
  }

  lemma BackupMarkerEndsInKey(key: string, suffix: string, i: nat)
    requires AllAlphanumeric(suffix) && OccursAt(StagingName(key, suffix), BACKUP, i)
    ensures i + 7 <= |key| + 1
  {
    DashesAfterKey(key, suffix);
    var name := StagingName(key, suffix);
    OccurrenceSpells(name, BACKUP, i, 1);
    OccurrenceSpells(name, BACKUP, i, 7);
    assert name[i + 7] == '-' && name[i + 1] == 'b';
  }

  /** The only dash of a staging name behind its marker's first is the marker's last. */
  lemma DashesAfterKey(key: string, suffix: string)
    requires AllAlphanumeric(suffix)
    ensures var name := StagingName(key, suffix);
            forall j :: |key| + 1 < j < |name| && name[j] == '-' ==> j == |key| + 9 && name[j - 6] == 't'
  {
    var name := StagingName(key, suffix);
    forall j | |key| + 1 < j < |name| ensures name[j] == '-' ==> j == |key| + 9 && name[j - 6] == 't' {
      assert j < |key| + 10 ==> name[j] == STAGING[j - 1 - |key|];
      assert j >= |key| + 10 ==> name[j] == suffix[j - |key| - 10];
      assert j == |key| + 9 ==> name[j - 6] == STAGING[2];
    }
  }

  /** A key that ends in a hex digit is confusable only through its interior. */
  lemma HexKeyConfusableInside(key: string)
    requires key != "" && IsHex(key[|key| - 1])
    ensures Contains(key + "-", BACKUP) <==> Contains(key, BACKUP)
  {
    var head := key + "-";
    if Contains(head, BACKUP) {
      var i: nat :| i <= |head| && OccursAt(head, BACKUP, i);
      var m := head[i..i + 8];
      assert head[i + 6] == m[6] == 'p';
      assert i + 7 != |key|;
      assert key[i..i + 8] == m;
      assert OccursAt(key, BACKUP, i);
    }
    if Contains(key, BACKUP) {
      var i: nat :| i <= |key| && OccursAt(key, BACKUP, i);
      assert head[i..i + 8] == key[i..i + 8];
      assert OccursAt(head, BACKUP, i);
    }
  }
}
