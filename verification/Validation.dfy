/** When a cache entry may be executed: its manifest must describe the expected
    target and its digests must still match what is on disk. */
module Validation {
  import opened Bytes
  import opened Names
  import opened PayloadTree
  import opened Wrappers

  datatype Metadata = Metadata(
    agentId: string,
    agentVersion: string,
    platform: string,
    archive: string,
    cmd: string,
    sha256: Option<string>,
    executableSha256: Option<string>,
    payloadSha256: Option<string>)

  /** metadata.json of one entry. */
  datatype Manifest = Absent | Corrupt | Parsed(metadata: Metadata)

  /** One cache directory: its manifest and its extracted tree. */
  datatype Payload = Payload(manifest: Manifest, extracted: Node)

  /** The shape of SHA-256 (FIPS 180-4) in lower-case hex. */
  ghost predicate IsSha256(f: bytes -> string) { forall b :: |f(b)| == 64 && AllHex(f(b)) }

  const SAMPLE_SHA256: bytes -> string := (b: bytes) => seq(64, i => '0')

  type Sha256 = f: bytes -> string | IsSha256(f) ghost witness SAMPLE_SHA256

  /** What validation takes from outside: SHA-256, and the resolution of a command
      inside a tree to the regular file it names. */
  datatype Environment = Environment(sha256: Sha256, resolve: (Node, string) -> Option<bytes>)

  function LowerChar(c: char): char {
    if 'A' <= c <= 'Z' then c - 'A' + 'a' else c
  }

  predicate EqualIgnoringCase(a: string, b: string) {
    |a| == |b| && forall i :: 0 <= i < |a| ==> LowerChar(a[i]) == LowerChar(b[i])
  }

  /** Digests are compared in earnest: two of them agree only if they are equal. */
  lemma EqualHexIsEqual(a: string, b: string)
    requires AllHex(a) && AllHex(b)
    ensures EqualIgnoringCase(a, b) <==> a == b
  {
    if EqualIgnoringCase(a, b) {
      forall i | 0 <= i < |a| ensures a[i] == b[i] {
        assert IsHex(a[i]) && IsHex(b[i]) && LowerChar(a[i]) == LowerChar(b[i]);
      }
    }
  }

  function UpperHex(a: string): string { seq(|a|, i requires 0 <= i < |a| => if 'a' <= a[i] <= 'f' then a[i] - 'a' + 'A' else a[i]) }

  /** A manifest may spell its digest in capitals. */
  lemma CapitalsMatch(a: string, b: string)
    requires AllHex(a) && AllHex(b)
    ensures EqualIgnoringCase(UpperHex(a), b) <==> a == b
  {
    var u := UpperHex(a);
    forall i | 0 <= i < |a| ensures LowerChar(u[i]) == LowerChar(a[i]) { assert IsHex(a[i]); }
    EqualHexIsEqual(a, b);
    if EqualIgnoringCase(u, b) {
      forall i | 0 <= i < |a| ensures LowerChar(a[i]) == LowerChar(b[i]) { assert LowerChar(u[i]) == LowerChar(b[i]); }
    }
  }

  predicate SameTarget(m: Metadata, expected: Metadata) {
    && m.agentId == expected.agentId && m.agentVersion == expected.agentVersion
    && m.platform == expected.platform && m.archive == expected.archive
    && m.cmd == expected.cmd && m.sha256 == expected.sha256
  }

  /** A recorded digest must match; a missing one is tolerated only for targets
      that carry no archive digest themselves. */
  predicate DigestHolds(recorded: Option<string>, actual: string, expected: Metadata) {
    match recorded
    case Some(d) => EqualIgnoringCase(d, actual)
    case None => expected.sha256 == None
  }

  ghost predicate Accepts(p: Payload, expected: Metadata, env: Environment) {
    && p.manifest.Parsed?
    && SameTarget(p.manifest.metadata, expected)
    && var executable := env.resolve(p.extracted, expected.cmd);
       && executable.Some?
       && DigestHolds(p.manifest.metadata.executableSha256, env.sha256(executable.value), expected)
       && DigestHolds(p.manifest.metadata.payloadSha256, env.sha256(Stream(p.extracted)), expected)
  }

  datatype Verdict = Valid | Invalid | ReadError

  /** A read that may fail when `faulty` says so. */
  method TryRead(faulty: bool) returns (ok: bool)
    ensures !ok ==> faulty
  {
    ok := *;
    ok := ok || !faulty;
  }

  /** The validation of one entry, check by check. */
  method ValidateCachedBinary(p: Payload, expected: Metadata, env: Environment, faulty: bool) returns (r: Verdict)
    ensures r == Valid ==> Accepts(p, expected, env)
    ensures r == Invalid ==> !Accepts(p, expected, env)
    ensures r == ReadError ==> faulty
  {
    var ok := TryRead(faulty);
    if !ok { return ReadError; }
    if p.manifest == Absent { return Invalid; }
    ok := TryRead(faulty);
    if !ok { return ReadError; }
    if p.manifest == Corrupt { return Invalid; }
    var m := p.manifest.metadata;
    if || m.agentId != expected.agentId || m.agentVersion != expected.agentVersion
       || m.platform != expected.platform || m.archive != expected.archive
       || m.cmd != expected.cmd || m.sha256 != expected.sha256
    {
      return Invalid;
    }
    var executable := env.resolve(p.extracted, m.cmd);
    if executable.None? { return Invalid; }
    if m.executableSha256.Some? {
      ok := TryRead(faulty);
      if !ok { return ReadError; }
      if !EqualIgnoringCase(m.executableSha256.value, env.sha256(executable.value)) { return Invalid; }
    } else if expected.sha256.Some? {
      return Invalid;
    }
    if m.payloadSha256.Some? {
      ok := TryRead(faulty);
      if !ok { return ReadError; }
      if !EqualIgnoringCase(m.payloadSha256.value, env.sha256(Stream(p.extracted))) { return Invalid; }
    } else if expected.sha256.Some? {
      return Invalid;
    }
    return Valid;
  }

  /** The manifest the post-extraction task writes beside a freshly extracted
      tree; it writes none when the command names no regular file. */
  function Seal(extracted: Node, expected: Metadata, env: Environment): Option<Payload> {
    match env.resolve(extracted, expected.cmd)
    case None => None
    case Some(executable) =>
      var m := expected.(executableSha256 := Some(env.sha256(executable)),
                         payloadSha256 := Some(env.sha256(Stream(extracted))));
      Some(Payload(Parsed(m), extracted))
  }

  lemma SealedIsAccepted(extracted: Node, expected: Metadata, env: Environment)
    ensures Seal(extracted, expected, env).Some? <==> env.resolve(extracted, expected.cmd).Some?
    ensures Seal(extracted, expected, env).Some? ==> Accepts(Seal(extracted, expected, env).value, expected, env)
  {
  }

  /** Two different payloads with the same digest. */
  ghost predicate Collision(env: Environment, a: bytes, b: bytes) {
    a != b && env.sha256(a) == env.sha256(b)
  }

  /** A sealed entry whose tree was replaced afterwards passes validation only if
      the new tree is the sealed one, up to listing order, or the two form a
      collision; and the sealed tree in any listing order does pass, provided the
      command still resolves to the same file. */
  lemma TamperingIsDetected(sealed: Node, found: Node, expected: Metadata, env: Environment)
    requires WellFormed(sealed) && WellFormed(found)
    requires Fits([], Canon(sealed)) && Fits([], Canon(found))
    requires Seal(sealed, expected, env).Some?
    ensures var entry := Payload(Seal(sealed, expected, env).value.manifest, found);
            && (Accepts(entry, expected, env) ==>
                  SameTree(found, sealed) || Collision(env, Stream(found), Stream(sealed)))
            && (&& SameTree(found, sealed)
                && env.resolve(found, expected.cmd) == env.resolve(sealed, expected.cmd)
                ==> Accepts(entry, expected, env))
  {
    StreamDecidesSameness(found, sealed);
    EqualHexIsEqual(env.sha256(Stream(sealed)), env.sha256(Stream(found)));
  }

  /** An executable that was replaced after sealing is refused, unless it collides. */
  lemma ReplacedExecutableIsRefused(sealed: Node, found: Node, expected: Metadata, env: Environment)
    requires Seal(sealed, expected, env).Some?
    ensures var entry := Payload(Seal(sealed, expected, env).value.manifest, found);
            Accepts(entry, expected, env) ==>
              && env.resolve(found, expected.cmd).Some?
              && (env.resolve(found, expected.cmd) == env.resolve(sealed, expected.cmd)
                  || Collision(env, env.resolve(found, expected.cmd).value, env.resolve(sealed, expected.cmd).value))
  {
    if env.resolve(found, expected.cmd).Some? {
      EqualHexIsEqual(env.sha256(env.resolve(sealed, expected.cmd).value), env.sha256(env.resolve(found, expected.cmd).value));
    }
  }

  /** Another target's entry, or one without digests where the target has one, is
      refused whatever it contains. */
  lemma ForeignEntriesAreRefused(m: Metadata, extracted: Node, expected: Metadata, env: Environment)
    requires || m.agentId != expected.agentId || m.agentVersion != expected.agentVersion || m.platform != expected.platform
             || m.archive != expected.archive || m.cmd != expected.cmd || m.sha256 != expected.sha256
             || (expected.sha256.Some? && (m.executableSha256 == None || m.payloadSha256 == None))
    ensures !Accepts(Payload(Parsed(m), extracted), expected, env)
  {
  }
}
