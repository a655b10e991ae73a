/** Extracting a ZIP archive under a byte budget. What an entry yields is read piece
    by piece and need not be what its header declares. */
module Archive {
  import opened Bytes

  datatype Limits = Limits(maxExpandedBytes: nat, maxEntries: nat, maxFiles: nat)

  datatype Kind = Directory | Symlink | File

  /** `pieces` are the sizes of the reads the entry yields, up to the first empty
      one; `safe` says that its path stays inside the destination, `targetSafe`
      the same of a link's target. */
  datatype ZipEntry = ZipEntry(kind: Kind, safe: bool, declared: nat, pieces: seq<nat>, targetSafe: bool)

  function Yield(pieces: seq<nat>): nat {
    if pieces == [] || pieces[0] == 0 then 0 else pieces[0] + Yield(pieces[1..])
  }

  /** Everything an extraction writes to: it can never take in more bytes than the
      budget nor hold more files and links than allowed. */
  class Output {
    const budget: nat
    const maxFiles: nat
    var taken: nat
    var files: nat

    constructor (budget: nat, maxFiles: nat)
      ensures this.budget == budget && this.maxFiles == maxFiles && taken == 0 && files == 0
    {
      this.budget, this.maxFiles, taken, files := budget, maxFiles, 0, 0;
    }

    method WriteAll(n: nat)
      requires taken + n <= budget
      modifies this`taken
      ensures taken == old(taken) + n
    {
      taken := taken + n;
    }

    /** A new file or link. */
    method Create()
      requires files < maxFiles
      modifies this`files
      ensures files == old(files) + 1
    {
      files := files + 1;
    }
  }

  datatype CopyResult = Copied(bytes: nat) | CopyCancelled | CopyFault | SizeOverflow | LimitExceeded

  /** Copies one entry; `disturbed` allows cancellations and read or write faults. */
  method CopyWithLimit(pieces: seq<nat>, out: Output, maxBytes: nat, disturbed: bool) returns (r: CopyResult)
    requires out.taken + maxBytes <= out.budget && maxBytes < U64
    modifies out`taken
    ensures old(out.taken) <= out.taken <= old(out.taken) + maxBytes
    ensures r.Copied? ==> r.bytes == Yield(pieces) <= maxBytes && out.taken == old(out.taken) + r.bytes
    ensures r.LimitExceeded? || r.SizeOverflow? ==> Yield(pieces) > maxBytes
    ensures r.CopyCancelled? || r.CopyFault? ==> disturbed
  {
    var copied, i := 0, 0;
    while true
      invariant i <= |pieces| && copied + Yield(pieces[i..]) == Yield(pieces)
      invariant 0 <= copied <= maxBytes && out.taken == old(out.taken) + copied
      decreases |pieces| - i
    {
      var cancelled, fault := *, *;
      if disturbed && cancelled { return CopyCancelled; }
      if disturbed && fault { return CopyFault; }
      if i == |pieces| || pieces[i] == 0 { return Copied(copied); }
      assert Yield(pieces[i..]) == pieces[i] + Yield(pieces[i + 1..]);
      if copied + pieces[i] >= U64 { return SizeOverflow; }
      copied := copied + pieces[i];
      if copied > maxBytes { return LimitExceeded; }
      out.WriteAll(pieces[i]);
      i := i + 1;
    }
  }

  // ----- what an acceptable archive is

  function Declared(entries: seq<ZipEntry>): nat {
    if entries == [] then 0 else Declared(entries[..|entries| - 1]) + entries[|entries| - 1].declared
  }

  function Files(entries: seq<ZipEntry>): nat {
    if entries == [] then 0
    else Files(entries[..|entries| - 1]) + (if entries[|entries| - 1].kind == Directory then 0 else 1)
  }

  /** Bytes the entries really yield. */
  function Payload(entries: seq<ZipEntry>): nat {
    if entries == [] then 0
    else Payload(entries[..|entries| - 1]) +
         (if entries[|entries| - 1].kind == Directory then 0 else Yield(entries[|entries| - 1].pieces))
  }

  /** The entry is inside the destination and holds what it declares. */
  predicate Honest(e: ZipEntry) {
    && e.safe
    && (e.kind != Directory ==> Yield(e.pieces) == e.declared)
    && (e.kind == Symlink ==> e.targetSafe)
  }

  predicate Acceptable(entries: seq<ZipEntry>, limits: Limits) {
    && |entries| <= limits.maxEntries
    && Declared(entries) <= limits.maxExpandedBytes
    && Files(entries) <= limits.maxFiles
    && forall i :: 0 <= i < |entries| ==> Honest(entries[i])
  }

  lemma {:induction false} TotalsGrow(entries: seq<ZipEntry>, i: nat)
    requires i <= |entries|
    ensures Declared(entries[..i]) <= Declared(entries) && Files(entries[..i]) <= Files(entries)
    decreases |entries|
  {
    if i == |entries| {
      assert entries[..i] == entries;
    } else {
      var prefix := entries[..|entries| - 1];
      assert prefix[..i] == entries[..i];
      TotalsGrow(prefix, i);
    }
  }

  /** How the totals grow with one more entry. */
  lemma TotalsStep(entries: seq<ZipEntry>, i: nat)
    requires i < |entries|
    ensures var sofar, more, e := entries[..i], entries[..i + 1], entries[i];
            && Declared(more) == Declared(sofar) + e.declared
            && Files(more) == Files(sofar) + (if e.kind == Directory then 0 else 1)
            && Payload(more) == Payload(sofar) + (if e.kind == Directory then 0 else Yield(e.pieces))
  {
    assert entries[..i + 1][..i] == entries[..i];
  }

  lemma NoTotals(entries: seq<ZipEntry>)
    ensures Declared(entries[..0]) == Files(entries[..0]) == Payload(entries[..0]) == 0
  {
  }

  datatype ZipResult = Extracted | Rejected | Interrupted

  /** A file is created first and filled then. */
  method ExtractFile(entry: ZipEntry, out: Output, maxBytes: nat, disturbed: bool) returns (r: ZipResult)
    requires entry.kind == File && entry.safe && maxBytes < U64
    requires out.taken + maxBytes <= out.budget && out.files < out.maxFiles
    modifies out
    ensures old(out.taken) <= out.taken <= old(out.taken) + maxBytes && out.files == old(out.files) + 1
    ensures r == Extracted ==> Honest(entry) && out.taken == old(out.taken) + Yield(entry.pieces)
    ensures r == Rejected ==> !Honest(entry) || entry.declared > maxBytes
    ensures r == Interrupted ==> disturbed
  {
    out.Create();
    var copy := CopyWithLimit(entry.pieces, out, maxBytes, disturbed);
    match copy
    case Copied(n) => return if n != entry.declared then Rejected else Extracted;
    case CopyCancelled => return Interrupted;
    case CopyFault => return Interrupted;
    case _ => return Rejected;
  }

  /** A link's target is read in full before the link is made. */
  method ExtractSymlink(entry: ZipEntry, out: Output, maxBytes: nat, disturbed: bool) returns (r: ZipResult)
    requires entry.kind == Symlink && entry.safe && maxBytes < U64
    requires out.taken + maxBytes <= out.budget && out.files < out.maxFiles
    modifies out
    ensures old(out.taken) <= out.taken <= old(out.taken) + maxBytes
    ensures out.files == if r == Extracted then old(out.files) + 1 else old(out.files)
    ensures r == Extracted ==> Honest(entry) && out.taken == old(out.taken) + Yield(entry.pieces)
    ensures r == Rejected ==> !Honest(entry) || entry.declared > maxBytes
    ensures r == Interrupted ==> disturbed
  {
    var copy := CopyWithLimit(entry.pieces, out, maxBytes, disturbed);
    match copy
    case Copied(n) =>
      if n != entry.declared || !entry.targetSafe { return Rejected; }
      out.Create();
      return Extracted;
    case CopyCancelled => return Interrupted;
    case CopyFault => return Interrupted;
    case _ => return Rejected;
  }

  /** The budget left for one entry is what earlier entries declared not to use;
      whatever the entries yield, no more than the budget is ever taken in and no
      more files and links than allowed are ever created. */
  method ExtractZip(entries: seq<ZipEntry>, limits: Limits, out: Output, disturbed: bool) returns (r: ZipResult)
    requires limits.maxExpandedBytes < U64
    requires out.budget == limits.maxExpandedBytes && out.maxFiles == limits.maxFiles && out.taken == out.files == 0
    modifies out
    ensures out.taken <= limits.maxExpandedBytes && out.files <= limits.maxFiles
    ensures r == Extracted ==> Acceptable(entries, limits) && out.taken == Payload(entries) && out.files == Files(entries)
    ensures r == Rejected ==> !Acceptable(entries, limits)
    ensures r == Interrupted ==> disturbed
  {
    hide Declared, Files, Payload, Yield;
    NoTotals(entries);
    var expanded, files := 0, 0;
    if |entries| > limits.maxEntries { return Rejected; }
    for index := 0 to |entries|
      invariant expanded == Declared(entries[..index]) <= limits.maxExpandedBytes
      invariant files == Files(entries[..index]) <= limits.maxFiles
      invariant forall i :: 0 <= i < index ==> Honest(entries[i])
      invariant out.taken == Payload(entries[..index]) <= expanded
      invariant out.files == files
    {
      TotalsStep(entries, index);
      TotalsGrow(entries, index + 1);
      var cancelled, fault := *, *;
      if disturbed && (cancelled || fault) { return Interrupted; }
      var entry := entries[index];
      if !entry.safe { return Rejected; }
      var expandedBeforeEntry := expanded;
      if expanded + entry.declared >= U64 { return Rejected; }
      expanded := expanded + entry.declared;
      if expanded > limits.maxExpandedBytes { return Rejected; }
      if entry.kind == Directory { continue; }
      files := files + 1;
      if files > limits.maxFiles { return Rejected; }
      if entry.kind == Symlink {
        r := ExtractSymlink(entry, out, limits.maxExpandedBytes - expandedBeforeEntry, disturbed);
      } else {
        r := ExtractFile(entry, out, limits.maxExpandedBytes - expandedBeforeEntry, disturbed);
      }
      if r != Extracted { return; }
    }
    assert entries[..|entries|] == entries;
    return Extracted;
  }
}
