/** The directory that holds every entry of one agent on one platform: published
    entries, staging directories and backups, side by side under distinct names. */
module PlatformDir {
  import opened Validation

  type Entries = map<string, Payload>

  datatype Removal = Removed | NotFound | Error

  /** How a removal fails: before it touches anything, or half-way, leaving `wreck`. */
  datatype Fault = NoFault | Refused | Stopped(wreck: Payload)

  /** Renames are atomic; a removal takes a directory apart before it is gone.
      `history` remembers every state a crash could leave behind, the current one
      last. */
  class Dir {
    var entries: Entries
    var history: seq<Entries>

    ghost predicate Valid()
      reads this
    {
      history != [] && history[|history| - 1] == entries
    }

    constructor (entries: Entries)
      ensures Valid() && this.entries == entries && history == [entries]
    {
      this.entries := entries;
      history := [entries];
    }

    /** Renames to a name that is free, which nobody else takes meanwhile; fails when
        `from` is missing or the file system reports a fault. */
    method Rename(from: string, to: string, fault: bool) returns (ok: bool)
      requires Valid() && to !in entries
      modifies this
      ensures Valid()
      ensures ok <==> !fault && from in old(entries)
      ensures ok ==> entries == (old(entries) - {from})[to := old(entries)[from]]
      ensures ok ==> history == old(history) + [entries]
      ensures !ok ==> unchanged(this)
    {
      ok := !fault && from in entries;
      if ok {
        entries := (entries - {from})[to := entries[from]];
        history := history + [entries];
      }
    }

    /** Leaves the directory as an arbitrary `wreck` for a while, or for good when the
        removal stops half-way. */
    method RemoveDirAll(name: string, fault: Fault) returns (r: Removal, ghost wreck: Payload)
      requires Valid()
      modifies this
      ensures Valid()
      ensures r == Removed <==> fault == NoFault && name in old(entries)
      ensures r == NotFound <==> fault == NoFault && name !in old(entries)
      ensures r == Removed ==> entries == old(entries) - {name}
      ensures r == Removed ==> history == old(history) + [old(entries)[name := wreck], entries]
      ensures fault.Stopped? ==> wreck == fault.wreck
      ensures r == Error && fault.Stopped? && name in old(entries) ==>
                entries == old(entries)[name := wreck] && history == old(history) + [entries]
      ensures r != Removed && (!fault.Stopped? || name !in old(entries)) ==> unchanged(this)
    {
      var torn: Payload := *;
      if fault.Stopped? { torn := fault.wreck; }
      wreck := torn;
      if fault == Refused { return Error, wreck; }
      if name !in entries { return (if fault == NoFault then NotFound else Error), wreck; }
      history := history + [entries[name := torn]];
      if fault.Stopped? {
        entries := entries[name := torn];
        return Error, wreck;
      }
      entries := entries - {name};
      history := history + [entries];
      return Removed, wreck;
    }
  }
}
