/** The streaming hash of an extracted payload: directories arrive in whatever
    order the operating system lists them and files in whatever pieces they are
    read, and the hasher is updated in place. */
module PayloadHash {
  import opened Bytes
  import opened Ordering
  import opened PayloadTree

  /** A payload as the operating system presents it while it is being hashed: a
      file declares a length first and is read piece by piece afterwards, where a
      failing one yields an error in place of its end. */
  datatype Listed =
    | ListedDir(entries: seq<ListedEntry>)
    | ListedFile(declared: nat, pieces: seq<bytes>, failing: bool)
    | ListedLink(target: bytes)
    | ListedOther(length: nat)
    | Inaccessible

  datatype ListedEntry = ListedEntry(name: bytes, node: Listed)

  function ListedNameOf(): ListedEntry -> seq<int> { (e: ListedEntry) => e.name }

  /** Reading ends at the first empty read. */
  function ReadAll(pieces: seq<bytes>): bytes {
    if pieces == [] || pieces[0] == [] then [] else pieces[0] + ReadAll(pieces[1..])
  }

  /** The payload that was observed, free of listing order and read sizes. */
  function Observed(l: Listed): Node
    decreases l, 1
  {
    match l
    case ListedDir(es) => Dir(ObservedAll(es))
    case ListedFile(_, pieces, _) => File(ReadAll(pieces))
    case ListedLink(target) => Link(target)
    case ListedOther(length) => Other(length)
    case Inaccessible => Other(0)
  }

  function ObservedEntry(e: ListedEntry): Entry
    decreases e, 2
  {
    Entry(e.name, Observed(e.node))
  }

  function ObservedAll(es: seq<ListedEntry>): seq<Entry>
    decreases es, 0
  {
    if es == [] then [] else [ObservedEntry(es[0])] + ObservedAll(es[1..])
  }

  predicate ReadFails(pieces: seq<bytes>, failing: bool) { failing && [] !in pieces }

  ghost predicate Accessible(l: Listed)
    decreases l
  {
    && l != Inaccessible
    && (l.ListedFile? ==> !ReadFails(l.pieces, l.failing))
    && (l.ListedDir? ==> forall e :: e in l.entries ==> Accessible(e.node))
  }

  /** Every file yielded as many bytes as it declared. */
  ghost predicate Unchanged(l: Listed)
    decreases l
  {
    && (l.ListedFile? ==> |ReadAll(l.pieces)| == l.declared)
    && (l.ListedDir? ==> forall e :: e in l.entries ==> Unchanged(e.node))
  }

  /** Some file yields more bytes than a 64-bit counter holds. */
  ghost predicate Oversized(l: Listed)
    decreases l
  {
    || (l.ListedFile? && |ReadAll(l.pieces)| >= U64)
    || (l.ListedDir? && exists e :: e in l.entries && Oversized(e.node))
  }

  datatype Outcome = Hashed | Cancelled | Changed | TooLarge | Unreadable

  class Hasher {
    var fed: bytes

    constructor ()
      ensures fed == []
    {
      fed := [];
    }

    method Update(b: bytes)
      modifies this
      ensures fed == old(fed) + b
    {
      fed := fed + b;
    }

    method UpdateLengthPrefixed(b: bytes)
      modifies this
      ensures fed == old(fed) + LengthPrefixed(b)
    {
      Update(U64Bytes(|b|));
      Update(b);
    }
  }

  /** Another thread may raise the flag at any time, so a check may see either
      value, unless nobody cancels at all. */
  method CancelRequested(cancellable: bool) returns (cancelled: bool)
    ensures cancelled ==> cancellable
  {
    cancelled := *;
    cancelled := cancelled && cancellable;
  }

  lemma ReadNext(fed: bytes, pieces: seq<bytes>, i: nat)
    requires i < |pieces| && pieces[i] != []
    ensures fed + ReadAll(pieces[i..]) == (fed + pieces[i]) + ReadAll(pieces[i + 1..])
    ensures |ReadAll(pieces[i..])| >= |pieces[i]|
  {
    assert pieces[i..][1..] == pieces[i + 1..];
  }

  method HashFileBody(declared: nat, pieces: seq<bytes>, failing: bool, hasher: Hasher, cancellable: bool)
    returns (r: Outcome)
    modifies hasher
    ensures old(hasher.fed) <= hasher.fed
    ensures r == Hashed ==> |ReadAll(pieces)| == declared && hasher.fed == old(hasher.fed) + ReadAll(pieces)
    ensures r == Hashed ==> !ReadFails(pieces, failing)
    ensures r == Unreadable ==> ReadFails(pieces, failing)
    ensures r == Changed ==> |ReadAll(pieces)| != declared
    ensures r == TooLarge ==> |ReadAll(pieces)| >= U64
    ensures r == Cancelled ==> cancellable
  {
    var i, actual := 0, 0;
    ghost var before := hasher.fed;
    while true
      invariant i <= |pieces| && before <= hasher.fed && |hasher.fed| == |before| + actual
      invariant [] !in pieces[..i]
      invariant hasher.fed + ReadAll(pieces[i..]) == before + ReadAll(pieces)
      decreases |pieces| - i
    {
      var cancelled := CancelRequested(cancellable);
      if cancelled { return Cancelled; }
      if i == |pieces| && failing { return Unreadable; }
      if i == |pieces| || pieces[i] == [] { break; }
      ghost var fed := hasher.fed;
      ReadNext(fed, pieces, i);
      if actual + |pieces[i]| >= U64 { return TooLarge; }
      hasher.Update(pieces[i]);
      actual := actual + |pieces[i]|;
      i := i + 1;
    }
    assert hasher.fed + [] == hasher.fed;
    assert |before + ReadAll(pieces)| == |before| + |ReadAll(pieces)|;
    if actual != declared { return Changed; }
    return Hashed;
  }

  /** What hashing a listed entry feeds, apart from its own position. */
  function View(): ListedEntry -> Entry { (e: ListedEntry) => CanonEntry(ObservedEntry(e)) }

  lemma {:induction false} ViewedIsCanon(es: seq<ListedEntry>)
    ensures CanonAll(ObservedAll(es)) == Map(View(), es)
  {
    if es != [] {
      ViewedIsCanon(es[1..]);
      assert es == [es[0]] + es[1..];
    }
  }

  lemma SortedViewIsCanon(es: seq<ListedEntry>)
    ensures Canon(Dir(ObservedAll(es))) == Dir(Map(View(), SortBy(es, ListedNameOf())))
  {
    ViewedIsCanon(es);
    SortCommutes(View(), es, ListedNameOf(), NameOf());
  }

  method HashPayloadEntry(l: Listed, relative: bytes, hasher: Hasher, cancellable: bool) returns (r: Outcome)
    modifies hasher
    ensures old(hasher.fed) <= hasher.fed
    ensures r == Hashed ==> Accessible(l) && Unchanged(l)
    ensures r == Hashed ==> hasher.fed == old(hasher.fed) + Encode(relative, Canon(Observed(l)))
    ensures r == Changed ==> !Unchanged(l)
    ensures r == Unreadable ==> !Accessible(l)
    ensures r == TooLarge ==> Oversized(l)
    ensures r == Cancelled ==> cancellable
    decreases l, 2
  {
    var cancelled := CancelRequested(cancellable);
    if cancelled { return Cancelled; }
    if l == Inaccessible { return Unreadable; }
    hasher.UpdateLengthPrefixed(relative);
    ghost var t, before := Canon(Observed(l)), old(hasher.fed);
    NodeFed(before, relative, t);
    match l
    case ListedDir(es) =>
      r := HashDirectory(l, relative, hasher, cancellable);
    case ListedFile(declared, pieces, failing) =>
      hasher.Update(FILE_TAG);
      hasher.Update(U64Bytes(declared));
      r := HashFileBody(declared, pieces, failing, hasher, cancellable);
      FileFed(before + LengthPrefixed(relative), ReadAll(pieces));
    case ListedLink(target) =>
      hasher.Update(LINK_TAG);
      hasher.UpdateLengthPrefixed(target);
      r := Hashed;
    case ListedOther(length) =>
      hasher.Update(OTHER_TAG);
      hasher.Update(U64Bytes(length));
      r := Hashed;
  }

  lemma NodeFed(before: bytes, relative: bytes, t: Node)
    ensures before + LengthPrefixed(relative) + Tag(t) + Body(relative, t) == before + Encode(relative, t)
  {
  }

  lemma FileFed(before: bytes, content: bytes)
    ensures before + FILE_TAG + U64Bytes(|content|) + content == before + FILE_TAG + LengthPrefixed(content)
  {
  }

  method HashDirectory(l: Listed, relative: bytes, hasher: Hasher, cancellable: bool) returns (r: Outcome)
    requires l.ListedDir?
    modifies hasher
    ensures old(hasher.fed) <= hasher.fed
    ensures r == Hashed ==> Accessible(l) && Unchanged(l)
    ensures r == Hashed ==>
              hasher.fed == old(hasher.fed) + DIR_TAG + Body(relative, Canon(Observed(l)))
    ensures r == Changed ==> !Unchanged(l)
    ensures r == Unreadable ==> !Accessible(l)
    ensures r == TooLarge ==> Oversized(l)
    ensures r == Cancelled ==> cancellable
    decreases l, 1
  {
    hasher.Update(DIR_TAG);
    var sorted := SortBy(l.entries, ListedNameOf());
    hasher.Update(U64Bytes(|sorted|));
    SortByKeeps(l.entries, ListedNameOf());
    SortByMembers(l.entries, ListedNameOf());
    r := HashEntries(sorted, relative, hasher, cancellable, l);
    SortedViewIsCanon(l.entries);
    DirectoryFed(old(hasher.fed), relative, Map(View(), sorted));
  }

  /** The loop over one directory's sorted entries; `parent` is that directory. */
  method HashEntries(sorted: seq<ListedEntry>, relative: bytes, hasher: Hasher, cancellable: bool, ghost parent: Listed)
    returns (r: Outcome)
    requires parent.ListedDir? && forall e :: e in sorted ==> e in parent.entries
    modifies hasher
    ensures old(hasher.fed) <= hasher.fed
    ensures r == Hashed ==> forall e :: e in sorted ==> Accessible(e.node) && Unchanged(e.node)
    ensures r == Hashed ==> hasher.fed == old(hasher.fed) + EncodeAll(relative, Map(View(), sorted))
    ensures r == Changed ==> !Unchanged(parent)
    ensures r == Unreadable ==> !Accessible(parent)
    ensures r == TooLarge ==> Oversized(parent)
    ensures r == Cancelled ==> cancellable
    decreases parent, 0
  {
    hide Encode, EncodeAll, Canon, Observed, Accessible, Unchanged, Oversized;
    ghost var views := Map(View(), sorted);
    for i := 0 to |sorted|
      invariant old(hasher.fed) <= hasher.fed
      invariant forall k :: 0 <= k < i ==> Accessible(sorted[k].node) && Unchanged(sorted[k].node)
      invariant hasher.fed + EncodeAll(relative, views[i..]) == old(hasher.fed) + EncodeAll(relative, views)
    {
      ChildOf(parent, sorted[i]);
      assert views[i] == Entry(sorted[i].name, Canon(Observed(sorted[i].node)));
      ghost var fed := hasher.fed;
      r := HashPayloadEntry(sorted[i].node, Join(relative, sorted[i].name), hasher, cancellable);
      if r != Hashed { return; }
      NextEntryFed(fed, relative, views, i);
    }
    NothingLeftToFeed(hasher.fed, relative, views);
    r := Hashed;
  }

  /** What is wrong with a child is wrong with its directory. */
  lemma ChildOf(parent: Listed, e: ListedEntry)
    requires parent.ListedDir? && e in parent.entries
    ensures Accessible(parent) ==> Accessible(e.node)
    ensures Unchanged(parent) ==> Unchanged(e.node)
    ensures Oversized(e.node) ==> Oversized(parent)
    ensures e.node < parent
  {
  }

  lemma NothingLeftToFeed(fed: bytes, relative: bytes, views: seq<Entry>)
    ensures fed + EncodeAll(relative, views[|views|..]) == fed
  {
    assert views[|views|..] == [];
  }

  lemma NextEntryFed(fed: bytes, relative: bytes, views: seq<Entry>, i: nat)
    requires i < |views|
    ensures fed + EncodeAll(relative, views[i..])
            == (fed + Encode(Join(relative, views[i].name), views[i].node)) + EncodeAll(relative, views[i + 1..])
  {
    assert views[i..][1..] == views[i + 1..] && views[i..][0] == views[i];
    Regroup(fed, Encode(Join(relative, views[i].name), views[i].node), EncodeAll(relative, views[i + 1..]));
  }

  lemma DirectoryFed(before: bytes, relative: bytes, views: seq<Entry>)
    ensures before + DIR_TAG + U64Bytes(|views|) + EncodeAll(relative, views)
            == before + DIR_TAG + Body(relative, Dir(views))
  {
  }

  /** The digest of a payload, whatever order and pieces it was observed in, is the
      digest of the pure encoding of its tree. */
  method HashPayload(l: Listed, sha256: bytes -> string, cancellable: bool) returns (r: Outcome, digest: string)
    ensures r == Hashed ==> Accessible(l) && Unchanged(l) && digest == sha256(Stream(Observed(l)))
    ensures r == Changed ==> !Unchanged(l)
    ensures r == Unreadable ==> !Accessible(l)
    ensures r == TooLarge ==> Oversized(l)
    ensures r == Cancelled ==> cancellable
  {
    var hasher := new Hasher();
    hasher.Update(DOMAIN);
    r := HashPayloadEntry(l, [], hasher, cancellable);
    assert [] + DOMAIN == DOMAIN;
    digest := sha256(hasher.fed);
  }
}
