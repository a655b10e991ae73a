/** The byte stream an extracted payload feeds to the hasher. */
module PayloadTree {
  import opened Bytes
  import opened Ordering

  /** One file-system node. Mode bits are not part of the digest, and of a node
      that is neither directory, file nor link only its length is. `entries` is in
      the order the operating system listed it. */
  datatype Node =
    | Dir(entries: seq<Entry>)
    | File(content: bytes)
    | Link(target: bytes)
    | Other(length: nat)

  datatype Entry = Entry(name: bytes, node: Node)

  function NameOf(): Entry -> seq<int> { (e: Entry) => e.name }

  /** The `width` low-order base-256 digits of `n`, least significant first. */
  function LittleEndian(n: nat, width: nat): (r: bytes)
    ensures |r| == width
  {
    if width == 0 then [] else [n % 256] + LittleEndian(n / 256, width - 1)
  }

  function U64Bytes(n: nat): bytes { LittleEndian(n, 8) }

  function LengthPrefixed(b: bytes): bytes { U64Bytes(|b|) + b }

  /** Relative path of a child; the payload root has the empty path. */
  function Join(relative: bytes, name: bytes): bytes {
    if relative == [] then name else relative + [47] + name
  }

  const DIR_TAG: bytes := [100]
  const FILE_TAG: bytes := [102]
  const LINK_TAG: bytes := [108]
  const OTHER_TAG: bytes := [111]

  function Encode(relative: bytes, t: Node): bytes
    decreases t, 2
  {
    LengthPrefixed(relative) + (Tag(t) + Body(relative, t))
  }

  function Tag(t: Node): bytes {
    match t
    case Dir(_) => DIR_TAG
    case File(_) => FILE_TAG
    case Link(_) => LINK_TAG
    case Other(_) => OTHER_TAG
  }

  /** What follows the path and the tag in a node's encoding. */
  function Body(relative: bytes, t: Node): bytes
    decreases t, 1
  {
    match t
    case Dir(es) => U64Bytes(|es|) + EncodeAll(relative, es)
    case File(content) => LengthPrefixed(content)
    case Link(target) => LengthPrefixed(target)
    case Other(length) => U64Bytes(length)
  }

  function EncodeAll(relative: bytes, es: seq<Entry>): bytes
    decreases es, 0
  {
    if es == [] then []
    else Encode(Join(relative, es[0].name), es[0].node) + EncodeAll(relative, es[1..])
  }

  /** Every length the encoder writes fits the 64 bits it has for it. */
  predicate Fits(relative: bytes, t: Node)
    decreases t, 1
  {
    && |relative| < U64
    && match t
       case Dir(es) => |es| < U64 && FitsAll(relative, es)
       case File(content) => |content| < U64
       case Link(target) => |target| < U64
       case Other(length) => length < U64
  }

  predicate FitsAll(relative: bytes, es: seq<Entry>)
    decreases es, 0
  {
    es == [] || (Fits(Join(relative, es[0].name), es[0].node) && FitsAll(relative, es[1..]))
  }

  function Power256(k: nat): nat { if k == 0 then 1 else 256 * Power256(k - 1) }

  lemma {:induction false} LittleEndianInjective(a: nat, b: nat, width: nat)
    requires a < Power256(width) && b < Power256(width)
    requires LittleEndian(a, width) == LittleEndian(b, width)
    ensures a == b
  {
    if width > 0 {
      var x, y := LittleEndian(a, width), LittleEndian(b, width);
      assert x[0] == a % 256 && y[0] == b % 256;
      assert x[1..] == LittleEndian(a / 256, width - 1) && y[1..] == LittleEndian(b / 256, width - 1);
      LittleEndianInjective(a / 256, b / 256, width - 1);
    }
  }

  /** The digits of a number are those of its value, the least significant first. */
  lemma {:induction false} LittleEndianDigits(n: nat, width: nat)
    requires n < Power256(width)
    ensures Value(LittleEndian(n, width)) == n
  {
    if width > 0 {
      LittleEndianDigits(n / 256, width - 1);
      assert LittleEndian(n, width)[1..] == LittleEndian(n / 256, width - 1);
    }
  }

  /** The number that the digits `b` stand for. */
  function Value(b: bytes): nat { if b == [] then 0 else b[0] + 256 * Value(b[1..]) }

  /** Both sides of an equation of streams start with a 64-bit number. */
  lemma NumbersSplit(a: nat, s: bytes, b: nat, t: bytes)
    requires a < U64 && b < U64
    requires U64Bytes(a) + s == U64Bytes(b) + t
    ensures a == b && s == t
  {
    var l, r := U64Bytes(a) + s, U64Bytes(b) + t;
    assert l[..8] == U64Bytes(a) && r[..8] == U64Bytes(b);
    assert l[8..] == s && r[8..] == t;
    assert Power256(8) == U64;
    LittleEndianInjective(a, b, 8);
  }

  lemma PrefixedSplit(a: bytes, s: bytes, b: bytes, t: bytes)
    requires |a| < U64 && |b| < U64
    requires LengthPrefixed(a) + s == LengthPrefixed(b) + t
    ensures a == b && s == t
  {
    assert LengthPrefixed(a) + s == U64Bytes(|a|) + (a + s);
    assert LengthPrefixed(b) + t == U64Bytes(|b|) + (b + t);
    NumbersSplit(|a|, a + s, |b|, b + t);
    assert (a + s)[..|a|] == a && (b + t)[..|a|] == b;
    assert (a + s)[|a|..] == s && (b + t)[|a|..] == t;
  }

  lemma EncodeParts(relative: bytes, t: Node, s: bytes)
    ensures Encode(relative, t) + s == LengthPrefixed(relative) + (Tag(t) + (Body(relative, t) + s))
  {
    hide Body, Tag, LengthPrefixed;
    Regroup(LengthPrefixed(relative), Tag(t) + Body(relative, t), s);
    Regroup(Tag(t), Body(relative, t), s);
  }

  lemma TagSplit(t1: Node, b1: bytes, t2: Node, b2: bytes)
    requires Tag(t1) + b1 == Tag(t2) + b2
    ensures Tag(t1) == Tag(t2) && b1 == b2
  {
    assert (Tag(t1) + b1)[..1] == Tag(t1) && (Tag(t2) + b2)[..1] == Tag(t2);
    assert (Tag(t1) + b1)[1..] == b1 && (Tag(t2) + b2)[1..] == b2;
  }

  /** The encoding is prefix-free: it can be cut out of any longer stream in only
      one way. */
  lemma {:induction false} EncodePrefixFree(r1: bytes, t1: Node, s1: bytes, r2: bytes, t2: Node, s2: bytes)
    requires Fits(r1, t1) && Fits(r2, t2)
    requires Encode(r1, t1) + s1 == Encode(r2, t2) + s2
    ensures r1 == r2 && t1 == t2 && s1 == s2
    decreases t1, 2
  {
    var b1, b2 := Body(r1, t1) + s1, Body(r2, t2) + s2;
    EncodeParts(r1, t1, s1);
    EncodeParts(r2, t2, s2);
    hide Encode, Body, Tag, LengthPrefixed;
    PrefixedSplit(r1, Tag(t1) + b1, r2, Tag(t2) + b2);
    TagSplit(t1, b1, t2, b2);
    BodyPrefixFree(r1, t1, s1, t2, s2);
  }

  lemma {:induction false} BodyPrefixFree(relative: bytes, t1: Node, s1: bytes, t2: Node, s2: bytes)
    requires Fits(relative, t1) && Fits(relative, t2) && Tag(t1) == Tag(t2)
    requires Body(relative, t1) + s1 == Body(relative, t2) + s2
    ensures t1 == t2 && s1 == s2
    decreases t1, 1
  {
    assert DIR_TAG[0] == 100 && FILE_TAG[0] == 102 && LINK_TAG[0] == 108 && OTHER_TAG[0] == 111;
    if t1.Dir? {
      var es1, es2 := t1.entries, t2.entries;
      Regroup(U64Bytes(|es1|), EncodeAll(relative, es1), s1);
      Regroup(U64Bytes(|es2|), EncodeAll(relative, es2), s2);
      hide U64Bytes, EncodeAll;
      NumbersSplit(|es1|, EncodeAll(relative, es1) + s1, |es2|, EncodeAll(relative, es2) + s2);
      EncodeAllPrefixFree(relative, es1, s1, es2, s2);
    } else if t1.File? {
      PrefixedSplit(t1.content, s1, t2.content, s2);
    } else if t1.Link? {
      PrefixedSplit(t1.target, s1, t2.target, s2);
    } else {
      NumbersSplit(t1.length, s1, t2.length, s2);
    }
  }

  lemma Regroup(a: bytes, b: bytes, c: bytes)
    ensures (a + b) + c == a + (b + c)
  {
  }

  lemma JoinInjective(relative: bytes, a: bytes, b: bytes)
    requires Join(relative, a) == Join(relative, b)
    ensures a == b
  {
    if relative != [] {
      assert Join(relative, a)[|relative| + 1..] == a;
      assert Join(relative, b)[|relative| + 1..] == b;
    }
  }

  lemma {:induction false} EncodeAllPrefixFree(relative: bytes, es1: seq<Entry>, s1: bytes, es2: seq<Entry>, s2: bytes)
    requires FitsAll(relative, es1) && FitsAll(relative, es2) && |es1| == |es2|
    requires EncodeAll(relative, es1) + s1 == EncodeAll(relative, es2) + s2
    ensures es1 == es2 && s1 == s2
    decreases es1, 0
  {
    if es1 != [] {
      var a, b := es1[0], es2[0];
      var e1, e2 := Encode(Join(relative, a.name), a.node), Encode(Join(relative, b.name), b.node);
      var rest1, rest2 := EncodeAll(relative, es1[1..]), EncodeAll(relative, es2[1..]);
      Regroup(e1, rest1, s1);
      Regroup(e2, rest2, s2);
      EncodePrefixFree(Join(relative, a.name), a.node, rest1 + s1, Join(relative, b.name), b.node, rest2 + s2);
      JoinInjective(relative, a.name, b.name);
      EncodeAllPrefixFree(relative, es1[1..], s1, es2[1..], s2);
      assert es1 == [a] + es1[1..] && es2 == [b] + es2[1..];
    } else {
      assert EncodeAll(relative, es1) + s1 == s1 && EncodeAll(relative, es2) + s2 == s2;
    }
  }

  // ----- listing order

  /** The tree with every directory sorted by name. */
  function Canon(t: Node): Node
    decreases t, 1
  {
    match t
    case Dir(es) => Dir(SortBy(CanonAll(es), NameOf()))
    case _ => t
  }

  function CanonEntry(e: Entry): Entry
    decreases e, 2
  {
    Entry(e.name, Canon(e.node))
  }

  function CanonAll(es: seq<Entry>): seq<Entry>
    decreases es, 0
  {
    if es == [] then [] else [CanonEntry(es[0])] + CanonAll(es[1..])
  }

  /** Names are unique within every directory, as a file system guarantees. */
  ghost predicate WellFormed(t: Node)
    decreases t
  {
    t.Dir? ==>
      && DistinctKeys(t.entries, NameOf())
      && forall e :: e in t.entries ==> WellFormed(e.node)
  }

  /** Same names, nesting, kinds, bytes and link targets, in whatever order the
      directories were listed. */
  ghost predicate SameTree(a: Node, b: Node)
    decreases a, 1
  {
    if a.Dir? && b.Dir? then SameListing(a.entries, b.entries) else a == b
  }

  ghost predicate SameListing(xs: seq<Entry>, ys: seq<Entry>)
    decreases xs, 3
  {
    && |xs| == |ys|
    && (forall x :: x in xs ==> exists y :: y in ys && Twins(x, y))
    && (forall y :: y in ys ==> exists x :: x in xs && Twins(x, y))
  }

  ghost predicate Twins(x: Entry, y: Entry)
    decreases x, 2
  {
    x.name == y.name && SameTree(x.node, y.node)
  }

  /** "acp-agent-payload-tree-v2" and a zero byte. */
  const DOMAIN: bytes := [97, 99, 112, 45, 97, 103, 101, 110, 116, 45, 112, 97, 121, 108, 111, 97, 100,
                          45, 116, 114, 101, 101, 45, 118, 50, 0]

  function Ascii(s: string): seq<int> { seq(|s|, i requires 0 <= i < |s| => s[i] as int) }

  /** The constants of the format, letter by letter. */
  lemma ConstantsSpell()
    ensures DOMAIN == Ascii("acp-agent-payload-tree-v2") + [0]
    ensures DIR_TAG == Ascii("d") && FILE_TAG == Ascii("f") && LINK_TAG == Ascii("l") && OTHER_TAG == Ascii("o")
    ensures Join(Ascii("bin"), Ascii("tool")) == Ascii("bin/tool") && Join([], Ascii("bin")) == Ascii("bin")
  {
  }

  /** The stream of a directory with one file, one link and one special node, listed in
      any order, byte range by byte range. */
  lemma StreamOfExample(content: bytes, target: bytes, length: nat)
    ensures var a, b, c := Entry([97], File(content)), Entry([98], Link(target)), Entry([99], Other(length));
            Stream(Dir([c, a, b]))
            == DOMAIN + (U64Bytes(0) + [100] + U64Bytes(3)
                         + (U64Bytes(1) + [97] + [102] + U64Bytes(|content|) + content)
                         + (U64Bytes(1) + [98] + [108] + U64Bytes(|target|) + target)
                         + (U64Bytes(1) + [99] + [111] + U64Bytes(length)))
  {
    var a, b, c := Entry([97], File(content)), Entry([98], Link(target)), Entry([99], Other(length));
    ExampleIsSorted(a, b, c);
    var es := [a, b, c];
    EncodeAllCons([], a, [b, c]);
    EncodeAllCons([], b, [c]);
    EncodeAllCons([], c, []);
    LeavesSpell([97], content, target, length);
    LeavesSpell([98], content, target, length);
    LeavesSpell([99], content, target, length);
    assert es == [a] + [b, c] && [b, c] == [b] + [c] && [c] == [c] + [];
    assert Encode([], Dir(es)) == LengthPrefixed([]) + (DIR_TAG + (U64Bytes(3) + EncodeAll([], es)));
    hide Encode, U64Bytes, EncodeAll, Stream, DOMAIN;
    DirectorySpells(U64Bytes(0), U64Bytes(3), Encode([97], a.node), Encode([98], b.node), Encode([99], c.node));
  }

  lemma LeavesSpell(name: bytes, content: bytes, target: bytes, length: nat)
    ensures Encode(name, File(content)) == U64Bytes(|name|) + name + [102] + U64Bytes(|content|) + content
    ensures Encode(name, Link(target)) == U64Bytes(|name|) + name + [108] + U64Bytes(|target|) + target
    ensures Encode(name, Other(length)) == U64Bytes(|name|) + name + [111] + U64Bytes(length)
  {
    LeafSpells(U64Bytes(|name|), name, [102], U64Bytes(|content|), content);
    LeafSpells(U64Bytes(|name|), name, [108], U64Bytes(|target|), target);
    Regroup(U64Bytes(|name|) + name, [111], U64Bytes(length));
    hide U64Bytes;
    assert Encode(name, File(content)) == (U64Bytes(|name|) + name) + ([102] + (U64Bytes(|content|) + content));
    assert Encode(name, Link(target)) == (U64Bytes(|name|) + name) + ([108] + (U64Bytes(|target|) + target));
    assert Encode(name, Other(length)) == (U64Bytes(|name|) + name) + ([111] + U64Bytes(length));
    hide Encode;
  }

  lemma LeafSpells(a: bytes, b: bytes, c: bytes, d: bytes, e: bytes)
    ensures (a + b) + (c + (d + e)) == a + b + c + d + e
  {
  }

  lemma DirectorySpells(root: bytes, count: bytes, a: bytes, b: bytes, c: bytes)
    ensures (root + []) + ([100] + (count + (a + (b + (c + []))))) == root + [100] + count + a + b + c
  {
  }

  lemma EncodeAllCons(relative: bytes, e: Entry, rest: seq<Entry>)
    ensures EncodeAll(relative, [e] + rest) == Encode(Join(relative, e.name), e.node) + EncodeAll(relative, rest)
  {
    assert ([e] + rest)[1..] == rest;
  }

  lemma ExampleIsSorted(a: Entry, b: Entry, c: Entry)
    requires a.name == [97] && b.name == [98] && c.name == [99] && !a.node.Dir? && !b.node.Dir? && !c.node.Dir?
    ensures Canon(Dir([c, a, b])) == Dir([a, b, c])
  {
    var es := [c, a, b];
    assert es[1..] == [a, b] && es[1..][1..] == [b] && es[1..][1..][1..] == [];
    assert Canon(a.node) == a.node && Canon(b.node) == b.node && Canon(c.node) == c.node;
    CanonAllIsMap(es);
    assert CanonAll(es) == es;
    assert SortBy(es[1..][1..], NameOf()) == [b];
    assert Before([97], [98]) && !Before([98], [97]) && Before([97], [99]) && Before([98], [99]);
    assert SortBy(es[1..], NameOf()) == [a, b];
    assert [a, b][1..] == [b] && [b][1..] == [];
    assert Insert(c, [b], NameOf()) == [b, c];
    assert Insert(c, [a, b], NameOf()) == [a, b, c];
  }

  /** Everything the hasher is fed for one payload. */
  function Stream(t: Node): bytes { DOMAIN + Encode([], Canon(t)) }

  function Canonize(): Entry -> Entry { (e: Entry) => CanonEntry(e) }

  lemma {:induction false} CanonAllIsMap(es: seq<Entry>)
    ensures CanonAll(es) == Map(Canonize(), es)
  {
    if es != [] {
      CanonAllIsMap(es[1..]);
      assert es == [es[0]] + es[1..];
    }
  }

  lemma {:induction false} CanonDecidesSameness(a: Node, b: Node)
    requires WellFormed(a) && WellFormed(b)
    ensures Canon(a) == Canon(b) <==> SameTree(a, b)
    decreases a
  {
    if a.Dir? && b.Dir? {
      var xs, ys := a.entries, b.entries;
      forall x, y | x in xs && y in ys ensures CanonEntry(x) == CanonEntry(y) <==> Twins(x, y) {
        CanonDecidesSameness(x.node, y.node);
      }
      CanonAllIsMap(xs);
      CanonAllIsMap(ys);
      RewrittenListingsAgree(Canonize(), xs, ys, NameOf());
      CoveredIsTwinned(xs, ys);
    }
  }

  lemma CoveredIsTwinned(xs: seq<Entry>, ys: seq<Entry>)
    requires forall x, y :: x in xs && y in ys ==> (CanonEntry(x) == CanonEntry(y) <==> Twins(x, y))
    ensures SameListing(xs, ys) <==>
            |xs| == |ys| && Covered(Canonize(), xs, ys) && Covered(Canonize(), ys, xs)
  {
    assert forall e :: Canonize()(e) == CanonEntry(e);
  }

  /** Two payloads feed the hasher the same bytes exactly when they are the same
      tree. */
  lemma StreamDecidesSameness(a: Node, b: Node)
    requires WellFormed(a) && WellFormed(b)
    requires Fits([], Canon(a)) && Fits([], Canon(b))
    ensures Stream(a) == Stream(b) <==> SameTree(a, b)
  {
    CanonDecidesSameness(a, b);
    if Stream(a) == Stream(b) {
      assert Stream(a)[|DOMAIN|..] == Encode([], Canon(a)) == Encode([], Canon(a)) + [];
      assert Stream(b)[|DOMAIN|..] == Encode([], Canon(b)) == Encode([], Canon(b)) + [];
      EncodePrefixFree([], Canon(a), [], [], Canon(b), []);
    }
  }
}
