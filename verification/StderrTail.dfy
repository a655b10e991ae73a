/** The bounded memory of what an agent last wrote to standard error. */
module StderrTail {
  import opened Bytes

  const TAIL_BYTES := 16 * 1024
  const NEWLINE: byte := 10

  /** The last `n` bytes of `s`, or all of it. */
  function Last(s: bytes, n: nat): (r: bytes)
    ensures |r| == if |s| < n then |s| else n
    ensures r == s[|s| - |r|..]
  {
    if |s| <= n then s else s[|s| - n..]
  }

  /** Everything the agent wrote, line by line. */
  function Written(lines: seq<bytes>): bytes {
    if lines == [] then [] else Written(lines[..|lines| - 1]) + lines[|lines| - 1] + [NEWLINE]
  }

  /** A double-ended queue that may not grow beyond its capacity, not even while
      it is being updated. */
  class Deque {
    const capacity: nat
    var content: bytes

    constructor (capacity: nat)
      ensures this.capacity == capacity && content == []
    {
      this.capacity, content := capacity, [];
    }

    method Clear()
      modifies this
      ensures content == []
    {
      content := [];
    }

    method PopFront()
      requires content != []
      modifies this
      ensures content == old(content)[1..]
    {
      content := content[1..];
    }

    method Extend(b: bytes)
      requires |content| + |b| <= capacity
      modifies this
      ensures content == old(content) + b
    {
      content := content + b;
    }

    method PushBack(b: byte)
      requires |content| < capacity
      modifies this
      ensures content == old(content) + [b]
    {
      content := content + [b];
    }
  }

  /** One line of standard error, of any length. */
  method PushStderr(tail: Deque, line: bytes)
    requires tail.capacity == TAIL_BYTES && |tail.content| <= TAIL_BYTES
    modifies tail
    ensures tail.content == Last(old(tail.content) + line + [NEWLINE], TAIL_BYTES)
  {
    var required := |line| + 1;
    if required >= TAIL_BYTES {
      tail.Clear();
      var start := |line| - (TAIL_BYTES - 1);
      tail.Extend(line[start..]);
      tail.PushBack(NEWLINE);
      return;
    }
    ghost var all := old(tail.content) + line + [NEWLINE];
    ghost var dropped := 0;
    while |tail.content| + required > TAIL_BYTES
      invariant 0 <= dropped <= |old(tail.content)|
      invariant tail.content == old(tail.content)[dropped..]
      invariant dropped == 0 || |tail.content| + required >= TAIL_BYTES
      decreases |tail.content|
    {
      tail.PopFront();
      dropped := dropped + 1;
    }
    tail.Extend(line);
    tail.PushBack(NEWLINE);
    assert tail.content == all[dropped..];
  }

  lemma LastOfLast(a: bytes, b: bytes, n: nat)
    ensures Last(Last(a, n) + b, n) == Last(a + b, n)
  {
  }

  /** The lines of a whole session pushed one after the other. */
  method PushAll(lines: seq<bytes>) returns (tail: Deque)
    ensures tail.content == Last(Written(lines), TAIL_BYTES)
  {
    tail := new Deque(TAIL_BYTES);
    for i := 0 to |lines|
      invariant fresh(tail) && tail.capacity == TAIL_BYTES
      invariant tail.content == Last(Written(lines[..i]), TAIL_BYTES)
    {
      var line := lines[i];
      PushStderr(tail, line);
      assert lines[..i + 1][..i] == lines[..i];
      SessionGrows(lines[..i], line);
      assert lines[..i] + [line] == lines[..i + 1];
    }
    assert lines[..|lines|] == lines;
  }

  /** Remembering the tail of a session and then pushing one more line is
      remembering the tail of the longer session. */
  lemma SessionGrows(lines: seq<bytes>, line: bytes)
    ensures Last(Last(Written(lines), TAIL_BYTES) + line + [NEWLINE], TAIL_BYTES) == Last(Written(lines + [line]), TAIL_BYTES)
  {
    var tail, all := Last(Written(lines), TAIL_BYTES), Written(lines);
    assert (lines + [line])[..|lines|] == lines;
    assert tail + line + [NEWLINE] == tail + (line + [NEWLINE]);
    assert all + line + [NEWLINE] == all + (line + [NEWLINE]);
    LastOfLast(all, line + [NEWLINE], TAIL_BYTES);
  }
}
