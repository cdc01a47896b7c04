/** The message payloads of pkg/mqflood: random bytes, or a pattern repeated to size. */
module Payload {

  type Byte = bv8

  /** The two payload settings of a backend. `noise` stands for the random source. */
  datatype Source = Source(random: bool, pattern: seq<Byte>)

  /** The payload byte by byte: what the buffer-filling loop must produce. */
  function Expected(source: Source, size: nat, noise: nat -> Byte): (payload: seq<Byte>)
    ensures |payload| == size
  {
    if source.random || source.pattern == [] then seq(size, i requires 0 <= i => noise(i))
    else seq(size, i requires 0 <= i => source.pattern[i % |source.pattern|])
  }

  lemma {:induction false} MultipleAtLeast(k: nat, width: nat)
    requires k > 0
    ensures k * width >= width
  {
    if k > 1 {
      MultipleAtLeast(k - 1, width);
      assert k * width == (k - 1) * width + width;
    }
  }

  lemma WholeCopies(copies: nat, width: nat, i: nat)
    requires i < width
    ensures (copies * width + i) % width == i
  {
    var n := copies * width + i;
    var q, r := n / width, n % width;
    assert n == q * width + r;
    assert (copies - q) * width == copies * width - q * width == r - i;
    assert (q - copies) * width == q * width - copies * width == i - r;
    if copies > q {
      MultipleAtLeast(copies - q, width);
    } else if q > copies {
      MultipleAtLeast(q - copies, width);
    }
  }

  ghost predicate Cycles(buf: seq<Byte>, pattern: seq<Byte>)
    requires pattern != []
  {
    forall i :: 0 <= i < |buf| ==> buf[i] == pattern[i % |pattern|]
  }

  /** Appending a prefix of the pattern after whole copies of it keeps the cycle going. */
  lemma CyclesExtend(buf: seq<Byte>, pattern: seq<Byte>, copies: nat, take: nat)
    requires pattern != [] && Cycles(buf, pattern)
    requires |buf| == copies * |pattern| && take <= |pattern|
    ensures Cycles(buf + pattern[..take], pattern)
  {
    forall i | |buf| <= i < |buf| + take
      ensures (buf + pattern[..take])[i] == pattern[i % |pattern|]
    {
      WholeCopies(copies, |pattern|, i - |buf|);
    }
  }

  /** Builds the payload in whole copies of the pattern and one partial copy. */
  method BuildPayload(source: Source, size: nat, noise: nat -> Byte) returns (buf: seq<Byte>)
    ensures buf == Expected(source, size, noise)
    ensures |buf| == size
    ensures source.random || source.pattern == [] ==> forall i :: 0 <= i < size ==> buf[i] == noise(i)
    ensures !source.random && source.pattern != [] ==>
              forall i :: 0 <= i < size ==> buf[i] == source.pattern[i % |source.pattern|]
  {
    if source.random || source.pattern == [] {
      return seq(size, i requires 0 <= i => noise(i));
    }
    var pattern := source.pattern;
    buf := [];
    ghost var copies := 0;
    while |buf| < size
      invariant |buf| <= size
      invariant Cycles(buf, pattern)
      invariant |buf| < size ==> |buf| == copies * |pattern|
    {
      var remaining := size - |buf|;
      if remaining < |pattern| {
        CyclesExtend(buf, pattern, copies, remaining);
        buf := buf + pattern[..remaining];
      } else {
        CyclesExtend(buf, pattern, copies, |pattern|);
        assert pattern[..|pattern|] == pattern;
        buf := buf + pattern;
        copies := copies + 1;
      }
    }
  }
}
