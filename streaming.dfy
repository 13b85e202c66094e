/**
 * The running response of kidney_app.py's chat turn: streamed text chunks are
 * concatenated, in arrival order, into one string. The remote stream itself
 * is an input sequence.
 */
module Streaming {
  import Sequences

  /** The concatenation of the chunks received so far, oldest first. */
  function Joined(chunks: seq<string>): string
  {
    if chunks == [] then "" else Joined(chunks[..|chunks| - 1]) + chunks[|chunks| - 1]
  }

  /** Joining distributes over splitting the stream in two. */
  lemma {:induction false} JoinedAppend(a: seq<string>, b: seq<string>)
    ensures Joined(a + b) == Joined(a) + Joined(b)
    decreases |b|
  {
    if b == [] {
      assert a + b == a;
    } else {
      var b', c := b[..|b| - 1], b[|b| - 1];
      Sequences.SplitLast(a, b);
      JoinedSnoc(a + b', c);
      JoinedAppend(a, b');
      JoinedSnoc(b', c);
    }
  }

  /** Every chunk sits, unaltered, right after the text of the chunks before it. */
  lemma JoinedAt(chunks: seq<string>, i: nat)
    requires i < |chunks|
    ensures Joined(chunks) == Joined(chunks[..i]) + chunks[i] + Joined(chunks[i + 1..])
  {
    Sequences.SplitAt(chunks, i);
    JoinedAppend(chunks[..i] + [chunks[i]], chunks[i + 1..]);
    JoinedSnoc(chunks[..i], chunks[i]);
  }

  lemma JoinedSnoc(chunks: seq<string>, chunk: string)
    ensures Joined(chunks + [chunk]) == Joined(chunks) + chunk
  {
    assert (chunks + [chunk])[..|chunks|] == chunks;
  }

  /** The text after any number of chunks is a prefix of the final text. */
  lemma JoinedPrefix(chunks: seq<string>, i: nat)
    requires i <= |chunks|
    ensures Joined(chunks[..i]) <= Joined(chunks)
  {
    assert chunks == chunks[..i] + chunks[i..];
    JoinedAppend(chunks[..i], chunks[i..]);
  }

  /** The loop that grows the full response one chunk at a time. */
  method Accumulate(chunks: seq<string>) returns (full: string)
    ensures full == Joined(chunks)
    ensures forall i :: 0 <= i <= |chunks| ==> Joined(chunks[..i]) <= full
  {
    full := "";
    for n := 0 to |chunks|
      invariant full == Joined(chunks[..n])
    {
      assert chunks[..n + 1][..n] == chunks[..n];
      full := full + chunks[n];
    }
    assert chunks[..|chunks|] == chunks;
    forall i | 0 <= i <= |chunks|
      ensures Joined(chunks[..i]) <= full
    {
      JoinedPrefix(chunks, i);
    }
  }
}
