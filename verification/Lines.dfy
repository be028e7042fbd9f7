/** Cutting a byte stream into newline-terminated lines.
    `Lines` and `Tail` say what a stream means; they are tied to the stream by
    a round trip and by uniqueness, and shown independent of how the stream was
    divided into reads. */
module Lines {

  newtype byte = b: int | 0 <= b < 256

  const NL: byte := 10

  /** Position of the first `c` in `s`, or -1. */
  function IndexByte(s: seq<byte>, c: byte): (i: int)
    ensures -1 <= i < |s|
    ensures i < 0 ==> c !in s
    ensures i >= 0 ==> s[i] == c && c !in s[..i]
  {
    if s == [] then -1
    else if s[0] == c then 0
    else
      var j := IndexByte(s[1..], c);
      assert j >= 0 ==> s[..j + 1] == [s[0]] + s[1..][..j];
      if j < 0 then -1 else j + 1
  }

  /** The newline-terminated lines of `s`, without their newlines. */
  function Lines(s: seq<byte>): seq<seq<byte>>
    decreases |s|
  {
    var i := IndexByte(s, NL);
    if i < 0 then [] else [s[..i]] + Lines(s[i + 1..])
  }

  /** What follows the last newline of `s`. */
  function Tail(s: seq<byte>): seq<byte>
    decreases |s|
  {
    var i := IndexByte(s, NL);
    if i < 0 then s else Tail(s[i + 1..])
  }

  /** The bytes that spell out the given lines. */
  function Unlines(ls: seq<seq<byte>>): seq<byte>
  {
    if ls == [] then [] else ls[0] + [NL] + Unlines(ls[1..])
  }

  ghost predicate LineFree(ls: seq<seq<byte>>)
  {
    forall i :: 0 <= i < |ls| ==> NL !in ls[i]
  }

  lemma Reassociate(a: seq<byte>, b: seq<byte>, c: seq<byte>)
    ensures (a + b) + c == a + (b + c)
  {
  }

  lemma UnlinesCons(l: seq<byte>, ls: seq<seq<byte>>)
    ensures Unlines([l] + ls) == l + [NL] + Unlines(ls)
  {
    assert ([l] + ls)[1..] == ls;
  }

  /** Splitting loses nothing: lines and tail spell the stream back. */
  lemma {:induction false} SplitRoundTrip(s: seq<byte>)
    ensures Unlines(Lines(s)) + Tail(s) == s
    decreases |s|
  {
    var i := IndexByte(s, NL);
    if i >= 0 {
      var first, rest := s[..i], s[i + 1..];
      assert s == first + [NL] + rest;
      SplitRoundTrip(rest);
      UnlinesCons(first, Lines(rest));
      Reassociate(first + [NL], Unlines(Lines(rest)), Tail(rest));
    }
  }

  lemma {:induction false} SplitFree(s: seq<byte>)
    ensures LineFree(Lines(s)) && NL !in Tail(s)
    decreases |s|
  {
    if IndexByte(s, NL) >= 0 {
      SplitFree(s[IndexByte(s, NL) + 1..]);
    }
  }

  lemma {:induction false} UnlinesConcat(a: seq<seq<byte>>, b: seq<seq<byte>>)
    ensures Unlines(a + b) == Unlines(a) + Unlines(b)
  {
    if a == [] {
      assert a + b == b;
    } else {
      assert (a + b)[1..] == a[1..] + b;
      UnlinesConcat(a[1..], b);
    }
  }

  lemma FirstIndex(s: seq<byte>, c: byte, n: nat)
    requires n < |s| && s[n] == c && c !in s[..n]
    ensures IndexByte(s, c) == n
  {
    var i := IndexByte(s, c);
    assert forall k :: 0 <= k < i ==> s[..i][k] == s[k];
  }

  lemma HeadLine(l: seq<byte>, rest: seq<byte>)
    requires NL !in l
    ensures var s := l + [NL] + rest; IndexByte(s, NL) == |l| && s[..|l|] == l && s[|l| + 1..] == rest
  {
    var s := l + [NL] + rest;
    assert s[|l|] == NL;
    assert s[..|l|] == l;
    FirstIndex(s, NL, |l|);
  }

  /** Nothing else spells the stream: any newline-free decomposition is the one `Lines` and `Tail` give. */
  lemma {:induction false} SplitUnique(ls: seq<seq<byte>>, t: seq<byte>)
    requires LineFree(ls) && NL !in t
    ensures Lines(Unlines(ls) + t) == ls
    ensures Tail(Unlines(ls) + t) == t
  {
    var s := Unlines(ls) + t;
    if ls == [] {
      assert s == t;
    } else {
      var rest := Unlines(ls[1..]) + t;
      Reassociate(ls[0] + [NL], Unlines(ls[1..]), t);
      HeadLine(ls[0], rest);
      SplitUnique(ls[1..], t);
    }
  }

  /** Feeding `b` after `a` continues from the tail of `a`: what lets the reader carry a partial line. */
  lemma SplitContinues(a: seq<byte>, b: seq<byte>)
    ensures Lines(a + b) == Lines(a) + Lines(Tail(a) + b)
    ensures Tail(a + b) == Tail(Tail(a) + b)
  {
    SplitRoundTrip(a);
    SplitFree(a);
    SplitRoundTrip(Tail(a) + b);
    SplitFree(Tail(a) + b);
    var ls := Lines(a) + Lines(Tail(a) + b);
    var t := Tail(Tail(a) + b);
    calc {
      Unlines(ls) + t;
      { UnlinesConcat(Lines(a), Lines(Tail(a) + b)); }
      (Unlines(Lines(a)) + Unlines(Lines(Tail(a) + b))) + t;
      { Reassociate(Unlines(Lines(a)), Unlines(Lines(Tail(a) + b)), t); }
      Unlines(Lines(a)) + (Tail(a) + b);
      { Reassociate(Unlines(Lines(a)), Tail(a), b); }
      a + b;
    }
    SplitUnique(ls, t);
  }

  /** The whole stream a sequence of reads delivered. */
  function Joined(chunks: seq<seq<byte>>): seq<byte>
  {
    if chunks == [] then [] else chunks[0] + Joined(chunks[1..])
  }

  /** The reader's view: lines taken out so far, and the carried partial line, after each read in turn. */
  function Fed(lines: seq<seq<byte>>, carry: seq<byte>, chunks: seq<seq<byte>>): (seq<seq<byte>>, seq<byte>)
    decreases |chunks|
  {
    if chunks == [] then (lines, carry)
    else Fed(lines + Lines(carry + chunks[0]), Tail(carry + chunks[0]), chunks[1..])
  }

  lemma {:induction false} FedContinues(before: seq<byte>, chunks: seq<seq<byte>>)
    ensures Fed(Lines(before), Tail(before), chunks)
         == (Lines(before + Joined(chunks)), Tail(before + Joined(chunks)))
    decreases |chunks|
  {
    if chunks == [] {
      assert before + Joined(chunks) == before;
    } else {
      var now := before + chunks[0];
      SplitContinues(before, chunks[0]);
      FedContinues(now, chunks[1..]);
      Reassociate(before, chunks[0], Joined(chunks[1..]));
    }
  }

  /** Line splitting does not depend on the division into reads. */
  lemma ChunkingIrrelevant(chunks: seq<seq<byte>>, chunks': seq<seq<byte>>)
    requires Joined(chunks) == Joined(chunks')
    ensures Fed([], [], chunks) == Fed([], [], chunks')
    ensures Fed([], [], chunks) == (Lines(Joined(chunks)), Tail(Joined(chunks)))
  {
    FedContinues([], chunks);
    FedContinues([], chunks');
    assert [] + Joined(chunks) == Joined(chunks);
    assert [] + Joined(chunks') == Joined(chunks');
  }
}
