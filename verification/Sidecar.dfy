/** The sidecar beside an engine pod: it tails a growing file, numbers what it
    reads, and keeps every numbered interval pending until a push of it is
    acknowledged. */
module Sidecar {
  import opened Common
  import opened Progress
  import L = Lines

  type byte = L.byte

  predicate IsSpace(b: byte)
  {
    b == 9 || b == 10 || b == 11 || b == 12 || b == 13 || b == 32
  }

  function TrimLeft(s: seq<byte>): (r: seq<byte>)
    ensures r == [] || !IsSpace(r[0])
  {
    if s == [] then [] else if IsSpace(s[0]) then TrimLeft(s[1..]) else s
  }

  function TrimSpace(s: seq<byte>): (r: seq<byte>)
    ensures r == [] || (!IsSpace(r[0]) && !IsSpace(r[|r| - 1]))
    decreases |s|
  {
    var t := TrimLeft(s);
    if t != [] && IsSpace(t[|t| - 1]) then TrimmedRight(t) else t
  }

  function TrimmedRight(s: seq<byte>): (r: seq<byte>)
    requires s == [] || !IsSpace(s[0])
    ensures r == [] || (!IsSpace(r[0]) && !IsSpace(r[|r| - 1]))
  {
    if s == [] || !IsSpace(s[|s| - 1]) then s else TrimmedRight(s[..|s| - 1])
  }

  /** Nothing but tabs, line ends and spaces. */
  ghost predicate Blank(s: seq<byte>)
  {
    forall i :: 0 <= i < |s| ==> s[i] in {9, 10, 11, 12, 13, 32}
  }

  lemma {:induction false} TrimLeftExact(s: seq<byte>) returns (a: seq<byte>)
    ensures Blank(a) && s == a + TrimLeft(s)
  {
    if s == [] || !IsSpace(s[0]) {
      a := [];
    } else {
      var rest := TrimLeftExact(s[1..]);
      a := [s[0]] + rest;
      assert s == [s[0]] + s[1..];
    }
  }

  lemma {:induction false} TrimmedRightExact(s: seq<byte>) returns (b: seq<byte>)
    requires s == [] || !IsSpace(s[0])
    ensures Blank(b) && s == TrimmedRight(s) + b
  {
    if s == [] || !IsSpace(s[|s| - 1]) {
      b := [];
    } else {
      var n := |s| - 1;
      var rest := TrimmedRightExact(s[..n]);
      b := rest + [s[n]];
      assert s == s[..n] + [s[n]];
    }
  }

  /** Trimming takes off nothing but space at the two ends, and all of it. */
  lemma TrimExact(s: seq<byte>) returns (a: seq<byte>, b: seq<byte>)
    ensures Blank(a) && Blank(b) && s == a + TrimSpace(s) + b
    ensures TrimSpace(s) == [] <==> Blank(s)
    ensures TrimSpace(s) != [] ==> !Blank(TrimSpace(s)[..1]) && !Blank(TrimSpace(s)[|TrimSpace(s)| - 1..])
  {
    a := TrimLeftExact(s);
    b := TrimmedRightExact(TrimLeft(s));
    var t := TrimSpace(s);
    assert TrimmedRight(TrimLeft(s)) == t;
    assert s == a + (t + b);
    if t != [] {
      assert s[|a|] == t[0];
    }
  }

  /** How a sidecar reads a line: JSON decoding is foreign code, so it is a parameter. */
  datatype Reader = Reader(unmarshal: seq<byte> -> Option<Interval>, labels: map<string, string>)
  {
    /** Blank and unparseable lines yield nothing; a known label is mapped back to Honryu's own. */
    function Decode(line: seq<byte>): Option<Interval>
    {
      var t := TrimSpace(line);
      if t == [] then None
      else match unmarshal(t)
        case None => None
        case Some(iv) => Some(if iv.request in labels then iv.(request := labels[iv.request]) else iv)
    }

    /** A line that says something: not blank, and its JSON decodes. */
    predicate Parses(line: seq<byte>)
    {
      TrimSpace(line) != [] && unmarshal(TrimSpace(line)).Some?
    }

    /** `iv` is what a line says, under Honryu's own label where it has one, as number `n`. */
    ghost predicate Says(line: seq<byte>, iv: Interval, n: int)
    {
      && Parses(line)
      && var raw := unmarshal(TrimSpace(line)).value;
      && iv.seqNo == n
      && iv.timestamp == raw.timestamp && iv.samples == raw.samples && iv.failed == raw.failed
      && iv.request == if raw.request in labels then labels[raw.request] else raw.request
    }

    /** Where the parseable lines are. */
    ghost function Positions(lines: seq<seq<byte>>): (at: seq<nat>)
      ensures forall i :: 0 <= i < |at| ==> at[i] < |lines| && Parses(lines[at[i]])
      ensures forall i, j :: 0 <= i < j < |at| ==> at[i] < at[j]
      ensures forall k: nat :: k < |lines| && Parses(lines[k]) ==> k in at
    {
      if lines == [] then []
      else
        var n := |lines| - 1;
        var before := Positions(lines[..n]);
        if Parses(lines[n]) then before + [n] else before
    }

    /** One interval per parseable line, in order, numbered from one, saying what the line says. */
    ghost predicate Reports(lines: seq<seq<byte>>, ivs: seq<Interval>)
    {
      && |ivs| == |Positions(lines)|
      && forall i :: 0 <= i < |ivs| ==> Says(lines[Positions(lines)[i]], ivs[i], i + 1)
    }

    lemma DecodeSays(line: seq<byte>, n: int)
      ensures Decode(line).Some? <==> Parses(line)
      ensures Decode(line).Some? ==> Says(line, Decode(line).value.(seqNo := n), n)
    {
    }

    lemma {:induction false} NumberedReports(lines: seq<seq<byte>>)
      ensures Reports(lines, Numbered(lines))
    {
      if lines != [] {
        var n := |lines| - 1;
        var before, line := lines[..n], lines[n];
        NumberedReports(before);
        DecodeSays(line, |Numbered(before)| + 1);
        assert lines == before + [line];
        if Parses(line) {
          ReportsMore(before, Numbered(before), line, Decode(line).value.(seqNo := |Numbered(before)| + 1));
        } else {
          ReportsSame(before, Numbered(before), line);
        }
      }
    }

    lemma PositionsSnoc(lines: seq<seq<byte>>, line: seq<byte>)
      ensures Positions(lines + [line]) == Positions(lines) + if Parses(line) then [|lines|] else []
    {
      assert (lines + [line])[..|lines|] == lines;
    }

    lemma ReportsMore(lines: seq<seq<byte>>, ivs: seq<Interval>, line: seq<byte>, iv: Interval)
      requires Reports(lines, ivs) && Says(line, iv, |ivs| + 1)
      ensures Reports(lines + [line], ivs + [iv])
    {
      PositionsSnoc(lines, line);
      var all, at := lines + [line], Positions(lines);
      forall i | 0 <= i < |ivs| + 1 ensures Says(all[(at + [|lines|])[i]], (ivs + [iv])[i], i + 1) {
        if i < |ivs| {
          assert Says(lines[at[i]], ivs[i], i + 1);
        }
      }
    }

    lemma ReportsSame(lines: seq<seq<byte>>, ivs: seq<Interval>, line: seq<byte>)
      requires Reports(lines, ivs) && !Parses(line)
      ensures Reports(lines + [line], ivs)
    {
      PositionsSnoc(lines, line);
      var all, at := lines + [line], Positions(lines);
      assert at + [] == at;
      forall i | 0 <= i < |ivs| ensures Says(all[at[i]], ivs[i], i + 1) {
        assert Says(lines[at[i]], ivs[i], i + 1);
      }
    }

    /** The intervals of the parseable lines, in order, numbered from one. */
    function Numbered(lines: seq<seq<byte>>): seq<Interval>
    {
      if lines == [] then []
      else
        var rest := Numbered(lines[..|lines| - 1]);
        match Decode(lines[|lines| - 1])
        case None => rest
        case Some(iv) => rest + [iv.(seqNo := |rest| + 1)]
    }

    /** Every interval a byte stream contributes. */
    function Intervals(stream: seq<byte>): seq<Interval>
    {
      Numbered(L.Lines(stream))
    }

    lemma {:induction false} NumberedFromOne(lines: seq<seq<byte>>)
      ensures FromOne(Numbered(lines))
    {
      if lines != [] {
        NumberedFromOne(lines[..|lines| - 1]);
      }
    }

    lemma {:induction false} NumberedGrows(a: seq<seq<byte>>, b: seq<seq<byte>>)
      ensures Numbered(a) <= Numbered(a + b)
      decreases |b|
    {
      if b == [] {
        assert a + b == a;
      } else {
        var n := |b| - 1;
        NumberedGrows(a, b[..n]);
        assert (a + b)[..|a + b| - 1] == a + b[..n];
      }
    }

    /** Reading on never renumbers: what a longer stream means extends what a shorter one meant. */
    lemma IntervalsGrow(a: seq<byte>, b: seq<byte>)
      ensures Intervals(a) <= Intervals(a + b)
    {
      L.SplitContinues(a, b);
      NumberedGrows(L.Lines(a), L.Lines(L.Tail(a) + b));
    }
  }

  /** Sequences count from one with no gap: interval `i` carries number `i + 1`. */
  ghost predicate FromOne(ivs: seq<Interval>)
  {
    forall i :: 0 <= i < |ivs| ==> ivs[i].seqNo == i + 1
  }

  /** One turn of the run loop: what the drain read, then which event was selected. */
  datatype Event =
    | Cancelled(exitFile: Option<int>)
    | EngineExited(exitFile: Option<int>, rest: seq<seq<byte>>)
    | FlushTick
    | PollTick(exitFile: Option<int>, rest: seq<seq<byte>>)

  /** One look for the stream file, while the engine may not have created it yet. */
  datatype Look = Missing | There | Unreadable | CancelledWaiting

  /** `l` is what the first look that does not miss the stream finds. */
  ghost predicate FirstSeen(looks: seq<Look>, l: Look)
  {
    exists i :: 0 <= i < |looks| && looks[i] == l && forall j :: 0 <= j < i ==> looks[j] == Missing
  }

  /** Waiting for the stream ends with the first look that does not miss it. */
  method WaitForStream(looks: seq<Look>) returns (found: Option<Look>)
    ensures found.None? <==> forall i :: 0 <= i < |looks| ==> looks[i] == Missing
    ensures found.Some? ==> found.value != Missing && FirstSeen(looks, found.value)
  {
    for i := 0 to |looks|
      invariant forall j :: 0 <= j < i ==> looks[j] == Missing
    {
      if looks[i] != Missing {
        return Some(looks[i]);
      }
    }
    found := None;
  }

  datatype Turn = Turn(chunks: seq<seq<byte>>, event: Event, ok: bool)

  /** The events after which the run loop makes its final push. */
  predicate Ends(e: Event)
  {
    match e
    case Cancelled(_) => true
    case EngineExited(_, _) => true
    case PollTick(exitFile, _) => exitFile.Some?
    case FlushTick => false
  }

  /** What is read after an event: on an engine that ended, what it left behind. */
  function RestOf(e: Event): seq<byte>
  {
    match e
    case EngineExited(_, rest) => L.Joined(rest)
    case PollTick(exitFile, rest) => if exitFile.Some? then L.Joined(rest) else []
    case _ => []
  }

  /** Every byte read over these turns, up to the one that ends the loop. */
  function ReadIn(turns: seq<Turn>): seq<byte>
  {
    if turns == [] then []
    else
      var here := L.Joined(turns[0].chunks) + RestOf(turns[0].event);
      if Ends(turns[0].event) then here else here + ReadIn(turns[1..])
  }

  lemma ThreeJoined(a: seq<byte>, b: seq<byte>, c: seq<byte>, d: seq<byte>)
    ensures a + (b + c + d) == a + b + c + d && b + c + [] == b + c
  {
  }

  lemma ReadOneTurn(before: seq<byte>, turns: seq<Turn>)
    requires turns != []
    ensures before + ReadIn(turns) == before + L.Joined(turns[0].chunks) + RestOf(turns[0].event) + (if Ends(turns[0].event) then [] else ReadIn(turns[1..]))
  {
    ThreeJoined(before, L.Joined(turns[0].chunks), RestOf(turns[0].event), if Ends(turns[0].event) then [] else ReadIn(turns[1..]));
  }

  lemma AckSlice(all: seq<Interval>, acked: nat, pending: seq<Interval>, n: nat)
    requires acked <= |all| && pending == all[acked..] && n <= |pending|
    ensures acked + n <= |all| && pending[n..] == all[acked + n..]
  {
  }

  class Sidecar {
    const reader: Reader
    const runId: int
    const key: ShardKey
    const streamId: string
    var carry: seq<byte>
    var pending: seq<Interval>
    var seqNo: nat
    var sent: nat
    var exitCode: Option<int>
    ghost var stream: seq<byte>     // every byte read so far
    ghost var acked: nat            // how many intervals have been acknowledged
    ghost var pushes: seq<Batch>    // every batch handed to the network, in order
    ghost var marks: seq<nat>       // how many intervals were acknowledged when each was made

    constructor (reader: Reader, runId: int, key: ShardKey, streamId: string)
      ensures Valid() && stream == [] && acked == 0 && pushes == [] && marks == []
      ensures this.reader == reader && this.key == key && this.runId == runId && this.streamId == streamId
      ensures exitCode == None
    {
      this.reader, this.runId, this.key, this.streamId := reader, runId, key, streamId;
      carry, pending, seqNo, sent, exitCode := [], [], 0, 0, None;
      stream, acked, pushes, marks := [], 0, [], [];
    }

    ghost function Consumed(): seq<Interval>
      reads this
    {
      reader.Intervals(stream)
    }

    /** The carry is exactly the unterminated tail, and pending is exactly what was consumed and not acknowledged. */
    ghost predicate Valid()
      reads this
    {
      && carry == L.Tail(stream)
      && Counted(L.Lines(stream))
    }

    method Consume(line: seq<byte>)
      modifies this`pending, this`seqNo
      ensures match reader.Decode(line)
              case None => pending == old(pending) && seqNo == old(seqNo)
              case Some(iv) => seqNo == old(seqNo) + 1 && pending == old(pending) + [iv.(seqNo := seqNo)]
      ensures !reader.Parses(line) ==> pending == old(pending) && seqNo == old(seqNo)
      ensures reader.Parses(line) ==>
                && seqNo == old(seqNo) + 1 && |pending| == |old(pending)| + 1 && pending[..|old(pending)|] == old(pending)
                && reader.Says(line, pending[|old(pending)|], seqNo)
    {
      reader.DecodeSays(line, seqNo + 1);
      match reader.Decode(line) {
        case None =>
        case Some(iv) =>
          seqNo := seqNo + 1;
          pending := pending + [iv.(seqNo := seqNo)];
      }
    }

    ghost predicate Counted(done: seq<seq<byte>>)
      reads this
    {
      && seqNo == |reader.Numbered(done)|
      && acked <= seqNo
      && pending == reader.Numbered(done)[acked..]
    }

    /** Consuming one line extends what has been counted by that line. */
    method ConsumeNext(line: seq<byte>, ghost done: seq<seq<byte>>)
      requires Counted(done)
      modifies this`pending, this`seqNo
      ensures Counted(done + [line])
    {
      assert (done + [line])[..|done + [line]| - 1] == done;
      Consume(line);
    }

    /** Take every complete line out of the carry buffer. `done` are the lines consumed before. */
    method ConsumeLines(ghost done: seq<seq<byte>>)
      requires Counted(done)
      modifies this`carry, this`pending, this`seqNo
      ensures carry == L.Tail(old(carry))
      ensures Counted(done + L.Lines(old(carry)))
    {
      ghost var taken := done;
      ghost var all := done + L.Lines(carry);
      while true
        invariant taken + L.Lines(carry) == all
        invariant L.Tail(carry) == L.Tail(old(carry))
        invariant Counted(taken)
        decreases |carry|
      {
        var i := L.IndexByte(carry, L.NL);
        if i < 0 {
          assert taken + [] == taken;
          break;
        }
        ghost var rest := L.Lines(carry[i + 1..]);
        assert taken + ([carry[..i]] + rest) == (taken + [carry[..i]]) + rest;
        ConsumeNext(carry[..i], taken);
        taken := taken + [carry[..i]];
        carry := carry[i + 1..];
      }
    }

    /** One read: append it to the carry buffer and take out what is now complete. */
    method Feed(chunk: seq<byte>)
      requires Valid()
      modifies this`carry, this`pending, this`seqNo, this`stream
      ensures Valid() && stream == old(stream) + chunk
    {
      ghost var before := stream;
      carry := carry + chunk;
      stream := stream + chunk;
      L.SplitContinues(before, chunk);
      ConsumeLines(L.Lines(before));
    }

    /** Read everything currently available, however the reads divide it. */
    method Drain(chunks: seq<seq<byte>>)
      requires Valid()
      modifies this`carry, this`pending, this`seqNo, this`stream
      ensures Valid() && stream == old(stream) + L.Joined(chunks)
      decreases |chunks|
    {
      if chunks == [] {
        assert stream + L.Joined(chunks) == stream;
      } else {
        Feed(chunks[0]);
        assert old(stream) + chunks[0] + L.Joined(chunks[1..]) == old(stream) + L.Joined(chunks);
        Drain(chunks[1..]);
      }
    }

    method CheckExitCode(file: Option<int>) returns (found: bool)
      modifies this`exitCode
      ensures found == file.Some?
      ensures exitCode == if file.Some? then file else old(exitCode)
    {
      found := file.Some?;
      if found {
        exitCode := file;
      }
    }

    ghost function PushOf(final: bool): Batch
      reads this
    {
      Batch(runId, key, streamId, final, exitCode, pending)
    }

    /** Drop the first `n` pending intervals, which have been acknowledged. */
    method Acknowledge(n: nat, ghost done: seq<seq<byte>>)
      requires Counted(done) && n <= |pending|
      modifies this`pending, this`acked
      ensures Counted(done) && acked == old(acked) + n && pending == old(pending)[n..]
    {
      AckSlice(reader.Numbered(done), acked, pending, n);
      pending, acked := pending[n..], acked + n;
    }

    /** Push what is pending. `ok` says whether a 2xx came back; only then is what
        was sent dropped, and nothing else: `meanwhile` is what was read while the
        push was under way. */
    method Flush(final: bool, ok: bool, meanwhile: seq<seq<byte>>) returns (err: bool)
      requires Valid()
      modifies this`carry, this`pending, this`seqNo, this`stream, this`sent, this`acked, this`pushes, this`marks
      ensures Valid()
      ensures old(pending) == [] && !final ==> !err && stream == old(stream) && pushes == old(pushes) && acked == old(acked) && sent == old(sent) && marks == old(marks)
      ensures old(pending) != [] || final ==> err == !ok && pushes == old(pushes) + [old(PushOf(final))] && marks == old(marks) + [old(acked)]
      ensures old(pending) != [] || final ==> stream == old(stream) + L.Joined(meanwhile)
      ensures old(pending) != [] || final ==> acked == if ok then old(seqNo) else old(acked)
      ensures old(pending) != [] || final ==> sent == old(sent) + (if ok then 1 else 0)
    {
      if |pending| == 0 && !final {
        return false;
      }
      var intervals := pending;
      pushes := pushes + [Batch(runId, key, streamId, final, exitCode, intervals)];
      marks := marks + [acked];
      ReadOn(meanwhile);
      if !ok {
        return true;
      }
      Acknowledge(|intervals|, L.Lines(stream));
      sent := sent + 1;
      err := false;
    }

    /** Reading on only adds to what is pending. */
    method ReadOn(chunks: seq<seq<byte>>)
      requires Valid()
      modifies this`carry, this`pending, this`seqNo, this`stream
      ensures Valid() && stream == old(stream) + L.Joined(chunks)
      ensures |old(pending)| <= |pending| && acked + |old(pending)| == old(seqNo)
    {
      reader.IntervalsGrow(stream, L.Joined(chunks));
      Drain(chunks);
    }

    /** Ordinary pushes: not final, and with no exit code yet. */
    ghost predicate NoFinal(s: seq<Batch>)
    {
      forall i :: 0 <= i < |s| ==> !s[i].final && s[i].exitCode == None
    }

    /** The last push is final, the only one, carries the exit code, and carries every interval not acknowledged when it was made. */
    ghost predicate Ended()
      reads this
    {
      && |pushes| == |marks| > 0
      && NoFinal(pushes[..|pushes| - 1])
      && pushes[|pushes| - 1].final
      && pushes[|pushes| - 1].exitCode == exitCode
      && marks[|marks| - 1] <= |Consumed()| && pushes[|pushes| - 1].intervals == Consumed()[marks[|marks| - 1]..]
    }

    /** Read what is left, then make the final push. */
    method Finish(rest: seq<seq<byte>>, ok: bool) returns (err: bool)
      requires Valid() && NoFinal(pushes) && |marks| == |pushes|
      modifies this`carry, this`pending, this`seqNo, this`stream, this`sent, this`acked, this`pushes, this`marks
      ensures Valid() && Ended() && marks == old(marks) + [old(acked)] && err == !ok
      ensures acked == if ok then seqNo else old(acked)
      ensures ok ==> pending == []
      ensures stream == old(stream) + L.Joined(rest)
    {
      Drain(rest);
      ghost var before := pushes;
      err := FinalFlush(ok);
      assert pushes[..|pushes| - 1] == before;
    }

    /** Wait for the stream, then loop. Without a stream nothing is ever pushed. */
    method Run(looks: seq<Look>, turns: seq<Turn>) returns (there: bool, finished: bool, err: bool)
      requires Valid() && NoFinal(pushes) && |marks| == |pushes| && exitCode == None
      modifies this
      ensures Valid()
      ensures there <==> FirstSeen(looks, There)
      ensures !there ==> pushes == old(pushes) && stream == old(stream) && acked == old(acked) && finished == err
      ensures !there ==> (finished <==> exists i :: 0 <= i < |looks| && looks[i] != Missing)
      ensures there && !finished ==> NoFinal(pushes) && !err
      ensures there && finished ==> Ended() && (err ==> acked == marks[|marks| - 1])
      ensures there && finished && !err ==> acked == |reader.Intervals(stream)| && pending == []
      ensures there ==> stream == old(stream) + ReadIn(turns) && (finished <==> exists i :: 0 <= i < |turns| && Ends(turns[i].event))
    {
      var found := WaitForStream(looks);
      there := found == Some(There);
      if there {
        finished, err := Loop(turns);
      } else {
        finished, err := found.Some?, found.Some?;
      }
    }

    /** The run loop over the turns the outside world offers. It returns after
        exactly one final push, which is its last push and carries every
        complete parseable line not acknowledged when it is made; when that push
        succeeds, every such line ever read has been acknowledged, and otherwise
        no more than before it. */
    method Loop(turns: seq<Turn>) returns (finished: bool, err: bool)
      requires Valid() && NoFinal(pushes) && |marks| == |pushes| && exitCode == None
      modifies this
      ensures Valid()
      ensures !finished ==> NoFinal(pushes) && !err
      ensures finished ==> Ended() && (err ==> acked == marks[|marks| - 1])
      ensures finished && !err ==> acked == |reader.Intervals(stream)| && pending == []
      ensures finished <==> exists i :: 0 <= i < |turns| && Ends(turns[i].event)
      ensures stream == old(stream) + ReadIn(turns)
      ensures finished ==> exists i :: 0 <= i < |turns| && Ends(turns[i].event) && exitCode == turns[i].event.exitFile
                                       && forall j :: 0 <= j < i ==> !Ends(turns[j].event)
    {
      for i := 0 to |turns|
        invariant Valid() && NoFinal(pushes) && |marks| == |pushes| && exitCode == None
        invariant forall j :: 0 <= j < i ==> !Ends(turns[j].event)
        invariant stream + ReadIn(turns[i..]) == old(stream) + ReadIn(turns)
      {
        ghost var before := stream;
        assert turns[i..][0] == turns[i] && turns[i..][1..] == turns[i + 1..];
        Drain(turns[i].chunks);
        finished, err := React(turns[i].event, turns[i].ok);
        ReadOneTurn(before, turns[i..]);
        if finished {
          return;
        }
      }
      assert stream + [] == stream;
      return false, false;
    }

    /** What one event leads to: a push on the timer, the end, or nothing. */
    method React(event: Event, ok: bool) returns (finished: bool, err: bool)
      requires Valid() && NoFinal(pushes) && |marks| == |pushes| && exitCode == None
      modifies this
      ensures Valid()
      ensures !finished ==> NoFinal(pushes) && |marks| == |pushes| && exitCode == None && !err
      ensures finished ==> Ended() && (err ==> acked == marks[|marks| - 1])
      ensures finished && !err ==> acked == |reader.Intervals(stream)| && pending == []
      ensures finished <==> Ends(event)
      ensures finished <==> event.Cancelled? || event.EngineExited? || (event.PollTick? && event.exitFile.Some?)
      ensures stream == old(stream) + RestOf(event)
      ensures finished ==> exitCode == event.exitFile
    {
      finished, err := false, false;
      assert stream + [] == stream && L.Joined([]) == [];
      match event {
        case Cancelled(exitFile) =>
          var _ := CheckExitCode(exitFile);
          err := Finish([], ok);
          finished := true;
        case EngineExited(exitFile, rest) =>
          var _ := CheckExitCode(exitFile);
          err := Finish(rest, ok);
          finished := true;
        case FlushTick =>
          PeriodicFlush(ok);
        case PollTick(exitFile, rest) =>
          finished := CheckExitCode(exitFile);
          if finished {
            err := Finish(rest, ok);
          }
      }
    }

    /** A flush on the timer: a failure is kept pending for the next one. */
    method PeriodicFlush(ok: bool)
      requires Valid() && NoFinal(pushes) && |marks| == |pushes| && exitCode == None
      modifies this`carry, this`pending, this`seqNo, this`stream, this`sent, this`acked, this`pushes, this`marks
      ensures Valid() && NoFinal(pushes) && |marks| == |pushes| && stream == old(stream)
      ensures !ok ==> pending == old(pending) && acked == old(acked)
    {
      var _ := Flush(false, ok, []);
      assert L.Joined([]) == [];
    }

    method FinalFlush(ok: bool) returns (err: bool)
      requires Valid()
      modifies this`carry, this`pending, this`seqNo, this`stream, this`sent, this`acked, this`pushes, this`marks
      ensures Valid() && err == !ok && stream == old(stream)
      ensures pushes == old(pushes) + [old(PushOf(true))] && marks == old(marks) + [old(acked)]
      ensures old(pending) == Consumed()[old(acked)..]
      ensures acked == if ok then seqNo else old(acked)
      ensures ok ==> pending == []
    {
      err := Flush(true, ok, []);
      assert L.Joined([]) == [] && old(stream) + [] == old(stream);
    }
  }
}
