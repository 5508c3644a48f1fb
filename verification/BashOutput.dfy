/** The rolling buffer of a command's output, and the file that takes over when it grows long. */
module BashOutput {
  import opened Messages
  import opened Sequences

  const DEFAULT_MAX_BYTES: nat := 50 * 1024
  const MAX_OUTPUT: nat := DEFAULT_MAX_BYTES * 2

  /** A piece of output: its size as it came, and its text after decoding and cleaning. */
  datatype Data = Data(bytes: nat, text: string)

  datatype Buffer = Buffer(chunks: seq<string>, totalBytes: nat, file: Option<string>)

  function Join(chunks: seq<string>): string
  {
    if chunks == [] then "" else Join(Front(chunks)) + Last(chunks)
  }

  lemma {:induction false} JoinConcat(a: seq<string>, b: seq<string>)
    ensures Join(a + b) == Join(a) + Join(b)
  {
    if b == [] {
      assert a + b == a;
    } else {
      JoinConcat(a, Front(b));
      FrontOfConcat(a, b);
      ConcatAssociative(Join(a), Join(Front(b)), Last(b));
    }
  }

  lemma JoinHead(chunks: seq<string>)
    requires chunks != []
    ensures Join(chunks) == chunks[0] + Join(chunks[1..])
  {
    JoinConcat([chunks[0]], chunks[1..]);
    assert [chunks[0]] + chunks[1..] == chunks;
    assert Front([chunks[0]]) == [];
  }

  /** Everything the command has written, as text. */
  function Full(data: seq<Data>): string
  {
    if data == [] then "" else Full(Front(data)) + Last(data).text
  }

  function Bytes(data: seq<Data>): nat
  {
    if data == [] then 0 else Bytes(Front(data)) + Last(data).bytes
  }

  /** Drops the oldest chunks while what is kept is too long. */
  function Shift(chunks: seq<string>): (kept: seq<string>)
    decreases |chunks|
  {
    if |Join(chunks)| > MAX_OUTPUT && |chunks| > 1 then Shift(chunks[1..]) else chunks
  }

  function WithFile(b: Buffer): Buffer
  {
    if b.file.Some? then b else b.(file := Some(Join(b.chunks)))
  }

  function Receive(b: Buffer, d: Data): Buffer
  {
    var total := b.totalBytes + d.bytes;
    var ready := if total > DEFAULT_MAX_BYTES then WithFile(b) else b;
    Buffer(Shift(b.chunks + [d.text]), total, if ready.file.Some? then Some(ready.file.value + d.text) else None)
  }

  function ReceiveAll(data: seq<Data>): Buffer
  {
    if data == [] then Buffer([], 0, None) else Receive(ReceiveAll(Front(data)), Last(data))
  }

  // ---------------------------------------------------------------------------------------------
  // Nothing is lost, unless the text outgrows its bytes
  // ---------------------------------------------------------------------------------------------

  predicate Suffix(s: string, full: string)
  {
    |s| <= |full| && s == full[|full| - |s|..]
  }

  lemma {:induction false} ShiftKeepsSuffix(chunks: seq<string>)
    ensures Suffix(Join(Shift(chunks)), Join(chunks))
    ensures |Join(chunks)| <= MAX_OUTPUT ==> Shift(chunks) == chunks
    ensures |Join(Shift(chunks))| <= MAX_OUTPUT || |Shift(chunks)| == 1
    ensures chunks != [] ==> Shift(chunks) != [] && Last(Shift(chunks)) == Last(chunks)
    decreases |chunks|
  {
    if |Join(chunks)| > MAX_OUTPUT && |chunks| > 1 {
      ShiftKeepsSuffix(chunks[1..]);
      JoinHead(chunks);
    }
  }

  /** The kept chunks are always the end of the text, and the sizes are those of the data. */
  lemma {:induction false} KeptIsSuffix(data: seq<Data>)
    ensures Suffix(Join(ReceiveAll(data).chunks), Full(data))
    ensures ReceiveAll(data).totalBytes == Bytes(data)
  {
    if data != [] {
      KeptIsSuffix(Front(data));
      var before := ReceiveAll(Front(data)).chunks;
      FrontOfAppend(before, Last(data).text);
      ShiftKeepsSuffix(before + [Last(data).text]);
      SuffixGrows(Join(before), Full(Front(data)), Last(data).text, Join(Shift(before + [Last(data).text])));
    }
  }

  lemma SuffixGrows(s: string, full: string, tail: string, kept: string)
    requires Suffix(s, full) && Suffix(kept, s + tail)
    ensures Suffix(kept, full + tail)
  {
  }

  /** The text so far is somewhere as a whole: in the file if there is one, else in the buffer. */
  predicate Whole(b: Buffer, full: string)
  {
    if b.file.Some? then b.file.value == full else Join(b.chunks) == full
  }

  /** A piece that overfills the buffer while the bytes do not yet call for a file. */
  predicate Overflows(data: seq<Data>, k: nat)
    requires k < |data|
  {
    && Bytes(data[..k + 1]) <= 51200
    && |Full(data[..k + 1])| > 102400 && |Full(data[..k])| > 0
  }

  lemma {:induction false} LongerThanLast(chunks: seq<string>)
    requires |Join(chunks)| > MAX_OUTPUT && |chunks| > 1 && |Join(Front(chunks))| > 0
    ensures |Join(Shift(chunks))| < |Join(chunks)|
    decreases |chunks|
  {
    JoinHead(chunks);
    if |chunks[0]| > 0 {
      ShiftKeepsSuffix(chunks[1..]);
    } else {
      JoinHead(Front(chunks));
      assert Front(chunks)[1..] == Front(chunks[1..]);
      LongerThanLast(chunks[1..]);
    }
  }

  lemma {:induction false} OnlyLastIsLong(chunks: seq<string>)
    requires chunks != [] && Join(Front(chunks)) == ""
    ensures Join(Shift(chunks)) == Join(chunks)
    decreases |chunks|
  {
    if |Join(chunks)| > MAX_OUTPUT && |chunks| > 1 {
      JoinHead(Front(chunks));
      JoinHead(chunks);
      assert Front(chunks)[1..] == Front(chunks[1..]);
      OnlyLastIsLong(chunks[1..]);
    }
  }

  lemma BytesGrow(data: seq<Data>)
    requires data != []
    ensures Bytes(Front(data)) <= Bytes(data)
  {
  }

  /** A file is there once the bytes call for it. */
  lemma {:induction false} FileWhenLarge(data: seq<Data>)
    ensures ReceiveAll(data).file.Some? <==> Bytes(data) > 51200
  {
    if data != [] {
      FileWhenLarge(Front(data));
      KeptIsSuffix(Front(data));
      BytesGrow(data);
    }
  }

  /** Without a file: the buffer stays whole unless the piece overflows it. */
  lemma BufferStep(chunks: seq<string>, text: string, full: string)
    requires Suffix(Join(chunks), full)
    ensures Join(Shift(chunks + [text])) == full + text <==>
            Join(chunks) == full && !(|full + text| > MAX_OUTPUT && |full| > 0)
  {
    var all := chunks + [text];
    FrontOfAppend(chunks, text);
    ShiftKeepsSuffix(all);
    if Join(chunks) == full {
      if |full| == 0 {
        OnlyLastIsLong(all);
      } else if |full + text| > MAX_OUTPUT {
        LongerThanLast(all);
      }
    }
  }

  /** One piece: what was whole stays whole unless the piece overflows, and what was lost stays lost. */
  lemma WholeStep(data: seq<Data>)
    requires data != []
    ensures Whole(ReceiveAll(data), Full(data)) <==>
            Whole(ReceiveAll(Front(data)), Full(Front(data))) && !Overflows(data, |data| - 1)
  {
    var front, text := Front(data), Last(data).text;
    var b := ReceiveAll(front);
    KeptIsSuffix(front);
    FileWhenLarge(front);
    assert data[..|data| - 1 + 1] == data && data[..|data| - 1] == front;
    ReceiveWhole(b, Last(data), Full(front));
  }

  lemma ReceiveWhole(b: Buffer, d: Data, full: string)
    requires Suffix(Join(b.chunks), full) && (b.file.Some? <==> b.totalBytes > DEFAULT_MAX_BYTES)
    ensures Whole(Receive(b, d), full + d.text) <==>
            Whole(b, full)
            && !(b.totalBytes + d.bytes <= DEFAULT_MAX_BYTES && |full + d.text| > MAX_OUTPUT && |full| > 0)
  {
    if b.totalBytes + d.bytes <= DEFAULT_MAX_BYTES {
      BufferStep(b.chunks, d.text, full);
    } else {
      SameHead(WithFile(b).file.value, full, d.text);
    }
  }

  lemma SameHead(a: string, b: string, tail: string)
    ensures a + tail == b + tail ==> a == b
  {
    if a + tail == b + tail {
      assert |a| == |b|;
      assert a == (a + tail)[..|a|] && b == (b + tail)[..|b|];
    }
  }

  /** Whether any piece overflows. */
  predicate EverOverflows(data: seq<Data>)
  {
    exists k | 0 <= k < |data| :: Overflows(data, k)
  }

  lemma EverOverflowsFront(data: seq<Data>)
    requires data != []
    ensures EverOverflows(data) <==> EverOverflows(Front(data)) || Overflows(data, |data| - 1)
  {
    forall k | 0 <= k < |data| - 1 ensures Overflows(data, k) <==> Overflows(Front(data), k) {
      assert data[..k + 1] == Front(data)[..k + 1] && data[..k] == Front(data)[..k];
    }
    if EverOverflows(data) {
      var k :| 0 <= k < |data| && Overflows(data, k);
      assert k < |data| - 1 ==> Overflows(Front(data), k);
    }
  }

  /** The whole text is in the file or in the buffer exactly if no piece overflows the buffer before there is a file. */
  lemma {:induction false} NothingIsLost(data: seq<Data>)
    ensures Whole(ReceiveAll(data), Full(data)) <==> !EverOverflows(data)
  {
    if data != [] {
      NothingIsLost(Front(data));
      WholeStep(data);
      EverOverflowsFront(data);
    }
  }

  /** Cleaned text is no longer than the bytes it came from, taken together. */
  predicate TextWithinBytes(data: seq<Data>)
  {
    forall k | 0 <= k <= |data| :: |Full(data[..k])| <= Bytes(data[..k])
  }

  /** How the command ends: with an exit code or none, or with an exception. */
  datatype Ending = Exited(exitCode: Option<int>) | Failed(reason: string)

  datatype BashResult = BashResult(
    output: string, exitCode: Option<int>, cancelled: bool, truncated: bool, fullOutputPath: Option<string>)

  /** What a command returns. `truncated` and `tail` are what cutting the output for display makes of it. */
  function Finish(b: Buffer, exitCode: Option<int>, cancelled: bool, truncated: bool, tail: string): BashResult
  {
    BashResult(if truncated then tail else Join(b.chunks), if cancelled then None else exitCode, cancelled, truncated,
               if truncated then WithFile(b).file else b.file)
  }

  /** A cancelled command returns what it wrote, however it ended; any other exception goes to the caller. */
  function Outcome(b: Buffer, ending: Ending, cancelled: bool, truncated: bool, tail: string)
    : Result<BashResult, string>
  {
    match ending
    case Exited(exitCode) => Ok(Finish(b, exitCode, cancelled, truncated, tail))
    case Failed(reason) => if cancelled then Ok(Finish(b, None, true, truncated, tail)) else Err(reason)
  }

  /** With text no longer than its bytes: a result without a file is the full text, and a file holds the full text. */
  lemma ResultHasFullText(data: seq<Data>, ending: Ending, cancelled: bool, truncated: bool, tail: string)
    requires TextWithinBytes(data) && Outcome(ReceiveAll(data), ending, cancelled, truncated, tail).Ok?
    ensures var r := Outcome(ReceiveAll(data), ending, cancelled, truncated, tail).value;
            && (r.fullOutputPath.None? ==> r.output == Full(data) && !r.truncated)
            && (r.fullOutputPath.Some? ==> r.fullOutputPath.value == Full(data))
  {
    forall k | 0 <= k < |data| ensures !Overflows(data, k) {
      assert |Full(data[..k + 1])| <= Bytes(data[..k + 1]);
    }
    NothingIsLost(data);
  }

  // ---------------------------------------------------------------------------------------------
  // The executor
  // ---------------------------------------------------------------------------------------------

  class OutputCollector {
    var outputChunks: seq<string>
    var outputBytes: nat
    var totalBytes: nat
    var tempFile: Option<string>

    ghost predicate Valid()
      reads this
    {
      outputBytes == |Join(outputChunks)|
    }

    ghost function Now(): Buffer
      reads this
    {
      Buffer(outputChunks, totalBytes, tempFile)
    }

    constructor ()
      ensures Valid() && Now() == ReceiveAll([])
    {
      outputChunks, outputBytes, totalBytes, tempFile := [], 0, 0, None;
    }

    /** Opens the file, if there is none yet, with the chunks that are still kept. */
    method EnsureTempFile()
      modifies this`tempFile
      ensures Now() == WithFile(old(Now()))
    {
      if tempFile.Some? {
        return;
      }
      var written := "";
      for i := 0 to |outputChunks|
        invariant written == Join(outputChunks[..i])
      {
        FrontOfPrefix(outputChunks, i);
        written := written + outputChunks[i];
      }
      assert outputChunks[..|outputChunks|] == outputChunks;
      tempFile := Some(written);
    }

    method OnData(data: Data)
      requires Valid()
      modifies this
      ensures Valid() && Now() == Receive(old(Now()), data)
    {
      ghost var before := Now();
      totalBytes := totalBytes + data.bytes;
      if totalBytes > DEFAULT_MAX_BYTES {
        EnsureTempFile();
      }
      if tempFile.Some? {
        tempFile := Some(tempFile.value + data.text);
      }
      FrontOfAppend(outputChunks, data.text);
      outputChunks := outputChunks + [data.text];
      outputBytes := outputBytes + |data.text|;
      ghost var all := outputChunks;
      while outputBytes > MAX_OUTPUT && |outputChunks| > 1
        invariant Valid() && Shift(outputChunks) == Shift(all)
        invariant totalBytes == Receive(before, data).totalBytes && tempFile == Receive(before, data).file
        decreases |outputChunks|
      {
        JoinHead(outputChunks);
        var removed := outputChunks[0];
        outputChunks := outputChunks[1..];
        outputBytes := outputBytes - |removed|;
      }
      assert outputChunks == Shift(before.chunks + [data.text]);
    }

    method Conclude(exitCode: Option<int>, cancelled: bool, truncated: bool, tail: string) returns (result: BashResult)
      modifies this`tempFile
      ensures result == Finish(old(Now()), exitCode, cancelled, truncated, tail)
    {
      ghost var b := Now();
      var fullOutput := "";
      for i := 0 to |outputChunks|
        invariant fullOutput == Join(outputChunks[..i]) && Now() == b
      {
        FrontOfPrefix(outputChunks, i);
        fullOutput := fullOutput + outputChunks[i];
      }
      assert outputChunks[..|outputChunks|] == outputChunks;
      if truncated {
        EnsureTempFile();
      }
      result := BashResult(if truncated then tail else fullOutput, if cancelled then None else exitCode, cancelled,
                           truncated, tempFile);
    }
  }

  /** A whole command, given the pieces it writes and how it ends. */
  method ExecuteBash(data: seq<Data>, ending: Ending, cancelled: bool, truncated: bool, tail: string)
    returns (result: Result<BashResult, string>)
    ensures result == Outcome(ReceiveAll(data), ending, cancelled, truncated, tail)
    ensures result.Err? <==> ending.Failed? && !cancelled
    ensures result.Err? ==> result.error == ending.reason
    ensures result.Ok? ==>
              && result.value.cancelled == cancelled && result.value.truncated == truncated
              && result.value.exitCode == (if cancelled then None else ending.exitCode)
              && (if truncated then result.value.output == tail else Suffix(result.value.output, Full(data)))
              && (result.value.fullOutputPath.Some? <==> truncated || Bytes(data) > 51200)
    ensures TextWithinBytes(data) && result.Ok? ==>
              if result.value.fullOutputPath.Some? then result.value.fullOutputPath.value == Full(data)
              else result.value.output == Full(data) && !result.value.truncated
  {
    var collector := new OutputCollector();
    for i := 0 to |data|
      invariant fresh(collector) && collector.Valid() && collector.Now() == ReceiveAll(data[..i])
    {
      FrontOfPrefix(data, i);
      collector.OnData(data[i]);
    }
    assert data[..|data|] == data;
    KeptIsSuffix(data);
    FileWhenLarge(data);
    if ending.Failed? && !cancelled {
      return Err(ending.reason);
    }
    var concluded := collector.Conclude(
      if ending.Exited? then ending.exitCode else None, cancelled, truncated, tail);
    result := Ok(concluded);
    assert TextWithinBytes(data) ==>
        if concluded.fullOutputPath.Some? then concluded.fullOutputPath.value == Full(data)
        else concluded.output == Full(data) && !concluded.truncated by {
      if TextWithinBytes(data) {
        ResultHasFullText(data, ending, cancelled, truncated, tail);
      }
    }
  }
}
