/** server/vllm_client.py: the loop over the lines of vLLM's reply. */
module VllmStream {
  import opened Basics
  import opened JsonText

  const DATA_PREFIX := "data: "
  const DONE_MARK := "[DONE]"

  /** What one line of the reply makes the loop do. */
  datatype LineResult = Skip | Finished | Chunk(text: string) | Crash

  function DeltaOfLine(line: string): LineResult {
    if !(DATA_PREFIX <= line) then Skip
    else
      var payload := line[|DATA_PREFIX|..];
      if Strip(payload) == DONE_MARK then Finished
      else
        match Loads(payload)
        case None => Skip
        case Some(data) => DeltaOfData(data)
  }

  /** `data["choices"][0]["delta"]["content"]`, with the guards that precede each lookup. */
  function DeltaOfData(data: Json): LineResult {
    match Contains(data, "choices")
    case None => Crash
    case Some(false) => Skip
    case Some(true) =>
      match Index(data, "choices")
      case None => Crash
      case Some(choices) =>
        if !Truthy(choices) then Skip
        else
          match First(choices)
          case None => Crash
          case Some(choice) => DeltaOfChoice(choice)
  }

  function DeltaOfChoice(choice: Json): LineResult {
    match Contains(choice, "delta")
    case None => Crash
    case Some(false) => Skip
    case Some(true) =>
      match Index(choice, "delta")
      case None => Crash
      case Some(delta) =>
        match Contains(delta, "content")
        case None => Crash
        case Some(false) => Skip
        case Some(true) =>
          match Index(delta, "content")
          case Some(Str(text)) => if text == "" then Skip else Chunk(text)
          case Some(v) => if Truthy(v) then Crash else Skip
          case None => Crash
  }

  datatype Ending = Pending | Ended | Broken

  /** What the generator has yielded after reading `lines`, and whether it has stopped. */
  datatype Reply = Reply(chunks: seq<string>, ending: Ending)

  function Absorb(r: Reply, result: LineResult): Reply {
    if r.ending != Pending then r
    else
      match result
      case Skip => r
      case Finished => r.(ending := Ended)
      case Chunk(text) => r.(chunks := r.chunks + [text])
      case Crash => r.(ending := Broken)
  }

  function ReplyOf(lines: seq<string>): Reply {
    if lines == [] then Reply([], Pending)
    else Absorb(ReplyOf(lines[..|lines| - 1]), DeltaOfLine(lines[|lines| - 1]))
  }

  lemma ReplyAppend(lines: seq<string>, line: string)
    ensures ReplyOf(lines + [line]) == Absorb(ReplyOf(lines), DeltaOfLine(line))
  {
    assert (lines + [line])[..|lines|] == lines;
  }

  /** The delta text a line carries, if it carries a non-empty one. */
  function Content(line: string): seq<string> {
    match DeltaOfLine(line)
    case Chunk(text) => [text]
    case Skip => []
    case Finished => []
    case Crash => []
  }

  function Contents(lines: seq<string>): seq<string> {
    if lines == [] then [] else Contents(lines[..|lines| - 1]) + Content(lines[|lines| - 1])
  }

  predicate Stops(line: string) {
    DeltaOfLine(line) == Finished || DeltaOfLine(line) == Crash
  }

  /** How many lines come before the first that ends the generator. */
  function FirstStop(lines: seq<string>): (n: nat)
    ensures n <= |lines|
    ensures forall i | 0 <= i < n :: !Stops(lines[i])
    ensures n < |lines| ==> Stops(lines[n])
  {
    if lines == [] || Stops(lines[0]) then 0
    else
      var n := FirstStop(lines[1..]);
      assert forall i | 0 < i < n + 1 :: lines[i] == lines[1..][i - 1];
      n + 1
  }

  /** The non-empty delta contents of all lines up to the first `[DONE]`. */
  function DeltasBeforeDone(lines: seq<string>): seq<string> { Contents(lines[..FirstStop(lines)]) }

  lemma ReplyIsDeltas(lines: seq<string>)
    ensures ReplyOf(lines).chunks == DeltasBeforeDone(lines)
    ensures ReplyOf(lines).ending == Ended <==>
      FirstStop(lines) < |lines| && DeltaOfLine(lines[FirstStop(lines)]) == Finished
  {
    YieldsContentsUpToDone(lines, FirstStop(lines));
  }

  /** The generator yields the non-empty delta texts of the lines before the first `[DONE]`, in
      order, and nothing of what comes after it. */
  lemma {:induction false} YieldsContentsUpToDone(lines: seq<string>, n: nat)
    requires n <= |lines|
    requires forall i | 0 <= i < n :: !Stops(lines[i])
    requires n < |lines| ==> Stops(lines[n])
    ensures ReplyOf(lines).chunks == Contents(lines[..n])
    ensures ReplyOf(lines).ending == Pending <==> n == |lines|
    ensures ReplyOf(lines).ending == Ended <==> n < |lines| && DeltaOfLine(lines[n]) == Finished
    ensures forall i | 0 <= i < |ReplyOf(lines).chunks| :: ReplyOf(lines).chunks[i] != ""
  {
    hide DeltaOfLine;
    if lines != [] {
      var m := |lines| - 1;
      DeltaNotEmpty(lines[m]);
      if n <= m {
        YieldsContentsUpToDone(lines[..m], n);
        assert lines[..m][..n] == lines[..n];
      } else {
        YieldsContentsUpToDone(lines[..m], m);
        assert lines[..n] == lines && lines[..m][..m] == lines[..m];
      }
    } else {
      assert lines[..n] == [];
    }
  }

  lemma DeltaNotEmpty(line: string)
    ensures DeltaOfLine(line) != Chunk("")
  {
    hide Loads, Strip;
  }

  /** The loop of `stream_transcription` over the lines received so far. */
  method StreamTranscription(lines: seq<string>) returns (chunks: seq<string>, ending: Ending)
    ensures Reply(chunks, ending) == ReplyOf(lines)
  {
    hide DeltaOfLine;
    chunks, ending := [], Pending;
    assert lines[..0] == [];
    for i := 0 to |lines|
      invariant ReplyOf(lines[..i]) == Reply(chunks, Pending)
    {
      ReplyAppend(lines[..i], lines[i]);
      assert lines[..i] + [lines[i]] == lines[..i + 1];
      match DeltaOfLine(lines[i]) {
        case Skip => continue;
        case Finished =>
          StoppedForGood(lines, i + 1);
          return chunks, Ended;
        case Chunk(text) => chunks := chunks + [text];
        case Crash =>
          StoppedForGood(lines, i + 1);
          return chunks, Broken;
      }
    }
    assert lines[..|lines|] == lines;
  }

  lemma {:induction false} StoppedForGood(lines: seq<string>, n: nat)
    requires n <= |lines| && ReplyOf(lines[..n]).ending != Pending
    ensures ReplyOf(lines) == ReplyOf(lines[..n])
  {
    hide DeltaOfLine;
    if n == |lines| {
      assert lines[..n] == lines;
    } else {
      var m := |lines| - 1;
      assert lines[..m][..n] == lines[..n];
      StoppedForGood(lines[..m], n);
    }
  }
}
