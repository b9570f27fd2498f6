/** server/routes/transcribe.py: the loops that take an upload in. */
module Upload {
  import opened Basics
  import opened Wav

  // -------------------------------------------------------- the body of a request

  /** What waiting for the next chunk of the body gives. */
  datatype Frame = Chunk(bytes: seq<Byte>) | Stall

  datatype BodyEnd = AllRead | TooLarge | Stalled

  function Total(chunks: seq<seq<Byte>>): nat {
    if chunks == [] then 0 else Total(chunks[..|chunks| - 1]) + |chunks[|chunks| - 1]|
  }

  lemma TotalAppend(chunks: seq<seq<Byte>>, chunk: seq<Byte>)
    ensures Total(chunks + [chunk]) == Total(chunks) + |chunk|
  {
    assert (chunks + [chunk])[..|chunks|] == chunks;
  }

  /** `_limited_request_stream`: the chunks are passed on in order, up to the first stall or the
      first one that would take the total over the limit. */
  method LimitedRequestStream(frames: seq<Frame>, limit: nat) returns (passed: seq<seq<Byte>>, end: BodyEnd)
    ensures |passed| <= |frames| && forall i | 0 <= i < |passed| :: frames[i] == Chunk(passed[i])
    ensures Total(passed) <= limit
    ensures end == AllRead <==> |passed| == |frames|
    ensures end == Stalled <==> |passed| < |frames| && frames[|passed|].Stall?
    ensures end == TooLarge <==> |passed| < |frames| && frames[|passed|].Chunk?
                                 && Total(passed) + |frames[|passed|].bytes| > limit
  {
    passed := [];
    var total := 0;
    for i := 0 to |frames|
      invariant |passed| == i && total == Total(passed) && total <= limit
      invariant forall k | 0 <= k < i :: frames[k] == Chunk(passed[k])
    {
      match frames[i] {
        case Stall => return passed, Stalled;
        case Chunk(bytes) =>
          total := total + |bytes|;
          if total > limit {
            return passed, TooLarge;
          }
          TotalAppend(passed, bytes);
          passed := passed + [bytes];
      }
    }
    end := AllRead;
  }

  // --------------------------------------------------------------- the audio file

  datatype SpoolResult = Spooled(size: nat) | AudioTooLarge | EmptyAudio

  /** The upload is what its reads give until the first empty one. */
  function Content(pieces: seq<seq<Byte>>): seq<Byte>
    decreases |pieces|
  {
    if pieces == [] || pieces[0] == [] then [] else pieces[0] + Content(pieces[1..])
  }

  lemma ContentFrom(pieces: seq<seq<Byte>>, k: nat)
    requires k <= |pieces|
    ensures Content(pieces[k..])
         == if k == |pieces| || pieces[k] == [] then [] else pieces[k] + Content(pieces[k + 1..])
  {
    if k < |pieces| {
      assert pieces[k..][1..] == pieces[k + 1..];
    }
  }

  /** `_spool_upload`: `disk` is the file when the loop ends, and never larger than the limit; the
      whole upload is there if the call succeeds. */
  method SpoolUpload(pieces: seq<seq<Byte>>, limit: nat) returns (result: SpoolResult, disk: seq<Byte>)
    ensures |disk| <= limit && disk <= Content(pieces)
    ensures result == AudioTooLarge <==> |Content(pieces)| > limit
    ensures result == EmptyAudio <==> Content(pieces) == []
    ensures result.Spooled? ==> disk == Content(pieces) && result.size == |disk|
  {
    hide Content;
    disk := [];
    var total, k := 0, 0;
    assert pieces[0..] == pieces;
    while true
      invariant k <= |pieces| && total == |disk| <= limit
      invariant Content(pieces) == disk + Content(pieces[k..])
      decreases |pieces| - k
    {
      ContentFrom(pieces, k);
      if k == |pieces| || pieces[k] == [] {
        break;
      }
      var chunk := pieces[k];
      total := total + |chunk|;
      if total > limit {
        return AudioTooLarge, disk;
      }
      disk := disk + chunk;
      k := k + 1;
    }
    if total == 0 {
      return EmptyAudio, disk;
    }
    result := Spooled(total);
  }

  // --------------------------------------------------------------------- the form

  datatype Field = File(content: seq<Byte>) | Text(text: string)

  datatype FormError =
    | DuplicateAudio | AudioNotFile | DuplicateHotwords | HotwordsNotText | ControlTokens | UnexpectedField

  datatype Form = Form(audio: seq<Byte>, hotwords: Option<string>) | BadItem(index: nat, error: FormError) | NoAudio

  /** `<\|[^>\r\n]{1,128}\|>` starts at `i`, with `n` characters in between. */
  predicate TokenAt(s: string, i: nat, n: nat) {
    && 1 <= n <= 128 && i + n + 4 <= |s|
    && s[i] == '<' && s[i + 1] == '|' && s[i + n + 2] == '|' && s[i + n + 3] == '>'
    && forall k | i + 2 <= k < i + n + 2 :: s[k] != '>' && s[k] != '\r' && s[k] != '\n'
  }

  predicate HasControlToken(s: string) {
    exists i, n | 0 <= i < |s| && 1 <= n <= 128 :: TokenAt(s, i, n)
  }

  predicate TokenBody(body: string) {
    1 <= |body| <= 128 && '>' !in body && '\r' !in body && '\n' !in body
  }

  /** A control token is a short text without `>` and line breaks between `<|` and `|>`. */
  lemma ControlTokenIsExact(s: string)
    ensures HasControlToken(s) <==> exists a, body, b :: s == a + "<|" + body + "|>" + b && TokenBody(body)
  {
    hide TokenBody;
    if HasControlToken(s) {
      var i, n :| 0 <= i < |s| && 1 <= n <= 128 && TokenAt(s, i, n);
      TokenPieces(s, i, n);
    }
    forall a, body, b | s == a + "<|" + body + "|>" + b && TokenBody(body)
      ensures HasControlToken(s)
    {
      PiecesAreToken(a, body, b);
      assert TokenAt(s, |a|, |body|);
    }
  }

  lemma TokenPieces(s: string, i: nat, n: nat)
    requires TokenAt(s, i, n)
    ensures TokenBody(s[i + 2..i + n + 2])
    ensures s == s[..i] + "<|" + s[i + 2..i + n + 2] + "|>" + s[i + n + 4..]
  {
  }

  lemma PiecesAreToken(a: string, body: string, b: string)
    requires TokenBody(body)
    ensures var s := a + "<|" + body + "|>" + b;
      |a| < |s| && 1 <= |body| <= 128 && TokenAt(s, |a|, |body|)
  {
    var s := a + "<|" + body + "|>" + b;
    forall k | |a| + 2 <= k < |a| + |body| + 2
      ensures s[k] == body[k - |a| - 2] && s[k] in body
    {
    }
  }

  predicate Occurred(items: seq<(string, Field)>, k: nat, name: string)
    requires k <= |items|
  {
    exists i :: 0 <= i < k && items[i].0 == name
  }

  /** What is wrong with item `k`, given those before it. */
  function Fault(items: seq<(string, Field)>, k: nat): Option<FormError>
    requires k < |items|
  {
    var (name, value) := items[k];
    if name == "audio" then
      if Occurred(items, k, "audio") then Some(DuplicateAudio) else if value.File? then None else Some(AudioNotFile)
    else if name == "hotwords" then
      if Occurred(items, k, "hotwords") then Some(DuplicateHotwords)
      else if !value.Text? then Some(HotwordsNotText)
      else if HasControlToken(value.text) then Some(ControlTokens)
      else None
    else Some(UnexpectedField)
  }

  /** `_extract_transcribe_form`: the first faulty item is reported; a form without one is accepted
      exactly when it has an audio item. */
  method ExtractForm(items: seq<(string, Field)>) returns (form: Form)
    ensures form.BadItem? ==>
      && form.index < |items| && Fault(items, form.index) == Some(form.error)
      && forall k | 0 <= k < form.index :: Fault(items, k) == None
    ensures !form.BadItem? ==> forall k | 0 <= k < |items| :: Fault(items, k) == None
    ensures form.NoAudio? ==> !Occurred(items, |items|, "audio")
    ensures form.Form? ==> ("audio", File(form.audio)) in items
    ensures form.Form? ==>
      if form.hotwords.Some? then ("hotwords", Text(form.hotwords.value)) in items
      else !Occurred(items, |items|, "hotwords")
  {
    hide HasControlToken;
    var audio: Option<seq<Byte>>, hotwords: Option<string> := None, None;
    var seenAudio, seenHotwords := false, false;
    for k := 0 to |items|
      invariant forall i | 0 <= i < k :: Fault(items, i) == None
      invariant seenAudio == Occurred(items, k, "audio") == audio.Some?
      invariant seenHotwords == Occurred(items, k, "hotwords") == hotwords.Some?
      invariant audio.Some? ==> ("audio", File(audio.value)) in items
      invariant hotwords.Some? ==> ("hotwords", Text(hotwords.value)) in items
    {
      var (name, value) := items[k];
      assert items[k] in items;
      if name == "audio" {
        if seenAudio {
          return BadItem(k, DuplicateAudio);
        }
        seenAudio := true;
        if !value.File? {
          return BadItem(k, AudioNotFile);
        }
        audio := Some(value.content);
      } else if name == "hotwords" {
        if seenHotwords {
          return BadItem(k, DuplicateHotwords);
        }
        seenHotwords := true;
        if !value.Text? {
          return BadItem(k, HotwordsNotText);
        }
        if HasControlToken(value.text) {
          return BadItem(k, ControlTokens);
        }
        hotwords := Some(value.text);
      } else {
        return BadItem(k, UnexpectedField);
      }
    }
    if audio.None? {
      return NoAudio;
    }
    form := Form(audio.value, hotwords);
  }

  /** A form that names nothing but `audio` and `hotwords`, neither twice, with a file for the audio
      and hotwords that are text without control tokens. */
  predicate Proper(items: seq<(string, Field)>) {
    && (forall k | 0 <= k < |items| :: items[k].0 == "audio" || items[k].0 == "hotwords")
    && (forall i, j | 0 <= i < j < |items| :: items[i].0 != items[j].0)
    && (forall k | 0 <= k < |items| && items[k].0 == "audio" :: items[k].1.File?)
    && (forall k | 0 <= k < |items| && items[k].0 == "hotwords" ::
          items[k].1.Text? && !HasControlToken(items[k].1.text))
  }

  /** Each refusal has its own reason. */
  lemma FaultIsTold(items: seq<(string, Field)>, k: nat)
    requires k < |items|
    ensures var (name, value) := items[k]; var fault := Fault(items, k);
      var again := exists i :: 0 <= i < k && items[i].0 == name;
      && (fault == Some(UnexpectedField) <==> name != "audio" && name != "hotwords")
      && (fault == Some(DuplicateAudio) <==> name == "audio" && again)
      && (fault == Some(DuplicateHotwords) <==> name == "hotwords" && again)
      && (fault == Some(AudioNotFile) <==> name == "audio" && !again && !value.File?)
      && (fault == Some(HotwordsNotText) <==> name == "hotwords" && !again && !value.Text?)
      && (fault == Some(ControlTokens) <==>
            name == "hotwords" && !again && value.Text? && HasControlToken(value.text))
  {
    hide HasControlToken;
  }

  /** The forms without faults are the proper ones. */
  lemma FaultlessForm(items: seq<(string, Field)>)
    ensures (forall k | 0 <= k < |items| :: Fault(items, k) == None) <==> Proper(items)
  {
    hide HasControlToken;
    if forall k | 0 <= k < |items| :: Fault(items, k) == None {
      forall i, j | 0 <= i < j < |items|
        ensures items[i].0 != items[j].0
      {
        FieldsOccurOnce(items, i, j);
      }
      forall k | 0 <= k < |items|
        ensures items[k].0 == "audio" || items[k].0 == "hotwords"
        ensures items[k].0 == "audio" ==> items[k].1.File?
        ensures items[k].0 == "hotwords" ==> items[k].1.Text? && !HasControlToken(items[k].1.text)
      {
        assert Fault(items, k) == None;
      }
    }
    if Proper(items) {
      forall k | 0 <= k < |items|
        ensures Fault(items, k) == None
      {
        assert !Occurred(items, k, items[k].0);
      }
    }
  }

  /** A form without faults names each field at most once. */
  lemma FieldsOccurOnce(items: seq<(string, Field)>, i: nat, j: nat)
    requires i < j < |items| && forall k | 0 <= k < |items| :: Fault(items, k) == None
    ensures items[i].0 != items[j].0
  {
    hide HasControlToken;
    assert Fault(items, i) == None && Fault(items, j) == None;
    assert items[i].0 == items[j].0 ==> Occurred(items, j, items[j].0);
  }
}
