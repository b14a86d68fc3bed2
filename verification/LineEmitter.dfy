/**
 `makeLineEmitter` (apps/artood/src/process-adapter.ts:298-322): a buffer that is fed text
 in arbitrary chunks and emits the lines it completes.
 */
module LineEmitter {
  import opened Common

  // ---------------------------------------------------------------- splitting a whole text

  /** `indexOf("\n")`, or the length when there is none. */
  function Newline(s: string): (i: nat)
    ensures i <= |s|
    ensures i < |s| ==> s[i] == '\n'
    ensures forall k | 0 <= k < i :: s[k] != '\n'
  {
    if s == "" || s[0] == '\n' then 0 else 1 + Newline(s[1..])
  }

  /** The newline-terminated lines of a text, without their newline. */
  function RawLines(text: string): seq<string>
    decreases |text|
  {
    var i := Newline(text);
    if i == |text| then [] else [text[..i]] + RawLines(text[i + 1..])
  }

  /** What follows the last newline. */
  function Remainder(text: string): string
    decreases |text|
  {
    var i := Newline(text);
    if i == |text| then text else Remainder(text[i + 1..])
  }

  function StripCr(line: string): string {
    if line != "" && line[|line| - 1] == '\r' then line[..|line| - 1] else line
  }

  function StripAll(lines: seq<string>): (r: seq<string>)
    ensures |r| == |lines| && forall k | 0 <= k < |r| :: r[k] == StripCr(lines[k])
  {
    if lines == [] then [] else [StripCr(lines[0])] + StripAll(lines[1..])
  }

  /** The lines of a whole text: a nonempty remainder counts as a line. */
  function Split(text: string): seq<string> {
    StripAll(RawLines(text)) + (if Remainder(text) == "" then [] else [StripCr(Remainder(text))])
  }

  /** Putting raw lines back together. */
  function Join(lines: seq<string>, rest: string): string {
    if lines == [] then rest else lines[0] + "\n" + Join(lines[1..], rest)
  }

  predicate NoNewline(s: string) {
    forall k | 0 <= k < |s| :: s[k] != '\n'
  }

  /** Splitting loses nothing: the raw lines and the remainder are free of newlines and join to the text. */
  lemma {:induction false} JoinUndoesSplit(text: string)
    ensures Join(RawLines(text), Remainder(text)) == text
    ensures NoNewline(Remainder(text)) && forall k | 0 <= k < |RawLines(text)| :: NoNewline(RawLines(text)[k])
    decreases |text|
  {
    var i := Newline(text);
    if i < |text| {
      JoinUndoesSplit(text[i + 1..]);
      assert text == text[..i] + "\n" + text[i + 1..];
      assert RawLines(text)[1..] == RawLines(text[i + 1..]);
    }
  }

  lemma NewlineOf(line: string, rest: string)
    requires NoNewline(line)
    ensures Newline(line + "\n" + rest) == |line|
  {
    var s := line + "\n" + rest;
    assert s[|line|] == '\n';
    assert forall k | 0 <= k < |line| :: s[k] == line[k];
  }

  /** And it is the only such division of the text. */
  lemma {:induction false} SplitIsUnique(lines: seq<string>, rest: string)
    requires NoNewline(rest) && forall k | 0 <= k < |lines| :: NoNewline(lines[k])
    ensures RawLines(Join(lines, rest)) == lines && Remainder(Join(lines, rest)) == rest
    decreases |lines|
  {
    if lines != [] {
      var tail := Join(lines[1..], rest);
      NewlineOf(lines[0], tail);
      var text := Join(lines, rest);
      assert text == lines[0] + "\n" + tail;
      assert text[..|lines[0]|] == lines[0] && text[|lines[0]| + 1..] == tail;
      SplitIsUnique(lines[1..], rest);
    }
  }

  /** Exactly one trailing carriage return goes, if there is one, and nothing else. */
  lemma StripsOneCr(line: string)
    ensures if line != "" && line[|line| - 1] == '\r' then line == StripCr(line) + "\r" else StripCr(line) == line
  {
    if line != "" && line[|line| - 1] == '\r' { assert line == line[..|line| - 1] + "\r"; }
  }

  /**
   The lines of a text made of newline-free lines and a newline-free rest: each line without one trailing carriage
   return, and the rest as one more exactly if it is not empty.
   */
  lemma SplitsExactly(lines: seq<string>, rest: string, k: nat)
    requires NoNewline(rest) && forall i | 0 <= i < |lines| :: NoNewline(lines[i])
    ensures var got := Split(Join(lines, rest));
            && |got| == |lines| + (if rest == "" then 0 else 1)
            && (k < |lines| ==> got[k] == lines[k] || got[k] + "\r" == lines[k])
            && (k < |lines| && (lines[k] == "" || lines[k][|lines[k]| - 1] != '\r') ==> got[k] == lines[k])
            && (k < |lines| && lines[k] != "" && lines[k][|lines[k]| - 1] == '\r' ==> got[k] + "\r" == lines[k])
            && (k == |lines| && rest != "" ==> got[k] == StripCr(rest))
  {
    SplitIsUnique(lines, rest);
    if k < |lines| {
      StripsOneCr(lines[k]);
      if lines[k] != "" && lines[k][|lines[k]| - 1] == '\r' { assert lines[k] == lines[k][..|lines[k]| - 1] + "\r"; }
    }
  }

  // ---------------------------------------------------------------- the emitter

  /** The completed lines as `onLine` gets them. */
  function Lines(text: string): seq<string>
    decreases |text|
  {
    var i := Newline(text);
    if i == |text| then [] else [StripCr(text[..i])] + Lines(text[i + 1..])
  }

  lemma {:induction false} LinesAreStripped(text: string)
    ensures Lines(text) == StripAll(RawLines(text))
    decreases |text|
  {
    var i := Newline(text);
    if i < |text| {
      LinesAreStripped(text[i + 1..]);
      assert RawLines(text)[1..] == RawLines(text[i + 1..]);
    }
  }

  datatype State = State(buffer: string, emitted: seq<string>)

  function Fed(s: State, chunk: string): State {
    State(Remainder(s.buffer + chunk), s.emitted + Lines(s.buffer + chunk))
  }

  function FedAll(s: State, chunks: seq<string>): State
    decreases |chunks|
  {
    if chunks == [] then s else FedAll(Fed(s, chunks[0]), chunks[1..])
  }

  function Flushed(s: State): State {
    if s.buffer == "" then s else State("", s.emitted + [StripCr(s.buffer)])
  }

  function Concat(chunks: seq<string>): string
    decreases |chunks|
  {
    if chunks == [] then "" else chunks[0] + Concat(chunks[1..])
  }

  lemma NewlineInPrefix(a: string, b: string)
    requires Newline(a) < |a|
    ensures Newline(a + b) == Newline(a)
    ensures (a + b)[..Newline(a)] == a[..Newline(a)] && (a + b)[Newline(a) + 1..] == a[Newline(a) + 1..] + b
  {
    assert (a + b)[Newline(a)] == '\n';
    assert forall k | 0 <= k < Newline(a) :: (a + b)[k] == a[k];
  }

  lemma FirstLine(text: string)
    requires Newline(text) < |text|
    ensures var i := Newline(text);
            Lines(text) == [StripCr(text[..i])] + Lines(text[i + 1..]) && Remainder(text) == Remainder(text[i + 1..])
  {}

  lemma NoFirstLine(text: string)
    requires Newline(text) == |text|
    ensures Lines(text) == [] && Remainder(text) == text
  {}

  lemma FirstLineGoes(a: string, b: string, tail: string)
    requires Newline(a) < |a| && tail == a[Newline(a) + 1..]
    requires Lines(tail + b) == Lines(tail) + Lines(Remainder(tail) + b)
    ensures Lines(a + b) == Lines(a) + Lines(Remainder(a) + b)
    ensures Remainder(a) == Remainder(tail) && Remainder(a + b) == Remainder(tail + b)
  {
    NewlineInPrefix(a, b);
    FirstLine(a);
    FirstLine(a + b);
    Associative([StripCr(a[..Newline(a)])], Lines(tail), Lines(Remainder(tail) + b));
  }

  /** Splitting a text is splitting its first part and going on with what that part left over. */
  lemma {:induction false} SplitContinues(a: string, b: string)
    ensures Lines(a + b) == Lines(a) + Lines(Remainder(a) + b)
    ensures Remainder(a + b) == Remainder(Remainder(a) + b)
    decreases |a|
  {
    if Newline(a) == |a| {
      NoFirstLine(a);
      EmptyIsNeutral(Lines(a + b));
    } else {
      var tail := a[Newline(a) + 1..];
      SplitContinues(tail, b);
      FirstLineGoes(a, b, tail);
    }
  }

  lemma FeedTwice(s: State, a: string, b: string)
    ensures Fed(Fed(s, a), b) == Fed(s, a + b)
  {
    SplitContinues(s.buffer + a, b);
    Associative(s.buffer, a, b);
    Associative(s.emitted, Lines(s.buffer + a), Lines(Remainder(s.buffer + a) + b));
  }

  lemma {:induction false} FeedingChunks(s: State, chunks: seq<string>)
    requires Fed(s, "") == s
    ensures FedAll(s, chunks) == Fed(s, Concat(chunks))
    decreases |chunks|
  {
    if chunks != [] {
      FeedTwice(s, chunks[0], "");
      assert chunks[0] + "" == chunks[0];
      FeedingChunks(Fed(s, chunks[0]), chunks[1..]);
      FeedTwice(s, chunks[0], Concat(chunks[1..]));
    }
  }

  lemma WholeText(text: string)
    ensures Flushed(Fed(State("", []), text)) == State("", Split(text))
  {
    EmptyIsNeutral(text);
    EmptyIsNeutral(Lines(text));
    LinesAreStripped(text);
  }

  /** However a text is cut into chunks, feeding and flushing emits the lines of the whole text. */
  lemma ChunksDoNotMatter(chunks: seq<string>)
    ensures Flushed(FedAll(State("", []), chunks)) == State("", Split(Concat(chunks)))
  {
    FeedingChunks(State("", []), chunks);
    WholeText(Concat(chunks));
  }

  /** A second flush adds nothing, whatever was fed before the first. */
  lemma FlushTwice(chunks: seq<string>)
    ensures var s := Flushed(FedAll(State("", []), chunks)); Flushed(s) == s
  {}

  /** The closure of `makeLineEmitter`; `emitted` is what `onLine` was called with. */
  class Emitter {
    var buffer: string
    var emitted: seq<string>

    ghost function View(): State
      reads this
    {
      State(buffer, emitted)
    }

    constructor ()
      ensures View() == State("", [])
    {
      buffer, emitted := "", [];
    }

    method Feed(chunk: string)
      modifies this
      ensures View() == Fed(old(View()), chunk)
    {
      buffer := buffer + chunk;
      ghost var text := buffer;
      var index := Newline(buffer);
      while index < |buffer|
        invariant index == Newline(buffer)
        invariant emitted + Lines(buffer) == old(emitted) + Lines(text)
        invariant Remainder(buffer) == Remainder(text)
        decreases |buffer|
      {
        Associative(emitted, [StripCr(buffer[..index])], Lines(buffer[index + 1..]));
        emitted := emitted + [StripCr(buffer[..index])];
        buffer := buffer[index + 1..];
        index := Newline(buffer);
      }
      EmptyIsNeutral(emitted);
    }

    method Flush()
      modifies this
      ensures View() == Flushed(old(View()))
    {
      if |buffer| > 0 {
        emitted := emitted + [StripCr(buffer)];
        buffer := "";
      }
    }
  }
}
