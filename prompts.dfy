/** What the endpoints send to the generative model: the chat prompt rendered
    from the conversation, and the fixed-instruction prompts of the correct,
    summarize and image endpoints. */
module Prompts {

  /** One conversation turn as stored in the session: a role string and the text. */
  datatype Turn = Turn(role: string, text: string)

  const UserRole := "user"
  const AssistantRole := "assistant"

  /** The system line that opens every chat prompt. */
  const Preamble := "You are an expert, concise and clear AI Study Buddy. Provide structured answers with headings, bullet lists where useful, and a short summary at the end. If user asks follow-up, keep context."
  /** The last chat prompt line, which asks the model to speak next. */
  const Cue := "Assistant:"
  /** How many of the most recent turns a chat prompt shows. */
  const Window := 10

  const UserLabel := "User: "
  const AssistantLabel := "Assistant: "

  type byte = b: int | 0 <= b < 256

  /** A part of a multi-part prompt: text, or a MIME-tagged blob of bytes. */
  datatype Part = Text(text: string) | Media(mimeType: string, data: seq<byte>)

  /** Prompt contents as handed to the model: one string, or a list of parts. */
  datatype Prompt = Plain(text: string) | Parts(parts: seq<Part>)

  function Min(a: int, b: int): int { if a <= b then a else b }

  predicate IsUserLine(line: string) {
    |line| >= |UserLabel| && line[..|UserLabel|] == UserLabel
  }

  /** The text a rendered line carries after its role label. */
  function LineText(line: string): string {
    if IsUserLine(line) then line[|UserLabel|..]
    else if |line| >= |AssistantLabel| then line[|AssistantLabel|..]
    else line
  }

  /** One prompt line for a turn: "User: <text>" when the role is "user",
      "Assistant: <text>" for every other role. The line tells a user turn
      from any other and gives back the turn's text. */
  function FormatTurn(t: Turn): (line: string)
    ensures t.role == UserRole ==> line == UserLabel + t.text
    ensures t.role != UserRole ==> line == AssistantLabel + t.text
    ensures IsUserLine(line) <==> t.role == UserRole
    ensures LineText(line) == t.text
  {
    var role := if t.role == UserRole then "User" else "Assistant";
    var line := role + ": " + t.text;
    assert t.role != UserRole ==> line[..|UserLabel|] != UserLabel by {
      if t.role != UserRole { assert line[0] == 'A'; }
    }
    line
  }

  /** `convo[-10:]`: the most recent `Window` turns, or all when there are fewer. */
  function LastTurns(h: seq<Turn>): (w: seq<Turn>)
    ensures |w| == Min(Window, |h|)
    ensures w == h[|h| - |w|..]
  {
    if |h| <= Window then h else h[|h| - Window..]
  }

  /** The lines of a run of turns, one per turn and in the same order. */
  function FormatAll(ts: seq<Turn>): (lines: seq<string>)
    ensures |lines| == |ts|
    ensures forall i :: 0 <= i < |ts| ==> lines[i] == FormatTurn(ts[i])
  {
    if ts == [] then [] else [FormatTurn(ts[0])] + FormatAll(ts[1..])
  }

  /** Formatting one more turn adds its line at the end. */
  lemma FormatAllSnoc(ts: seq<Turn>, t: Turn)
    ensures FormatAll(ts + [t]) == FormatAll(ts) + [FormatTurn(t)]
  {
    var ts' := ts + [t];
    assert forall i :: 0 <= i < |ts| ==> ts'[i] == ts[i];
  }

  /** The chat prompt for a history that already ends with the new user turn:
      the system preamble (`Preamble` in the chat endpoint), then the last
      `Window` turns oldest first, then the cue. */
  function RenderedPrompt(preamble: string, h: seq<Turn>): seq<string> {
    [preamble] + FormatAll(LastTurns(h)) + [Cue]
  }

  /** The chat prompt has `min(10, n) + 2` lines: the preamble first, the cue
      last, and between them the lines of the last `min(10, n)` turns of the
      history, oldest first. */
  lemma {:induction false} RenderedPromptShape(preamble: string, h: seq<Turn>)
    ensures var p := RenderedPrompt(preamble, h);
      && |p| == Min(Window, |h|) + 2
      && p[0] == preamble && p[|p| - 1] == Cue
      && forall j :: |h| - (|p| - 2) <= j < |h| ==> p[j - |h| + |p| - 1] == FormatTurn(h[j])
  {
    var w := LastTurns(h);
    var lines := FormatAll(w);
    Framed(preamble, lines, Cue);
    var p := RenderedPrompt(preamble, h);
    forall j | |h| - |w| <= j < |h| ensures p[j - |h| + |p| - 1] == FormatTurn(h[j]) {
      var m := j - (|h| - |w|);
      assert p[m + 1] == lines[m];
      assert w[m] == h[j];
    }
  }

  /** Indexing into a list with one line before and one after it. */
  lemma Framed(first: string, middle: seq<string>, last: string)
    ensures var p := [first] + middle + [last];
      && |p| == |middle| + 2 && p[0] == first && p[|p| - 1] == last
      && forall m :: 0 <= m < |middle| ==> p[m + 1] == middle[m]
  {
  }

  /** Turns older than the last `Window` never reach the prompt: any history
      put before `Window` or more recent turns renders the same. */
  lemma {:induction false} OlderTurnsInvisible(preamble: string, older: seq<Turn>, recent: seq<Turn>)
    requires |recent| >= Window
    ensures RenderedPrompt(preamble, older + recent) == RenderedPrompt(preamble, recent)
  {
    var h := older + recent;
    assert LastTurns(h) == LastTurns(recent) by {
      assert h[|h| - Window..] == recent[|recent| - Window..];
    }
  }

  /** The turn just added is always shown, as the line right before the cue. */
  lemma {:induction false} NewTurnShown(preamble: string, h: seq<Turn>, text: string)
    ensures var p := RenderedPrompt(preamble, h + [Turn(UserRole, text)]);
            p[|p| - 2] == UserLabel + text
  {
    var h' := h + [Turn(UserRole, text)];
    var p := RenderedPrompt(preamble, h');
    RenderedPromptShape(preamble, h');
    assert p[(|h'| - 1) - |h'| + |p| - 1] == FormatTurn(h'[|h'| - 1]);
  }

  /** A conversation of one user turn renders as exactly three lines. */
  lemma {:induction false} SingleTurnPrompt(preamble: string, text: string)
    ensures RenderedPrompt(preamble, [Turn(UserRole, text)]) == [preamble, UserLabel + text, Cue]
  {
    var p := RenderedPrompt(preamble, [Turn(UserRole, text)]);
    RenderedPromptShape(preamble, [Turn(UserRole, text)]);
    assert p[0 - 1 + |p| - 1] == FormatTurn(Turn(UserRole, text));
  }

  /** Each text line of a list of strings becomes one text part. */
  function TextParts(lines: seq<string>): (parts: seq<Part>)
    ensures |parts| == |lines|
    ensures forall i :: 0 <= i < |lines| ==> parts[i] == Text(lines[i])
  {
    if lines == [] then [] else [Text(lines[0])] + TextParts(lines[1..])
  }

  const TextLabel := "Text: "

  const CorrectInstruction := "Correct grammar, spelling, punctuation, and improve clarity of the following text. Return only the corrected version, and after that provide a one-line summary labeled 'Summary:'.\n\n"

  const SummarizeInstruction := "Summarize the following text at three lengths: (1) one-sentence summary, (2) short paragraph (3-4 lines), (3) key bullet points (3 bullets). Label each section."

  const ImageInstruction := "Analyze this image deeply and return a structured report with sections: Description, Objects Detected (list), Visual Cues (lighting, colors, mood), Insights (interpretation, possible context), Possible Applications."

  /** Every uploaded image is declared to the model as JPEG. */
  const ImageMimeType := "image/jpeg"

  /** The header the correct prompt puts before the user's text. */
  function CorrectHeader(): string { CorrectInstruction + TextLabel }

  /** The grammar-correction prompt: one string, the fixed instruction then
      "Text: " and the user's text, which is everything after the header. */
  function CorrectPrompt(text: string): (p: Prompt)
    ensures p.Plain?
    ensures |p.text| == |CorrectHeader()| + |text|
    ensures p.text[..|CorrectHeader()|] == CorrectHeader()
    ensures p.text[|CorrectHeader()|..] == text
  {
    Plain(CorrectHeader() + text)
  }

  /** The summarize prompt: exactly two text parts, the fixed instruction and
      "Text: " followed by the user's text. */
  function SummarizePrompt(text: string): (p: Prompt)
    ensures p.Parts? && |p.parts| == 2
    ensures p.parts[0] == Text(SummarizeInstruction)
    ensures p.parts[1].Text? && |p.parts[1].text| == |TextLabel| + |text|
    ensures p.parts[1].text[..|TextLabel|] == TextLabel
    ensures p.parts[1].text[|TextLabel|..] == text
  {
    Parts([Text(SummarizeInstruction), Text(TextLabel + text)])
  }

  /** The image prompt: the fixed instruction and one JPEG-tagged media part
      holding the uploaded bytes unchanged. */
  function ImagePrompt(data: seq<byte>): (p: Prompt)
    ensures p.Parts? && |p.parts| == 2
    ensures p.parts[0] == Text(ImageInstruction)
    ensures p.parts[1].Media? && p.parts[1].mimeType == ImageMimeType
    ensures p.parts[1].data == data
  {
    Parts([Text(ImageInstruction), Media(ImageMimeType, data)])
  }

  /** Different texts never produce the same correct or summarize prompt, so
      the model always sees the text it was given. */
  lemma {:induction false} TextPromptsInjective(a: string, b: string)
    ensures CorrectPrompt(a) == CorrectPrompt(b) ==> a == b
    ensures SummarizePrompt(a) == SummarizePrompt(b) ==> a == b
  {
    if SummarizePrompt(a) == SummarizePrompt(b) {
      assert SummarizePrompt(a).parts[1] == SummarizePrompt(b).parts[1];
    }
  }
}
