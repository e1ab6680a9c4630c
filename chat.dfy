/** The chat endpoint and its per-session conversation memory. */
module Chat {
  import Text
  import opened Prompts
  import opened Api

  /** The loop that builds `prompt_list`: the preamble, one line per turn of
      `convo[-10:]`, then the cue. */
  method RenderPrompt(preamble: string, convo: seq<Turn>) returns (promptList: seq<string>)
    ensures promptList == RenderedPrompt(preamble, convo)
  {
    promptList := [preamble];
    var recent := LastTurns(convo);
    for i := 0 to |recent|
      invariant promptList == [preamble] + FormatAll(recent[..i])
    {
      assert recent[..i + 1] == recent[..i] + [recent[i]];
      FormatAllSnoc(recent[..i], recent[i]);
      promptList := promptList + [FormatTurn(recent[i])];
    }
    assert recent[..|recent|] == recent;
    promptList := promptList + [Cue];
  }

  /** The history turns strictly alternate, a user turn first and an
      assistant turn last: what successful chats alone produce. */
  ghost predicate Alternates(h: seq<Turn>) {
    |h| % 2 == 0
    && forall i :: 0 <= i < |h| ==> h[i].role == (if i % 2 == 0 then UserRole else AssistantRole)
  }

  /** A successful chat keeps the history alternating: it appends one user
      turn and then one assistant turn. */
  lemma {:induction false} ExchangeKeepsAlternation(h: seq<Turn>, question: string, reply: string)
    requires Alternates(h)
    ensures Alternates(h + [Turn(UserRole, question), Turn(AssistantRole, reply)])
  {
    var h' := h + [Turn(UserRole, question), Turn(AssistantRole, reply)];
    forall i | 0 <= i < |h'|
      ensures h'[i].role == (if i % 2 == 0 then UserRole else AssistantRole)
    {
      if i < |h| { assert h'[i] == h[i]; }
    }
  }

  lemma AppendTwice(h: seq<Turn>, a: Turn, b: Turn)
    ensures h + [a] + [b] == h + [a, b]
  {
  }

  /** One session's state: `session["convo"]`, absent until a successful chat
      or a clear writes it. */
  class Session {
    var convo: Option<seq<Turn>>

    /** `session.get("convo", [])` */
    function History(): (h: seq<Turn>)
      reads this
      ensures convo.Some? ==> h == convo.value
      ensures convo.None? ==> h == []
    {
      if convo.Some? then convo.value else []
    }

    constructor ()
      ensures convo == None && History() == []
    {
      convo := None;
    }

    /** POST /api/chat. Blank text is refused with 400 and an unreadable body
        fails before any model call; neither touches the history. Otherwise the
        new user turn is added to a copy of the history, the last ten turns of
        that copy are rendered into the prompt, and only a successful model
        call stores the copy back with the assistant's reply appended. */
    method Chat(body: JsonBody, gen: Generation) returns (h: Handled)
      modifies this
      ensures ReadInput(body).Unreadable? ==> h == Handled(Response(500, Uncaught), None, None)
      ensures ReadInput(body).Blank? ==> h == Handled(Response(400, Error(EmptyInput)), None, None)
      ensures !ReadInput(body).Given? ==> convo == old(convo)
      ensures ReadInput(body).Given? ==>
        h.sent == Some(Parts(TextParts(RenderedPrompt(Preamble, old(History()) + [Turn(UserRole, ReadInput(body).text)]))))
      ensures ReadInput(body).Given? && gen.Raised? ==>
        h.response == Response(500, Error(gen.message)) && h.logged == None && convo == old(convo)
      ensures ReadInput(body).Given? && gen.Generated? ==>
        h.response == Response(200, Payload("reply", gen.text))
        && h.logged == Some(LogCall(ReadInput(body).text, gen.text, "chat"))
        && convo == Some(old(History()) + [Turn(UserRole, ReadInput(body).text), Turn(AssistantRole, gen.text)])
      ensures old(Alternates(History())) ==> Alternates(History())
    {
      var v := ReadInput(body);
      if !v.Given? {
        h := Refuse(v);
        return;
      }
      var userText := v.text;
      var turns := History();
      turns := turns + [Turn(UserRole, userText)];
      var promptList := RenderPrompt(Preamble, turns);
      var prompt := Parts(TextParts(promptList));
      match gen {
        case Raised(message) =>
          h := Handled(Response(500, Error(message)), Some(prompt), None);
        case Generated(text) =>
          turns := turns + [Turn(AssistantRole, text)];
          AppendTwice(History(), Turn(UserRole, userText), Turn(AssistantRole, text));
          if Alternates(History()) {
            ExchangeKeepsAlternation(History(), userText, text);
          }
          convo := Some(turns);
          h := Handled(Response(200, Payload("reply", text)), Some(prompt), Some(LogCall(userText, text, "chat")));
      }
    }

    /** POST /api/clear: the history becomes empty (not absent). */
    method Clear() returns (r: Response)
      modifies this
      ensures convo == Some([]) && History() == []
      ensures r == Response(200, Acknowledged)
    {
      convo := Some([]);
      r := Response(200, Acknowledged);
    }
  }

  /** The body `{"text": "hello"}` passes validation unchanged. */
  lemma HelloIsValid()
    ensures ReadInput(Object(map["text" := Str("hello")])) == Given("hello")
  {
    assert RawText(Object(map["text" := Str("hello")])) == Some("hello");
    Text.StripKeepsTrimmed("hello");
  }

  /** "hello" as the only turn renders as the preamble, "User: hello" and
      the cue. */
  lemma HelloOnEmptyHistory(preamble: string)
    ensures TextParts(RenderedPrompt(preamble, [] + [Turn(UserRole, "hello")]))
            == [Text(preamble), Text("User: hello"), Text(Cue)]
  {
    assert [] + [Turn(UserRole, "hello")] == [Turn(UserRole, "hello")];
    SingleTurnPrompt(preamble, "hello");
    assert UserLabel + "hello" == "User: hello";
    var lines := [preamble, "User: hello", Cue];
    assert TextParts(lines)[1] == Text("User: hello");
  }

  /** After a clear, a chat with "hello" shows the model no earlier turn: the
      prompt is the preamble, "User: hello" and the cue, and on success the
      history is that exchange alone. */
  method ClearThenHello(s: Session, gen: Generation) returns (h: Handled)
    modifies s
    ensures h.sent == Some(Parts([Text(Preamble), Text("User: hello"), Text(Cue)]))
    ensures gen.Generated? ==> s.History() == [Turn(UserRole, "hello"), Turn(AssistantRole, gen.text)]
    ensures gen.Raised? ==> s.History() == []
  {
    var ack := s.Clear();
    HelloIsValid();
    HelloOnEmptyHistory(Preamble);
    h := s.Chat(Object(map["text" := Str("hello")]), gen);
  }
}
