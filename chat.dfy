/** The chat panel: the message history with its removable loading
    placeholder, the input lock, the persona switch, the settings handler
    that stores the API key, and the send handler as a two-step state
    machine (the synchronous start of a turn, then its completion once the
    key, the context and the remote reply are known). */
module Chat {
  import opened Wrappers
  import opened JsString
  import opened Journal
  import opened Tarot
  import opened Personas
  import opened Context

  datatype Sender = User | System | Agent(agent: AgentId)

  /** A rendered message; `id` is the element id, set only for the loading
      placeholder. */
  datatype Message = Message(sender: Sender, text: string, id: Option<string>)

  /** `if (id) msgDiv.id = id`: a missing or empty id sets none. */
  function ElementId(id: Option<string>): (r: Option<string>)
    ensures r.Some? <==> id.Some? && id.value != []
    ensures r.Some? ==> r == id
  {
    if id.Some? && id.value != [] then id else None
  }

  /** The element ids present in a history, in document order. */
  function Ids(msgs: seq<Message>): seq<string> {
    if msgs == [] then []
    else (if msgs[0].id.Some? then [msgs[0].id.value] else []) + Ids(msgs[1..])
  }

  /** Adding a message adds its element id to the history's ids when the
      id is present and non-empty, and adds none otherwise. */
  lemma AddedIds(msgs: seq<Message>, sender: Sender, text: string, id: Option<string>)
    ensures Ids(msgs + [Message(sender, text, ElementId(id))])
      == Ids(msgs) + (if id.Some? && id.value != [] then [id.value] else [])
  {
    var m := Message(sender, text, ElementId(id));
    IdsConcat(msgs, [m]);
    assert Ids([m]) == (if m.id.Some? then [m.id.value] else []) + Ids([m][1..]);
    assert [m][1..] == [];
  }

  lemma {:induction false} IdsConcat(a: seq<Message>, b: seq<Message>)
    ensures Ids(a + b) == Ids(a) + Ids(b)
    decreases |a|
  {
    if a != [] {
      assert (a + b)[0] == a[0] && (a + b)[1..] == a[1..] + b;
      IdsConcat(a[1..], b);
      var head := if a[0].id.Some? then [a[0].id.value] else [];
      assert Ids(a + b) == head + (Ids(a[1..]) + Ids(b));
      assert Ids(a) == head + Ids(a[1..]);
      assert head + (Ids(a[1..]) + Ids(b)) == (head + Ids(a[1..])) + Ids(b);
    } else {
      assert a + b == b;
    }
  }

  /** `removeMessageFromUI(id)`: the first element with that id is removed;
      when no element has it, nothing changes. */
  function RemoveById(msgs: seq<Message>, id: string): (r: seq<Message>)
    ensures id !in Ids(msgs) ==> r == msgs
    ensures id in Ids(msgs) ==> |r| == |msgs| - 1
  {
    if msgs == [] then []
    else if msgs[0].id == Some(id) then msgs[1..]
    else [msgs[0]] + RemoveById(msgs[1..], id)
  }

  /** Removing the placeholder by its id takes out exactly the placeholder,
      whatever was appended after it. */
  lemma {:induction false} RemovePlaceholder(before: seq<Message>, m: Message, after: seq<Message>, id: string)
    requires id !in Ids(before) && m.id == Some(id)
    ensures RemoveById(before + [m] + after, id) == before + after
    decreases |before|
  {
    if before == [] {
      assert before + [m] + after == [m] + after;
    } else {
      assert (before + [m] + after)[1..] == before[1..] + [m] + after;
      assert before[0].id != Some(id) by {
        if before[0].id.Some? { assert Ids(before)[0] == before[0].id.value; }
      }
      assert id !in Ids(before[1..]) by {
        assert Ids(before) == (if before[0].id.Some? then [before[0].id.value] else []) + Ids(before[1..]);
      }
      RemovePlaceholder(before[1..], m, after, id);
    }
  }

  /** The line-break rendering of the typing loop: each newline becomes
      `<br>` and every other character is copied. */
  function BreakLines(s: string): string {
    if s == [] then [] else (if s[0] == '\n' then "<br>" else [s[0]]) + BreakLines(s[1..])
  }

  lemma {:induction false} BreakLinesConcat(a: string, b: string)
    ensures BreakLines(a + b) == BreakLines(a) + BreakLines(b)
    decreases |a|
  {
    if a != [] {
      assert (a + b)[0] == a[0] && (a + b)[1..] == a[1..] + b;
      BreakLinesConcat(a[1..], b);
      var head: string := if a[0] == '\n' then "<br>" else [a[0]];
      assert BreakLines(a + b) == head + (BreakLines(a[1..]) + BreakLines(b));
      assert BreakLines(a) == head + BreakLines(a[1..]);
      assert head + (BreakLines(a[1..]) + BreakLines(b)) == (head + BreakLines(a[1..])) + BreakLines(b);
    } else {
      assert a + b == b;
    }
  }

  /** Every newline grows by three characters; nothing else changes length. */
  lemma {:induction false} BreakLinesLength(s: string)
    ensures |BreakLines(s)| == |s| + 3 * Count(s, '\n')
    decreases |s|
  {
    if s != [] {
      BreakLinesLength(s[1..]);
      assert s == [s[0]] + s[1..];
      CountCons(s[0], s[1..], '\n');
    }
  }

  /** No raw newline survives the rendering. */
  lemma {:induction false} BreakLinesNoNewline(s: string)
    ensures '\n' !in BreakLines(s)
    decreases |s|
  {
    if s != [] {
      BreakLinesNoNewline(s[1..]);
      var head: string := if s[0] == '\n' then "<br>" else [s[0]];
      assert '\n' !in head;
    }
  }

  /** Text without newlines is shown as it is. */
  lemma {:induction false} BreakLinesIdentity(s: string)
    requires '\n' !in s
    ensures BreakLines(s) == s
    decreases |s|
  {
    if s != [] {
      assert s[0] != '\n';
      BreakLinesIdentity(s[1..]);
    }
  }

  /** `typeMessageToUI`'s character loop: the final inner HTML of the typed
      message. */
  method Reveal(text: string) returns (html: string)
    ensures html == BreakLines(text)
  {
    html := "";
    var i := 0;
    while i < |text|
      invariant 0 <= i <= |text|
      invariant html == BreakLines(text[..i])
    {
      if text[i] == '\n' {
        html := html + "<br>";
      } else {
        html := html + [text[i]];
      }
      assert text[..i + 1] == text[..i] + [text[i]];
      BreakLinesConcat(text[..i], [text[i]]);
      i := i + 1;
    }
    assert text[..i] == text;
  }

  /** The outcome of the remote call: the transport or body parsing threw
      (`Failed`), or a response with its status and the two fields read
      from its JSON body. */
  datatype Reply =
    | Failed(message: string)
    | Responded(status: int, errorMessage: Option<string>, candidateText: Option<string>)

  /** `response.ok`. */
  predicate IsOk(status: int) {
    200 <= status <= 299
  }

  const Fallback: string := "The shadow reflects nothingness."
  const NoKeyNotice: string := "Neural Link Failed. Please configure your API Key via the settings gear (\U{2699}\U{FE0F}) top right."
  const LinkError: string := "Error establishing link: "
  const KeyStoredNotice: string := "Neural Link Established. API Key securely stored."

  /** The reply text: the first candidate's first part, or the fallback
      literal when it is missing or empty. Never empty. */
  function ReplyText(candidateText: Option<string>): (r: string)
    ensures r != []
    ensures candidateText.Some? && candidateText.value != [] ==> r == candidateText.value
    ensures candidateText.None? || candidateText.value == [] ==> r == Fallback
  {
    if candidateText.Some? && candidateText.value != [] then candidateText.value else Fallback
  }

  /** The message of the error thrown for a non-ok response: the body's
      error message, or the status line when there is none. */
  function HttpErrorDetail(status: int, errorMessage: Option<string>): (r: string)
    ensures r != []
    ensures errorMessage.Some? && errorMessage.value != [] ==> r == errorMessage.value
    ensures errorMessage.None? || errorMessage.value == [] ==> r == "HTTP error! status: " + StatusText(status)
  {
    if errorMessage.Some? && errorMessage.value != [] then errorMessage.value
    else "HTTP error! status: " + StatusText(status)
  }

  /** A status rendered as a template literal renders an integer. */
  function StatusText(status: int): string {
    if status < 0 then "-" + Decimal(-status) else Decimal(status)
  }

  /** Without a message in the body, the reported detail names the status,
      which can be read back from it. */
  lemma HttpErrorNamesStatus(status: nat, errorMessage: Option<string>)
    requires errorMessage.None? || errorMessage.value == []
    ensures var r := HttpErrorDetail(status, errorMessage);
      |r| > 20 && r[..20] == "HTTP error! status: "
      && (forall k :: 20 <= k < |r| ==> '0' <= r[k] <= '9')
      && DigitsValue(r[20..]) == status
  {
    var r := HttpErrorDetail(status, errorMessage);
    assert r[20..] == Decimal(status);
    DecimalRoundTrip(status);
  }

  /** `!apiKey`: no key stored, or an empty one. */
  predicate KeyMissing(key: Option<string>) {
    key.None? || key.value == []
  }

  /** The one message a completed turn leaves in place of the placeholder. */
  function TurnMessage(agent: AgentId, key: Option<string>, reply: Reply): (m: Message)
    ensures m.id.None?
    ensures KeyMissing(key) ==> m == Message(System, NoKeyNotice, None)
    ensures m.sender.Agent? <==> !KeyMissing(key) && reply.Responded? && IsOk(reply.status)
    ensures m.sender.Agent? ==> m.sender.agent == agent && m.text == BreakLines(ReplyText(reply.candidateText))
    ensures !KeyMissing(key) && reply.Failed? ==>
      m == Message(System, LinkError + reply.message, None)
    ensures !KeyMissing(key) && reply.Responded? && !IsOk(reply.status) ==>
      m == Message(System, LinkError + HttpErrorDetail(reply.status, reply.errorMessage), None)
  {
    if KeyMissing(key) then Message(System, NoKeyNotice, None)
    else match reply
      case Failed(detail) => Message(System, LinkError + detail, None)
      case Responded(status, errorMessage, candidateText) =>
        if !IsOk(status) then Message(System, LinkError + HttpErrorDetail(status, errorMessage), None)
        else Message(Agent(agent), BreakLines(ReplyText(candidateText)), None)
  }

  /** The request body and credential of one `generateContent` call. */
  datatype Request = Request(key: string, userText: string, instruction: string, temperature: real, maxOutputTokens: nat)

  /** The turn in flight: the trimmed user text and the placeholder's id. */
  datatype Pending = Pending(text: string, loadingId: string)

  function LoadingId(stamp: nat): string {
    "loading-" + Decimal(stamp)
  }

  /** Placeholder ids of turns started at different times differ. */
  lemma LoadingIdInjective(a: nat, b: nat)
    requires LoadingId(a) == LoadingId(b)
    ensures a == b
  {
    var prefix := "loading-";
    assert Decimal(a) == LoadingId(a)[|prefix|..];
    assert Decimal(b) == LoadingId(b)[|prefix|..];
    DecimalRoundTrip(a);
    DecimalRoundTrip(b);
  }

  /** A whole turn, start and completion together, leaves the history it
      started from followed by the user's message and the one message that
      replaced the placeholder. */
  lemma TurnNetEffect(msgs: seq<Message>, text: string, id: string, m: Message)
    requires id !in Ids(msgs)
    ensures RemoveById(msgs + [Message(User, text, None), Message(Agent(Chiron), "...", Some(id))], id) + [m]
      == msgs + [Message(User, text, None), m]
  {
    var user := Message(User, text, None);
    IdsConcat(msgs, [user]);
    assert Ids([user]) == [] + Ids([user][1..]);
    assert [user][1..] == [];
    RemovePlaceholder(msgs + [user], Message(Agent(Chiron), "...", Some(id)), [], id);
    assert msgs + [user, Message(Agent(Chiron), "...", Some(id))] == msgs + [user] + [Message(Agent(Chiron), "...", Some(id))] + [];
  }

  class ChatSession {
    var messages: seq<Message>
    /** The text in the chat input box. */
    var inputText: string
    /** Whether the input box and the send button are enabled. */
    var inputEnabled: bool
    var activeAgent: AgentId
    var pending: Option<Pending>

    /** Input is locked exactly while a turn is in flight, and the only
        element id in the history is that turn's placeholder. */
    ghost predicate Valid()
      reads this
    {
      && (inputEnabled <==> pending.None?)
      && Ids(messages) == (if pending.Some? then [pending.value.loadingId] else [])
    }

    constructor ()
      ensures Valid()
      ensures messages == [] && inputText == [] && inputEnabled && activeAgent == Chiron && pending == None
    {
      messages, inputText, inputEnabled, activeAgent, pending := [], [], true, Chiron, None;
    }

    /** `addMessageToUI(sender, text, id)`. */
    method AddMessage(sender: Sender, text: string, id: Option<string>)
      modifies this
      ensures messages == old(messages) + [Message(sender, text, ElementId(id))]
      ensures inputText == old(inputText) && inputEnabled == old(inputEnabled)
      ensures activeAgent == old(activeAgent) && pending == old(pending)
    {
      messages := messages + [Message(sender, text, ElementId(id))];
    }

    /** `removeMessageFromUI(id)`. */
    method RemoveMessage(id: string)
      modifies this
      ensures messages == RemoveById(old(messages), id)
      ensures inputText == old(inputText) && inputEnabled == old(inputEnabled)
      ensures activeAgent == old(activeAgent) && pending == old(pending)
    {
      messages := RemoveById(messages, id);
    }

    /** The user edits the input box, which is possible only while enabled. */
    method SetInput(text: string)
      requires inputEnabled
      modifies this
      ensures inputText == text
      ensures messages == old(messages) && inputEnabled && activeAgent == old(activeAgent) && pending == old(pending)
    {
      inputText := text;
    }

    /** The agent selector's change handler; the selector stays enabled
        while a turn is in flight. */
    method SwitchAgent(reg: Registry, agent: AgentId)
      requires Valid()
      modifies this
      ensures Valid()
      ensures activeAgent == agent
      ensures messages == old(messages) + [Message(System, "Interface switched to " + Lookup(reg, agent).name + ". Context loaded.", None)]
      ensures inputText == old(inputText) && inputEnabled == old(inputEnabled) && pending == old(pending)
    {
      activeAgent := agent;
      var persona := Lookup(reg, activeAgent);
      IdsConcat(messages, [Message(System, "Interface switched to " + persona.name + ". Context loaded.", None)]);
      AddMessage(System, "Interface switched to " + persona.name + ". Context loaded.", None);
    }

    /** The settings save handler: a non-blank key is stored and announced
        in the chat; a blank one changes nothing. */
    method SaveApiKey(vault: Vault, field: string) returns (stored: bool)
      requires Valid() && vault.Valid()
      modifies this, vault
      ensures Valid() && vault.Valid()
      ensures stored <==> !IsBlank(field)
      ensures vault.apiKey == if stored then Some(Trim(field)) else old(vault.apiKey)
      ensures vault.journal == old(vault.journal) && vault.somatic == old(vault.somatic) && vault.audio == old(vault.audio)
      ensures messages == if stored then old(messages) + [Message(System, KeyStoredNotice, None)] else old(messages)
      ensures inputText == old(inputText) && inputEnabled == old(inputEnabled)
      ensures activeAgent == old(activeAgent) && pending == old(pending)
    {
      stored := vault.SaveApiKey(field);
      if stored {
        IdsConcat(messages, [Message(System, KeyStoredNotice, None)]);
        AddMessage(System, KeyStoredNotice, None);
      }
    }

    /** Lines 625-637, up to the first `await`: a blank input is ignored;
        otherwise input is locked, the trimmed text is shown and cleared
        from the box, and a placeholder with id `loading-<stamp>` is shown.
        `stamp` is the `Date.now()` reading. */
    method BeginTurn(stamp: nat) returns (started: bool)
      requires Valid() && inputEnabled
      modifies this
      ensures Valid()
      ensures started <==> !IsBlank(old(inputText))
      ensures !started ==> messages == old(messages) && inputText == old(inputText) && inputEnabled && pending == None
      ensures started ==>
        && !inputEnabled && inputText == []
        && pending == Some(Pending(Trim(old(inputText)), LoadingId(stamp)))
        && messages == old(messages) + [Message(User, Trim(old(inputText)), None), Message(Agent(Chiron), "...", Some(LoadingId(stamp)))]
      ensures activeAgent == old(activeAgent)
    {
      var text := Trim(inputText);
      if text == [] {
        return false;
      }
      inputEnabled := false;
      AddMessage(User, text, None);
      inputText := [];
      var loadingId := LoadingId(stamp);
      AddMessage(Agent(Chiron), "...", Some(loadingId));
      pending := Some(Pending(text, loadingId));
      IdsConcat(old(messages), [Message(User, text, None)]);
      IdsConcat(old(messages) + [Message(User, text, None)], [Message(Agent(Chiron), "...", Some(loadingId))]);
      started := true;
    }

    /** Lines 639-699, after the awaits: with no key, the placeholder gives
        way to a notice and no request is made; otherwise exactly one
        request is made and the placeholder gives way to the reply or to an
        error message. Input is unlocked on every path. */
    method CompleteTurn(reg: Registry, vault: Vault, scratch: SessionScratch, reply: Reply)
      returns (request: Option<Request>)
      requires Valid() && pending.Some?
      modifies this
      ensures Valid()
      ensures inputEnabled && pending == None
      ensures request.None? <==> KeyMissing(vault.apiKey)
      ensures request.Some? ==> request.value == Request(vault.apiKey.value, old(pending).value.text,
        Instruction(Lookup(reg, activeAgent).prompt, scratch.currentArchetype, vault.journal), 0.7, 800)
      ensures messages == RemoveById(old(messages), old(pending).value.loadingId) + [TurnMessage(activeAgent, vault.apiKey, reply)]
      ensures |messages| == |old(messages)|
      ensures inputText == old(inputText) && activeAgent == old(activeAgent)
    {
      var turn := pending.value;
      var key := vault.apiKey;
      var outcome := TurnMessage(activeAgent, key, reply);
      if key.None? || key.value == [] {
        RemoveMessage(turn.loadingId);
        AddMessage(System, NoKeyNotice, None);
        request := None;
      } else {
        var instruction := AssembleInstruction(Lookup(reg, activeAgent).prompt, scratch.currentArchetype, vault.journal);
        request := Some(Request(key.value, turn.text, instruction, 0.7, 800));
        match reply {
          case Failed(detail) =>
            RemoveMessage(turn.loadingId);
            AddMessage(System, LinkError + detail, None);
          case Responded(status, errorMessage, candidateText) =>
            if !IsOk(status) {
              RemoveMessage(turn.loadingId);
              AddMessage(System, LinkError + HttpErrorDetail(status, errorMessage), None);
            } else {
              RemoveMessage(turn.loadingId);
              var html := Reveal(ReplyText(candidateText));
              AddMessage(Agent(activeAgent), html, None);
            }
        }
      }
      inputEnabled := true;
      pending := None;
      PlaceholderGone(old(messages), turn.loadingId, outcome);
    }
  }

  /** With the placeholder the only id in the history, removing it leaves
      no id, and appending an id-less message keeps it that way. */
  lemma PlaceholderGone(msgs: seq<Message>, id: string, m: Message)
    requires Ids(msgs) == [id] && m.id.None?
    ensures Ids(RemoveById(msgs, id) + [m]) == []
    ensures |RemoveById(msgs, id) + [m]| == |msgs|
  {
    var k := PlaceholderIndex(msgs, id);
    var before, after := msgs[..k], msgs[k + 1..];
    assert msgs == before + [msgs[k]] + after;
    assert msgs == before + ([msgs[k]] + after);
    IdsConcat(before, [msgs[k]] + after);
    IdsConcat([msgs[k]], after);
    assert Ids([msgs[k]]) == [id] by {
      assert Ids([msgs[k]]) == [id] + Ids([msgs[k]][1..]);
      assert [msgs[k]][1..] == [];
    }
    assert Ids(msgs) == Ids(before) + ([id] + Ids(after));
    assert |Ids(before)| + 1 + |Ids(after)| == 1;
    RemovePlaceholder(before, msgs[k], after, id);
    IdsConcat(before, after);
    IdsConcat(before + after, [m]);
  }

  /** Where the one id-carrying message of a history sits. */
  lemma {:induction false} PlaceholderIndex(msgs: seq<Message>, id: string) returns (k: nat)
    requires Ids(msgs) == [id]
    ensures k < |msgs| && msgs[k].id == Some(id)
    decreases |msgs|
  {
    assert msgs != [];
    if msgs[0].id.Some? {
      assert Ids(msgs)[0] == msgs[0].id.value;
      k := 0;
    } else {
      assert Ids(msgs) == Ids(msgs[1..]);
      var k' := PlaceholderIndex(msgs[1..], id);
      k := k' + 1;
    }
  }
}
