/**
 * The state of the chat screen (`AIChatApp`) and its transitions: mount,
 * typing, and the send orchestration of `sendMessage`, split at its one
 * `await` into `BeginSend` and `Settle`. Each transition is atomic here.
 */
module ChatScreen {
  import opened Wrappers
  import opened Blank
  import opened Gemini
  import opened Conversation

  /** How the awaited `geminiAPI(inputText)` settles: with a value, or (defensively) with an exception. */
  datatype Settlement = Returned(response: Response) | Threw

  /** The one record that settling appends: the answer, or the fixed error record when the call threw. */
  function Reply(outcome: Settlement, at: Stamp): (m: Message)
    ensures !m.isUser && !m.isThinking
    ensures outcome.Returned? ==> m.text == Answer(outcome.response) && m.text != "" && m.id == at.now
    ensures outcome.Threw? ==> m.text == SendFailedText && m.id == "error-" + at.now
  {
    match outcome
    case Returned(response) => AnswerMessage(Answer(response), at)
    case Threw => ErrorMessage(at)
  }

  class Screen {
    var messages: seq<Message>
    var inputText: string
    var isLoading: bool

    /** The placeholder invariant ties the list to the loading flag. */
    predicate Valid()
      reads this
    {
      PlaceholderInvariant(messages, isLoading)
    }

    /** `editable={!isLoading}` on the text input: on a valid screen, the input is editable exactly when no placeholder is shown. */
    function InputEditable(): (editable: bool)
      reads this
      ensures Valid() ==> (editable <==> ThinkingCount(messages) == 0)
    {
      if Valid() then
        PlaceholderInvariantCount(messages, isLoading);
        !isLoading
      else
        !isLoading
    }

    /** `disabled={!inputText.trim() || isLoading}` on the send button, negated. */
    function SendEnabled(): (enabled: bool)
      reads this
      ensures enabled <==> (exists i :: 0 <= i < |inputText| && !IsWhitespace(inputText[i])) && !isLoading
      ensures enabled ==> InputEditable()
    {
      !IsBlank(inputText) && !isLoading
    }

    /** The initial `useState` values: no messages, an empty draft, not loading. */
    constructor ()
      ensures messages == [] && inputText == "" && !isLoading
      ensures Valid()
    {
      messages, inputText, isLoading := [], "", false;
    }

    /**
     * The mount effect: the list becomes exactly the welcome record, whatever it held.
     * The effect runs once, on the first render, while the flag still has its initial `false`.
     */
    method Mount(at: Stamp)
      requires !isLoading
      modifies this
      ensures messages == [Welcome(at.time)]
      ensures inputText == old(inputText) && !isLoading
      ensures Valid()
    {
      var welcomeMessage := Welcome(at.time);
      messages := [welcomeMessage];
    }

    /** `onChangeText={setInputText}`; the platform only delivers edits while `InputEditable()`. */
    method ChangeText(text: string)
      modifies this
      ensures inputText == text
      ensures messages == old(messages) && isLoading == old(isLoading)
      ensures old(Valid()) ==> Valid()
    {
      inputText := text;
    }

    /**
     * `sendMessage` up to its `await`. A blank draft or an outstanding request
     * makes it return at once and change nothing. Otherwise it appends the
     * user record holding the draft as typed and then the placeholder, clears
     * the draft, sets the loading flag, and returns the prompt for the fetch:
     * the draft read before it was cleared.
     */
    method BeginSend(userAt: Stamp, thinkingAt: Stamp) returns (prompt: Option<string>)
      modifies this
      ensures prompt.Some? <==> old(SendEnabled())
      ensures prompt.None? ==>
        messages == old(messages) && inputText == old(inputText) && isLoading == old(isLoading)
      ensures prompt.Some? ==>
        && prompt.value == old(inputText)
        && messages == old(messages) + [UserMessage(old(inputText), userAt), ThinkingMessage(thinkingAt)]
        && inputText == "" && isLoading
      ensures old(Valid()) ==> Valid()
    {
      if IsBlank(inputText) || isLoading {
        return None;
      }
      ghost var before := messages;
      var draft := inputText;
      var userMessage := UserMessage(draft, userAt);
      messages := messages + [userMessage];
      inputText := "";
      isLoading := true;
      var thinkingMessage := ThinkingMessage(thinkingAt);
      messages := messages + [thinkingMessage];
      prompt := Some(draft);
      assert messages == before + [userMessage, thinkingMessage];
      if PlaceholderInvariant(before, false) {
        AcceptedSendKeepsInvariant(before, userMessage, thinkingMessage);
      }
    }

    /**
     * `sendMessage` after its `await`: every placeholder is filtered out, the
     * one reply record is appended, and the loading flag is cleared on both
     * the returned and the thrown path.
     */
    method Settle(outcome: Settlement, at: Stamp)
      modifies this
      ensures messages == WithoutThinking(old(messages)) + [Reply(outcome, at)]
      ensures !isLoading && inputText == old(inputText)
      ensures Valid()
    {
      var reply: Message;
      match outcome {
        case Returned(response) =>
          var aiResponse := Answer(response);
          reply := AnswerMessage(aiResponse, at);
        case Threw =>
          reply := ErrorMessage(at);
      }
      messages := WithoutThinking(messages) + [reply];
      isLoading := false;
      SettleRestoresInvariant(old(messages), reply);
    }

    /**
     * The whole `sendMessage` run without interleaving: from an idle screen,
     * an accepted send followed by its settlement leaves the old list, the
     * user record and the reply, in that order.
     */
    method SendMessage(userAt: Stamp, thinkingAt: Stamp, outcome: Settlement, replyAt: Stamp)
      returns (prompt: Option<string>)
      requires Valid()
      modifies this
      ensures prompt.Some? <==> old(SendEnabled())
      ensures prompt.None? ==>
        messages == old(messages) && inputText == old(inputText) && isLoading == old(isLoading)
      ensures prompt.Some? ==>
        && prompt.value == old(inputText)
        && messages == old(messages) + [UserMessage(old(inputText), userAt), Reply(outcome, replyAt)]
        && inputText == "" && !isLoading
      ensures Valid()
    {
      prompt := BeginSend(userAt, thinkingAt);
      if prompt.Some? {
        Settle(outcome, replyAt);
        SendThenSettle(old(messages), UserMessage(prompt.value, userAt), ThinkingMessage(thinkingAt), Reply(outcome, replyAt));
      }
    }
  }

  /** A blank draft is ignored: the screen keeps its welcome record and stays idle. */
  method BlankSendScenario(t: Stamp)
  {
    var screen := new Screen();
    screen.Mount(t);
    screen.ChangeText("   ");
    var p := screen.BeginSend(t, t);
    assert p == None && screen.messages == [Welcome(t.time)] && !screen.isLoading;
  }

  /** "  Hi  " is sent as typed and answered. */
  method ExchangeScenario(t: Stamp)
  {
    var screen := new Screen();
    screen.Mount(t);
    screen.ChangeText("  Hi  ");
    assert screen.inputText[2] == 'H';
    var answered := Returned(Http(200, Json(Some("Hello there"))));
    var p := screen.SendMessage(t, t, answered, t);
    assert p == Some("  Hi  ");
    assert Reply(answered, t) == AnswerMessage("Hello there", t);
    assert screen.messages == [Welcome(t.time), UserMessage("  Hi  ", t), AnswerMessage("Hello there", t)];
    assert !screen.isLoading && screen.inputText == "";
  }

  /** While the answer is awaited the placeholder is last; a second send then is ignored: still one placeholder, still loading. */
  method CoalescedSendScenario(t: Stamp)
  {
    var screen := new Screen();
    screen.Mount(t);
    screen.ChangeText("Hi");
    assert screen.inputText[0] == 'H';
    var p := screen.BeginSend(t, t);
    assert p == Some("Hi") && screen.isLoading && screen.inputText == "";
    assert screen.messages == [Welcome(t.time), UserMessage("Hi", t), ThinkingMessage(t)];

    var again := screen.BeginSend(t, t);
    assert again == None && screen.isLoading;
    PlaceholderInvariantCount(screen.messages, true);
    assert ThinkingCount(screen.messages) == 1;
  }
}
