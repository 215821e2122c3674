/**
 * The message records of the chat screen and the pure list updates that the
 * send orchestration applies to them: append (`[...prev, m]`) and the
 * placeholder swap (`prev.filter(msg => !msg.isThinking).concat(m)`).
 */
module Conversation {

  /** A chat record. The optional `isThinking` marker is `false` when absent, as the filter reads it. */
  datatype Message = Message(id: string, text: string, isUser: bool, time: string, isThinking: bool)

  /** One reading of the clock: `Date.now().toString()` and `new Date().toLocaleTimeString()`. */
  datatype Stamp = Stamp(now: string, time: string)

  const WelcomeText: string := "Merhaba! Ben Hasan. Size nasıl yardımcı olabilirim?"
  const ThinkingText: string := "Düşünüyorumm..."
  const SendFailedText: string := "Şu anda cevap verilemiyor."

  /** The welcome record seeded at mount; `time` is the mount-time clock reading. */
  function Welcome(time: string): (m: Message)
    ensures m.id == "welcome" && !m.isUser && !m.isThinking && m.text == WelcomeText
  {
    Message("welcome", WelcomeText, false, time, false)
  }

  /** The user's record for a send: the draft as typed, not trimmed. `now` is `Date.now().toString()`. */
  function UserMessage(draft: string, at: Stamp): (m: Message)
    ensures m.isUser && !m.isThinking && m.text == draft && m.id == at.now
  {
    Message(at.now, draft, true, at.time, false)
  }

  /** The placeholder shown while the answer is awaited. */
  function ThinkingMessage(at: Stamp): (m: Message)
    ensures !m.isUser && m.isThinking && m.text == ThinkingText && m.id == "thinking-" + at.now
  {
    Message("thinking-" + at.now, ThinkingText, false, at.time, true)
  }

  /** The record of a returned answer. */
  function AnswerMessage(answer: string, at: Stamp): (m: Message)
    ensures !m.isUser && !m.isThinking && m.text == answer && m.id == at.now
  {
    Message(at.now, answer, false, at.time, false)
  }

  /** The record appended when the awaited call throws. */
  function ErrorMessage(at: Stamp): (m: Message)
    ensures !m.isUser && !m.isThinking && m.text == SendFailedText && m.id == "error-" + at.now
  {
    Message("error-" + at.now, SendFailedText, false, at.time, false)
  }

  /** The number of placeholder records in `msgs`. */
  function ThinkingCount(msgs: seq<Message>): nat
  {
    if msgs == [] then 0
    else ThinkingCount(msgs[..|msgs| - 1]) + (if msgs[|msgs| - 1].isThinking then 1 else 0)
  }

  /** `msgs.filter(msg => !msg.isThinking)`. */
  function WithoutThinking(msgs: seq<Message>): (r: seq<Message>)
    ensures forall m :: m in r <==> m in msgs && !m.isThinking
    ensures |r| == |msgs| - ThinkingCount(msgs)
  {
    if msgs == [] then []
    else
      var last := msgs[|msgs| - 1];
      var prefix := msgs[..|msgs| - 1];
      assert msgs == prefix + [last];
      WithoutThinking(prefix) + (if last.isThinking then [] else [last])
  }

  /** No record in `msgs` is a placeholder. */
  predicate NoThinking(msgs: seq<Message>)
  {
    forall i :: 0 <= i < |msgs| ==> !msgs[i].isThinking
  }

  /** Placeholders are counted exactly: none means `NoThinking`. */
  lemma {:induction false} ThinkingCountZero(msgs: seq<Message>)
    ensures ThinkingCount(msgs) == 0 <==> NoThinking(msgs)
  {
    if msgs != [] {
      var prefix := msgs[..|msgs| - 1];
      ThinkingCountZero(prefix);
      if NoThinking(prefix) && !msgs[|msgs| - 1].isThinking {
        forall i | 0 <= i < |msgs| ensures !msgs[i].isThinking {
          if i < |msgs| - 1 { assert msgs[i] == prefix[i]; }
        }
      }
      if NoThinking(msgs) {
        forall i | 0 <= i < |prefix| ensures !prefix[i].isThinking {
          assert prefix[i] == msgs[i];
        }
      }
    }
  }

  /** The filter works record by record: it distributes over concatenation, so the kept records keep their relative order. */
  lemma {:induction false} WithoutThinkingAppend(a: seq<Message>, b: seq<Message>)
    ensures WithoutThinking(a + b) == WithoutThinking(a) + WithoutThinking(b)
  {
    if b != [] {
      var b' := b[..|b| - 1];
      assert a + b == (a + b') + [b[|b| - 1]];
      assert (a + b)[..|a + b| - 1] == a + b';
      WithoutThinkingAppend(a, b');
    } else {
      assert a + b == a;
    }
  }

  /** The filter leaves a list without placeholders as it is. */
  lemma {:induction false} WithoutThinkingIdentity(msgs: seq<Message>)
    requires NoThinking(msgs)
    ensures WithoutThinking(msgs) == msgs
  {
    if msgs != [] {
      var prefix := msgs[..|msgs| - 1];
      assert NoThinking(prefix) by {
        forall i | 0 <= i < |prefix| ensures !prefix[i].isThinking { assert prefix[i] == msgs[i]; }
      }
      WithoutThinkingIdentity(prefix);
      assert !msgs[|msgs| - 1].isThinking;
      assert WithoutThinking(msgs) == WithoutThinking(prefix) + [msgs[|msgs| - 1]];
      assert msgs == prefix + [msgs[|msgs| - 1]];
    }
  }

  /**
   * The placeholder invariant of the screen: while idle the list holds no
   * placeholder; while a request is outstanding it holds exactly one, and
   * that one is the last record.
   */
  predicate PlaceholderInvariant(msgs: seq<Message>, loading: bool)
  {
    if loading then |msgs| > 0 && msgs[|msgs| - 1].isThinking && NoThinking(msgs[..|msgs| - 1])
    else NoThinking(msgs)
  }

  /** Under the invariant, the placeholder count is 1 while loading and 0 while idle. */
  lemma PlaceholderInvariantCount(msgs: seq<Message>, loading: bool)
    requires PlaceholderInvariant(msgs, loading)
    ensures ThinkingCount(msgs) == (if loading then 1 else 0)
  {
    if loading {
      ThinkingCountZero(msgs[..|msgs| - 1]);
    } else {
      ThinkingCountZero(msgs);
    }
  }

  /** An accepted send (user record, then placeholder) takes an idle list to a loading one. */
  lemma AcceptedSendKeepsInvariant(msgs: seq<Message>, user: Message, placeholder: Message)
    requires PlaceholderInvariant(msgs, false)
    requires !user.isThinking && placeholder.isThinking
    ensures PlaceholderInvariant(msgs + [user, placeholder], true)
  {
  }

  /** Settling drops every placeholder and appends one non-placeholder record, whatever the list held before. */
  lemma SettleRestoresInvariant(msgs: seq<Message>, reply: Message)
    requires !reply.isThinking
    ensures PlaceholderInvariant(WithoutThinking(msgs) + [reply], false)
  {
  }

  /** Send then settle replaces the placeholder by the reply in place: the list becomes the old list, the user record and the reply. */
  lemma SendThenSettle(msgs: seq<Message>, user: Message, placeholder: Message, reply: Message)
    requires PlaceholderInvariant(msgs, false)
    requires !user.isThinking && placeholder.isThinking
    ensures WithoutThinking(msgs + [user, placeholder]) + [reply] == msgs + [user, reply]
  {
    var a := msgs + [user];
    assert NoThinking(a) by {
      forall i | 0 <= i < |a| ensures !a[i].isThinking {
        if i < |msgs| { assert a[i] == msgs[i]; }
      }
    }
    WithoutThinkingIdentity(a);
    var b := msgs + [user, placeholder];
    assert b[..|b| - 1] == a && b[|b| - 1] == placeholder;
    assert WithoutThinking(b) == a;
    assert a + [reply] == msgs + [user, reply];
  }
}
