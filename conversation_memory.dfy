/** The agent's conversation memory: a buffer of chat messages that grows by
    one user/assistant pair per exchange. */
module ConversationMemory {
  import opened Common

  /** A chat message.  `content` is `None` when the value stored was
      `undefined` (the key was missing from the values handed in). */
  datatype Message = UserMessage(content: Option<string>) | AiMessage(content: Option<string>)

  /** What `loadMemoryVariables` puts under the memory key. */
  datatype MemoryValue = Messages(messages: seq<Message>) | Text(text: string)

  /** JavaScript truthiness of an optional string. */
  predicate Present(s: Option<string>) { s.Some? && s.value != "" }

  /** `record[key]`. */
  function Lookup(values: map<string, string>, key: string): (r: Option<string>)
    ensures r.Some? <==> key in values
    ensures r.Some? ==> r.value == values[key]
  {
    if key in values then Some(values[key]) else None
  }

  /** The user's text: under `inputKey` when that key is set (non-empty),
      otherwise under `input`. */
  function InputOf(inputKey: Option<string>, values: map<string, string>): (r: Option<string>)
    ensures Present(inputKey) ==> r == Lookup(values, inputKey.value)
    ensures !Present(inputKey) ==> r == Lookup(values, "input")
  {
    Lookup(values, if Present(inputKey) then inputKey.value else "input")
  }

  /** The assistant's text: under `outputKey` when that key is set,
      otherwise `output`, falling back to `response` when `output` is
      missing or empty. */
  function OutputOf(outputKey: Option<string>, values: map<string, string>): (r: Option<string>)
    ensures Present(outputKey) ==> r == Lookup(values, outputKey.value)
    ensures !Present(outputKey) && Present(Lookup(values, "output")) ==> r == Some(values["output"])
    ensures !Present(outputKey) && !Present(Lookup(values, "output")) ==> r == Lookup(values, "response")
  {
    if Present(outputKey) then Lookup(values, outputKey.value)
    else
      var output := Lookup(values, "output");
      if Present(output) then output else Lookup(values, "response")
  }

  /** `content` as `Array.prototype.join` writes it: `undefined` is "". */
  function ContentText(m: Message): string {
    if m.content.Some? then m.content.value else ""
  }

  /** The history as one text, a line per message. */
  function HistoryText(history: seq<Message>): string {
    Join(Map(history, ContentText), "\n")
  }

  /** The history is a sequence of exchanges: user message, then assistant
      message. */
  predicate Alternating(history: seq<Message>) {
    && |history| % 2 == 0
    && (forall i :: 0 <= i < |history| && i % 2 == 0 ==> history[i].UserMessage?)
    && (forall i :: 0 <= i < |history| && i % 2 == 1 ==> history[i].AiMessage?)
  }

  /** Appending one exchange keeps the history a sequence of exchanges. */
  lemma AppendExchange(history: seq<Message>, input: Option<string>, output: Option<string>)
    requires Alternating(history)
    ensures Alternating(history + [UserMessage(input), AiMessage(output)])
    ensures |history + [UserMessage(input), AiMessage(output)]| == |history| + 2
  {
    var h := history + [UserMessage(input), AiMessage(output)];
    forall i | 0 <= i < |h|
      ensures i % 2 == 0 ==> h[i].UserMessage?
      ensures i % 2 == 1 ==> h[i].AiMessage?
    {
      if i >= |history| {
        assert i == |history| || i == |history| + 1;
      }
    }
  }

  /** The text view puts one line per message, so an exchange whose texts
      hold no line break adds exactly two lines. */
  lemma {:induction false} HistoryTextAppend(history: seq<Message>, m: Message)
    requires history != []
    ensures HistoryText(history + [m]) == HistoryText(history) + "\n" + ContentText(m)
    decreases |history|
  {
    var texts := Map(history, ContentText);
    assert Map(history + [m], ContentText) == texts + [ContentText(m)];
    JoinAppend(texts, ContentText(m), "\n");
  }

  lemma {:induction false} JoinAppend(items: seq<string>, last: string, sep: string)
    requires items != []
    ensures Join(items + [last], sep) == Join(items, sep) + sep + last
    decreases |items|
  {
    if |items| == 1 {
      assert items + [last] == [items[0], last];
      assert [items[0], last][1..] == [last];
    } else {
      assert (items + [last])[1..] == items[1..] + [last];
      JoinAppend(items[1..], last, sep);
    }
  }

  class ConversationMemory {
    var history: seq<Message>
    var returnMessages: bool
    var inputKey: Option<string>
    var outputKey: Option<string>
    var memoryKey: string

    /** An empty history that hands back message objects under "history". */
    constructor()
      ensures history == [] && returnMessages
      ensures inputKey == None && outputKey == None && memoryKey == "history"
      ensures Alternating(history)
    {
      history := [];
      returnMessages := true;
      inputKey := None;
      outputKey := None;
      memoryKey := "history";
    }

    /** The one variable this memory provides. */
    function MemoryKeys(): (keys: seq<string>)
      reads this
      ensures |keys| == 1 && keys[0] == memoryKey
    {
      [memoryKey]
    }

    /** The history under the memory key, as messages or as one text; the
        history itself is left alone. */
    method LoadMemoryVariables() returns (vars: map<string, MemoryValue>)
      ensures vars.Keys == {memoryKey}
      ensures returnMessages ==> vars[memoryKey] == Messages(history)
      ensures !returnMessages ==> vars[memoryKey] == Text(HistoryText(history))
    {
      if returnMessages {
        return map[memoryKey := Messages(history)];
      }
      vars := map[memoryKey := Text(HistoryText(history))];
    }

    /** Appends the user's input and then the assistant's output, and
        changes nothing else. */
    method SaveContext(inputValues: map<string, string>, outputValues: map<string, string>)
      modifies this
      ensures history == old(history)
        + [UserMessage(InputOf(inputKey, inputValues)), AiMessage(OutputOf(outputKey, outputValues))]
      ensures returnMessages == old(returnMessages) && memoryKey == old(memoryKey)
      ensures inputKey == old(inputKey) && outputKey == old(outputKey)
      ensures old(Alternating(history)) ==> Alternating(history)
    {
      var input := InputOf(inputKey, inputValues);
      var output := OutputOf(outputKey, outputValues);
      if Alternating(history) {
        AppendExchange(history, input, output);
      }
      history := history + [UserMessage(input)];
      history := history + [AiMessage(output)];
    }

    /** Empties the history and changes nothing else. */
    method Clear()
      modifies this
      ensures history == []
      ensures returnMessages == old(returnMessages) && memoryKey == old(memoryKey)
      ensures inputKey == old(inputKey) && outputKey == old(outputKey)
      ensures Alternating(history)
    {
      history := [];
    }
  }
}
