/**
  The LangChain and LangGraph basics demo (`task2/langchain_langgraphbasics.py`).

  The mock model echoes at most the first 200 characters of its prompt between
  a fixed header and "...". The LangChain part keeps a history list that every
  turn extends by the user's entry and the reply; the prompt of a turn is the
  template filled with the history as it stood before that turn. The LangGraph
  part is a single node that answers the user's input.
 */
module LangchainBasics {
  import opened Text

  datatype FakeResponse = FakeResponse(content: string)

  const ResponseHeader := "[MOCK LLM RESPONSE]\nPrompt received:\n"
  const EchoLimit := 200

  /**
    `FakeLLM.invoke`: the header, then the first `EchoLimit` characters of the
    prompt (all of it when it is shorter), then "...".
   */
  function Invoke(prompt: string): (r: FakeResponse)
    ensures var echoed := if |prompt| <= EchoLimit then |prompt| else EchoLimit;
      && |r.content| == |ResponseHeader| + echoed + 3
      && r.content[..|ResponseHeader|] == ResponseHeader
      && r.content[|ResponseHeader|..|ResponseHeader| + echoed] == prompt[..echoed]
      && r.content[|ResponseHeader| + echoed..] == "..."
  {
    var echo := Take(prompt, EchoLimit);
    var c := ResponseHeader + echo + "...";
    assert c[..|ResponseHeader|] == ResponseHeader;
    assert c[|ResponseHeader|..|ResponseHeader| + |echo|] == echo;
    assert c[|ResponseHeader| + |echo|..] == "...";
    FakeResponse(c)
  }

  /** The echo between the header and the closing "...". */
  function Echo(r: FakeResponse): string
    requires |r.content| >= |ResponseHeader| + 3
  {
    r.content[|ResponseHeader|..|r.content| - 3]
  }

  /** A prompt of at most `EchoLimit` characters comes back whole. */
  lemma ShortPromptEchoedWhole(prompt: string)
    requires |prompt| <= EchoLimit
    ensures Echo(Invoke(prompt)) == prompt
  {
  }

  /** The echo is always a prefix of the prompt, of length min(|prompt|, EchoLimit). */
  lemma EchoIsBoundedPrefix(prompt: string)
    ensures var e := Echo(Invoke(prompt));
      && |e| == (if |prompt| <= EchoLimit then |prompt| else EchoLimit)
      && e == prompt[..|e|]
  {
  }

  /** Beyond the limit the model cannot tell two prompts apart. */
  lemma LongPromptsShareReply(p: string, q: string)
    requires |p| >= EchoLimit && |q| >= EchoLimit
    requires p[..EchoLimit] == q[..EchoLimit]
    ensures Invoke(p) == Invoke(q)
  {
  }

  /** The prompt template up to the history. */
  const PromptHead := "\nyou are a helpful assistant.\n\nconversation so far:\n"

  /** `PromptTemplate.format` on the demo's template, as literal concatenation. */
  function FormatPrompt(history: string, userInput: string): string {
    PromptHead + history + "\n\nUser: " + userInput + "\nAssistant:\n"
  }

  /**
    The history sits right after the head of the template and the user's
    input right after the history and the "User: " label.
   */
  lemma FormatPromptPlaces(history: string, userInput: string)
    ensures var p := FormatPrompt(history, userInput);
      var u := |PromptHead| + |history| + 8;
      && |p| == u + |userInput| + 12
      && p[|PromptHead|..|PromptHead| + |history|] == history
      && p[u..u + |userInput|] == userInput
  {
    var p := FormatPrompt(history, userInput);
    var u := |PromptHead| + |history| + 8;
    assert p == (PromptHead + history + "\n\nUser: ") + userInput + "\nAssistant:\n";
    assert p[u..u + |userInput|] == userInput;
  }

  /**
    Once the joined history fills the echo, the reply no longer shows the
    user's input at all: any two inputs get the same reply.
   */
  lemma LongHistoryHidesInput(history: string, a: string, b: string)
    requires |PromptHead| + |history| >= EchoLimit
    ensures Invoke(FormatPrompt(history, a)) == Invoke(FormatPrompt(history, b))
  {
    var pa := FormatPrompt(history, a);
    var pb := FormatPrompt(history, b);
    assert pa == PromptHead + history + ("\n\nUser: " + a + "\nAssistant:\n");
    assert pb == PromptHead + history + ("\n\nUser: " + b + "\nAssistant:\n");
    assert pa[..EchoLimit] == (PromptHead + history)[..EchoLimit] == pb[..EchoLimit];
    LongPromptsShareReply(pa, pb);
  }

  /** The content of the model's answer, as `run_turn` reads it. */
  function Reply(prompt: string): string {
    Invoke(prompt).content
  }

  /**
    The history after the first `n` of `inputs` have been taken as turns
    answered by `reply`: each turn adds the user's entry and then the reply to
    the prompt built from the history before the turn. The demo uses `Reply`;
    the lemmas below hold for any model.
   */
  function HistoryAfter(reply: string -> string, inputs: seq<string>, n: nat): (h: seq<string>)
    requires n <= |inputs|
    ensures |h| == 2 * n
  {
    if n == 0 then []
    else
      var before := HistoryAfter(reply, inputs, n - 1);
      before + [UserEntry(inputs[n - 1]), AssistantEntry(reply(FormatPrompt(Join(before, "\n"), inputs[n - 1])))]
  }

  /** Later turns never change earlier entries. */
  lemma {:induction false} HistoryAfterExtends(reply: string -> string, inputs: seq<string>, j: nat, n: nat)
    requires j <= n <= |inputs|
    ensures HistoryAfter(reply, inputs, n)[..2 * j] == HistoryAfter(reply, inputs, j)
    decreases n
  {
    if j < n {
      HistoryAfterExtends(reply, inputs, j, n - 1);
      var h := HistoryAfter(reply, inputs, n);
      assert h[..2 * (n - 1)] == HistoryAfter(reply, inputs, n - 1);
      assert h[..2 * j] == h[..2 * (n - 1)][..2 * j];
    }
  }

  /**
    Entry 2j is the user's input j and entry 2j+1 the reply to the prompt
    built from the history after j turns, which is the first 2j entries.
   */
  lemma HistoryAfterEntries(reply: string -> string, inputs: seq<string>, n: nat, j: nat)
    requires j < n <= |inputs|
    ensures var h := HistoryAfter(reply, inputs, n);
      && h[..2 * j] == HistoryAfter(reply, inputs, j)
      && h[2 * j] == UserEntry(inputs[j])
      && h[2 * j + 1] == AssistantEntry(reply(FormatPrompt(Join(h[..2 * j], "\n"), inputs[j])))
  {
    var h := HistoryAfter(reply, inputs, n);
    var k := HistoryAfter(reply, inputs, j + 1);
    HistoryAfterExtends(reply, inputs, j + 1, n);
    HistoryAfterExtends(reply, inputs, j, n);
    assert h[..2 * j + 2] == k;
    assert h[2 * j] == k[2 * j];
    assert h[2 * j + 1] == k[2 * j + 1];
  }

  /** The conversation of `run_langchain_demo`: the history list closed over by `run_turn`. */
  class Conversation {
    var history: seq<string>

    constructor ()
      ensures history == []
    {
      history := [];
    }

    /**
      `run_turn`: the reply is the model's answer to the template filled
      with the history before this turn, and the turn appends exactly the user's
      entry and then the reply's entry.
     */
    method RunTurn(userInput: string) returns (response: string)
      modifies this
      ensures response == Reply(FormatPrompt(Join(old(history), "\n"), userInput))
      ensures history == old(history) + [UserEntry(userInput), AssistantEntry(response)]
    {
      var formatted := FormatPrompt(Join(history, "\n"), userInput);
      response := Reply(formatted);
      history := history + [UserEntry(userInput)];
      history := history + [AssistantEntry(response)];
    }
  }

  const DemoInputs := ["What is LangChain?", "Why is memory useful?"]

  /** `run_langchain_demo`: two turns on a fresh conversation. */
  method LangchainDemo() returns (conversation: Conversation, first: string, second: string)
    ensures fresh(conversation)
    ensures conversation.history == HistoryAfter(Reply, DemoInputs, 2)
    ensures conversation.history[1] == AssistantEntry(first)
    ensures conversation.history[3] == AssistantEntry(second)
  {
    conversation := new Conversation();
    first := conversation.RunTurn(DemoInputs[0]);
    second := conversation.RunTurn(DemoInputs[1]);
    assert HistoryAfter(Reply, DemoInputs, 1) == [UserEntry(DemoInputs[0]), AssistantEntry(first)];
  }

  /** The first turn starts from an empty history, so its short prompt is echoed whole. */
  lemma FirstDemoTurnEchoesPrompt()
    ensures var h := HistoryAfter(Reply, DemoInputs, 2);
      h[1] == AssistantEntry(ResponseHeader + FormatPrompt("", DemoInputs[0]) + "...")
  {
    var p := FormatPrompt("", DemoInputs[0]);
    assert |p| == 90;
    assert Take(p, EchoLimit) == p;
    HistoryAfterEntries(Reply, DemoInputs, 2, 0);
  }

  /** The LangGraph state: the input and the node's output. */
  datatype GraphState = GraphState(userInput: string, output: string)

  /** `llm_node`: answers the input and keeps it. */
  function LlmNode(state: GraphState): (r: GraphState)
    ensures r.userInput == state.userInput
    ensures r.output == Invoke(state.userInput).content
  {
    GraphState(state.userInput, Invoke(state.userInput).content)
  }

  const DemoQuestion := "Explain LangGraph in one sentence."

  /** `run_langgraph_demo`: the one-node graph echoes the short question whole. */
  lemma LanggraphDemoEchoesQuestion()
    ensures LlmNode(GraphState(DemoQuestion, "")).output == ResponseHeader + DemoQuestion + "..."
  {
    assert |DemoQuestion| == 34;
    assert Take(DemoQuestion, EchoLimit) == DemoQuestion;
  }
}
