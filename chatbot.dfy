/**
  The terminal chatbot with conversational memory (`task3/chatbot.py`).

  Each turn runs the nodes user_input, memory, llm and output in that order
  over one `ChatState`; the memory node appends the user's line and the llm
  node appends the mock model's reply, which depends only on the joined memory.
 */
module Chatbot {
  import opened Text

  // The two longer replies are written in pieces of at most 30 characters;
  // the lemmas at the end of this module show each piece is one line.
  const NameReply := "I remember our conversation, " + "but I can\U{2019}t recall " + "specific personal details."
  const FollowReply := "I\U{2019}m following along and " + "remember what we\U{2019}ve talked " + "about so far."
  const DefaultReply := "Okay, tell me more."

  /** The lowercased conversation contains one of the two name questions. */
  ghost predicate AsksForName(conversation: string) {
    Occurs("what's my name", Lower(conversation)) || Occurs("do you know my name", Lower(conversation))
  }

  /** `FakeLLM.invoke`: the canned reply to the whole conversation so far. */
  function Invoke(conversation: string): string {
    var text := Lower(conversation);
    if Contains(text, "what's my name") || Contains(text, "do you know my name") then NameReply
    else if |SplitLines(conversation)| > 4 then FollowReply
    else DefaultReply
  }

  /**
    A name question gets the refusal whatever the length; otherwise the reply
    follows along exactly when there are more than four lines, and is the
    default reply else.
   */
  lemma InvokeReplies(conversation: string)
    ensures AsksForName(conversation) ==> Invoke(conversation) == NameReply
    ensures !AsksForName(conversation) ==>
      (Invoke(conversation) == FollowReply <==> |SplitLines(conversation)| > 4)
    ensures !AsksForName(conversation) && |SplitLines(conversation)| <= 4 ==>
      Invoke(conversation) == DefaultReply
    ensures Invoke(conversation) in {NameReply, FollowReply, DefaultReply}
  {
    var text := Lower(conversation);
    ContainsMeansOccurs(text, "what's my name");
    ContainsMeansOccurs(text, "do you know my name");
  }

  class ChatState {
    var userInput: string
    var memory: seq<string>
    var response: string

    constructor (userInput: string, memory: seq<string>, response: string)
      ensures this.userInput == userInput && this.memory == memory && this.response == response
    {
      this.userInput := userInput;
      this.memory := memory;
      this.response := response;
    }

    /** `user_input_node`: hands the state on unchanged. */
    method UserInputNode()
      ensures unchanged(this)
    {
    }

    /** `memory_node`: appends the user's line to the memory. */
    method MemoryNode()
      modifies this
      ensures memory == old(memory) + [UserEntry(userInput)]
      ensures userInput == old(userInput) && response == old(response)
    {
      memory := memory + [UserEntry(userInput)];
    }

    /**
      `llm_node`: the reply is the model's answer to the memory joined with
      newlines, and it is appended to the memory as the assistant's line.
     */
    method LlmNode()
      modifies this
      ensures response == Invoke(Join(old(memory), "\n"))
      ensures memory == old(memory) + [AssistantEntry(response)]
      ensures userInput == old(userInput)
    {
      var conversation := Join(memory, "\n");
      var reply := Invoke(conversation);
      response := reply;
      memory := memory + [AssistantEntry(reply)];
    }

    /** `output_node`: prints the reply and hands the state on unchanged. */
    method OutputNode()
      ensures unchanged(this)
    {
    }

    /**
      The compiled graph user_input -> memory -> llm -> output: one turn adds
      exactly the user's line and then the assistant's line.
     */
    method RunGraph()
      modifies this
      ensures memory == old(memory) + [UserEntry(userInput), AssistantEntry(response)]
      ensures response == Invoke(Join(old(memory) + [UserEntry(userInput)], "\n"))
      ensures userInput == old(userInput)
    {
      UserInputNode();
      MemoryNode();
      LlmNode();
      OutputNode();
    }
  }

  /** The loop's exit test on a typed line once it is stripped. */
  predicate IsExitCommand(text: string) {
    var command := Lower(text);
    command == "exit" || command == "quit"
  }

  /** How many stripped lines are taken as turns: those before the first exit command. */
  function TurnsBeforeExit(texts: seq<string>): (k: nat)
    ensures k <= |texts|
  {
    if texts == [] then 0
    else if IsExitCommand(texts[0]) then 0
    else 1 + TurnsBeforeExit(texts[1..])
  }

  /** No line before the turn count is an exit command, and the line at it is. */
  lemma {:induction false} TurnsStopAtFirstExit(texts: seq<string>)
    ensures var k := TurnsBeforeExit(texts);
      && (forall j :: 0 <= j < k ==> !IsExitCommand(texts[j]))
      && (k < |texts| ==> IsExitCommand(texts[k]))
  {
    if texts != [] && !IsExitCommand(texts[0]) {
      TurnsStopAtFirstExit(texts[1..]);
      var k := TurnsBeforeExit(texts);
      forall j | 1 <= j < k ensures !IsExitCommand(texts[j]) {
        assert texts[j] == texts[1..][j - 1];
      }
      if k < |texts| {
        assert texts[k] == texts[1..][k - 1];
      }
    }
  }

  /** The lines as the loop reads them, each stripped of surrounding whitespace. */
  function StrippedLines(lines: seq<string>): (texts: seq<string>)
    ensures |texts| == |lines|
  {
    if lines == [] then [] else [Strip(lines[0])] + StrippedLines(lines[1..])
  }

  lemma {:induction false} StrippedLineAt(lines: seq<string>, j: nat)
    requires j < |lines|
    ensures StrippedLines(lines)[j] == Strip(lines[j])
  {
    if j > 0 {
      StrippedLineAt(lines[1..], j - 1);
    }
  }

  /** The number of turns is fixed by the first exit command. */
  lemma TurnsBeforeExitIsFirstExit(texts: seq<string>, i: nat)
    requires i <= |texts|
    requires forall j :: 0 <= j < i ==> !IsExitCommand(texts[j])
    requires i < |texts| ==> IsExitCommand(texts[i])
    ensures TurnsBeforeExit(texts) == i
  {
    TurnsStopAtFirstExit(texts);
  }

  /**
    The memory after the first `n` of the user's turns `texts` when the model
    answers with `reply`: each turn adds the user's text and then the reply to
    the memory as it stood after that text, joined with newlines. The graph
    uses `Invoke` as the model; the lemmas below hold for any model.
   */
  function Transcript(reply: string -> string, texts: seq<string>, n: nat): (m: seq<string>)
    requires n <= |texts|
    ensures |m| == 2 * n
  {
    if n == 0 then []
    else
      var asked := Transcript(reply, texts, n - 1) + [UserEntry(texts[n - 1])];
      asked + [AssistantEntry(reply(Join(asked, "\n")))]
  }

  /** Later turns only append: the memory after `j` turns begins the memory after `n`. */
  lemma {:induction false} TranscriptExtends(reply: string -> string, texts: seq<string>, j: nat, n: nat)
    requires j <= n <= |texts|
    ensures Transcript(reply, texts, n)[..2 * j] == Transcript(reply, texts, j)
    decreases n
  {
    if j < n {
      TranscriptExtends(reply, texts, j, n - 1);
      var m := Transcript(reply, texts, n);
      assert m[..2 * (n - 1)] == Transcript(reply, texts, n - 1);
      assert m[..2 * j] == m[..2 * (n - 1)][..2 * j];
    }
  }

  /**
    Entry 2j of the memory is the user's text j, and entry 2j+1 is the reply
    to the memory up to and including entry 2j, which is the memory after j
    turns followed by the user's text j.
   */
  lemma TranscriptEntries(reply: string -> string, texts: seq<string>, n: nat, j: nat)
    requires j < n <= |texts|
    ensures var m := Transcript(reply, texts, n);
      && m[2 * j] == UserEntry(texts[j])
      && m[..2 * j + 1] == Transcript(reply, texts, j) + [UserEntry(texts[j])]
      && m[2 * j + 1] == AssistantEntry(reply(Join(m[..2 * j + 1], "\n")))
  {
    var m := Transcript(reply, texts, n);
    var k := Transcript(reply, texts, j + 1);
    TranscriptExtends(reply, texts, j + 1, n);
    assert m[..2 * j + 2] == k;
    assert m[..2 * j + 1] == k[..2 * j + 1];
    assert k[..2 * j + 1] == Transcript(reply, texts, j) + [UserEntry(texts[j])];
  }

  /**
    The interactive session over the lines the user types. Every line before
    the first exit command is one turn; the exit command ends the session
    without touching the state.
   */
  method Session(lines: seq<string>) returns (state: ChatState)
    ensures fresh(state)
    ensures var texts := StrippedLines(lines);
      var k := TurnsBeforeExit(texts);
      && state.memory == Transcript(Invoke, texts, k)
      && state.userInput == (if k == 0 then "" else texts[k - 1])
      && (if k == 0 then state.response == "" else state.memory[2 * k - 1] == AssistantEntry(state.response))
  {
    state := new ChatState("", [], "");
    var texts := StrippedLines(lines);
    var i := 0;
    while i < |texts|
      invariant 0 <= i <= |texts|
      invariant forall j :: 0 <= j < i ==> !IsExitCommand(texts[j])
      invariant state.memory == Transcript(Invoke, texts, i)
      invariant state.userInput == (if i == 0 then "" else texts[i - 1])
      invariant if i == 0 then state.response == "" else state.memory[2 * i - 1] == AssistantEntry(state.response)
    {
      var userText := texts[i];
      if IsExitCommand(userText) {
        break;
      }
      state.userInput := userText;
      state.RunGraph();
      i := i + 1;
    }
    TurnsBeforeExitIsFirstExit(texts, i);
  }

  lemma ConcatHasNoLineBreak(a: string, b: string)
    requires HasNoLineBreak(a) && HasNoLineBreak(b)
    ensures HasNoLineBreak(a + b)
  {
    var e := a + b;
    forall i | 0 <= i < |e| ensures !IsLineBreak(e[i]) {
      if i >= |a| { assert e[i] == b[i - |a|]; }
    }
  }

  lemma NameReplyHasNoLineBreak()
    ensures HasNoLineBreak(NameReply)
  {
    NamePiece1HasNoLineBreak();
    NamePiece2HasNoLineBreak();
    NamePiece3HasNoLineBreak();
    ConcatHasNoLineBreak("I remember our conversation, ", "but I can\U{2019}t recall ");
    ConcatHasNoLineBreak("I remember our conversation, " + "but I can\U{2019}t recall ", "specific personal details.");
  }

  lemma FollowReplyHasNoLineBreak()
    ensures HasNoLineBreak(FollowReply)
  {
    FollowPiece1HasNoLineBreak();
    FollowPiece2HasNoLineBreak();
    FollowPiece3HasNoLineBreak();
    ConcatHasNoLineBreak("I\U{2019}m following along and ", "remember what we\U{2019}ve talked ");
    ConcatHasNoLineBreak("I\U{2019}m following along and " + "remember what we\U{2019}ve talked ", "about so far.");
  }

  /** None of the three canned replies holds a line break. */
  lemma CannedReplyHasNoLineBreak(r: string)
    requires r in {NameReply, FollowReply, DefaultReply}
    ensures HasNoLineBreak(r)
  {
    NameReplyHasNoLineBreak();
    FollowReplyHasNoLineBreak();
  }

  /** No reply, and no assistant entry made of one, holds a line break. */
  lemma RepliesHaveNoLineBreak(conversation: string)
    ensures HasNoLineBreak(Invoke(conversation))
    ensures HasNoLineBreak(AssistantEntry(Invoke(conversation)))
  {
    InvokeReplies(conversation);
    CannedReplyHasNoLineBreak(Invoke(conversation));
    ConcatHasNoLineBreak("Assistant: ", Invoke(conversation));
  }

  /** The joined memory of break-free entries, followed by the user's entry, has one line per entry. */
  lemma ConversationLines(history: seq<string>, userText: string)
    requires forall k :: 0 <= k < |history| ==> HasNoLineBreak(history[k])
    requires HasNoLineBreak(userText)
    ensures |SplitLines(Join(history + [UserEntry(userText)], "\n"))| == |history| + 1
  {
    var lines := history + [UserEntry(userText)];
    ConcatHasNoLineBreak("User: ", userText);
    assert forall k :: 0 <= k < |lines| ==> HasNoLineBreak(lines[k]);
    SplitLinesOfJoin(lines);
  }

  /**
    When no entry holds a line break, the reply to a turn that follows
    `history` is the follow-along reply exactly when `history` already holds
    four entries (from the third turn on), unless a name is asked for.
   */
  lemma FollowsAlongFromThirdTurn(history: seq<string>, userText: string)
    requires forall k :: 0 <= k < |history| ==> HasNoLineBreak(history[k])
    requires HasNoLineBreak(userText)
    ensures var conversation := Join(history + [UserEntry(userText)], "\n");
      !AsksForName(conversation) ==> (Invoke(conversation) == FollowReply <==> |history| >= 4)
  {
    ConversationLines(history, userText);
    InvokeReplies(Join(history + [UserEntry(userText)], "\n"));
  }

  /** Stripping a break-free line keeps it break-free. */
  lemma StripHasNoLineBreak(line: string)
    requires HasNoLineBreak(line)
    ensures HasNoLineBreak(Strip(line))
  {
    StripIsTrimmedSlice(line);
    var lo: nat, hi: nat :| lo <= hi <= |line| && Strip(line) == line[lo..hi];
    assert forall i :: 0 <= i < hi - lo ==> Strip(line)[i] == line[lo + i];
  }

  /** Every entry of the chatbot's memory is break-free when the typed lines are. */
  lemma {:induction false} TranscriptHasNoLineBreak(texts: seq<string>, n: nat)
    requires n <= |texts|
    requires forall j :: 0 <= j < |texts| ==> HasNoLineBreak(texts[j])
    ensures forall k :: 0 <= k < 2 * n ==> HasNoLineBreak(Transcript(Invoke, texts, n)[k])
    decreases n
  {
    if n > 0 {
      TranscriptHasNoLineBreak(texts, n - 1);
      var asked := Transcript(Invoke, texts, n - 1) + [UserEntry(texts[n - 1])];
      ConcatHasNoLineBreak("User: ", texts[n - 1]);
      RepliesHaveNoLineBreak(Join(asked, "\n"));
    }
  }

  lemma StrippedLinesHaveNoLineBreak(lines: seq<string>)
    requires forall i :: 0 <= i < |lines| ==> HasNoLineBreak(lines[i])
    ensures forall i :: 0 <= i < |lines| ==> HasNoLineBreak(StrippedLines(lines)[i])
  {
    forall i | 0 <= i < |lines| ensures HasNoLineBreak(StrippedLines(lines)[i]) {
      StrippedLineAt(lines, i);
      StripHasNoLineBreak(lines[i]);
    }
  }

  /**
    In a memory built from break-free texts, the reply in turn `j` (counting
    from 0) is the follow-along reply exactly from the third turn on, unless
    the conversation up to that turn asks for a name.
   */
  lemma TurnFollowsAlong(texts: seq<string>, n: nat, j: nat)
    requires forall i :: 0 <= i < |texts| ==> HasNoLineBreak(texts[i])
    requires j < n <= |texts|
    ensures var m := Transcript(Invoke, texts, n);
      !AsksForName(Join(m[..2 * j + 1], "\n")) ==>
        (m[2 * j + 1] == AssistantEntry(FollowReply) <==> j >= 2)
  {
    var m := Transcript(Invoke, texts, n);
    var history := Transcript(Invoke, texts, j);
    TranscriptEntries(Invoke, texts, n, j);
    TranscriptHasNoLineBreak(texts, j);
    FollowsAlongFromThirdTurn(history, texts[j]);
    AssistantEntryInjective(Invoke(Join(m[..2 * j + 1], "\n")), FollowReply);
  }

  // The pieces of the two longer replies, one lemma each: the verifier checks
  // a short literal character by character far more cheaply on its own.

  lemma NamePiece1HasNoLineBreak()
    ensures HasNoLineBreak("I remember our conversation, ")
  {
  }

  lemma NamePiece2HasNoLineBreak()
    ensures HasNoLineBreak("but I can\U{2019}t recall ")
  {
  }

  lemma NamePiece3HasNoLineBreak()
    ensures HasNoLineBreak("specific personal details.")
  {
  }

  lemma FollowPiece1HasNoLineBreak()
    ensures HasNoLineBreak("I\U{2019}m following along and ")
  {
  }

  lemma FollowPiece2HasNoLineBreak()
    ensures HasNoLineBreak("remember what we\U{2019}ve talked ")
  {
  }

  lemma FollowPiece3HasNoLineBreak()
    ensures HasNoLineBreak("about so far.")
  {
  }
}
