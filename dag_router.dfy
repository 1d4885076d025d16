/**
  The DAG with a conditional entry point (`task5/dag_langgraph.py`).

  The router sends an input made only of digits, the four operators,
  parentheses, the dot and the space to the calculator node, and every other
  input to the mock model's node. Each node writes the response into the state
  and leaves the input alone. Python's `eval` is outside the model: the
  calculator node receives the outcome of evaluating the input as a value.
 */
module DagRouter {

  // The characters of the allowed-character string: digits, + - * /, parentheses, dot and space.
  const AllowedChars: set<char> :=
    {'0', '1', '2', '3', '4', '5', '6', '7', '8', '9', '+', '-', '*', '/', '(', ')', '.', ' '}

  /** `all(char in allowed_chars for char in text)`, scanning from the left. */
  function AllAllowed(text: string): (b: bool)
    ensures b <==> forall i :: 0 <= i < |text| ==> text[i] in AllowedChars
  {
    if text == [] then true
    else text[0] in AllowedChars && AllAllowed(text[1..])
  }

  const CalculatorRoute := "calculator"
  const LlmRoute := "llm"

  /** `router_node`: the calculator exactly when every character is allowed. */
  function RouterNode(userInput: string): (route: string)
    ensures route == CalculatorRoute <==> forall i :: 0 <= i < |userInput| ==> userInput[i] in AllowedChars
    ensures route == LlmRoute <==> exists i :: 0 <= i < |userInput| && userInput[i] !in AllowedChars
  {
    if AllAllowed(userInput) then CalculatorRoute else LlmRoute
  }

  /** The map given to `set_conditional_entry_point`: route key to node name. */
  const RouteMap := map[CalculatorRoute := "calculator", LlmRoute := "llm"]

  /** Every route the router returns is a key of the map, so the entry always resolves. */
  lemma RouteAlwaysResolves(userInput: string)
    ensures RouterNode(userInput) in RouteMap
    ensures RouteMap[RouterNode(userInput)] == RouterNode(userInput)
  {
  }

  /** `all` over no characters holds, so the empty input goes to the calculator. */
  lemma EmptyInputRoutesToCalculator()
    ensures RouterNode("") == CalculatorRoute
  {
  }

  /** The script's arithmetic test input goes to the calculator. */
  lemma CalculatorDemoRoute()
    ensures RouterNode("10 * (2 + 3)") == CalculatorRoute
  {
    var s := "10 * (2 + 3)";
    assert forall i :: 0 <= i < |s| ==> s[i] in AllowedChars;
  }

  /** The script's question goes to the model: its first letter is not allowed. */
  lemma LlmDemoRoute()
    ensures RouterNode("What is LangGraph?") == LlmRoute
  {
    var s := "What is LangGraph?";
    assert s[0] == 'W' && s[0] !in AllowedChars;
  }

  /** The reply of the mock model's node. */
  function LlmResponse(userInput: string): string {
    "(LLM) Response to: '" + userInput + "'"
  }

  /** The input stands quoted inside the reply, so it can be read back. */
  lemma LlmResponseQuotesInput(userInput: string)
    ensures var r := LlmResponse(userInput);
      && |r| == |userInput| + 21
      && r[..20] == "(LLM) Response to: '"
      && r[20..|r| - 1] == userInput
      && r[|r| - 1] == '\''
  {
  }

  /** What `eval` did with the input: the `str` of its value, or an exception. */
  datatype EvalOutcome = Evaluated(text: string) | Raised

  const ResultPrefix := "Calculation result: "
  const InvalidCalculation := "Invalid calculation."

  /** The reply of the calculator node for one outcome of `eval`. */
  function CalculatorResponse(outcome: EvalOutcome): string {
    match outcome
    case Evaluated(text) => ResultPrefix + text
    case Raised => InvalidCalculation
  }

  /**
    The calculator's reply either starts with the result prefix or is exactly
    the invalid-calculation message, and it is the message exactly when `eval`
    raised.
   */
  lemma CalculatorResponseShape(outcome: EvalOutcome)
    ensures var r := CalculatorResponse(outcome);
      && (r == InvalidCalculation <==> outcome == Raised)
      && (outcome.Evaluated? ==> |r| >= |ResultPrefix| && r[..|ResultPrefix|] == ResultPrefix
                                     && r[|ResultPrefix|..] == outcome.text)
  {
    if outcome.Evaluated? {
      var r := CalculatorResponse(outcome);
      assert r[..|ResultPrefix|] == ResultPrefix;
      assert r[..|ResultPrefix|][0] == 'C';
    }
  }

  /** The graph's state, a dict the nodes update in place. */
  class GraphState {
    var userInput: string
    var response: string

    constructor (userInput: string, response: string)
      ensures this.userInput == userInput && this.response == response
    {
      this.userInput := userInput;
      this.response := response;
    }

    /** `llm_node` */
    method LlmNode()
      modifies this
      ensures response == LlmResponse(userInput)
      ensures userInput == old(userInput)
    {
      response := "(LLM) Response to: '" + userInput + "'";
    }

    /** `calculator_node`, with `outcome` standing for `eval(user_input)`. */
    method CalculatorNode(outcome: EvalOutcome)
      modifies this
      ensures response == CalculatorResponse(outcome)
      ensures userInput == old(userInput)
    {
      match outcome {
        case Evaluated(text) =>
          response := "Calculation result: " + text;
        case Raised =>
          response := "Invalid calculation.";
      }
    }

    /**
      The compiled graph: the router picks the entry node, which runs once and
      ends the run. `eval` is what Python's evaluator does with a text.
     */
    method Run(eval: string -> EvalOutcome)
      modifies this
      ensures userInput == old(userInput)
      ensures response == if RouterNode(userInput) == CalculatorRoute
                          then CalculatorResponse(eval(userInput))
                          else LlmResponse(userInput)
    {
      var route := RouterNode(userInput);
      var node := RouteMap[route];
      if node == "calculator" {
        CalculatorNode(eval(userInput));
      } else {
        LlmNode();
      }
    }
  }

  /** The two runs of the script's own tests. */
  method Demo(eval: string -> EvalOutcome) returns (calculation: string, answer: string)
    ensures calculation == CalculatorResponse(eval("10 * (2 + 3)"))
    ensures answer == LlmResponse("What is LangGraph?")
  {
    CalculatorDemoRoute();
    LlmDemoRoute();
    var first := new GraphState("10 * (2 + 3)", "");
    first.Run(eval);
    calculation := first.response;
    var second := new GraphState("What is LangGraph?", "");
    second.Run(eval);
    answer := second.response;
  }
}
