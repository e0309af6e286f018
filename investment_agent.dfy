/**
 * The turn pipeline: a `process` node that asks the language model and
 * records its answer, a `format` node that supplies a fallback answer, and
 * an identity `end` node, wired process -> format -> end.
 */
module InvestmentAgent {
  import opened Wrappers
  import opened State

  /**
   * What the prompt-and-model chain returned: an object with a `content`
   * attribute, or any other value, given by its `str()` form.
   */
  datatype ChainResponse = WithContent(content: string) | Other(text: string)

  /** The chain call either returns a response or raises an exception with a message. */
  datatype ChainOutcome = Returned(response: ChainResponse) | Raised(message: string)

  /** The chain, as the outcome it produces for the messages it is sent. */
  type Chain = seq<Message> -> ChainOutcome

  const ErrorPrefix: string := "I encountered an error while processing your request: "
  const FallbackOutput: string := "I couldn't generate a response. Please try again."
  const LlmResponseLabel: string := "llm_response"

  /** The text of a response: its `content` attribute when it has one, else its string form. */
  function ContentOf(response: ChainResponse): (r: string)
    ensures response.WithContent? ==> r == response.content
    ensures response.Other? ==> r == response.text
  {
    match response
    case WithContent(content) => content
    case Other(text) => text
  }

  /**
   * The node `process`: sends the state's messages to the chain. On a
   * response it sets `output` to the content and appends one
   * `("llm_response", content)` step; on an exception it sets `output` to
   * the error text and leaves the steps alone. It never raises.
   */
  method ProcessInput(state: AgentState, chain: Chain) returns (r: AgentState)
    modifies state
    ensures r == state
    ensures state.messages == old(state.messages) && state.userInput == old(state.userInput)
    ensures match chain(old(state.messages))
      case Returned(response) =>
        && state.output == Some(ContentOf(response))
        && state.intermediateSteps == old(state.intermediateSteps) + [Step(LlmResponseLabel, ContentOf(response))]
      case Raised(message) =>
        && state.output == Some(ErrorPrefix + message)
        && state.intermediateSteps == old(state.intermediateSteps)
  {
    var outcome := chain(state.messages);
    match outcome {
      case Returned(response) =>
        var content := ContentOf(response);
        state.output := Some(content);
        state.intermediateSteps := state.intermediateSteps + [Step(LlmResponseLabel, content)];
      case Raised(message) =>
        state.output := Some(ErrorPrefix + message);
    }
    r := state;
  }

  /** An output that is unset or empty, which `not state.output` would reject. */
  predicate Blank(output: Option<string>) {
    output == None || output == Some("")
  }

  /** The node `format`: replaces a blank output by the fallback text, else changes nothing. */
  method FormatOutput(state: AgentState) returns (r: AgentState)
    modifies state
    ensures r == state
    ensures state.output == if Blank(old(state.output)) then Some(FallbackOutput) else old(state.output)
    ensures state.messages == old(state.messages) && state.userInput == old(state.userInput)
    ensures state.intermediateSteps == old(state.intermediateSteps)
  {
    if Blank(state.output) {
      state.output := Some(FallbackOutput);
    }
    r := state;
  }

  /** The node `end`: `lambda x: x`. */
  method EndNode(state: AgentState) returns (r: AgentState)
    ensures r == state
  {
    r := state;
  }

  /** The answer a whole run leaves in `output`, given what the chain did. */
  function TurnOutput(outcome: ChainOutcome): string {
    match outcome
    case Returned(response) =>
      if ContentOf(response) == "" then FallbackOutput else ContentOf(response)
    case Raised(message) => ErrorPrefix + message
  }

  /**
   * One run of the compiled graph, in the order CreateWorkflow's edges
   * give: process, then format, then end. The
   * output is `TurnOutput` of what the chain answered for the state's
   * messages; the messages and the user input are untouched.
   */
  method RunTurn(state: AgentState, chain: Chain) returns (r: AgentState)
    modifies state
    ensures r == state
    ensures state.output == Some(TurnOutput(chain(old(state.messages))))
    ensures state.output.Some? && state.output.value != ""
    ensures state.messages == old(state.messages) && state.userInput == old(state.userInput)
    ensures state.intermediateSteps ==
      match chain(old(state.messages))
      case Returned(response) => old(state.intermediateSteps) + [Step(LlmResponseLabel, ContentOf(response))]
      case Raised(_) => old(state.intermediateSteps)
  {
    r := ProcessInput(state, chain);
    r := FormatOutput(r);
    r := EndNode(r);
    TurnOutputNonEmpty(chain(old(state.messages)));
  }

  /** Every run ends with a non-empty answer, whatever the chain did. */
  lemma TurnOutputNonEmpty(outcome: ChainOutcome)
    ensures TurnOutput(outcome) != ""
  {
    match outcome
    case Returned(response) =>
    case Raised(message) =>
      assert |TurnOutput(outcome)| >= |ErrorPrefix|;
  }

  /**
   * A failed chain call ends with an answer that starts with
   * "I encountered an error" and ends with the exception's message.
   */
  lemma FailureIsReported(message: string)
    ensures var out := TurnOutput(Raised(message));
      && out[..22] == "I encountered an error"
      && out[|ErrorPrefix|..] == message
  {
  }

  // ---------------------------------------------------------------------
  // The graph
  // ---------------------------------------------------------------------

  /** The behaviour a node name is bound to. */
  datatype Node = Process | Format | End

  /** The graph as `add_node`, `add_edge` and `set_entry_point` leave it. */
  class Workflow {
    var nodes: seq<(string, Node)>
    var edges: seq<(string, string)>
    var entryPoint: Option<string>

    /** `StateGraph(AgentState)`: no nodes, no edges, no entry point. */
    constructor ()
      ensures nodes == [] && edges == [] && entryPoint == None
    {
      nodes := [];
      edges := [];
      entryPoint := None;
    }

    method AddNode(name: string, node: Node)
      modifies this
      ensures nodes == old(nodes) + [(name, node)]
      ensures edges == old(edges) && entryPoint == old(entryPoint)
    {
      nodes := nodes + [(name, node)];
    }

    method AddEdge(source: string, target: string)
      modifies this
      ensures edges == old(edges) + [(source, target)]
      ensures nodes == old(nodes) && entryPoint == old(entryPoint)
    {
      edges := edges + [(source, target)];
    }

    method SetEntryPoint(name: string)
      modifies this
      ensures entryPoint == Some(name)
      ensures nodes == old(nodes) && edges == old(edges)
    {
      entryPoint := Some(name);
    }
  }

  /** The target of the first edge leaving `name`, if any. */
  function Successor(edges: seq<(string, string)>, name: string): (r: Option<string>)
    ensures r.Some? ==> exists i :: 0 <= i < |edges| && edges[i] == (name, r.value) &&
                                    forall j :: 0 <= j < i ==> edges[j].0 != name
    ensures r.None? ==> forall i :: 0 <= i < |edges| ==> edges[i].0 != name
  {
    if edges == [] then None
    else if edges[0].0 == name then Some(edges[0].1)
    else
      var r := Successor(edges[1..], name);
      assert forall j :: 0 <= j < |edges[1..]| ==> edges[1..][j] == edges[j + 1];
      assert r.Some? ==> exists i :: 1 <= i < |edges| && edges[i] == (name, r.value) &&
                                     forall j :: 0 <= j < i ==> edges[j].0 != name by {
        if r.Some? {
          var i :| 0 <= i < |edges[1..]| && edges[1..][i] == (name, r.value) &&
                   forall j :: 0 <= j < i ==> edges[1..][j].0 != name;
          assert edges[i + 1] == (name, r.value);
        }
      }
      r
  }

  /** The node names visited from `start` by following edges, at most `fuel` of them. */
  function Path(edges: seq<(string, string)>, start: string, fuel: nat): seq<string>
    decreases fuel
  {
    if fuel == 0 then []
    else match Successor(edges, start)
      case None => [start]
      case Some(next) => [start] + Path(edges, next, fuel - 1)
  }

  /** The edges `create_investment_agent` adds, in order. */
  const InvestmentEdges: seq<(string, string)> := [("process", "format"), ("format", "end")]

  /**
   * The construction in `create_investment_agent`. Following the built
   * graph's edges from its entry point visits process, format and end and
   * stops: the order RunTurn calls ProcessInput, FormatOutput and EndNode in.
   */
  method CreateWorkflow() returns (w: Workflow)
    ensures fresh(w)
    ensures w.nodes == [("process", Process), ("format", Format), ("end", End)]
    ensures w.edges == InvestmentEdges
    ensures w.entryPoint == Some("process")
    ensures Path(w.edges, w.entryPoint.value, |w.nodes|) == ["process", "format", "end"]
  {
    w := new Workflow();
    w.AddNode("process", Process);
    w.AddNode("format", Format);
    w.AddNode("end", End);
    w.SetEntryPoint("process");
    w.AddEdge("process", "format");
    w.AddEdge("format", "end");
    RunOrder(|w.nodes|);
  }

  /**
   * From "process" the edges lead to format and end, in that order, and
   * stop there: "end" has no outgoing edge.
   */
  lemma RunOrder(fuel: nat)
    requires fuel >= 3
    ensures Path(InvestmentEdges, "process", fuel) == ["process", "format", "end"]
  {
    var edges := InvestmentEdges;
    assert Successor(edges, "process") == Some("format");
    assert Successor(edges, "format") == Some("end") by {
      assert edges[1..] == [("format", "end")];
    }
    assert Successor(edges, "end") == None by {
      assert edges[1..] == [("format", "end")];
      assert edges[1..][1..] == [];
    }
    assert Path(edges, "end", fuel - 2) == ["end"];
    assert Path(edges, "format", fuel - 1) == ["format", "end"];
  }
}
