/** The record one pipeline run threads through its nodes. */
module State {
  import opened Wrappers

  /** The role a chat message is tagged with. */
  datatype Role = User | Assistant | System

  /** One `{"role": ..., "content": ...}` entry of the conversation. */
  datatype Message = Message(role: Role, content: string)

  /** One `(tag, value)` record a node leaves in `intermediate_steps`. */
  datatype Step = Step(tag: string, value: string)

  /**
   * The turn state. `messages` and `intermediate_steps` are Python lists:
   * by default each instance gets fresh ones, but a caller may pass in its
   * own list, which the nodes then update in place. Here they are sequence
   * values, so that sharing is not modelled; nothing in the pipeline keeps
   * a second reference to them. `output` is the attribute the nodes
   * attach: None until one of them does.
   */
  class AgentState {
    var messages: seq<Message>
    var userInput: string
    var intermediateSteps: seq<Step>
    var output: Option<string>

    /** `AgentState()`: every field at its default. */
    constructor Default()
      ensures messages == [] && userInput == "" && intermediateSteps == []
      ensures output == None
    {
      messages := [];
      userInput := "";
      intermediateSteps := [];
      output := None;
    }

    /** `AgentState(messages=..., user_input=..., intermediate_steps=...)`. */
    constructor (messages: seq<Message>, userInput: string, intermediateSteps: seq<Step>)
      ensures this.messages == messages && this.userInput == userInput
      ensures this.intermediateSteps == intermediateSteps
      ensures output == None
    {
      this.messages := messages;
      this.userInput := userInput;
      this.intermediateSteps := intermediateSteps;
      output := None;
    }
  }
}
