/**
  The conversation graph's state (scripts/state.py) and the message kinds the
  chat-model library exchanges: system prompt, human turn, model turn (possibly
  asking for tools) and tool result.
*/
module Messages {
  import opened Wrappers

  /** One tool invocation requested by the model. */
  datatype ToolCall = ToolCall(id: string, name: string, args: map<string, string>)

  datatype Message =
    | System(text: string)
    | Human(text: string)
    | Ai(text: string, toolCalls: seq<ToolCall>)
    | Tool(callId: string, text: string)

  /** What the model returns for one invocation: text, and the tools it wants run. */
  datatype ModelReply = ModelReply(content: string, toolCalls: seq<ToolCall>)

  /** `datos_recolectados`: every field optional; the empty dict `{}` has none of them. */
  datatype LeadData = LeadData(
    nombre: Option<string>,
    contacto: Option<string>,
    presupuesto: Option<string>,
    zona: Option<string>,
    urgencia: Option<string>)

  const NoLeadData := LeadData(None, None, None, None, None)

  /** `fase_venta`: an advisory label; nothing in the graph changes it. */
  datatype SalesPhase = Nueva | Calificando | ListaCierre | Agendada

  datatype AgentState = AgentState(
    history: seq<Message>,
    collected: LeadData,
    phase: SalesPhase,
    buffer: seq<string>)

  /** The literal a chat starts from: empty history, `{}`, "Nueva", `[]`. */
  const FreshState := AgentState([], NoLeadData, Nueva, [])

  /** `getattr(m, "tool_calls", None)` is truthy: a model turn with a non-empty call list. */
  predicate HasToolCalls(m: Message) {
    m.Ai? && m.toolCalls != []
  }
}
