/**
  The per-chat session store both chat front ends keep (`MEMORY_STORAGE`): a map from
  the chat's key to its graph state. A message is admitted by creating a fresh state for
  an unknown key and appending the human turn to the stored history; only then does the
  graph run, and its result replaces the stored state.
*/
module Sessions {
  import opened Text
  import opened Messages
  import opened Wrappers
  import opened Agent

  /** The non-blank bubbles of a buffer, in order: the ones a delivery loop acts on. */
  function NonBlank(buffer: seq<string>): (r: seq<string>)
    ensures |r| <= |buffer|
    ensures forall k :: 0 <= k < |r| ==> !IsBlank(r[k])
  {
    if buffer == [] then []
    else NonBlank(buffer[..|buffer| - 1]) + (if IsBlank(buffer[|buffer| - 1]) then [] else [buffer[|buffer| - 1]])
  }

  /** The state a message is admitted into: the stored one, or a fresh one for a new key. */
  function Current<K>(memory: map<K, AgentState>, key: K): (s: AgentState)
    ensures key !in memory ==> s == FreshState
  {
    if key in memory then memory[key] else FreshState
  }

  /** The stored state once the human turn has been appended to its history list. */
  function Admitted<K>(memory: map<K, AgentState>, key: K, text: string): (s: AgentState)
    ensures s.history != [] && s.history[|s.history| - 1] == Human(text)
  {
    var cur := Current(memory, key);
    cur.(history := cur.history + [Human(text)])
  }

  /**
    An existing state is never reset by a message: its history gains exactly the human
    turn at the end and its lead data, phase and buffer stay. An unknown key starts from
    the fresh state, whose history is then that one turn.
  */
  lemma {:induction false} AdmittedKeepsExisting<K>(memory: map<K, AgentState>, key: K, text: string)
    ensures key in memory ==>
      && Admitted(memory, key, text).history[..|memory[key].history|] == memory[key].history
      && |Admitted(memory, key, text).history| == |memory[key].history| + 1
      && Admitted(memory, key, text).collected == memory[key].collected
      && Admitted(memory, key, text).phase == memory[key].phase
      && Admitted(memory, key, text).buffer == memory[key].buffer
    ensures key !in memory ==>
      && Admitted(memory, key, text).history == [Human(text)]
      && Admitted(memory, key, text).collected == NoLeadData
      && Admitted(memory, key, text).phase == Nueva
      && Admitted(memory, key, text).buffer == []
  {
    if key in memory {
      var h := memory[key].history;
      assert (h + [Human(text)])[..|h|] == h;
    }
  }

  /** The human turn is also the last turn of the conversation behind the system prompt. */
  lemma {:induction false} HumanTurnClosesConversation<K>(memory: map<K, AgentState>, key: K, text: string)
    ensures var c := Conversation(Admitted(memory, key, text).history);
      c != [] && c[|c| - 1] == Human(text)
      && c[..|c| - 1] == Conversation(Current(memory, key).history)
  {
    var h := Current(memory, key).history;
    if h != [] && h[0].System? {
      assert (h + [Human(text)])[1..] == h[1..] + [Human(text)];
    }
  }

  /**
    When the graph finishes on an admitted message (with any agent node that behaves as
    the graph's does), the resulting state still holds that message in its conversation,
    right after the earlier turns, and ends on a model turn that asks for no tools, whose
    bubbles are in the buffer.
  */
  lemma {:induction false} FinishedRunAnswersMessage<K>(memory: map<K, AgentState>, key: K, text: string,
                                                         agent: (AgentState, nat) -> Option<AgentState>,
                                                         tools: Message -> seq<Message>, fuel: nat)
    requires WellBehaved(agent) && Run(Admitted(memory, key, text), agent, tools, 0, fuel).Done?
    ensures var prior := Conversation(Current(memory, key).history);
            var r := Run(Admitted(memory, key, text), agent, tools, 0, fuel).state;
            var c := Conversation(r.history);
      && |c| > |prior| && c[..|prior|] == prior && c[|prior|] == Human(text)
      && r.history[|r.history| - 1].Ai? && r.history[|r.history| - 1].toolCalls == []
      && r.buffer == FormatBotResponse(r.history[|r.history| - 1].text)
  {
    var a := Admitted(memory, key, text);
    RunEndsOnPlainReply(a, agent, tools, 0, fuel);
    HumanTurnClosesConversation(memory, key, text);
    var r := Run(a, agent, tools, 0, fuel).state;
    PrefixThenHuman(Conversation(Current(memory, key).history), Conversation(a.history), Conversation(r.history), text);
  }

  /** A conversation extending the earlier turns plus the human turn keeps both, in that order. */
  lemma {:induction false} PrefixThenHuman(prior: seq<Message>, ca: seq<Message>, c: seq<Message>, text: string)
    requires ca != [] && ca[|ca| - 1] == Human(text) && ca[..|ca| - 1] == prior
    requires IsPrefix(ca, c)
    ensures |c| > |prior| && c[..|prior|] == prior && c[|prior|] == Human(text)
  {
    assert c[..|prior|] == c[..|ca|][..|prior|];
    assert c[|prior|] == c[..|ca|][|prior|];
  }
}
