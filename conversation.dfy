/**
 * The mutable conversation of the agent: a history that grows in place,
 * its append operation, and the read-send-append loop, each proved
 * against the functions of module Chat.
 */
module Agent {
  import opened ApiTypes
  import opened Chat
  import ChatProperties

  /**
   * The conversation history. Entries are only ever appended; `sent`
   * logs every request handed to the transport.
   */
  class Conversation {
    var messages: seq<Message>
    ghost var sent: seq<Request>

    constructor ()
      ensures messages == [] && sent == []
    {
      messages := [];
      sent := [];
    }

    /** Appends the block as an assistant entry when it is text. */
    method AppendResponse(msg: ResponseMessage)
      modifies this
      ensures messages == WithResponse(old(messages), msg)
      ensures ResponseTypeName(msg.kind) == "text" ==> messages == old(messages) + [Message(Assistant, msg.text)]
      ensures ResponseTypeName(msg.kind) != "text" ==> messages == old(messages)
      ensures sent == old(sent)
    {
      if msg.kind == Text {
        messages := messages + [Message(Assistant, msg.text)];
      }
    }

    /**
     * Reads lines until the input ends or the exit command is typed;
     * every other line is appended as a user entry, sent with the whole
     * history, and the first block of a successful answer is appended.
     */
    method Converse(lines: seq<string>, tools: seq<Tool>, outcomes: seq<Outcome>) returns (stop: Stop)
      requires |outcomes| >= |lines|
      modifies this
      ensures old(messages) <= messages
      ensures messages == Run(old(messages), lines, tools, outcomes).history
      ensures sent == old(sent) + Run(old(messages), lines, tools, outcomes).sent
      ensures stop == Run(old(messages), lines, tools, outcomes).stop
      ensures Alternating(old(messages)) ==> Alternating(messages)
      ensures var n := |Run(old(messages), lines, tools, outcomes).sent|;
        n <= |lines| && UserContents(messages) == UserContents(old(messages)) + lines[..n]
    {
      ghost var whole := Run(messages, lines, tools, outcomes);
      var i := 0;
      while true
        invariant 0 <= i <= |lines|
        invariant old(messages) <= messages
        invariant whole == Run(old(messages), lines, tools, outcomes)
        invariant whole.history == Run(messages, lines[i..], tools, outcomes[i..]).history
        invariant whole.stop == Run(messages, lines[i..], tools, outcomes[i..]).stop
        invariant old(sent) + whole.sent == sent + Run(messages, lines[i..], tools, outcomes[i..]).sent
        decreases |lines| - i
      {
        if i == |lines| {
          stop := EndOfInput;
          break;
        }
        var input := lines[i];
        assert lines[i..][0] == input && lines[i..][1..] == lines[i + 1..];
        assert outcomes[i..][0] == outcomes[i] && outcomes[i..][1..] == outcomes[i + 1..];
        if Lower(input) == ExitCommand {
          stop := ExitRequested;
          break;
        }
        messages := messages + [Message(User, input)];
        var req := BuildRequest(messages, tools);
        sent := sent + [req];
        var outcome := outcomes[i];
        if outcome.Ok? {
          var resp := outcome.response;
          if |resp.content| == 0 {
            stop := Crashed;
            break;
          }
          AppendResponse(resp.content[0]);
        }
        i := i + 1;
      }
      if Alternating(old(messages)) {
        ChatProperties.RunKeepsAlternating(old(messages), lines, tools, outcomes);
      }
      ChatProperties.RunUserContents(old(messages), lines, tools, outcomes);
    }
  }

  /** A session whose first line is the exit command in upper case sends nothing and records nothing. */
  method ExitScenario(tools: seq<Tool>)
  {
    var c := new Conversation();
    assert Lower("EXIT") == ExitCommand;
    var stop := c.Converse(["EXIT", "hello"], tools, [Err("unused"), Err("unused")]);
    assert stop == ExitRequested && c.messages == [] && c.sent == [];
  }

  /** A transport error keeps the user entry of that turn and adds no assistant entry. */
  method TransportErrorScenario(tools: seq<Tool>)
  {
    var c := new Conversation();
    assert Lower("hi") != ExitCommand;
    var stop := c.Converse(["hi"], tools, [Err("status 500")]);
    assert stop == EndOfInput;
    assert c.messages == [Message(User, "hi")];
    assert c.sent == [BuildRequest([Message(User, "hi")], tools)];
  }

  /** A text answer is appended after the user entry; a tool call in the next answer is dropped. */
  method TextThenToolUseScenario(tools: seq<Tool>, usage: Usage)
  {
    var c := new Conversation();
    var q1, q2 := "What is the postal code tool for?", "Look up Atlanta";
    assert Lower(q1) != ExitCommand && Lower(q2) != ExitCommand by {
      assert |Lower(q1)| != 4;
      assert Lower(q2)[0] == 'l';
    }
    var answer := ResponseMessage(Text, "It finds postal codes.", "", "", JsonValue(""));
    var call := ResponseMessage(ToolUse, "", "t1", "lookup_postal_code", JsonValue("{\"city\":\"Atlanta\"}"));
    var r1 := Response("m1", "message", "assistant", [answer], "claude-3-opus-20240229", EndTurn, "", usage);
    var r2 := Response("m2", "message", "assistant", [call], "claude-3-opus-20240229", "tool_use", "", usage);
    var h1 := [Message(User, q1), Message(Assistant, answer.text)];
    assert [q1, q2][1..] == [q2] && [Ok(r1), Ok(r2)][1..] == [Ok(r2)];
    assert Turn([], q1, tools, Ok(r1)).history == h1;
    assert Run(h1, [q2], tools, [Ok(r2)]).history == h1 + [Message(User, q2)];
    var stop := c.Converse([q1, q2], tools, [Ok(r1), Ok(r2)]);
    assert stop == EndOfInput;
    assert c.messages == [Message(User, q1), Message(Assistant, answer.text), Message(User, q2)];
    assert |c.sent| == 2 && c.sent[1].messages == c.messages;
  }
}
