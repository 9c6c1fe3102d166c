/**
 * What the conversation loop guarantees, proved about the functions of
 * module Chat: which lines end the session, append-only growth, the shape
 * of the history, which requests are sent and with what, and that no user
 * line is lost.
 */
module ChatProperties {
  import opened ApiTypes
  import opened Chat

  /** The characters that lowercase to a given ASCII lowercase letter. */
  lemma LowerCharPreimage(c: char, target: char)
    requires 'a' <= target <= 'z'
    ensures LowerChar(c) == target <==>
      (|| c == target
       || c as int == target as int - 32
       || (target == 'i' && c == '\U{0130}')
       || (target == 'k' && c == '\U{212A}'))
  {
  }

  /** The session ends exactly on the four-letter word "exit" in any case mix. */
  lemma ExitSpellings(line: string)
    ensures IsExit(line) <==>
      (&& |line| == 4
       && line[0] in {'e', 'E'}
       && line[1] in {'x', 'X'}
       && line[2] in {'i', 'I', '\U{0130}'}
       && line[3] in {'t', 'T'})
  {
    if |line| == 4 {
      LowerCharPreimage(line[0], 'e');
      LowerCharPreimage(line[1], 'x');
      LowerCharPreimage(line[2], 'i');
      LowerCharPreimage(line[3], 't');
      var low := Lower(line);
      assert low == ExitCommand <==>
        low[0] == 'e' && low[1] == 'x' && low[2] == 'i' && low[3] == 't';
    } else {
      assert |Lower(line)| != |ExitCommand|;
    }
  }

  /** The loop only appends: its starting history and every request it sends are prefixes of the final history. */
  lemma {:induction false} RunAppendOnly(h: seq<Message>, lines: seq<string>, tools: seq<Tool>, outs: seq<Outcome>)
    requires |outs| >= |lines|
    ensures var r := Run(h, lines, tools, outs);
      && h <= r.history
      && forall k :: 0 <= k < |r.sent| ==> h < r.sent[k].messages <= r.history
    decreases |lines|
  {
    if |lines| > 0 && !IsExit(lines[0]) {
      var t := Turn(h, lines[0], tools, outs[0]);
      if !t.crashed {
        RunAppendOnly(t.history, lines[1..], tools, outs[1..]);
      }
    }
  }

  /** How the loop ends, and how many requests it sends before it does. */
  lemma {:induction false} RunStops(h: seq<Message>, lines: seq<string>, tools: seq<Tool>, outs: seq<Outcome>)
    requires |outs| >= |lines|
    ensures var r := Run(h, lines, tools, outs);
      && |r.sent| <= |lines|
      && (forall k :: 0 <= k < |r.sent| ==> !IsExit(lines[k]))
      && (forall k :: 0 <= k < |r.sent| - 1 ==> !EmptyReply(outs[k]))
      && (r.stop == EndOfInput ==> |r.sent| == |lines|)
      && (r.stop == ExitRequested ==> |r.sent| < |lines| && IsExit(lines[|r.sent|]))
      && (r.stop == Crashed <==> 0 < |r.sent| && EmptyReply(outs[|r.sent| - 1]))
    decreases |lines|
  {
    if |lines| > 0 && !IsExit(lines[0]) {
      var t := Turn(h, lines[0], tools, outs[0]);
      if !t.crashed {
        RunStops(t.history, lines[1..], tools, outs[1..]);
        var rest := Run(t.history, lines[1..], tools, outs[1..]);
        forall k | 0 < k < 1 + |rest.sent|
          ensures !IsExit(lines[k])
        {
          assert lines[k] == lines[1..][k - 1];
        }
        forall k | 0 < k < |rest.sent|
          ensures !EmptyReply(outs[k])
        {
          assert outs[k] == outs[1..][k - 1];
        }
        if rest.stop == ExitRequested {
          assert lines[1 + |rest.sent|] == lines[1..][|rest.sent|];
        }
        if 0 < |rest.sent| {
          assert outs[|rest.sent|] == outs[1..][|rest.sent| - 1];
        }
      }
    }
  }

  /**
   * Every request sent carries the fixed model, budget, system prompt and
   * tools, and the whole history up to and including the user entry of its
   * own line; the first one extends the starting history by that entry.
   */
  lemma {:induction false} RunRequestContents(h: seq<Message>, lines: seq<string>, tools: seq<Tool>, outs: seq<Outcome>)
    requires |outs| >= |lines|
    ensures var r := Run(h, lines, tools, outs);
      && |r.sent| <= |lines|
      && (|r.sent| > 0 ==> r.sent[0].messages == h + [Message(User, lines[0])])
      && forall k :: 0 <= k < |r.sent| ==>
        && r.sent[k] == BuildRequest(r.sent[k].messages, tools)
        && r.sent[k].model == Opus && r.sent[k].maxTokens == 2048
        && r.sent[k].system == SysPrompt && r.sent[k].tools == tools
        && |r.sent[k].messages| > 0
        && Last(r.sent[k].messages) == Message(User, lines[k])
    decreases |lines|
  {
    RunStops(h, lines, tools, outs);
    if |lines| > 0 && !IsExit(lines[0]) {
      var t := Turn(h, lines[0], tools, outs[0]);
      if !t.crashed {
        RunRequestContents(t.history, lines[1..], tools, outs[1..]);
        var rest := Run(t.history, lines[1..], tools, outs[1..]);
        forall k | 0 < k < 1 + |rest.sent|
          ensures lines[k] == lines[1..][k - 1]
        {
        }
      }
    }
  }

  /**
   * Between two consecutive requests the history changes only by the answer
   * to the first (nothing on an error, the first block if it is text) and
   * the user entry of the next line; after the last request it changes only
   * by that request's answer, unless the answer was empty and the loop
   * crashed.
   */
  lemma {:induction false} RunRequestChain(h: seq<Message>, lines: seq<string>, tools: seq<Tool>, outs: seq<Outcome>)
    requires |outs| >= |lines|
    ensures var r := Run(h, lines, tools, outs);
      && |r.sent| <= |lines|
      && (forall k :: 0 <= k < |r.sent| - 1 ==>
            !EmptyReply(outs[k]) &&
            r.sent[k + 1].messages == Reply(r.sent[k].messages, outs[k]) + [Message(User, lines[k + 1])])
      && (|r.sent| == 0 ==> r.history == h)
      && (|r.sent| > 0 && r.stop == Crashed ==> r.history == r.sent[|r.sent| - 1].messages)
      && (|r.sent| > 0 && r.stop != Crashed ==>
            !EmptyReply(outs[|r.sent| - 1]) &&
            r.history == Reply(r.sent[|r.sent| - 1].messages, outs[|r.sent| - 1]))
    decreases |lines|
  {
    RunStops(h, lines, tools, outs);
    if |lines| > 0 && !IsExit(lines[0]) {
      var t := Turn(h, lines[0], tools, outs[0]);
      if !t.crashed {
        RunRequestChain(t.history, lines[1..], tools, outs[1..]);
        RunRequestContents(t.history, lines[1..], tools, outs[1..]);
        var rest := Run(t.history, lines[1..], tools, outs[1..]);
        var r := Run(h, lines, tools, outs);
        assert r.sent == [t.request] + rest.sent;
        forall k | 0 < k < |r.sent| - 1
          ensures !EmptyReply(outs[k]) &&
            r.sent[k + 1].messages == Reply(r.sent[k].messages, outs[k]) + [Message(User, lines[k + 1])]
        {
          assert outs[k] == outs[1..][k - 1];
          assert lines[k + 1] == lines[1..][k];
          assert r.sent[k] == rest.sent[k - 1] && r.sent[k + 1] == rest.sent[k];
        }
        if 0 < |rest.sent| {
          assert outs[|rest.sent|] == outs[1..][|rest.sent| - 1];
          assert lines[1] == lines[1..][0];
        }
      }
    }
  }

  /** Appending a user entry, then the answer to a request, keeps the history's shape. */
  lemma TurnKeepsAlternating(h: seq<Message>, line: string, tools: seq<Tool>, out: Outcome)
    requires Alternating(h)
    ensures Alternating(Turn(h, line, tools, out).history)
  {
    var u := h + [Message(User, line)];
    assert Alternating(u) by {
      forall k | 0 < k < |u| && u[k].role == Assistant
        ensures u[k - 1].role == User
      {
        assert u[k] == h[k];
      }
    }
  }

  /** The loop keeps the history's shape: starting with a user entry, no assistant entry without a user entry before it. */
  lemma {:induction false} RunKeepsAlternating(h: seq<Message>, lines: seq<string>, tools: seq<Tool>, outs: seq<Outcome>)
    requires |outs| >= |lines|
    requires Alternating(h)
    ensures Alternating(Run(h, lines, tools, outs).history)
    decreases |lines|
  {
    if |lines| > 0 && !IsExit(lines[0]) {
      TurnKeepsAlternating(h, lines[0], tools, outs[0]);
      var t := Turn(h, lines[0], tools, outs[0]);
      if !t.crashed {
        RunKeepsAlternating(t.history, lines[1..], tools, outs[1..]);
      }
    }
  }

  /** Under that shape no two assistant entries are adjacent. */
  lemma AlternatingNoAdjacentAssistants(h: seq<Message>, k: nat)
    requires Alternating(h)
    requires 0 < k < |h|
    ensures !(h[k - 1].role == Assistant && h[k].role == Assistant)
  {
  }

  /** Appending one entry adds its content to the user contents exactly when it is a user entry. */
  lemma UserContentsSnoc(h: seq<Message>, m: Message)
    ensures UserContents(h + [m]) == UserContents(h) + (if m.role == User then [m.content] else [])
  {
    assert (h + [m])[..|h|] == h;
  }

  /** One turn adds exactly its own line to the user contents. */
  lemma TurnUserContents(h: seq<Message>, line: string, tools: seq<Tool>, out: Outcome)
    ensures UserContents(Turn(h, line, tools, out).history) == UserContents(h) + [line]
  {
    var u := h + [Message(User, line)];
    UserContentsSnoc(h, Message(User, line));
    if out.Ok? && |out.response.content| > 0 && out.response.content[0].kind == Text {
      UserContentsSnoc(u, Message(Assistant, out.response.content[0].text));
    }
  }

  /** No user line is lost: the user entries gained are exactly the lines that were sent, in order. */
  lemma {:induction false} RunUserContents(h: seq<Message>, lines: seq<string>, tools: seq<Tool>, outs: seq<Outcome>)
    requires |outs| >= |lines|
    ensures var r := Run(h, lines, tools, outs);
      |r.sent| <= |lines| && UserContents(r.history) == UserContents(h) + lines[..|r.sent|]
    decreases |lines|
  {
    RunStops(h, lines, tools, outs);
    if |lines| > 0 && !IsExit(lines[0]) {
      TurnUserContents(h, lines[0], tools, outs[0]);
      var t := Turn(h, lines[0], tools, outs[0]);
      var uc := UserContents(t.history);
      assert uc == UserContents(h) + [lines[0]];
      if !t.crashed {
        RunUserContents(t.history, lines[1..], tools, outs[1..]);
        var rest := Run(t.history, lines[1..], tools, outs[1..]);
        var n := |rest.sent|;
        assert UserContents(rest.history) == uc + lines[1..][..n];
        assert lines[..1 + n] == [lines[0]] + lines[1..][..n];
      } else {
        assert lines[..1] == [lines[0]];
      }
    }
  }
}
