/**
 * The conversation engine of the agent: the history, the request built
 * for each user line, and the read-send-append loop.
 *
 * The line scanner becomes a finite sequence of input lines and the HTTP
 * transport becomes a sequence of outcomes, the k-th of which answers the
 * request sent for the k-th input line. Every request handed to the
 * transport is recorded in the ghost log `sent`.
 */
module Chat {
  import opened ApiTypes

  /** The system prompt sent with every request. */
  const SysPrompt: string :=
    "\n\tYou are Super Claude, an AI assistant designed to help employees and developers work with Super-Sod's backend microservices. " +
    "\n\tWe will start off by working with the 'go-postal' REST API. Use the tools provided to fulfil user requests.\n" +
    "\n\tGive brief responses - we are in dev mode and many conversations are for testing purposes.\n"

  /** The output budget of every request. */
  const MaxTokenBudget: int := 2048

  /** The line that ends the session, compared after lowercasing. */
  const ExitCommand: string := "exit"

  /**
   * Lowercasing of one character: ASCII letters, and the two non-ASCII
   * characters whose lowercase form is an ASCII letter (dotted capital I
   * and the Kelvin sign). Every other character is kept as it is.
   */
  function LowerChar(c: char): char
  {
    if 'A' <= c <= 'Z' then (c as int + 32) as char
    else if c == '\U{0130}' then 'i'
    else if c == '\U{212A}' then 'k'
    else c
  }

  /** Character-by-character lowercasing of a line. */
  function Lower(s: string): string
  {
    seq(|s|, i requires 0 <= i < |s| => LowerChar(s[i]))
  }

  /** True when the line asks to end the session. */
  predicate IsExit(line: string)
  {
    Lower(line) == ExitCommand
  }

  /** The request for the current history: fixed model, budget, prompt and tools. */
  function BuildRequest(history: seq<Message>, tools: seq<Tool>): Request
  {
    Request(Opus, history, MaxTokenBudget, SysPrompt, tools)
  }

  /** Effect on the history of one response block: kept only when it is text. */
  function WithResponse(history: seq<Message>, msg: ResponseMessage): (r: seq<Message>)
    ensures history <= r && |r| <= |history| + 1
    ensures |r| == |history| + 1 <==> msg.kind == Text
    ensures |r| == |history| + 1 <==> ResponseTypeName(msg.kind) == "text"
    ensures |r| == |history| + 1 ==> r[|history|] == Message(Assistant, msg.text)
  {
    if msg.kind == Text then history + [Message(Assistant, msg.text)] else history
  }

  /** A successful response whose content list is empty; indexing its first block fails. */
  predicate EmptyReply(out: Outcome)
  {
    out.Ok? && |out.response.content| == 0
  }

  /** Effect on the history of the transport's answer to one request. */
  function Reply(history: seq<Message>, out: Outcome): seq<Message>
    requires !EmptyReply(out)
  {
    match out
    case Err(_) => history
    case Ok(resp) => WithResponse(history, resp.content[0])
  }

  /** What one non-exit line does: the new history, the request sent, and whether it crashed. */
  datatype TurnResult = TurnResult(history: seq<Message>, request: Request, crashed: bool)

  /** One turn of the loop for a line that is not the exit command. */
  function Turn(history: seq<Message>, line: string, tools: seq<Tool>, out: Outcome): (r: TurnResult)
    ensures r.request.messages == history + [Message(User, line)]
    ensures r.request.model == Opus && r.request.maxTokens == 2048
    ensures r.request.system == SysPrompt && r.request.tools == tools
    ensures r.request.messages <= r.history
    ensures r.crashed <==> EmptyReply(out)
    ensures out.Err? ==> r.history == r.request.messages
    ensures r.crashed ==> r.history == r.request.messages
    ensures out.Ok? && !r.crashed ==>
      r.history == WithResponse(r.request.messages, out.response.content[0])
  {
    var h := history + [Message(User, line)];
    var req := BuildRequest(h, tools);
    if EmptyReply(out) then TurnResult(h, req, true)
    else TurnResult(Reply(h, out), req, false)
  }

  /** How the loop ended. */
  datatype Stop = EndOfInput | ExitRequested | Crashed

  /** The history after the loop, the requests it sent in order, and how it ended. */
  datatype RunResult = RunResult(history: seq<Message>, sent: seq<Request>, stop: Stop)

  /** The whole loop over the input lines, as a function of the starting history. */
  function Run(history: seq<Message>, lines: seq<string>, tools: seq<Tool>, outs: seq<Outcome>): RunResult
    requires |outs| >= |lines|
    decreases |lines|
  {
    if |lines| == 0 then RunResult(history, [], EndOfInput)
    else if IsExit(lines[0]) then RunResult(history, [], ExitRequested)
    else
      var t := Turn(history, lines[0], tools, outs[0]);
      if t.crashed then RunResult(t.history, [t.request], Crashed)
      else
        var rest := Run(t.history, lines[1..], tools, outs[1..]);
        RunResult(rest.history, [t.request] + rest.sent, rest.stop)
  }

  /** The last entry of a non-empty history. */
  function Last(h: seq<Message>): Message
    requires |h| > 0
  {
    h[|h| - 1]
  }

  /**
   * The shape the history keeps: it starts with a user entry, and every
   * assistant entry directly follows a user entry.
   */
  predicate Alternating(h: seq<Message>)
  {
    && (|h| > 0 ==> h[0].role == User)
    && forall k :: 0 < k < |h| && h[k].role == Assistant ==> h[k - 1].role == User
  }

  /** The contents of the user entries of a history, in order. */
  function UserContents(h: seq<Message>): seq<string>
  {
    if |h| == 0 then []
    else UserContents(h[..|h| - 1]) + (if Last(h).role == User then [Last(h).content] else [])
  }
}
