# claude-tools-agent: conversation loop in Dafny

This project models the conversation engine of a small command-line agent
that talks to the Anthropic Messages API. It covers the conversation history
(`Conversation`), which grows in place and only ever gains entries; the
`AppendResponse` operation, which keeps a response block only when it is text;
and the `Converse` loop. That loop reads a line, stops at end of input or
on `exit` in any case, appends the line as a user entry, sends the whole
history with a fixed model, token budget, system prompt and tool list, and
then appends the first block of a successful answer.

Files:

- `api_types.dfy`, module `ApiTypes`: the API records and the string-valued
  enumerations (role, model, content-block type, stop reasons). A block's
  discriminator is a datatype `Text | ToolUse | Other(name)`, so values the client does
  not know can still be represented. A block's kind has the subtype
  `BlockType`, where `Other` never spells "text" or "tool_use". Each wire
  string then has exactly one kind, so testing `kind == Text` is the same
  as comparing the wire string with "text".
- `chat.dfy`, module `Chat`: the functions that specify the engine.
  - `BuildRequest` builds the request.
  - `Lower` and `IsExit` recognise the exit command.
  - `WithResponse` and `Reply` give what an answer adds to the history.
  - `Turn` is one non-exit line.
  - `Run` is the whole loop: the final history, the requests sent in order, and how it stopped.
- `chat_properties.dfy`, module `ChatProperties`: lemmas about `Run` and `Turn`.
- `conversation.dfy`, module `Agent`: the class `Conversation`. Its field
  `messages` is the slice the source mutates. The ghost field `sent` logs
  every request handed to the transport. `AppendResponse` and `Converse` are
  proved against `WithResponse` and `Run`. Three client methods replay
  these sessions:
  - the exit command typed first;
  - a transport error;
  - a text answer followed by a tool call that is dropped.

How the environment is modelled:

- The line scanner is a finite `seq<string>` of lines. Running out of lines
  is the scanner's "no more input".
- The transport is a `seq<Outcome>`, where an `Outcome` is `Err(error)` or
  `Ok(response)`. Outcome k answers the request sent for line k.
  `Converse` requires at least as many outcomes as lines. This is an
  assumption about the environment: every line sends at most one request.
- A successful response with an empty `Content` list makes the source panic
  when it indexes the first block. The model reports this as
  `Stop.Crashed`. By then the user entry is already in the history and the
  request is already in the log.

Behaviour of the client worth noting:

- There is no tool dispatch and no re-request after a `tool_use` block. Such a
  block is dropped.
- The protocol allows several content blocks per answer; this client looks
  only at the first. A text block that comes after a tool call is therefore
  not appended.
- Blocks of an unknown kind are ignored, not treated as errors.
- A request is never built from an empty history, because the user entry is
  appended first. `RunRequestContents` proves that every request ends with
  the user entry of its own line.

## Model

| member | source | states |
|---|---|---|
| `ApiTypes.ClassifyResponseType` | main.go:122-133 | Reads a block's wire type string. The result is `Text` exactly when the string is "text" and `ToolUse` exactly when it is "tool_use". Writing the result back gives the original string, so unknown kinds are kept, not lost. |
| `ApiTypes.NameClassifyRoundTrip` | main.go:133 | Reading back the wire name of a block's discriminator yields that same discriminator, so `BlockType` and the wire strings correspond one to one. |
| `Chat.WithResponse` | main.go:84-89 | The history gains at most one entry and keeps its old entries as a prefix. It grows exactly when the block's wire type string is "text", and then the new last entry is an assistant entry carrying the block's text. |
| `Chat.Turn` | main.go:103-111 | One non-exit line: the request carries the old history plus the user entry for the line, model Opus, budget 2048, the system prompt and the given tools. On a transport error the history is exactly that request's messages, so the user entry stays and no assistant entry is added. A turn crashes exactly when the answer is a success with no content. Otherwise the answer's first block is applied to the history. |
| `Agent.Conversation.constructor` | main.go:33 | A new conversation is empty and has sent nothing. |
| `Agent.Conversation.AppendResponse` | main.go:84-89 | For a block whose wire type string is "text", appends exactly one assistant entry with the block's text and keeps all earlier entries. For any other block, leaves the history exactly unchanged. Sends nothing. |
| `Agent.Conversation.Converse` | main.go:91-114 | The new history, the requests logged and the way the loop stopped are those of `Run`. The old history is a prefix of the new one. The history's user-first, assistant-after-user shape is kept. The user entries gained are exactly the first lines of the input, one per request sent. |
| `ChatProperties.LowerCharPreimage` | main.go:99 | Lists exactly which characters lowercase to a given ASCII lowercase letter. |
| `ChatProperties.ExitSpellings` | main.go:99-101 | A line ends the session exactly when it has four characters spelling "exit" in any mix of cases (with the dotted capital I also accepted for the i). This holds in both directions. |
| `ChatProperties.RunStops` | main.go:92-113 | Says how the loop stops. It sends at most one request per line, and none of the lines it sent is the exit command. It stops at end of input only after sending a request for every line. It stops on exit only at a line that is the exit command, with no request sent for that line. It crashes exactly when the answer to its last request was a success with empty content. No earlier answer was. |
| `ChatProperties.RunRequestContents` | main.go:104-105 | Every request sent is the one built from its own messages: model Opus, budget 2048, the system prompt and the supplied tools. Its messages are non-empty and end with the user entry of its own line. The first request's messages are the starting history plus that entry. |
| `ChatProperties.RunRequestChain` | main.go:104-111 | Between consecutive requests the history changes only in two ways: by the answer to the earlier request, then by the next line's user entry. An error adds nothing; a success adds its first block, if that block is text. With no requests sent the history is unchanged. After the last request the history is that request's messages plus its answer, or just its messages if the loop crashed. |
| `ChatProperties.RunAppendOnly` | main.go:87-104 | The loop only appends. The starting history is a prefix of the final history. Each request's messages strictly extend the starting history and are a prefix of the final history. |
| `ChatProperties.TurnKeepsAlternating` | main.go:104-111 | One turn keeps the history's shape: it starts with a user entry, and every assistant entry directly follows a user entry. |
| `ChatProperties.RunKeepsAlternating` | main.go:91-114 | The whole loop keeps that shape. |
| `ChatProperties.AlternatingNoAdjacentAssistants` | main.go:85-87 | In a history of that shape no two assistant entries are adjacent. |
| `ChatProperties.RunUserContents` | main.go:104 | No user line is lost. The user entries the loop adds are exactly the input lines it sent, in order, one per request. |

## Left out

- `Request.Post` (main.go:175-220) is not modelled. This covers JSON encoding, the HTTP client, the headers and status-code handling. It is replaced by the sequence of outcomes described above.
- `Config`, `NewConfig`, `Config.Load` and the global `cfg` (main.go:17, 224-249) are not modelled. They cover loading the `.env` file, reading the API key from the environment, and fatal exits. This is process configuration.
- `LoadToolFromJSONFile` and `main` (main.go:19-36, 52-71) are not modelled. They read a file, decode JSON and wire up the program at startup. A `Tool` is passed through untouched.
- Untyped JSON values are kept as their raw text (`JsonValue`). These are the property schemas of `InputSchema.Properties` and the input of a tool call in `ResponseMessage.Input`.
- Printing is not modelled: the prompt, the reply with its token counts, and the error message (main.go:94, 108, 110). It is output only and has no effect on the history.
- `Lower` does not implement the full Unicode lowercasing of `strings.ToLower`. It lowercases ASCII letters, plus the two non-ASCII characters whose lowercase form is an ASCII letter. It leaves every other character unchanged. Go maps any other character to a non-ASCII character or leaves it unchanged, so the comparison with "exit" is decided the same way either way.
- Input lines that are not valid UTF-8 cannot be represented: a Dafny string is a sequence of Unicode scalar values.
- Scanner failures are not distinguished from end of input: a read error, or a line longer than the scanner's buffer, ends the loop like end of input. The input sequence stands for the lines delivered before the scanner stops.
- The request's `Messages` field shares the slice's backing array with the history in Go. The model takes it as a value snapshot. This is equivalent, because later appends only write beyond the request's length.
- `Converse` returns how the loop stopped, and a crash on an empty content list is a result rather than a process abort. Nothing after the crash is modelled.
- The stop-reason constants and most response fields (id, model, stop reason, usage) are carried but never inspected, as in the source.
