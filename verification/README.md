# Chat-bot decision logic, modelled in Dafny

This project models the first-party decision logic of a small tool-using chat bot:

- the `calculator` tool (`Calculator`): two numbers and an operation name give either a
  record echoing the inputs with the result, or an error payload;
- the SQL-query bookkeeping of the graph node `chat_node` (`SqlTracking`): the tool calls of
  the model's response are folded into the conversation's `sql_queries` list, which keeps
  one copy of each query in first-seen order;
- the front end's session state (`ChatSession`): the thread list (`add_thread`), starting a
  new chat (`reset_chat`), the set-up block that fills in missing session keys, rebuilding the
  visible history from a thread's stored messages, and appending a user turn.

`Messages` holds the message and tool-call records. The front end imports its chat graph
and `retrieve_all_thread` from a module `backend_tools` (`frontend_tools.py:3`), which is not
part of this model; the front end's loaded messages and stored thread ids are therefore
inputs, typed with the same message record. `Optional` and
`Sequences` are small helpers. Everything is a pure function over immutable datatypes.

Parameters stand in for the parts that are not modelled:
- the model's response (with its tool calls) is a parameter of `ChatNode`;
- a freshly generated thread id is a parameter of `ResetChat`, `Setup` and `NewChat`;
- the thread ids the checkpoint store lists are a parameter of `Setup`;
- the messages loaded from a thread are a parameter of `SelectThread`;
- the streamed assistant reply is a parameter of `UserTurn`; `None` stands for a streaming call that raised.

Numbers are Dafny `real`s, not IEEE doubles.

Two points on what the code does and does not guarantee:
- The node reads the keys `tool_name` and `query` of each tool call
  (`backend_sql.py:74-79`), and the model reads exactly those two keys. Whether real
  tool-call payloads carry them is outside the model.
- The code only skips queries already in the list (`backend_sql.py:82`). So the result is
  duplicate-free only when the incoming list is, and the model proves exactly that
  implication.

## Model

| member | source | states |
|---|---|---|
| Calculator.Calculate | backend_sql.py:22-40 | success echoes both numbers and the operation; success exactly when the operation is add, sub, mul or div and it is not a division by zero; division by zero gives exactly the fixed error; any other operation gives the error naming it |
| Calculator.ResultUndoesOperation | backend_sql.py:28-37 | a successful result is the arithmetic answer: undoing the operation with the second number gives back the first, and a product with zero is zero |
| Calculator.ErrorNamesOperation | backend_sql.py:38-39 | the unsupported-operation error names the operation exactly (it parses back to it) and cannot be confused with the division-by-zero error |
| SqlTracking.Accumulate | backend_sql.py:73-83 | the incoming list is a prefix of the result; a query is in the result iff it was listed before or some call with an `sql_db…` name and a non-empty query carries it; no duplicates are introduced |
| SqlTracking.AppendedAreNew | backend_sql.py:73-83 | every appended query was not in the incoming list and is carried by some trackable call |
| SqlTracking.AppendedInFirstSeenOrder | backend_sql.py:73-83 | appended queries are ordered by the position of the first call that tracked them |
| SqlTracking.SaturatedUnchanged | backend_sql.py:82-83 | when every trackable query is already listed the list is returned unchanged |
| SqlTracking.UntrackableCallsIgnored | backend_sql.py:81-82 | calls with no tool name, a name not starting with `sql_db`, or an empty query leave the list unchanged |
| SqlTracking.AccumulateIdempotent | backend_sql.py:82-83 | folding the same calls again over the result returns the same list |
| SqlTracking.AccumulateConcat | backend_sql.py:73-83 | folding two batches of calls one after the other equals folding their concatenation |
| SqlTracking.ChatNode | backend_sql.py:67-88 | the message delta is exactly the response; a missing `sql_queries` is read as empty; the old list is a prefix of the new; membership and no-duplicates as for the fold; a response without tool calls leaves the list unchanged |
| SqlTracking.ChatNodeAcrossTurns | backend_sql.py:67-88 | two node runs, the second on the first's output, record what one fold over both responses' calls records, and the first list is a prefix of the second |
| ChatSession.AddThread | frontend_tools.py:20-22 | the thread is listed afterwards; the old list is a prefix; members are the old ones plus the thread; the length grows by one exactly when it was absent; no duplicates are introduced |
| ChatSession.AddThreadIdempotent | frontend_tools.py:20-22 | adding a thread twice is adding it once |
| ChatSession.ResetChat | frontend_tools.py:14-18 | the current thread becomes the new id, which is listed; the visible history is empty; the old thread list is a prefix of the new one and gains only the new id, and only when it was absent |
| ChatSession.Setup | frontend_tools.py:29-37 | keys already present are kept, missing ones get the new id, the stored ids or an empty history; the thread list gains only the current id, and only when it was absent, so the current thread is listed afterwards |
| ChatSession.RerunSetupKeepsSession | frontend_tools.py:29-37 | on a rerun where every key is present and the session is valid, the set-up block returns the session unchanged |
| ChatSession.RoleOf | frontend_tools.py:56-59 | a message is shown as the user's iff it is a human message |
| ChatSession.ToEntries | frontend_tools.py:53-60 | one entry per loaded message, same order and content, role `user` iff the message is a human message |
| ChatSession.RestoreHistory | frontend_tools.py:53-61 | an empty loaded list leaves the previous history in place; otherwise the history is the loaded messages as entries |
| ChatSession.SelectThread | frontend_tools.py:48-61 | clicking the thread at a listed position makes it current and restores its history; the thread list is untouched, so validity is kept |
| ChatSession.UserTurn | frontend_tools.py:79-90 | a non-empty input appends the user's entry after the unchanged old history; when the stream yields a reply exactly one more entry, the assistant's reply, follows; when the stream raises the history grows by the user's entry only; an empty input changes nothing |
| ChatSession.TwoTurnsAppend | frontend_tools.py:79-90 | two turns in a row append the four entries in order to the old history |
| ChatSession.Step | frontend_tools.py:14-90 | one event (new chat, thread click or submitted input) after the rerun's set-up: the thread list only grows, validity is kept, and a submission leaves the thread and list alone |
| ChatSession.Run | frontend_tools.py:14-90 | a sequence of events, one rerun each: the old thread list stays a prefix |
| ChatSession.RunPreservesValid | frontend_tools.py:14-61 | any sequence of new-chat, thread-click and submit events keeps the current thread listed and the list duplicate-free, and the list only grows |
| ChatSession.SetupThenRunValid | frontend_tools.py:29-37 | after set-up from a duplicate-free thread list, every sequence of user events leaves a valid session |

## Left out

- The chat-model call, the prebuilt tool node, the tool-routing condition and the graph wiring (`backend_sql.py:61,70,90-103`). These are framework behaviour. The response is an input.
- The message-list reducer and the SQLite checkpoint persistence (`backend_sql.py:64,92-93`). These are framework state merging and I/O. The next state's query list is a parameter of `ChatNodeAcrossTurns`.
- `retrieve_all_thread` (`backend_sql.py:126-130`). It wraps the checkpoint listing and its order is unspecified.
- `backend_tools`, the module the front end imports its chat graph and `retrieve_all_thread` from (`frontend_tools.py:3,36`), is not part of this model. The thread ids that `backend_tools.retrieve_all_thread` returns are the `stored` parameter of `Setup`.
- `get_stock_price` (`backend_sql.py:45-52`), the web-search tool and the SQL toolkit set-up (`backend_sql.py:19,55-57`). These are network or library calls.
- The module-level test invocation and its prints (`backend_sql.py:105-124`).
- Streamlit rendering, buttons and reply streaming (`frontend_tools.py:41-49,73-77,82-88`). Only the resulting state changes are modelled. A button click is the position of that thread in `chat_thread`. The streamed reply is a string input.
- `load_conversation` (`frontend_tools.py:24-25`). It reads the checkpoint store through the `backend_tools` chat graph. Its result is the `loaded` parameter of `SelectThread`.
- `uuid4` (`frontend_tools.py:10-12`). The generated id is a parameter.
- Calculator.Calculate: IEEE-754 behaviour (negative zero, infinities, NaN, rounding) is not modelled, because numbers are reals. The generic `except` branch (`backend_sql.py:41-42`) is also not modelled. It only fires on non-numeric inputs, which the typed model cannot receive.
- SqlTracking.ChatNode: the source appends to the list object held in the incoming state, in place (`backend_sql.py:69,83`), so the node mutates its input and returns that same list. The model leaves the state unchanged and returns a fresh sequence with the same contents; aliasing is not modelled.
- SqlTracking.ChatNode: values of other types under `tool_name` or `query` are not modelled. The model treats both as strings, with Python truthiness on strings: an empty string is falsy.
- Message content that is a list of content blocks rather than a string is not modelled.
