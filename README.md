# Quanta backend: agent registry and WebSocket bookkeeping, in Dafny

This project models the two stateful pieces of the Quanta research backend
and the deterministic responses of its API handlers.

- **Agent registry** (`backend/agent_factory.py`, module `AgentRegistry`).
  `AgentFactory` keeps a table from agent type to agent. The five agent types
  are research, data, experiment, critic and visualization. Each
  `create_*_agent` method builds its agent the first time it is called and
  returns the stored one afterwards. `get_agent`, `get_all_agents`,
  `get_agent_status` and `get_all_agent_statuses` read the table.
  The table is a `map` field of a class, and the create methods update it in
  place. Each create method is proved against the pure function `WithAgent`.
  Idempotence, the frame ("only this key changes"), commutation and the
  five-entry bound are proved about `WithAgent` and the invariant `WellFormed`.
- **Connection manager** (`backend/main.py`, module `Connections`).
  `ConnectionManager` keeps a table from client id to WebSocket. `Connect`
  inserts or overwrites, `Disconnect` is a guarded delete, and
  `SendPersonalMessage` sends only to the socket registered for the id.
  A socket is an opaque object whose ghost `outbox` records the frames sent
  on it. The `while True` loop of the WebSocket handler becomes
  `WebSocketEndpoint`. It runs over the finite sequence of frames the client
  sends before it disconnects, and it is proved to send exactly the echo of
  each frame, in order, and to unregister the client at the end.
- **Response builders** (`backend/main.py`, module `Endpoints`). These are
  the echo reply `"Received: " + data`, the workflow id
  `workflow_{user_id}_{hash % 10000}`, the submit message with its
  fifty-character query preview, and the mock workflow status. The first
  three have an inverse reading: `EchoedText`, `ParseWorkflowId` and
  `QuotedQuery`. The round trips are proved, and they show which inputs give
  the same workflow id or message. The status report is fixed apart from the
  workflow id it echoes, and that independence is proved.
- Module `Decimal` renders a natural number as Python's `str` does and reads
  it back. Module `Wrappers` holds `Option` and `Min`.

Python's `hash(query)` is salted per process, so it is a parameter of any
`int` value. With the positive modulus 10000, Python's floored `%` and
Dafny's Euclidean `%` agree, also for negative hashes. Strings are sequences
of Unicode scalar values, so `query[:50]` counts characters as Python does.

## Model

| member | source | states |
|---|---|---|
| `AgentRegistry.AgentFactory.constructor` | backend/agent_factory.py:16-24 | A new factory keeps the given model id (by default the Claude 3.5 Sonnet id) and starts with an empty table. |
| `AgentRegistry.AgentKind.Blueprint` | backend/agent_factory.py:45-52 | The agent a create call builds carries its type's name, description and agent id, and an empty history. |
| `AgentRegistry.KindOf` | backend/agent_factory.py:237 | Exactly the five agent-type keys name an agent kind, and each names the kind stored under it. |
| `AgentRegistry.WithAgent` | backend/agent_factory.py:33-54 | After a create call the type's key is present. An absent key gets a fresh agent, a present key leaves the table exactly as it was, and every entry already there is kept. |
| `AgentRegistry.WithAgentIdempotent` | backend/agent_factory.py:26-178 | A second create call for the same type changes nothing. |
| `AgentRegistry.WithAgentFrame` | backend/agent_factory.py:26-178 | A create call neither adds, removes nor changes any key other than its own. |
| `AgentRegistry.WithAgentCommutes` | backend/agent_factory.py:26-178 | The tables after creating two agents in either order compare equal as dicts: same keys, same agents. Their iteration order is not modelled. |
| `AgentRegistry.WithAgentWellFormed` | backend/agent_factory.py:26-178 | Create calls keep the invariant that every key is an agent type holding an agent built by that type's create method. |
| `AgentRegistry.WellFormedBounded` | backend/agent_factory.py:24-241 | A table under the invariant only holds keys from the five agent types, so it has at most five entries. |
| `AgentRegistry.AgentFactory.GetOrCreate` | backend/agent_factory.py:33-54 | This is the create-if-absent step shared by the five create methods. The new table is `WithAgent` of the old one, and the result is the stored agent, or a freshly built one if there was none. |
| `AgentRegistry.AgentFactory.CreateResearchAgent` | backend/agent_factory.py:26-54 | Creates the research agent if absent and returns the agent stored under "research". The invariant is kept. |
| `AgentRegistry.AgentFactory.CreateDataAgent` | backend/agent_factory.py:56-85 | The same for "data". |
| `AgentRegistry.AgentFactory.CreateExperimentAgent` | backend/agent_factory.py:87-116 | The same for "experiment". |
| `AgentRegistry.AgentFactory.CreateCriticAgent` | backend/agent_factory.py:118-147 | The same for "critic". |
| `AgentRegistry.AgentFactory.CreateVisualizationAgent` | backend/agent_factory.py:149-178 | The same for "visualization". |
| `AgentRegistry.AgentFactory.GetAgent` | backend/agent_factory.py:180-190 | Returns the stored agent exactly when the type is present and None otherwise. As a function it cannot change the table. |
| `AgentRegistry.AgentFactory.GetAllAgents` | backend/agent_factory.py:192-199 | Returns a map with the table's keys in which every entry is what `GetAgent` returns. It is a value, so changing it cannot reach the factory. |
| `AgentRegistry.AgentFactory.GetAgentStatus` | backend/agent_factory.py:201-228 | The report echoes the type. It is "not_created" with no name or description exactly when the type is absent. Otherwise it is "ready" with the agent's name, description and agent id, the factory's model id and the length of the agent's history. |
| `AgentRegistry.AgentFactory.GetAllAgentStatuses` | backend/agent_factory.py:230-241 | Has exactly the five agent-type keys, each mapped to that type's status report. |
| `AgentRegistry.ReadyTypesAreCreated` | backend/agent_factory.py:211-241 | In a valid factory, the types that `get_all_agent_statuses` reports as "ready" are exactly the created ones. |
| `AgentRegistry.Converse` | backend/test_agents.py:21-34 | A call to the test double keeps the agent's identity. It appends the prompt as a user message and the reply as an assistant message, and leaves the earlier history as it was. |
| `AgentRegistry.ConverseCountsTwo` | backend/agent_factory.py:220-228 | After one such call, the agent's status report counts two more messages and is otherwise unchanged. |
| `Decimal.Digits` | backend/main.py:74 | `str(n)` is a non-empty string of decimal digits with no leading zero: its first digit is '0' only when it is the numeral "0". |
| `Decimal.DigitsRoundTrip` | backend/main.py:74 | Reading a rendered number back gives the number. |
| `Decimal.DigitsLength` | backend/main.py:74 | A number below 10^k renders with at most k digits, so a hash bucket has at most four digits. |
| `Endpoints.Echo` | backend/main.py:100 | The reply is "Received: " followed by exactly the inbound text. |
| `Endpoints.EchoRoundTrip` | backend/main.py:98-100 | The echo prefix can be stripped to recover the inbound text. A string is the reply to `d` if and only if stripping it gives `d`. |
| `Endpoints.Echoes` | backend/main.py:97-100 | The replies to a run of frames are one echo per frame, in the same order. |
| `Endpoints.Bucket` | backend/main.py:74 | `h % 10000` lies in [0, 9999] and differs from `h` by a multiple of 10000, also for negative `h`. |
| `Endpoints.WorkflowId` | backend/main.py:74 | The id is "workflow_", the user id and "_", followed by `str(h % 10000)`: one to four decimal digits with no leading zero, which read back as the bucket. |
| `Endpoints.WorkflowIdRoundTrip` | backend/main.py:74 | A workflow id reads back as the user id and hash bucket it was built from, even when the user id contains underscores. |
| `Endpoints.WorkflowIdCollision` | backend/main.py:74 | Two submissions get the same workflow id if and only if they have the same user id and hash bucket. |
| `Endpoints.Preview` | backend/main.py:79 | `s[:n]` is a prefix of `s` of length min(n, len(s)). |
| `Endpoints.SubmitResearchQuery` | backend/main.py:69-80 | The status is always "initiated", and the workflow id is built from the user id and the query hash. The message is the fixed preamble, a prefix of the query of length min(50, len(query)), then "...". |
| `Endpoints.SubmitMessageQuotesPreview` | backend/main.py:79 | The quoted part of the message is the query's first fifty characters, or the whole query when it is no longer than fifty. |
| `Endpoints.SubmitMessageDependsOnPreview` | backend/main.py:76-80 | Two queries get the same message if and only if their fifty-character previews agree. |
| `Endpoints.GetWorkflowStatus` | backend/main.py:82-91 | The report echoes the requested workflow id and always says "running" with current agent "research", which is one of the registry's agent types. Its message is always "Research agent is discovering data sources...". |
| `Endpoints.WorkflowStatusIgnoresWorkflow` | backend/main.py:85-91 | Apart from the echoed id, the report is the same for every workflow. |
| `Connections.WebSocket.SendText` | backend/main.py:41 | Sending a text frame appends it to that socket's outbox. |
| `Connections.ConnectionManager.constructor` | backend/main.py:28-29 | A new manager has no active connections. |
| `Connections.ConnectionManager.Connect` | backend/main.py:31-33 | The client id maps to the new socket, overwriting an earlier one. Every other entry is unchanged. |
| `Connections.ConnectionManager.Disconnect` | backend/main.py:35-37 | The client id is absent afterwards and every other entry is unchanged. For an id that was not registered, nothing changes, so a second call is a no-op. |
| `Connections.ConnectionManager.SendPersonalMessage` | backend/main.py:39-41 | The message is appended to the outbox of the socket registered for the id, and of no other socket. An unknown id sends nothing and raises nothing. The table is unchanged. |
| `Connections.WebSocketEndpoint` | backend/main.py:93-102 | Run alone, the handler sends the socket exactly the echo of every inbound frame, in order. When the client disconnects, its id is removed and every other entry is as it was before the connection. |
| `Connections.ReconnectUnderSameId` | backend/main.py:31-41 | With two handlers under one client id, the older handler's echo goes to the newer socket. The older handler's disconnect then unregisters the newer connection, whose later echoes are dropped without an error. |

## Left out

- Building the real agents is left out: the Strands `Agent`, the `BedrockModel` client, the system prompts and the callback handler are a foreign library. An agent here is a record of its name, description, agent id and history.
- Python agents are mutable objects shared between the factory and its callers. Here they are values, so talking to an agent after `get_agent` does not update the stored one. `ConverseCountsTwo` states the effect for a table that already holds the updated agent.
- `AgentRegistry.AgentFactory.GetAgentStatus`: `if not agent` tests the agent's truthiness. The model assumes every stored agent is truthy, so a stored agent is always reported as "ready".
- FastAPI setup, CORS middleware, routing, the `/`, `/health` and `/api/info` handlers (constant dictionaries) and uvicorn startup are framework plumbing.
- The WebSocket handshake (`accept`), `receive_text` and the transport are left out. The frames a client sends before disconnecting are a parameter of `WebSocketEndpoint`, and sending only appends to a ghost outbox.
- `Connections.WebSocketEndpoint` covers only the path that ends in `WebSocketDisconnect`. Other exceptions from the socket, which skip `disconnect`, are not modelled.
- `Connections.WebSocketEndpoint`: its promise holds only when no other handler uses the same client id during the run. Handlers run concurrently on the server, and the model does not interleave them inside this method. Sends and deletes go by client id, not by socket. So with a reconnect under a stable id, the older handler's echoes reach the newer socket, and the older handler's disconnect silently drops every later echo of the newer connection. `Connections.ReconnectUnderSameId` proves this sequence.
- Python dicts keep insertion order, so `_agents`, `get_all_agents` and `get_all_agent_statuses` list entries in creation order or in the order of the five types. The model uses unordered maps, so it says nothing about that order.
- Python's `hash` is salted per process and has no definition here. Its value is an arbitrary integer parameter.
- The `progress_percentage` floats of the status report are not modelled.
- `backend/models.py` (Pydantic models and enums) is not part of this model. Request validation happens inside the library, and only `query` and `user_id` of a research query are used by the handler.
- The integration scripts (`test_websocket.py`, `test_api_integration.py`, `test_integration.py`) drive a live server and are not modelled.
- The client-side reconnecting session manager (TypeScript: heartbeat, retry budget, resubscription, update folding) is not part of this model. Its source is not among the files modelled.
