# RAG pipeline workbench: decision and bookkeeping layer

This project models, in Dafny, the logic around the external collaborators of a
role-aware retrieval-augmented chat service. The collaborators are the Qdrant vector
index, LlamaIndex's retriever and synthesizer, the Ollama language model and the
cross-encoder reranker. The model covers five pieces:

- **User table** (`UserManagement`). A map from user name to `{username, password, role}`
  with a bootstrap master account. `login` strips both inputs before looking them up.
  Register, delete and role update are role-gated. Each one checks the caller's role
  first, then whether the key exists, and only then changes the table. The pure
  transitions `Register`, `Delete` and `UpdateRole` state the contracts. The class
  `UserManager` applies them in place to its `users` field; its `Login` delegates to
  `Authenticate`, which carries the contract.
- **Chat session** (`ViewModel`). The class `ChatViewModel` keeps two parallel histories:
  the message records and the flattened `"User: …"` / `"AI: …"` lines. It also keeps the
  processing flag, the status line and the current role.
  - `SendMessage` ignores blank input.
  - Otherwise it records the user turn before asking the service.
  - It records the AI turn only when the service returns.
  - When the service raises, it returns the fixed internal-error message.
  - The object invariant `Valid()` says that the string history is always the flattened
    transcript.
- **Service answer** (`FypService`). `Answer` is the guard chain of `FYPService.answer`:
  missing index, failed or empty retrieval, optional rerank, then synthesis. Any
  exception becomes the `"General Knowledge"`/0.1 fallback. A grounded answer carries
  the distinct source file names and the first node's score.
- **Console CRAG gate** (`Backend`). `RunCrag` is `run_crag`. It gives a system error
  without an index and a fallback for empty retrieval or empty rerank. It applies the
  0.5 threshold, inclusive at 0.5. It is proved to agree with the stand-alone
  classifier `Gate`. The module also models path cleaning for console uploads and the
  non-empty guard of the query menu.
- **Transcript persistence** (`HistoryManager`). `SaveHistory` and `LoadHistory` keep the
  source's loops. They are proved against `Encoded`, `Decoded` and `Restored`. The
  round trip returns every message with its sources dropped. A second cycle changes
  nothing.

Collaborators are inputs. The retriever, reranker, synthesizer, language model,
`model_db.get_index` result and upload result are function-typed parameters or plain
values. An exception is `Attempt.Raised(message)`. The service and back-end replies
carry the sequence of collaborator calls made. This lets the contracts say that no
retrieval happens without an index. Scores and confidences are only copied and
compared in the source, so they are `real`.

The model follows the code as written, including where the service's wider design
intends something else:
- Roles are open strings compared by equality. They are not a closed enumeration.
- `"Master Admin"` is not refused chat.
- There is no query rewriting, no access filter and no logistic confidence transform.
- The service applies no score threshold. Only the console back end uses 0.5.

## Model

| member | source | states |
|---|---|---|
| `Text.Strip` | FYP_Workbench/user_manager.py:38-39 | Python `str.strip()` over exactly the `str.isspace` characters: the result has no whitespace at either end, is empty exactly when the input is all whitespace, and is the input itself when that has none at its ends |
| `Text.StripIsSlice` | FYP_Workbench/user_manager.py:38-39 | what `strip` keeps is a contiguous slice of the input with only whitespace cut off before and after it |
| `Text.StripIdempotent` | FYP_Workbench/user_manager.py:38-39 | stripping a stripped string changes nothing |
| `Text.RemoveAll` | PythonProject/Backend.py:104 | `replace('"', '')`: no occurrence of the character remains, every other character keeps its count (the multiset of the result is the input's with that character's count set to zero), and a string without it is unchanged |
| `Text.RemoveAllAppend` | PythonProject/Backend.py:104 | removing the character from a concatenation is removing it from each part, so with the single-character cases above the kept characters stay in their order |
| `UserManagement.DefaultTable` | FYP_Workbench/user_manager.py:24-28 | the bootstrap table has exactly the key `"master"`, whose record has role `"Master Admin"`, and it satisfies the key/username invariant |
| `UserManagement.Authenticate` | FYP_Workbench/user_manager.py:36-44 | login succeeds exactly when the stripped name is a key whose stored password equals the stripped password, and then returns that stored record (whose name is the stripped name in a consistent table) |
| `UserManagement.Register` | FYP_Workbench/user_manager.py:46-60 | permission error exactly when the creator is neither Admin nor Master Admin (checked before the duplicate check); duplicate error exactly when permitted and the name exists; any error leaves the table unchanged; a success adds exactly the new key with `{new_username, new_password, new_role}` and keeps every other entry; the key/username invariant is preserved |
| `UserManagement.Delete` | FYP_Workbench/user_manager.py:62-72 | permission error exactly when the creator is not Master Admin; not-found error exactly when permitted and the target is missing; errors change nothing; a success removes only the target key; the invariant is preserved |
| `UserManagement.UpdateRole` | FYP_Workbench/user_manager.py:74-84 | same error ordering as delete; a success keeps the key set, sets the target's role, keeps its username and password, and leaves every other user untouched; the invariant is preserved |
| `UserManagement.DefaultLoginIgnoresSurroundingSpaces` | FYP_Workbench/user_manager.py:37-43 | `"master "` / `" 123"` logs in to the bootstrap account |
| `UserManagement.RegisteredUserCanLogin` | FYP_Workbench/user_manager.py:41-58 | after a successful registration, when the registered name and password carry no surrounding whitespace, typing them with any surrounding whitespace logs in as the new record |
| `UserManagement.UntrimmedRegistrationCannotLogin` | FYP_Workbench/user_manager.py:36-58 | register stores name and password as given while login strips its inputs, so when either was registered with surrounding whitespace no typed input ever logs in as that record |
| `UserManagement.DeletedUserCannotLogin` | FYP_Workbench/user_manager.py:41-70 | after a successful deletion no password logs in under the deleted name |
| `UserManagement.UpdateRoleKeepsCredentials` | FYP_Workbench/user_manager.py:41-82 | a role update, successful or not, never changes whether a name/password pair logs in |
| `UserManagement.UserManager.constructor` | FYP_Workbench/user_manager.py:20-30 | with no store the table is the bootstrap table; otherwise it is the stored table |
| `UserManagement.UserManager.Login` | FYP_Workbench/user_manager.py:36-44 | login on the current table is `Authenticate` on the `users` field |
| `UserManagement.UserManager.RegisterUser` | FYP_Workbench/user_manager.py:46-60 | the in-place update of `users` and the reply are exactly those of `Register` on the old table |
| `UserManagement.UserManager.DeleteUser` | FYP_Workbench/user_manager.py:62-72 | the in-place update and reply are exactly those of `Delete` on the old table |
| `UserManagement.UserManager.UpdateUserRole` | FYP_Workbench/user_manager.py:74-84 | the in-place field update and reply are exactly those of `UpdateRole` on the old table |
| `ViewModel.FlattenAt` | FYP_Workbench/view_model.py:44-64 | line `i` of the flattened history is `"User: "`/`"AI: "` followed by message `i`'s content |
| `ViewModel.FlattenAppend` | FYP_Workbench/view_model.py:44-64 | flattening a history with one more message appends exactly that message's line |
| `ViewModel.ChatViewModel.constructor` | FYP_Workbench/view_model.py:17-28 | both histories empty, not processing, status `"Ready"`, role `"User"` |
| `ViewModel.ChatViewModel.SetUserRole` | FYP_Workbench/view_model.py:30-33 | the role becomes exactly the given string and the status says so; histories and the processing flag are untouched |
| `ViewModel.ChatViewModel.SendMessage` | FYP_Workbench/view_model.py:37-73 | blank input returns `None` and changes nothing; otherwise the service is asked with the history already ending in `"User: " + input`; on success both histories grow by the user and AI turns, the reply carries the result's answer, sources and confidence and the status is `"Ready"`; on an exception only the user turn is recorded, the reply is the internal-error message and the status is `"Error: "` + message; processing ends false; the histories stay parallel |
| `ViewModel.ChatViewModel.UploadDocument` | FYP_Workbench/view_model.py:75-85 | processing ends false; the returned status is the service's message, or `"Upload Error: "` + message on an exception; histories and role untouched |
| `ViewModel.ChatViewModel.ClearHistory` | FYP_Workbench/view_model.py:87-90 | both histories empty, status `"Memory cleared."`, role and processing flag unchanged |
| `FypService.Distinct` | FYP_Workbench/fyp_service.py:76 | `list(set(...))`: no duplicates, and exactly the values of the input |
| `FypService.FallbackReply` | FYP_Workbench/fyp_service.py:89-93 | `_fallback`: sources `["General Knowledge"]`, confidence 0.1, the answer is the language model's completion of the raw question, the route carries the logged reason, and the calls so far are followed by exactly one `Complete` |
| `FypService.Answer` | FYP_Workbench/fyp_service.py:48-93 | no index: fallback with no retrieval; every fallback has sources `["General Knowledge"]`, confidence 0.1 and the model's completion of the raw question; an empty retrieval gives the "No relevant docs found." fallback, and an exception raised by retrieve, rerank or synthesize gives a fallback carrying its message; grounded exactly when an index exists, retrieval returned nodes, and rerank (if loaded) and synthesis returned; a grounded answer carries the synthesized text, duplicate-free sources that are exactly the nodes' file names, and the first node's score or 0.0 for no nodes |
| `FypService.NoRerankerUsesRetrievedNodes` | FYP_Workbench/fyp_service.py:65-77 | without a reranker any non-empty retrieval that synthesizes is grounded, with the first retrieved node's score as confidence |
| `FypService.AnswerIgnoresRole` | FYP_Workbench/fyp_service.py:48-93 | the user role has no influence on the reply |
| `Backend.Gate` | PythonProject/Backend.py:58-92 | system error exactly without an index; empty-database exactly when retrieval is empty; grounded exactly when an index exists, retrieval and rerank are non-empty and the best score is at least 0.5 |
| `Backend.GateMonotoneInScore` | PythonProject/Backend.py:82 | raising the best score never turns a grounded decision into a fallback |
| `Backend.FallbackToGeneralKnowledge` | PythonProject/Backend.py:95-98 | the answer is the language model's completion of the query |
| `Backend.RunCrag` | PythonProject/Backend.py:58-98 | without an index the answer is the fixed system-error text and no collaborator is called; the decision is `Gate` of index presence, retrieval emptiness, rerank emptiness and best score; a fallback answer is the model's completion of the unmodified query; a grounded answer is the synthesis over the reranked nodes |
| `Backend.ThresholdIsInclusive` | PythonProject/Backend.py:82-92 | a best score of exactly 0.5 takes the grounded path |
| `Backend.CleanPath` | PythonProject/Backend.py:104 | the cleaned path holds no `"`, holds every other character of the stripped input, equals the stripped input when that had no quote, keeps the count of every other character (the multiset of quote-free characters is the stripped input's), and is empty for all-whitespace input |
| `Backend.Console.constructor` | PythonProject/Backend.py:39-43 | the console starts with the index state that `get_index` gave |
| `Backend.Console.UploadDocumentConsole` | PythonProject/Backend.py:102-110 | an empty cleaned path uploads nothing and leaves the index unchanged; otherwise the cleaned path is uploaded and the index becomes the reloaded one |
| `Backend.Console.QuerySession` | PythonProject/Backend.py:123-129 | `run_crag` runs exactly when the typed line is not all whitespace, and on the stripped line |
| `HistoryManager.Decoded` | FYP_Workbench/history_manager.py:48-66 | all or nothing: one message per record when every record has role and content, `[]` otherwise |
| `HistoryManager.Restored` | FYP_Workbench/history_manager.py:40-66 | a missing or unreadable file loads as `[]`, a parsed one as its decoded records |
| `HistoryManager.SaveHistory` | FYP_Workbench/history_manager.py:16-37 | the loop writes exactly the encoded records to the user's entry and changes no other entry |
| `HistoryManager.LoadHistory` | FYP_Workbench/history_manager.py:40-66 | the loop returns exactly what `Restored` describes, `[]` on the first undecodable record |
| `HistoryManager.SaveLoadRoundTrip` | FYP_Workbench/history_manager.py:22-63 | loading what was just saved gives the same messages in order with empty sources |
| `HistoryManager.SaveLoadIdempotent` | FYP_Workbench/history_manager.py:22-63 | a second save/load cycle returns the first cycle's result |
| `HistoryManager.LoadReadsOnlyOwnEntry` | FYP_Workbench/history_manager.py:43 | loading depends on the user's own entry only |

## Left out

- Persistence. The JSON files for users (`_save_users_to_file`, `json.load`) and
  histories (`os.path`, `open`, `json.dump`) are in-memory maps. The on-disk format is
  not modelled. A user store whose records do not match their keys is accepted, as in
  the source. `Consistent` is then only preserved, not established.
- The foreign collaborators are parameters: Qdrant, LlamaIndex's retriever, reranker and
  tree-summarize synthesizer, Ollama, and FastEmbed. Their own behaviour is not assumed.
  For example, the model does not assume that the reranker returns at most `top_n` nodes.
- Failures of the language model itself are not modelled. `llm.complete` is total. In
  the source, an exception from it (or a missing `self.llm` after a failed Ollama set-up)
  escapes `_fallback`.
- In `Backend`, the collaborators never raise. In the source, an exception there ends
  the console program.
- `FypService.Answer`: Python's `list(set(...))` has hash-set order. The model lists the
  names in first-occurrence order, and its contract claims only membership and no
  duplicates.
- `FypService.Answer`: a node score of `None` would make `float(...)` raise inside the
  `try`, which leads to the fallback. The model's node scores are always numbers.
- `ChatViewModel` passes `history=` to a service `answer` that takes no such parameter.
  At run time every call therefore raises and takes the error path. The model takes the
  service's outcome as a parameter instead of wiring the two classes together.
- The service's `upload_document` and `model_db.upload_file` are given as an abstract
  outcome: `(success, message)` or an exception.
- `HistoryManager.SaveHistory`: the store is keyed by the exact user name string. The
  source writes `f"{username}.json"`, so two names can share a file on a
  case-insensitive file system or when a name holds a path separator (`./bob`); the
  "no other entry changes" promise does not cover that.
- The `print` diagnostics are left out. The `Decision` and `Route` tags of the replies
  stand for what they report.
- The interactive `input()` loops and the Streamlit pages (`app.py`) are I/O. Only the
  non-empty guard of the query menu is modelled.
- `my_brain.py` is a stub returning a constant.
- `test_auth.py` calls `ChatViewModel.login`, `register_user` and
  `upload_document(..., is_global=...)`, and `test_runner.py` passes `history=` to
  `FYPService.answer`; none of these exist, so those scripts are not modelled.
- `history_manager.py` imports `ChatMessage` from `data_types`, but `data_types.py`
  defines only `CRAGResult`. `HistoryManager.Message`
  has `role`, `content`, `confidence` and `debug_sources`. An absent `debug_sources` is
  modelled as an empty sequence.
