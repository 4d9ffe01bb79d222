# BitGaming game master and Walrus uploader, modelled in Dafny

This project models three small cores of the BitGaming repository.

- **Session registry and run poller** (`dungeouns-and-dragons-ai-bot/gameSession.js`).
  Each wallet gets one OpenAI assistant, created the first time the wallet is seen
  with the role-playing instructions of `generate_instruction`. Each `(wallet, session)`
  gets a conversation thread, and a new start replaces it. Sessions live in a plain
  JavaScript object, so the session id `__proto__` is never recorded (its setter ignores
  a string) and reads back the prototype object rather than a thread id. A run is polled
  until its status is terminal. `completed` gives the newest message's first content
  part, which must be text.
  `failed`, `expired` and `cancelled` give a fixed apology.
  Module `GameSession`, class `SessionRegistry`.
- **Round state machine** (`dungeouns-and-dragons-ai-bot/server.js`).
  `/start` sets round 1 and marks the game started. `/continue` refuses a game that
  is not started. Otherwise it counts the round and ends the game once the round
  passes the requested number of turns. Module `GameServer`, class `Game`.
- **Walrus store normalisation and NFT record assembly** (`walrus/upload.py`).
  The CLI's two success shapes (`newlyCreated`, `alreadyCertified`) are read into one
  `(blobId, endEpoch)` pair. Any other answer raises. `process_directory` uploads
  every regular file of a directory listing. It appends `brain_info[i]`, enriched with
  the file's blob id and end epoch, to one collection list. Module `WalrusUpload`,
  class `NftCatalog`. It is built on `PyJson`, which gives JSON values Python's
  subscript, item-assignment and `in` semantics, each raising the exception Python raises.

Remote services are parameters of the model:

- Ids handed out by OpenAI are caller-supplied strings.
- The statuses the poller would observe tick by tick are a sequence.
- The message list is a sequence of content lists, newest first.
- The Walrus CLI is a function from file path to exit status and parsed output.
- The directory listing is a sequence of `(name, isFile)` entries.

Each stateful operation is a method proved against a specification function.
The registry's is `Started`/`StartAll`, the poller's `PollSpec`, the server's
`ContinueStep`/`Continues` and the directory loop's `Walk`. The source's promises are
lemmas about those functions.

## Model

| member | source | states |
|---|---|---|
| `GameSession.InterpolateEmbeds` | dungeouns-and-dragons-ai-bot/gameSession.js:9-25 | a template literal holds each interpolated value verbatim at its slot |
| `GameSession.InstructionEmbedsSettings` | dungeouns-and-dragons-ai-bot/gameSession.js:8-27 | the instruction text holds the genre and the maximum length each at one slot, and the turn count and the language each at two slots, verbatim |
| `GameSession.Settle` | dungeouns-and-dragons-ai-bot/gameSession.js:57-66 | a terminal status always stops the polling: the outcome is never `Pending`; a `completed` run whose newest message has no leading text part leaves the promise unsettled |
| `GameSession.AwaitRun` | dungeouns-and-dragons-ai-bot/gameSession.js:54-68 | the interval loop returns the outcome and the number of status retrievals that the polling specification gives |
| `GameSession.PollStopsAtFirstTerminal` | dungeouns-and-dragons-ai-bot/gameSession.js:55-67 | the first terminal status decides the outcome, after exactly one retrieval per status up to it |
| `GameSession.PollCompleted` | dungeouns-and-dragons-ai-bot/gameSession.js:57-61 | if the first terminal status is `completed`, the result is the text of the newest message's first content part, which must be text |
| `GameSession.PollGivesUp` | dungeouns-and-dragons-ai-bot/gameSession.js:63-66 | if the first terminal status is `failed`, `expired` or `cancelled`, the result is the fixed apology, whatever the thread holds |
| `GameSession.PollPendingIff` | dungeouns-and-dragons-ai-bot/gameSession.js:55-67 | polling goes on exactly while no terminal status has been seen, and then every observed status was retrieved |
| `GameSession.PollIgnoresLaterStatuses` | dungeouns-and-dragons-ai-bot/gameSession.js:58-64 | statuses after the first terminal one never change the outcome: the interval has been cleared |
| `GameSession.StartedRecordsThread` | dungeouns-and-dragons-ai-bot/gameSession.js:34-49 | after a start the wallet is registered and the assistant is the new one exactly when the wallet was unknown; the session maps to the new thread unless its id is `__proto__`, which leaves the wallet's sessions as they were |
| `GameSession.StartedKeepsOthers` | dungeouns-and-dragons-ai-bot/gameSession.js:42-49 | a start changes no other wallet's entry and no other session id of its wallet |
| `GameSession.AssistantNeverChanges` | dungeouns-and-dragons-ai-bot/gameSession.js:34-45 | over any later series of starts, whatever their settings, a registered wallet keeps its assistant id |
| `GameSession.OneAssistantPerWallet` | dungeouns-and-dragons-ai-bot/gameSession.js:34-43 | a series of starts creates assistants exactly for the wallets not yet registered, never twice for one wallet, and registers every started wallet |
| `GameSession.SessionRegistry.constructor` | dungeouns-and-dragons-ai-bot/gameSession.js:6 | the registry starts empty |
| `GameSession.SessionRegistry.StartGameSession` | dungeouns-and-dragons-ai-bot/gameSession.js:29-68 | the registry becomes `Started(...)`; the assistant request, with the generated instructions, is issued only for an unknown wallet; the run uses the new thread and the wallet's stored assistant; the poll follows the specification |
| `GameSession.SessionRegistry.SendQuery` | dungeouns-and-dragons-ai-bot/gameSession.js:76-107 | read-only lookup: it fails exactly when the wallet is unknown, the session id is unrecorded or the session id is `__proto__`, and otherwise posts to that session's thread with the wallet's assistant |
| `GameServer.ContinueIdle` | dungeouns-and-dragons-ai-bot/server.js:49-51 | a continue on a game that is not started answers the no-session message and leaves the state untouched |
| `GameServer.ContinueActive` | dungeouns-and-dragons-ai-bot/server.js:54-58 | a continue on a started game adds exactly 1 to the round; it finishes the game exactly when the new round exceeds the turns; only a non-finishing continue goes on to the completion and image calls |
| `GameServer.ContinueKeepsPlayable` | dungeouns-and-dragons-ai-bot/server.js:35-57 | a start gives a playable state (not started, or at round 1 or within its limit), every continue from any state leaves one, and the round never decreases; `Game.Valid` is this invariant of the class |
| `GameServer.RunFrom` | dungeouns-and-dragons-ai-bot/server.js:49-58 | from round r ≤ t, successive continues proceed until the round passes t; that continue finishes the game; every later one is refused with the round fixed |
| `GameServer.FinishedStaysFinished` | dungeouns-and-dragons-ai-bot/server.js:49-50 | once finished, any number of continues answer the no-session message and change nothing |
| `GameServer.GameLastsTurns` | dungeouns-and-dragons-ai-bot/server.js:35-58 | after a start with t ≥ 1 turns, the k-th continue leaves round 1 + k, and the game finishes exactly on the t-th continue |
| `GameServer.ShortGameEndsAtOnce` | dungeouns-and-dragons-ai-bot/server.js:35-58 | after a start with fewer than one turn (such as `0`), the first continue finishes the game at round 2 and every later continue is refused |
| `GameServer.NaNNeverEnds` | dungeouns-and-dragons-ai-bot/server.js:55 | with a turn count that is not a number, every continue proceeds and the game never ends |
| `GameServer.Game.constructor` | dungeouns-and-dragons-ai-bot/server.js:17 | the empty settings object: not started, turn limit NaN |
| `GameServer.Game.Start` | dungeouns-and-dragons-ai-bot/server.js:31-35 | the settings are replaced by the request's, at round 1, started, whatever came before |
| `GameServer.Game.Continue` | dungeouns-and-dragons-ai-bot/server.js:46-58 | reply and new state are those of `ContinueStep` on the old state; the other settings are unchanged |
| `WalrusUpload.StoreResult` | walrus/upload.py:15-43 | a nonzero exit status raises before any parsing; a success always comes from a zero exit status and a JSON object |
| `WalrusUpload.StoreNewlyCreated` | walrus/upload.py:33-35 | a `newlyCreated` answer succeeds exactly when both paths exist, and gives `blobObject.blobId` and `blobObject.storage.endEpoch` |
| `WalrusUpload.StoreAlreadyCertified` | walrus/upload.py:36-38 | without `newlyCreated`, an `alreadyCertified` answer succeeds exactly when both fields exist, and gives its `blobId` and `endEpoch` |
| `WalrusUpload.StoreNewlyCreatedFirst` | walrus/upload.py:33-36 | when `newlyCreated` is present, the `alreadyCertified` part does not affect the result |
| `WalrusUpload.StoreNeitherShape` | walrus/upload.py:40-41 | an object answer with neither key raises `ValueError` |
| `WalrusUpload.NewlyCreatedRoundTrip` | walrus/upload.py:33-35 | reading a `newlyCreated` answer built from a pair gives that pair back |
| `WalrusUpload.AlreadyCertifiedRoundTrip` | walrus/upload.py:36-38 | reading an `alreadyCertified` answer built from a pair gives that pair back |
| `WalrusUpload.EnrichSetsFields` | walrus/upload.py:63-67 | the record for listing index i is the object `brain_info[i]` with `image` and `endEpoch` set to the upload result; a failed upload or a missing or non-object entry raises |
| `WalrusUpload.WalkAppendsPerFile` | walrus/upload.py:58-68 | one record per regular file, in listing order, each the one built from the `brain_info` entry at that file's own listing index (non-files are skipped but advance the index); the loop stops short only by raising and keeps what it appended |
| `WalrusUpload.WalkRaisesAtFirstFailure` | walrus/upload.py:58-68 | a raising loop stops short of the regular files, at the first one it did not append, with that file's upload or enrichment error, or with `KeyError` when the collection key is missing |
| `WalrusUpload.FileIndicesComplete` | walrus/upload.py:58-61 | every regular file of the listing from the given index on is visited |
| `WalrusUpload.FileIndicesIncreasing` | walrus/upload.py:58-61 | the regular files are visited in strictly increasing listing order, so none twice |
| `WalrusUpload.UploadRecord` | walrus/upload.py:59-67 | one pass of the loop body for a regular file builds that index's record: it succeeds exactly when the upload succeeds and `brain_info[i]` is an object, the record is then that object with `image` and `endEpoch` set to the blob id and end epoch, and a failed upload raises its own error first |
| `WalrusUpload.NftCatalog.constructor` | walrus/upload.py:46-50 | three empty collection lists: bronze, silver, gold |
| `WalrusUpload.NftCatalog.ProcessDirectory` | walrus/upload.py:53-68 | a failed `brains_info` lookup raises with nothing appended; otherwise only the list under `nft_data_key` changes, by exactly the records of `Walk`, and the call raises what `Walk` raises |
| `WalrusUpload.NftCatalog.AppendRecords` | walrus/upload.py:58-68 | the loop appends in place exactly the records of `Walk` to the list under the key, changes nothing if the key is missing, and raises what `Walk` raises |

## Left out

- OpenAI calls (assistant, thread, message and run creation, run retrieval, message listing, image generation) are not modelled. Their results are parameters: fresh ids, the observed status sequence and the message list. A failure of these calls, and the `try`/`catch` that logs it and returns `undefined`, are not modelled.
- The 2000 ms `setInterval` cadence, and ticks whose asynchronous callbacks overlap, are not modelled. Polling is a sequential walk over the statuses the ticks observe, and an unbounded wait is a `Pending` outcome after the observed prefix.
- A completed run whose newest message has no leading text part makes the interval callback throw after `clearInterval`. The promise is then never resolved. This is modelled as `Unsettled`; what Node does with the resulting unhandled rejection is not modelled.
- `/start` and `/continue` call `startGameSession` with arguments that do not match its signature, and `/continue` never calls `sendQuery`. The route state machine and the registry are modelled separately, not joined through those calls. The text and image URL these routes reply with come from `startGameSession` and `generateImageResponse`, which are not joined to the state machine. Choice extraction (`extractOptionsFromAIResponse`), `LANGUAGES`, `GENRES`, `MAX_TURNS` and the unused `gameInstructions` belong to `utils`, which is not part of this model.
- Express setup, static serving, body parsing, `app.listen` and the front-end script are HTTP and DOM plumbing, not modelled.
- `GameServer.Game.Start`: `turns` is modelled as its numeric conversion, either an integer or NaN. A fractional turn count is not modelled. The other request fields are kept as strings, and an absent field (`undefined`) is not distinguished from a string.
- `GameSession.GenerateInstruction` takes each setting as the text `${...}` renders it to. JavaScript's conversion of numbers or `undefined` to text is not modelled.
- The Walrus CLI run (`subprocess.run`, the `store` command text with `epochs: 1` and the config path), the printing of its output, and `json.loads` are not modelled. The CLI is a function from file path to exit status and already-parsed output, and `None` stands for output that is not JSON. JSON numbers are integers.
- The `assert` on the exit status is modelled as raising `AssertionError`. Running Python with `-O`, which strips it, is not modelled.
- `os.listdir`, `os.path.isfile`, reading `brains_info.json`, the top-level loop over the three asset directories, and the writing and re-upload of the output files are not modelled. The listing and the parsed brains-info document are inputs.
- `GameSession.AssistantNeverChanges` and `GameSession.OneAssistantPerWallet` treat starts as one after another. In the source, the `has` check (gameSession.js:34) and the `set` (gameSession.js:42) are separated by `await assistants.create`. Two overlapping starts for one unknown wallet therefore both create an assistant. The second `set` replaces the entry and the sessions the first recorded, so the wallet's assistant id changes. Interleaved asynchronous calls are not modelled.
- Session ids other than `__proto__` that name inherited properties of a plain object (`toString`, `constructor`, …) read back a non-string value when unrecorded. The message creation then rejects, as for a missing session (`None`); which rejection it is is not modelled.
- `process_directory` reads `brains_info` under the global `nft_key` + "NFT", not its parameter. At its only call site that is the same key, so the model looks up `nft_data_key`.
