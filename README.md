# Todo store engine: a Dafny model

This project models the in-memory store behind a small todo-list HTTP service.
The store is a map from identity to todo item. A single engine owns it and
receives commands (Create, Read, Update, Delete) one at a time. It applies each
command to the map and sends exactly one typed reply (`Ok`, `NoContents` or
`NotFound`).

Files:

- `wrappers.dfy`: module `Wrappers`, the `Option` type.
- `todo.dfy`: module `TodoModel`, the record types of `src/model/todo.rs`. These
  are the todo item `Todo`, the creation intent `CreateTodo`, the
  partial-update patch `UpdateTodo` and the deletion intent `DeleteTodo`, with
  their constructors and setters.
- `db.dfy`: module `Db`, the store of `src/db.rs`:
  - the `Cmd` and `ResponseMessage` types;
  - the pure meaning of one engine turn (`Step`) and of a run of turns (`Run`);
  - the class `TodoDb` with the four store operations and the dispatcher `Apply`;
  - the engine loop `DbTask`;
  - the lemmas relating these.

How the source is rendered:

- `TodoDb` is a class whose field `todoPool: map<string, Todo>` is reassigned by
  its methods. `Valid()` is the invariant that every item is stored under its
  own identity, so identities are unique in the collection.
- Each method is proved against the specification: `Apply` against `Step`, and
  `DbTask` against `Run` started from the empty map.
- A listing is gathered from a hash map, so its order is unspecified. The
  model compares the listed items as a multiset (the `View` of a `Reply`).
  `GetAllTodo` is proved to return each stored item exactly once.
- The random identity of `Todo::new` is an input. `InsertTodo` and `Apply` take
  a `freshId`. `DbTask` and `Run` take a sequence `ids` with one entry per
  command, which is used only when that command is a Create.
- `insert_todo` is modelled like `HashMap::insert`: a colliding identity
  overwrites the old entry. `FreshIds` says that the identities drawn by the
  Creates of a run are pairwise distinct and not already stored. Under it,
  `CreateNeverOverwrites` proves that no collision happens.
- `update_todo` looks up the identity carried by the command, not the patch's
  `target_id`. The model does the same. `Patched` keeps the item's identity
  whatever the patch's `target_id` says.
- Delete replies `NoContents` whether or not the identity was stored
  (`src/db.rs:97-103`). The model keeps that. As a result, the `NotFound` arm
  that the HTTP handler has for delete can never be taken.
- As in the code, deleting a missing item succeeds with no content. The
  command queue is a plain ordered sequence with no bound.

## Model

| member | source | states |
|---|---|---|
| `TodoModel.NewTodo` | src/model/todo.rs:23-29 | a new item has the given identity, the creation text, and is not completed |
| `TodoModel.Todo.ModifyText` | src/model/todo.rs:35-37 | the text becomes the argument; identity and completion flag are unchanged |
| `TodoModel.Todo.ModifyCompleted` | src/model/todo.rs:39-41 | the flag becomes the argument; identity and text are unchanged |
| `TodoModel.NewUpdateTodo` | src/model/todo.rs:65-71 | a fresh patch targets the given identity and has neither text nor flag (both `have_*` are false) |
| `TodoModel.UpdateTodo.SetText` | src/model/todo.rs:93-98 | afterwards `have_text` holds and the text is `Some(t)`; target and flag unchanged |
| `TodoModel.UpdateTodo.SetCompleted` | src/model/todo.rs:100-105 | afterwards `have_completed` holds and the flag is `Some(b)`; target and text unchanged |
| `TodoModel.BuilderOrderIrrelevant` | src/model/todo.rs:65-105 | a patch built by `new` and both setters holds exactly both values, in either setter order |
| `Db.Patched` | src/db.rs:35-46 | a patched item keeps its identity; each field is replaced exactly when the patch has it, otherwise kept |
| `Db.PatchedIdempotent` | src/db.rs:35-46 | applying the same patch twice gives the same item as applying it once |
| `Db.Step` | src/db.rs:81-103 | one command keeps the key invariant, and Read changes nothing. Create and Read reply `Ok`, Update replies `Ok` or `NotFound`, and `NotFound` is sent exactly when the identity is absent. Delete replies `NoContents` |
| `Db.StepLeavesOtherKeys` | src/db.rs:19-56 | a command changes no key but the one it names (for a Create, the identity it draws): other entries keep their presence and their item |
| `Db.Run` | src/db.rs:80-105 | a run gives exactly one reply per command, each of the kind its command gets, and keeps the key invariant |
| `Db.RunAppend` | src/db.rs:80-105 | running two batches in order equals running their concatenation (commands are applied in arrival order) |
| `Db.RunAt` | src/db.rs:80-105 | the i-th reply is the reply of the i-th command to the state left by the commands before it |
| `Db.RunKeys` | src/db.rs:19-56 | every key after a run was stored before it or is the identity drawn by one of the run's Creates: only Create adds keys |
| `Db.CreateNeverOverwrites` | src/db.rs:19-24 | when the identities drawn by Creates are distinct and unstored, each Create finds its identity absent and grows the collection by exactly one |
| `Db.CreatedIdsDistinct` | src/db.rs:82-85 | when the identities drawn by Creates are distinct and unstored, the items returned by any two Creates of a run have distinct identities |
| `Db.ValuesCount` | src/db.rs:26-31 | under the key invariant a snapshot holds as many items as there are keys |
| `Db.EmptyPatchIsNoOp` | src/db.rs:33-48 | an update with no fields on a stored identity succeeds, returns the stored item and changes nothing |
| `Db.MissingTargetLeavesPool` | src/db.rs:90-103 | update of an absent identity replies `NotFound`, delete of one replies `NoContents`, and neither changes the collection |
| `Db.DeleteTwice` | src/db.rs:97-103 | deleting the same identity twice replies `NoContents` twice and leaves the collection without that key |
| `Db.ReadSeesEarlierCreates` | src/db.rs:80-89 | from an empty store, two Creates and a Read: the Read lists exactly the two created items |
| `Db.EndToEnd` | src/db.rs:80-103 | the full round trip. Create "buy milk" returns it not completed, Read lists it, and Update with completed=true returns it completed with the text kept. Delete replies `NoContents` and the last Read lists nothing |
| `Db.TodoDb.constructor` | src/db.rs:13-17 | a new store is empty (and satisfies the key invariant) |
| `Db.TodoDb.InsertTodo` | src/db.rs:19-24 | the new item is stored under its own identity and returned, and the rest of the map is unchanged. With a fresh identity the size grows by one |
| `Db.TodoDb.GetAllTodo` | src/db.rs:26-31 | changes nothing; returns exactly the multiset of stored items, as many as there are keys |
| `Db.TodoDb.UpdateTodo` | src/db.rs:33-52 | returns `None` exactly when the identity is absent, and then nothing changes. Otherwise it stores the patched item under that identity, leaves the other keys alone and returns the stored item |
| `Db.TodoDb.DeleteTodo` | src/db.rs:54-56 | the key is removed and the rest of the map is unchanged; returns the previous item if there was one, otherwise `None` |
| `Db.TodoDb.Apply` | src/db.rs:81-104 | dispatches one command to the store operation it names; new state and reply are those of `Step` |
| `Db.DbTask` | src/db.rs:75-107 | a fresh store takes the commands in order and sends one reply per command. Up to the order of listed snapshots, reply i is reply i of `Run` from the empty map |

## Left out

- The tokio channels, task spawning and `async`/`await` in `db_task` and the handlers are not modelled. The engine is a sequential loop over its command sequence, and a reply slot is the reply returned for that command.
- `Uuid::new_v4()` (src/model/todo.rs:25) is randomness from a foreign library. Identities are inputs (`freshId`, `ids`), and their uniqueness is a hypothesis (`FreshIds`).
- `send_message_to_handler` (src/db.rs:109-116) is not modelled: its failure path is channel I/O plus `println`. Replies are always delivered in the model.
- The bounded queue's capacity and its backpressure (blocking when full) are not modelled. The model has no bound on pending commands.
- `TodoModel.Todo.ModifyText`, `TodoModel.Todo.ModifyCompleted`, `TodoModel.UpdateTodo.SetText` and `TodoModel.UpdateTodo.SetCompleted` update through `&mut self` in the source. Here they are functions that return the updated value, because both types are owned values with no sharing. The `&UpdateTodo` that the setters return for chaining becomes the returned patch.
- The getters (`get_id`, `get_target_id`, `get_text`, `get_completed`) and `CreateTodo::new` are the datatypes' field selectors and constructor. `have_text` and `have_completed` are the predicates `HaveText` and `HaveCompleted`.
- The HTTP layer is not modelled: routing, request handlers, status mapping, response builders, body collection, UTF-8 and JSON decoding, and the TCP listener. It is transport and serialisation over libraries that are not part of this model.
