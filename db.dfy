/**
 * The in-memory todo store and its command engine (src/db.rs).
 *
 * `TodoDb` owns the collection, a map from identity to item, and changes it
 * in place. The engine takes commands one at a time in arrival order and
 * answers each with exactly one reply. Its meaning is given by the pure
 * functions `Step` and `Run` below. The class methods and `DbTask` are
 * proved to implement them.
 */
module Db {
  import opened Wrappers
  import opened TodoModel

  /** The collection: identity to item. */
  type Pool = map<string, Todo>

  /** The four commands the engine accepts (the reply slot is the returned `Reply`). */
  datatype Cmd =
    | Create(payload: CreateTodo)
    | Read
    | Update(id: string, patch: UpdateTodo)
    | Delete(id: string)

  /** The typed outcome sent back on a reply slot. */
  datatype ResponseMessage<B> = Ok(body: B) | NoContents | NotFound

  /** A reply as sent: one todo for Create/Update/Delete, a list for Read. */
  datatype Reply =
    | TodoReply(todoMsg: ResponseMessage<Todo>)
    | ListReply(listMsg: ResponseMessage<seq<Todo>>)

  /**
   * A reply with the order of a listed snapshot forgotten. The list is
   * collected from a hash map, so its order is unspecified and only its
   * multiset of items is meaningful.
   */
  datatype View =
    | TodoView(todoMsg: ResponseMessage<Todo>)
    | ListView(listMsg: ResponseMessage<multiset<Todo>>)

  function ViewOf(reply: Reply): View {
    match reply
    case TodoReply(msg) => TodoView(msg)
    case ListReply(Ok(todos)) => ListView(Ok(multiset(todos)))
    case ListReply(NoContents) => ListView(NoContents)
    case ListReply(NotFound) => ListView(NotFound)
  }

  function Views(replies: seq<Reply>): seq<View> {
    seq(|replies|, i requires 0 <= i < |replies| => ViewOf(replies[i]))
  }

  /** Every item is stored under its own identity, so identities are unique in the collection. */
  ghost predicate WellKeyed(pool: Pool) {
    forall k :: k in pool ==> pool[k].id == k
  }

  /**
   * The effect of `update_todo` on a stored item: the text is replaced when
   * the patch has one, then the flag when the patch has one.
   */
  function Patched(t: Todo, patch: UpdateTodo): (r: Todo)
    ensures r.id == t.id
    ensures patch.HaveText() ==> r.todoText == patch.todoText.value
    ensures !patch.HaveText() ==> r.todoText == t.todoText
    ensures patch.HaveCompleted() ==> r.completed == patch.completed.value
    ensures !patch.HaveCompleted() ==> r.completed == t.completed
  {
    var withText := if patch.HaveText() then t.ModifyText(patch.todoText.value) else t;
    if patch.HaveCompleted() then withText.ModifyCompleted(patch.completed.value) else withText
  }

  /** The state after one command, and its reply. */
  datatype After = After(pool: Pool, view: View)

  /** The collection and the replies after a sequence of commands. */
  datatype Trace = Trace(pool: Pool, views: seq<View>)

  /** The keys a command may change; `freshId` stands for the identity a Create draws. */
  function Touched(cmd: Cmd, freshId: string): set<string> {
    match cmd
    case Create(_) => {freshId}
    case Read => {}
    case Update(id, _) => {id}
    case Delete(id) => {id}
  }

  /** The kind of reply each command gets. */
  ghost predicate Answers(cmd: Cmd, view: View) {
    match cmd
    case Create(_) => view.TodoView? && view.todoMsg.Ok?
    case Read => view.ListView? && view.listMsg.Ok?
    case Update(_, _) => view.TodoView? && (view.todoMsg.Ok? || view.todoMsg.NotFound?)
    case Delete(_) => view == TodoView(NoContents)
  }

  /**
   * One turn of the engine loop: the command is applied to the collection
   * and answered. `freshId` is the identity a Create gives its new item.
   * A Read lists the set of stored items as a multiset; this is the exact
   * listing (each key's item once) only for well-keyed collections, where
   * no two keys hold the same item, and every state the engine reaches is one.
   */
  function Step(pool: Pool, cmd: Cmd, freshId: string): (r: After)
    ensures WellKeyed(pool) ==> WellKeyed(r.pool)
    ensures cmd.Read? ==> r.pool == pool
    ensures Answers(cmd, r.view)
    ensures cmd.Update? ==> (r.view == TodoView(NotFound) <==> cmd.id !in pool)
  {
    match cmd
    case Create(payload) =>
      var todo := NewTodo(freshId, payload);
      After(pool[freshId := todo], TodoView(Ok(todo)))
    case Read =>
      After(pool, ListView(Ok(multiset(pool.Values))))
    case Update(id, patch) =>
      if id in pool then
        var todo := Patched(pool[id], patch);
        After(pool[id := todo], TodoView(Ok(todo)))
      else
        After(pool, TodoView(NotFound))
    case Delete(id) =>
      After(pool - {id}, TodoView(NoContents))
  }

  /** A command changes no key but the one it names (for a Create, the identity it draws). */
  lemma StepLeavesOtherKeys(pool: Pool, cmd: Cmd, freshId: string, k: string)
    requires k !in Touched(cmd, freshId)
    ensures var r := Step(pool, cmd, freshId);
            && (k in r.pool <==> k in pool)
            && (k in pool ==> r.pool[k] == pool[k])
  {
  }

  /**
   * The engine loop as a fold: the commands are applied in order, each
   * producing one reply. `ids[i]` is the identity drawn if `cmds[i]` is a
   * Create.
   */
  function Run(pool: Pool, cmds: seq<Cmd>, ids: seq<string>): (r: Trace)
    requires |ids| == |cmds|
    ensures |r.views| == |cmds|
    ensures WellKeyed(pool) ==> WellKeyed(r.pool)
    ensures forall i :: 0 <= i < |cmds| ==> Answers(cmds[i], r.views[i])
    decreases |cmds|
  {
    if cmds == [] then Trace(pool, [])
    else
      var first := Step(pool, cmds[0], ids[0]);
      var rest := Run(first.pool, cmds[1..], ids[1..]);
      Trace(rest.pool, [first.view] + rest.views)
  }

  // ---------------------------------------------------------------------
  // Properties of the specification
  // ---------------------------------------------------------------------

  /** Running two batches one after the other is running their concatenation: commands apply in arrival order. */
  lemma {:induction false} RunAppend(pool: Pool, cmds1: seq<Cmd>, ids1: seq<string>, cmds2: seq<Cmd>, ids2: seq<string>)
    requires |ids1| == |cmds1| && |ids2| == |cmds2|
    decreases |cmds1|
    ensures var mid := Run(pool, cmds1, ids1);
            var last := Run(mid.pool, cmds2, ids2);
            Run(pool, cmds1 + cmds2, ids1 + ids2) == Trace(last.pool, mid.views + last.views)
  {
    if cmds1 == [] {
      assert cmds1 + cmds2 == cmds2;
      assert ids1 + ids2 == ids2;
    } else {
      var first := Step(pool, cmds1[0], ids1[0]);
      var cmds, ids := cmds1 + cmds2, ids1 + ids2;
      assert cmds[0] == cmds1[0] && ids[0] == ids1[0];
      assert cmds[1..] == cmds1[1..] + cmds2;
      assert ids[1..] == ids1[1..] + ids2;
      RunAppend(first.pool, cmds1[1..], ids1[1..], cmds2, ids2);
      var tail := Run(first.pool, cmds1[1..], ids1[1..]);
      var last := Run(tail.pool, cmds2, ids2);
      assert ([first.view] + tail.views) + last.views == [first.view] + (tail.views + last.views);
    }
  }

  /** The i-th reply is the reply of the i-th command applied to the state left by the commands before it. */
  lemma RunAt(pool: Pool, cmds: seq<Cmd>, ids: seq<string>, i: nat)
    requires |ids| == |cmds| && i < |cmds|
    ensures Run(pool, cmds, ids).views[i]
         == Step(Run(pool, cmds[..i], ids[..i]).pool, cmds[i], ids[i]).view
  {
    var before := Run(pool, cmds[..i], ids[..i]);
    assert cmds == cmds[..i] + cmds[i..];
    assert ids == ids[..i] + ids[i..];
    RunAppend(pool, cmds[..i], ids[..i], cmds[i..], ids[i..]);
  }

  /** The state after the first i+1 commands is one more step from the state after the first i. */
  lemma RunSnoc(pool: Pool, cmds: seq<Cmd>, ids: seq<string>, i: nat)
    requires |ids| == |cmds| && i < |cmds|
    ensures var before := Run(pool, cmds[..i], ids[..i]);
            var next := Step(before.pool, cmds[i], ids[i]);
            Run(pool, cmds[..i + 1], ids[..i + 1]) == Trace(next.pool, before.views + [next.view])
  {
    assert cmds[..i + 1] == cmds[..i] + [cmds[i]];
    assert ids[..i + 1] == ids[..i] + [ids[i]];
    RunAppend(pool, cmds[..i], ids[..i], [cmds[i]], [ids[i]]);
  }

  /** The identity `k` is drawn by some Create of the run. */
  ghost predicate DrawnByCreate(cmds: seq<Cmd>, ids: seq<string>, k: string) {
    exists i :: 0 <= i < |cmds| && i < |ids| && cmds[i].Create? && ids[i] == k
  }

  /** Only a Create adds a key, and it adds the identity drawn for it. */
  lemma {:induction false} RunKeys(pool: Pool, cmds: seq<Cmd>, ids: seq<string>)
    requires |ids| == |cmds|
    ensures forall k :: k in Run(pool, cmds, ids).pool ==> k in pool || DrawnByCreate(cmds, ids, k)
    decreases |cmds|
  {
    if cmds != [] {
      var first := Step(pool, cmds[0], ids[0]);
      RunKeys(first.pool, cmds[1..], ids[1..]);
      forall k | k in Run(pool, cmds, ids).pool ensures k in pool || DrawnByCreate(cmds, ids, k) {
        if DrawnByCreate(cmds[1..], ids[1..], k) {
          var i :| 0 <= i < |cmds[1..]| && i < |ids[1..]| && cmds[1..][i].Create? && ids[1..][i] == k;
          assert cmds[i + 1].Create? && ids[i + 1] == k;
        } else if k !in pool {
          assert k in first.pool;
          assert cmds[0].Create? && ids[0] == k;
        }
      }
    }
  }

  /** Identities drawn by the Creates of a run: pairwise distinct and not already stored. */
  ghost predicate FreshIds(pool: Pool, cmds: seq<Cmd>, ids: seq<string>) {
    && |ids| == |cmds|
    && (forall i, j :: 0 <= i < j < |cmds| && cmds[i].Create? && cmds[j].Create? ==> ids[i] != ids[j])
    && (forall i :: 0 <= i < |cmds| && cmds[i].Create? ==> ids[i] !in pool)
  }

  /** With fresh identities a Create never overwrites: the collection grows by exactly one. */
  lemma CreateNeverOverwrites(pool: Pool, cmds: seq<Cmd>, ids: seq<string>, i: nat)
    requires FreshIds(pool, cmds, ids)
    requires i < |cmds| && cmds[i].Create?
    ensures var before := Run(pool, cmds[..i], ids[..i]).pool;
            && ids[i] !in before
            && |Step(before, cmds[i], ids[i]).pool| == |before| + 1
  {
    RunKeys(pool, cmds[..i], ids[..i]);
    assert !DrawnByCreate(cmds[..i], ids[..i], ids[i]) by {
      forall j | 0 <= j < i && cmds[..i][j].Create? ensures ids[..i][j] != ids[i] {
        assert cmds[j].Create? && ids[..i][j] == ids[j];
      }
    }
  }

  /** With fresh identities, the items returned by any two Creates of a run have distinct identities. */
  lemma CreatedIdsDistinct(pool: Pool, cmds: seq<Cmd>, ids: seq<string>, i: nat, j: nat)
    requires FreshIds(pool, cmds, ids)
    requires i < j < |cmds| && cmds[i].Create? && cmds[j].Create?
    ensures var views := Run(pool, cmds, ids).views;
            views[i].todoMsg.body.id != views[j].todoMsg.body.id
  {
    RunAt(pool, cmds, ids, i);
    RunAt(pool, cmds, ids, j);
  }

  /** Under the key invariant no two keys hold the same item, so a snapshot lists as many items as there are keys. */
  lemma ValuesAddFresh(pool: Pool, k: string, t: Todo)
    requires WellKeyed(pool) && k !in pool && t.id == k
    ensures t !in pool.Values
    ensures pool[k := t].Values == pool.Values + {t}
  {
    forall j | j in pool ensures pool[j] != t {
      assert pool[j].id == j;
    }
    var m := pool[k := t];
    forall v | v in m.Values ensures v in pool.Values + {t} {
      var j :| j in m && m[j] == v;
      if j != k {
        assert pool[j] == v;
      }
    }
    forall v | v in pool.Values + {t} ensures v in m.Values {
      if v == t {
        assert m[k] == t;
      } else {
        var j :| j in pool && pool[j] == v;
        assert m[j] == v;
      }
    }
  }

  /**
   * A snapshot of `pool` under construction: the keys still to visit are
   * `rest`, the part already visited is `done`, and `todos` lists the items
   * of `done`, each once.
   */
  ghost predicate Snapshotting(pool: Pool, rest: set<string>, done: Pool, todos: seq<Todo>) {
    && rest !! done.Keys && rest + done.Keys == pool.Keys
    && (forall j :: j in done ==> j in pool && done[j] == pool[j])
    && multiset(todos) == multiset(done.Values) && |todos| == |done|
  }

  /** Part of a well-keyed collection is well keyed. */
  lemma SubmapWellKeyed(pool: Pool, done: Pool)
    requires WellKeyed(pool)
    requires forall j :: j in done ==> j in pool && done[j] == pool[j]
    ensures WellKeyed(done)
  {
    forall j | j in done ensures done[j].id == j {
      assert done[j] == pool[j];
    }
  }

  /** Adding an item under a fresh identity adds exactly that item to the listing. */
  lemma ItemsGrow(done: Pool, k: string, t: Todo, todos: seq<Todo>)
    requires WellKeyed(done) && k !in done && t.id == k
    requires multiset(todos) == multiset(done.Values) && |todos| == |done|
    ensures multiset(todos + [t]) == multiset(done[k := t].Values)
    ensures |todos + [t]| == |done[k := t]|
  {
    ValuesAddFresh(done, k, t);
    assert multiset(done.Values + {t}) == multiset(done.Values) + multiset{t};
    assert multiset(todos + [t]) == multiset(todos) + multiset{t};
  }

  /** Moving key `k` from the keys still to visit to the visited part keeps it a part of `pool`. */
  lemma VisitKey(pool: Pool, rest: set<string>, done: Pool, k: string)
    requires rest !! done.Keys && rest + done.Keys == pool.Keys && k in rest
    requires forall j :: j in done ==> j in pool && done[j] == pool[j]
    ensures (rest - {k}) !! done[k := pool[k]].Keys
    ensures (rest - {k}) + done[k := pool[k]].Keys == pool.Keys
    ensures forall j :: j in done[k := pool[k]] ==> j in pool && done[k := pool[k]][j] == pool[j]
  {
  }

  /** Visiting one more key keeps a snapshot under construction consistent. */
  lemma SnapshotGrows(pool: Pool, rest: set<string>, done: Pool, todos: seq<Todo>, k: string)
    requires WellKeyed(pool) && Snapshotting(pool, rest, done, todos) && k in rest
    ensures Snapshotting(pool, rest - {k}, done[k := pool[k]], todos + [pool[k]])
  {
    SubmapWellKeyed(pool, done);
    ItemsGrow(done, k, pool[k], todos);
    VisitKey(pool, rest, done, k);
  }

  /** A finished snapshot lists the whole collection. */
  lemma SnapshotDone(pool: Pool, done: Pool, todos: seq<Todo>)
    requires Snapshotting(pool, {}, done, todos)
    ensures multiset(todos) == multiset(pool.Values) && |todos| == |pool|
  {
    assert done == pool;
  }

  lemma {:induction false} ValuesCount(pool: Pool)
    requires WellKeyed(pool)
    ensures |multiset(pool.Values)| == |pool|
    decreases |pool|
  {
    if pool != map[] {
      var k :| k in pool;
      var rest := pool - {k};
      assert rest.Keys == pool.Keys - {k};
      ValuesCount(rest);
      ValuesAddFresh(rest, k, pool[k]);
      assert rest[k := pool[k]] == pool;
    }
  }

  /** Patching twice with the same patch is patching once. */
  lemma PatchedIdempotent(t: Todo, patch: UpdateTodo)
    ensures Patched(Patched(t, patch), patch) == Patched(t, patch)
  {
  }

  /** An update with no fields on an existing identity succeeds and returns the item unchanged. */
  lemma EmptyPatchIsNoOp(pool: Pool, id: string, targetId: string, freshId: string)
    requires id in pool
    ensures Step(pool, Update(id, NewUpdateTodo(targetId)), freshId) == After(pool, TodoView(Ok(pool[id])))
  {
    assert pool[id := pool[id]] == pool;
  }

  /** Update or delete of an identity that is not stored leaves the collection as it is. */
  lemma MissingTargetLeavesPool(pool: Pool, id: string, patch: UpdateTodo, freshId: string)
    requires id !in pool
    ensures Step(pool, Update(id, patch), freshId) == After(pool, TodoView(NotFound))
    ensures Step(pool, Delete(id), freshId) == After(pool, TodoView(NoContents))
  {
    assert pool - {id} == pool;
  }

  /** Deleting twice: both replies are NoContents and the identity is gone. */
  lemma DeleteTwice(pool: Pool, id: string, x: string, y: string)
    ensures var r := Run(pool, [Delete(id), Delete(id)], [x, y]);
            && r.views == [TodoView(NoContents), TodoView(NoContents)]
            && r.pool == pool - {id}
  {
    var once := pool - {id};
    assert once - {id} == once;
    assert Run(once, [Delete(id)], [y]) == Trace(once, [TodoView(NoContents)]);
  }

  /** Two creates followed by a read, from an empty store: the read lists exactly the two created items. */
  lemma ReadSeesEarlierCreates(a: CreateTodo, b: CreateTodo, id1: string, id2: string, id3: string)
    requires id1 != id2
    ensures Run(map[], [Create(a), Create(b), Read], [id1, id2, id3]).views
         == [TodoView(Ok(NewTodo(id1, a))), TodoView(Ok(NewTodo(id2, b))),
             ListView(Ok(multiset{NewTodo(id1, a), NewTodo(id2, b)}))]
  {
    var t1, t2 := NewTodo(id1, a), NewTodo(id2, b);
    var p1 := map[id1 := t1];
    var p2 := p1[id2 := t2];
    ValuesAddFresh(map[], id1, t1);
    ValuesAddFresh(p1, id2, t2);
    assert multiset(p2.Values) == multiset{t1, t2};
    var last := Run(p2, [Read], [id3]);
    assert last == Trace(p2, [ListView(Ok(multiset{t1, t2}))]);
    var mid := Run(p1, [Create(b), Read], [id2, id3]);
    assert mid == Trace(p2, [TodoView(Ok(t2)), ListView(Ok(multiset{t1, t2}))]);
  }

  /** One unfolding of `Run` on a command list written as head and tail. */
  lemma RunCons(pool: Pool, cmd: Cmd, cmds: seq<Cmd>, id: string, ids: seq<string>)
    requires |ids| == |cmds|
    ensures var first := Step(pool, cmd, id);
            var rest := Run(first.pool, cmds, ids);
            Run(pool, [cmd] + cmds, [id] + ids) == Trace(rest.pool, [first.view] + rest.views)
  {
    assert ([cmd] + cmds)[1..] == cmds;
    assert ([id] + ids)[1..] == ids;
  }

  /** The end of the round trip: the only item is deleted, then the list is empty. */
  lemma DeleteLastThenRead(t: Todo)
    ensures Run(map[t.id := t], [Delete(t.id), Read], [t.id, t.id])
         == Trace(map[], [TodoView(NoContents), ListView(Ok(multiset{}))])
  {
    var empty: Pool := map[];
    assert multiset(empty.Values) == multiset{};
    assert map[t.id := t] - {t.id} == empty;
    RunCons(empty, Read, [], t.id, []);
    RunCons(map[t.id := t], Delete(t.id), [Read], t.id, [t.id]);
  }

  /** Marking the only item completed, deleting it and listing. */
  lemma CompleteDeleteRead(made: Todo)
    ensures var patch := NewUpdateTodo(made.id).SetCompleted(true);
            (Run(map[made.id := made], [Update(made.id, patch), Delete(made.id), Read], [made.id, made.id, made.id])
             == Trace(map[], [TodoView(Ok(made.(completed := true))), TodoView(NoContents), ListView(Ok(multiset{}))]))
  {
    var id := made.id;
    var done := made.(completed := true);
    var patch := NewUpdateTodo(id).SetCompleted(true);
    assert Patched(made, patch) == done;
    assert map[id := made][id := done] == map[id := done];
    DeleteLastThenRead(done);
    RunCons(map[id := made], Update(id, patch), [Delete(id), Read], id, [id, id]);
  }

  /** The round trip after the Create: list, mark completed, delete, list. */
  lemma EndToEndAfterCreate(made: Todo)
    ensures var patch := NewUpdateTodo(made.id).SetCompleted(true);
            var id := made.id;
            (Run(map[id := made], [Read, Update(id, patch), Delete(id), Read], [id, id, id, id])
             == Trace(map[], [ListView(Ok(multiset{made})), TodoView(Ok(made.(completed := true))),
                              TodoView(NoContents), ListView(Ok(multiset{}))]))
  {
    var id := made.id;
    var empty: Pool := map[];
    var patch := NewUpdateTodo(id).SetCompleted(true);
    var one: Pool := map[id := made];
    ValuesAddFresh(empty, id, made);
    assert multiset(one.Values) == multiset{made};
    CompleteDeleteRead(made);
    RunCons(one, Read, [Update(id, patch), Delete(id), Read], id, [id, id, id]);
  }

  /** Create, list, mark completed, delete, list: the replies of the whole round trip. */
  lemma EndToEnd(id: string)
    ensures var made := Todo(id, "buy milk", false);
            (Run(map[],
                 [Create(CreateTodo("buy milk")), Read, Update(id, NewUpdateTodo(id).SetCompleted(true)), Delete(id), Read],
                 [id, id, id, id, id])
             == Trace(map[], [TodoView(Ok(made)), ListView(Ok(multiset{made})),
                              TodoView(Ok(made.(completed := true))), TodoView(NoContents), ListView(Ok(multiset{}))]))
  {
    var made := Todo(id, "buy milk", false);
    var patch := NewUpdateTodo(id).SetCompleted(true);
    EndToEndAfterCreate(made);
    RunCons(map[], Create(CreateTodo("buy milk")), [Read, Update(id, patch), Delete(id), Read], id, [id, id, id, id]);
  }

  // ---------------------------------------------------------------------
  // The store itself
  // ---------------------------------------------------------------------

  class TodoDb {
    var todoPool: Pool

    ghost predicate Valid()
      reads this
    {
      WellKeyed(todoPool)
    }

    /** `TodoDb::new`: an empty collection. */
    constructor ()
      ensures Valid()
      ensures todoPool == map[]
    {
      todoPool := map[];
    }

    /** `insert_todo`: the new item is stored under its own identity and returned. */
    method InsertTodo(newTodo: CreateTodo, freshId: string) returns (todo: Todo)
      requires Valid()
      modifies this
      ensures Valid()
      ensures todo == NewTodo(freshId, newTodo)
      ensures todoPool == old(todoPool)[todo.id := todo]
      ensures freshId !in old(todoPool) ==> |todoPool| == |old(todoPool)| + 1
    {
      todo := NewTodo(freshId, newTodo);
      var id := todo.id;
      todoPool := todoPool[id := todo];
    }

    /** `get_all_todo`: a snapshot of every stored item, in no particular order. */
    method GetAllTodo() returns (todos: seq<Todo>)
      requires Valid()
      ensures multiset(todos) == multiset(todoPool.Values)
      ensures |todos| == |todoPool|
    {
      todos := [];
      var rest := todoPool.Keys;
      ghost var done: Pool := map[];
      while rest != {}
        invariant Snapshotting(todoPool, rest, done, todos)
        decreases rest
      {
        var k :| k in rest;
        SnapshotGrows(todoPool, rest, done, todos, k);
        todos := todos + [todoPool[k]];
        done := done[k := todoPool[k]];
        rest := rest - {k};
      }
      SnapshotDone(todoPool, done, todos);
    }

    /**
     * `update_todo`: when `id` is stored, the patch's present fields are
     * written into that item and the new item is returned; otherwise None
     * and nothing changes.
     */
    method UpdateTodo(id: string, patch: UpdateTodo) returns (r: Option<Todo>)
      requires Valid()
      modifies this
      ensures Valid()
      ensures r.None? <==> id !in old(todoPool)
      ensures r.None? ==> todoPool == old(todoPool)
      ensures r.Some? ==> (r.value == Patched(old(todoPool)[id], patch)
                           && todoPool == old(todoPool)[id := r.value])
    {
      if id in todoPool {
        var todo := todoPool[id];
        if patch.HaveText() {
          todo := todo.ModifyText(patch.todoText.value);
        }
        if patch.HaveCompleted() {
          todo := todo.ModifyCompleted(patch.completed.value);
        }
        todoPool := todoPool[id := todo];
        r := Some(todoPool[id]);
      } else {
        r := None;
      }
    }

    /** `delete_todo`: the key is removed; its item is returned if it was there. */
    method DeleteTodo(id: string) returns (r: Option<Todo>)
      requires Valid()
      modifies this
      ensures Valid()
      ensures todoPool == old(todoPool) - {id}
      ensures r == if id in old(todoPool) then Some(old(todoPool)[id]) else None
    {
      r := if id in todoPool then Some(todoPool[id]) else None;
      todoPool := todoPool - {id};
    }

    /** One command of the engine loop, dispatched to the operation it names. */
    method Apply(cmd: Cmd, freshId: string) returns (reply: Reply)
      requires Valid()
      modifies this
      ensures Valid()
      ensures After(todoPool, ViewOf(reply)) == Step(old(todoPool), cmd, freshId)
    {
      match cmd
      case Create(payload) =>
        var todo := InsertTodo(payload, freshId);
        reply := TodoReply(Ok(todo));
      case Read =>
        var todos := GetAllTodo();
        reply := ListReply(Ok(todos));
      case Update(id, patch) =>
        var updated := UpdateTodo(id, patch);
        if updated.Some? {
          reply := TodoReply(Ok(updated.value));
        } else {
          reply := TodoReply(NotFound);
        }
      case Delete(id) =>
        var removed := DeleteTodo(id);
        if removed.Some? {
          reply := TodoReply(NoContents);
        } else {
          reply := TodoReply(NoContents);
        }
    }
  }

  /**
   * `db_task`: a fresh store consumes the commands in arrival order and
   * answers each one; `ids[i]` is the identity drawn if `cmds[i]` is a Create.
   */
  method DbTask(cmds: seq<Cmd>, ids: seq<string>) returns (replies: seq<Reply>)
    requires |ids| == |cmds|
    ensures |replies| == |cmds|
    ensures forall i :: 0 <= i < |cmds| ==> ViewOf(replies[i]) == Run(map[], cmds, ids).views[i]
  {
    var db := new TodoDb();
    replies := [];
    var i := 0;
    while i < |cmds|
      invariant 0 <= i <= |cmds|
      invariant db.Valid()
      invariant db.todoPool == Run(map[], cmds[..i], ids[..i]).pool
      invariant Views(replies) == Run(map[], cmds[..i], ids[..i]).views
    {
      var reply := db.Apply(cmds[i], ids[i]);
      RunSnoc(map[], cmds, ids, i);
      assert Views(replies + [reply]) == Views(replies) + [ViewOf(reply)];
      replies := replies + [reply];
      i := i + 1;
    }
    assert cmds[..i] == cmds;
    assert ids[..i] == ids;
    assert forall j :: 0 <= j < |replies| ==> Views(replies)[j] == ViewOf(replies[j]);
  }
}
