/**
 * The record types of the todo store: the item itself, the creation intent,
 * the partial-update patch and the deletion intent (src/model/todo.rs).
 *
 * All of them are owned values in the source (cloned into and out of the
 * store), so they are datatypes here, and the `&mut self` setters are
 * functions that return the updated value.
 */
module TodoModel {
  import opened Wrappers

  /** A todo item: identity, text and completion flag. */
  datatype Todo = Todo(id: string, todoText: string, completed: bool)
  {
    /** `modify_text`: the text is replaced, identity and flag are kept. */
    function ModifyText(text: string): (r: Todo)
      ensures r.todoText == text
      ensures r.id == id && r.completed == completed
    {
      this.(todoText := text)
    }

    /** `modify_completed`: the flag is replaced, identity and text are kept. */
    function ModifyCompleted(flag: bool): (r: Todo)
      ensures r.completed == flag
      ensures r.id == id && r.todoText == todoText
    {
      this.(completed := flag)
    }
  }

  /** The creation intent carries only the initial text. */
  datatype CreateTodo = CreateTodo(todoText: string)

  /**
   * `Todo::new`. The source draws the identity from a random UUID; here the
   * identity is the caller's `id`.
   */
  function NewTodo(id: string, payload: CreateTodo): (t: Todo)
    ensures t.id == id
    ensures t.todoText == payload.todoText
    ensures !t.completed
  {
    Todo(id, payload.todoText, false)
  }

  /**
   * The update patch: a target identity and two optional fields, where
   * `None` means "leave this field as it is".
   */
  datatype UpdateTodo = UpdateTodo(targetId: string, todoText: Option<string>, completed: Option<bool>)
  {
    predicate HaveText() {
      todoText.Some?
    }

    predicate HaveCompleted() {
      completed.Some?
    }

    /** `set_text`: the patch now carries `text`; nothing else changes. */
    function SetText(text: string): (r: UpdateTodo)
      ensures r.HaveText() && r.todoText == Some(text)
      ensures r.targetId == targetId && r.completed == completed
    {
      this.(todoText := Some(text))
    }

    /** `set_completed`: the patch now carries `flag`; nothing else changes. */
    function SetCompleted(flag: bool): (r: UpdateTodo)
      ensures r.HaveCompleted() && r.completed == Some(flag)
      ensures r.targetId == targetId && r.todoText == todoText
    {
      this.(completed := Some(flag))
    }
  }

  /** `UpdateTodo::new`: a patch for `targetId` that changes nothing yet. */
  function NewUpdateTodo(targetId: string): (u: UpdateTodo)
    ensures u.targetId == targetId
    ensures !u.HaveText() && !u.HaveCompleted()
  {
    UpdateTodo(targetId, None, None)
  }

  /** The deletion intent carries only the target identity. */
  datatype DeleteTodo = DeleteTodo(targetId: string)

  /** A patch built with both setters carries exactly the two values, whichever setter ran first. */
  lemma BuilderOrderIrrelevant(targetId: string, text: string, flag: bool)
    ensures NewUpdateTodo(targetId).SetText(text).SetCompleted(flag)
         == NewUpdateTodo(targetId).SetCompleted(flag).SetText(text)
         == UpdateTodo(targetId, Some(text), Some(flag))
  {
  }
}
