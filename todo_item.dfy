/** One todo entry of the todo examples: a store whose text is given when it is
    created and whose `completed` flag is flipped by its only action. */
module TodoItem {

  class TodoStore {
    var completed: bool
    var content: string

    /** A new todo carries the given text and is not yet completed. */
    constructor (content: string)
      ensures this.content == content
      ensures !completed
    {
      completed := false;
      this.content := content;
    }

    /** The `toggle` action: flips `completed` and touches nothing else. */
    method Toggle()
      modifies this
      ensures completed == !old(completed)
      ensures content == old(content)
    {
      completed := !completed;
    }
  }

  /** Toggling twice brings a todo back to the state it started in. */
  method ToggleTwice(todo: TodoStore)
    modifies todo
    ensures todo.completed == old(todo.completed)
    ensures todo.content == old(todo.content)
  {
    todo.Toggle();
    todo.Toggle();
  }
}
