/** The store of the basics snippet: a list of plain `{text, done}` records that
    its action appends to. */
module BasicTodo {

  /** One record of the list. */
  datatype Todo = Todo(text: string, done: bool)

  class TodoStore {
    var todo: seq<Todo>

    /** A new store holds no records. */
    constructor ()
      ensures todo == []
    {
      todo := [];
    }

    /** The `addTodo` action: appends the record at the end, with the text and
        done flag it was given. */
    method AddTodo(item: Todo)
      modifies this
      ensures todo == old(todo) + [item]
      ensures todo[|todo| - 1].text == item.text && todo[|todo| - 1].done == item.done
    {
      todo := todo + [item];
    }
  }

  /** Two records added one after the other end up at the end of the list in
      the order they were added. */
  method AddInOrder(store: TodoStore, first: Todo, second: Todo)
    modifies store
    ensures store.todo == old(store.todo) + [first, second]
  {
    store.AddTodo(first);
    store.AddTodo(second);
  }
}
