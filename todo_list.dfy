/** The plain todo list of the todo tutorial and of the React guide: a list
    store that only ever appends references to todo stores. */
module TodoList {
  import opened TodoItem

  class TodoListStore {
    var todos: seq<TodoStore>

    /** A new list holds no todos. */
    constructor ()
      ensures todos == []
    {
      todos := [];
    }

    /** The `addTodo` action: appends the todo at the end, so the list grows by
        one and every earlier todo keeps its index. The tutorial's copy also
        reads `todo.completed` afterwards and discards it, which changes
        nothing: the todo keeps its state. */
    method AddTodo(todo: TodoStore)
      modifies this
      ensures todos == old(todos) + [todo]
      ensures |todos| == |old(todos)| + 1
      ensures forall i :: 0 <= i < |old(todos)| ==> todos[i] == old(todos)[i]
      ensures todo.completed == old(todo.completed) && todo.content == old(todo.content)
    {
      todos := todos + [todo];
    }
  }

  /** The module-level seeding of the React guide: a new list with two new todos
      added one after the other. It ends with exactly those two, distinct, open
      and in insertion order. */
  method SeedGuide() returns (list: TodoListStore)
    ensures fresh(list)
    ensures |list.todos| == 2 && fresh(list.todos[0]) && fresh(list.todos[1])
    ensures list.todos[0] != list.todos[1]
    ensures list.todos[0].content == "Throw the trash out" && list.todos[1].content == "Work out"
    ensures !list.todos[0].completed && !list.todos[1].completed
  {
    list := new TodoListStore();
    var first := new TodoStore("Throw the trash out");
    list.AddTodo(first);
    var second := new TodoStore("Work out");
    list.AddTodo(second);
  }
}
