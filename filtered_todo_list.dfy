/** The filterable todo list: a list store that holds references to todo stores
    and a three-way filter, with a derived view of the todos the filter lets
    through. Because the list holds references, a todo toggled on its own store
    changes what the view of the list shows. */
module FilteredTodoList {
  import opened TodoItem

  /** The three values of the list's `filter` field. */
  datatype Filter = All | Todo | Done

  /** Whether filter `f` lets `todo` into the filtered view. */
  predicate Shows(f: Filter, todo: TodoStore)
    reads todo
  {
    match f
    case All => true
    case Todo => !todo.completed
    case Done => todo.completed
  }

  /** The todos of `s` whose `completed` flag equals `completed`, kept in the
      order they have in `s` (the array `filter` of the getter). */
  function Select(s: seq<TodoStore>, completed: bool): (r: seq<TodoStore>)
    reads s
    ensures |r| <= |s|
    ensures forall i :: 0 <= i < |r| ==> r[i] in s && r[i].completed == completed
    ensures forall i :: 0 <= i < |s| && s[i].completed == completed ==> s[i] in r
  {
    if s == [] then []
    else
      var rest := Select(s[1..], completed);
      if s[0].completed == completed then [s[0]] + rest else rest
  }

  /** Selecting from a concatenation selects from each part and keeps the parts
      in order: the selection never reorders todos. */
  lemma {:induction false} SelectAppend(a: seq<TodoStore>, b: seq<TodoStore>, completed: bool)
    ensures Select(a + b, completed) == Select(a, completed) + Select(b, completed)
  {
    if a == [] {
      assert a + b == b;
    } else {
      assert (a + b)[1..] == a[1..] + b;
      SelectAppend(a[1..], b, completed);
    }
  }

  /** A one-todo list is selected exactly when its todo matches. */
  lemma SelectOne(t: TodoStore, completed: bool)
    ensures Select([t], completed) == if t.completed == completed then [t] else []
  {
    assert [t][1..] == [];
  }

  /** The selection keeps every matching todo as often as it occurs in `s` and
      drops every other one. */
  lemma {:induction false} SelectCounts(s: seq<TodoStore>, completed: bool, t: TodoStore)
    ensures multiset(Select(s, completed))[t] == if t.completed == completed then multiset(s)[t] else 0
  {
    if s != [] {
      assert s == [s[0]] + s[1..];
      SelectCounts(s[1..], completed, t);
    }
  }

  /** The "done" and the "todo" views split the list between them: together
      they hold every todo of the list, each exactly once. */
  lemma {:induction false} SelectPartition(s: seq<TodoStore>)
    ensures multiset(Select(s, true)) + multiset(Select(s, false)) == multiset(s)
    ensures |Select(s, true)| + |Select(s, false)| == |s|
  {
    if s != [] {
      assert s == [s[0]] + s[1..];
      SelectPartition(s[1..]);
    }
  }

  class TodoListStore {
    var todos: seq<TodoStore>
    var filter: Filter

    /** A new list is empty and shows all todos. */
    constructor ()
      ensures todos == []
      ensures filter == All
    {
      todos := [];
      filter := All;
    }

    /** The `filteredTodos` getter: the todos the current filter lets through,
        in list order; with filter `All`, the list itself. Being a function, it
        changes neither the list nor any todo. */
    function FilteredTodos(): (r: seq<TodoStore>)
      reads this, todos
      ensures |r| <= |todos|
      ensures forall i :: 0 <= i < |r| ==> r[i] in todos && Shows(filter, r[i])
      ensures forall i :: 0 <= i < |todos| && Shows(filter, todos[i]) ==> todos[i] in r
      ensures filter == All ==> r == todos
    {
      if filter == Done then Select(todos, true)
      else if filter == Todo then Select(todos, false)
      else todos
    }

    /** The `addTodo` action: appends the todo, keeps the filter, leaves the
        todo itself alone, and extends the view by the new todo when the filter
        lets it through. */
    method AddTodo(todo: TodoStore)
      modifies this
      ensures todos == old(todos) + [todo]
      ensures filter == old(filter)
      ensures todo.completed == old(todo.completed) && todo.content == old(todo.content)
      ensures FilteredTodos() == old(FilteredTodos()) + if Shows(filter, todo) then [todo] else []
    {
      ghost var before, view := todos, FilteredTodos();
      var wanted := filter == Done;
      if filter != All {
        SelectAppend(before, [todo], wanted);
        SelectOne(todo, wanted);
        assert Select(before + [todo], wanted) == view + if Shows(filter, todo) then [todo] else [];
      }
      todos := todos + [todo];
    }

    /** The `setFilter` action: replaces the filter and keeps the list. */
    method SetFilter(f: Filter)
      modifies this
      ensures filter == f
      ensures todos == old(todos)
    {
      filter := f;
    }
  }

  /** A todo of the list toggled through its own store moves between the
      "done" and the "todo" views of the list, while the list's own fields stay
      as they were. */
  method ToggleListed(list: TodoListStore, todo: TodoStore)
    requires todo in list.todos
    modifies todo
    ensures list.todos == old(list.todos) && list.filter == old(list.filter)
    ensures todo.completed == !old(todo.completed)
    ensures todo in Select(list.todos, todo.completed)
    ensures todo !in Select(list.todos, !todo.completed)
  {
    todo.Toggle();
  }

  /** The demo seeding of the filter tutorial: a new list with two todos added
      one after the other. Both are open, in insertion order, and the initial
      view shows them both. */
  method SeedDemo() returns (list: TodoListStore)
    ensures fresh(list)
    ensures |list.todos| == 2 && fresh(list.todos[0]) && fresh(list.todos[1])
    ensures list.todos[0].content == "Take out trash" && list.todos[1].content == "Work out"
    ensures !list.todos[0].completed && !list.todos[1].completed
    ensures list.filter == All && list.FilteredTodos() == list.todos
  {
    list := new TodoListStore();
    var first := new TodoStore("Take out trash");
    list.AddTodo(first);
    var second := new TodoStore("Work out");
    list.AddTodo(second);
  }
}
