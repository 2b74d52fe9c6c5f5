# Exome documentation stores, modelled in Dafny

The exome documentation site has no engine of its own. Its logic is the small
example stores used by its guides, tutorials and live demos. Each store is a
plain object with public fields, plus action methods that change those fields
in place. This project models each store shape as a Dafny class. The fields are
fields, each action is a method with a `modifies` frame, and the one derived
value, the `filteredTodos` getter, is a function with a `reads` frame. It also
proves what the examples rely on:

- the filter view keeps todos in list order, keeps exactly the matching ones,
  and splits the list into "done" and "todo";
- appending changes only the end of a list;
- a toggle undoes itself;
- increments and decrements cancel out, and n clicks on a fresh counter give n.

Files and modules, one per store shape:

- `todo_item.dfy`, module `TodoItem`: the todo store (`content`, `completed`,
  `toggle`). It serves both copies:
  `docs/components/live/tutorials-todo-filter/todo.store.ts` and the inline class
  at `docs/components/live/todo-react-guides.tsx` lines 4-14.
- `filtered_todo_list.dfy`, module `FilteredTodoList`: the filterable list, with
  `todos`, `filter`, `filteredTodos`, `addTodo` and `setFilter`. The list holds
  references to todo stores, so a todo toggled through its own store changes
  what `FilteredTodos` returns (`ToggleListed`).
- `todo_list.dfy`, module `TodoList`: the append-only list of
  `docs/components/live/tutorials-todo/todo-list.store.ts`. It also serves the
  inline list of `todo-react-guides.tsx` lines 16-22 and that file's seeding at
  lines 24-27.
- `basic_todo.dfy`, module `BasicTodo`: the `{text, done}` record list of
  `docs/snippets/basics/store.ts`.
- `counter.dfy`, module `Counter`: the increment/decrement counter. It serves
  `docs/snippets/counter/counter.store.ts`, `counter-react.tsx` lines 4-14 and
  `counter-react-interval.tsx` lines 5-15. A sequence of button clicks or timer
  ticks is modelled as a sequence of `Action` values. `Run` gives the count
  they reach, and `Dispatch` performs them on a store.
- `integration_counter.dfy`, module `IntegrationCounter`: the increment-only
  counter of `docs/components/live/guides-integration/index.tsx` lines 4-10.

JavaScript numbers are modelled as unbounded `int`, and strings as `string`.

## Model

| member | source | states |
|---|---|---|
| TodoItem.TodoStore.constructor | docs/components/live/tutorials-todo-filter/todo.store.ts:4-8 | a new todo has the given `content` and `completed == false`; the inline copy at todo-react-guides.tsx:5-9 is the same |
| TodoItem.TodoStore.Toggle | docs/components/live/tutorials-todo-filter/todo.store.ts:10-12 | `completed` becomes the negation of its old value and `content` is unchanged; same as todo-react-guides.tsx:11-13 |
| TodoItem.ToggleTwice | docs/components/live/tutorials-todo-filter/todo.store.ts:10-12 | two toggles restore both `completed` and `content` |
| FilteredTodoList.Select | docs/components/live/tutorials-todo-filter/todo-list.store.ts:9-14 | the selection is no longer than the list; every selected todo is in the list and has the wanted `completed` flag; every listed todo with that flag is selected |
| FilteredTodoList.SelectAppend | docs/components/live/tutorials-todo-filter/todo-list.store.ts:9-14 | selecting from `a + b` gives the selection from `a` followed by the selection from `b`, so the original order is kept |
| FilteredTodoList.SelectCounts | docs/components/live/tutorials-todo-filter/todo-list.store.ts:9-14 | each matching todo appears in the selection exactly as often as in the list, and no other todo appears |
| FilteredTodoList.SelectPartition | docs/components/live/tutorials-todo-filter/todo-list.store.ts:8-16 | the "done" and "todo" selections together are, as a multiset, exactly the list, so their lengths add up to its length |
| FilteredTodoList.TodoListStore.constructor | docs/components/live/tutorials-todo-filter/todo-list.store.ts:5-6 | a new list has no todos and filter `All` |
| FilteredTodoList.TodoListStore.FilteredTodos | docs/components/live/tutorials-todo-filter/todo-list.store.ts:8-16 | the view is at most as long as `todos`; it holds exactly the listed todos the filter lets through (`Done`: completed, `Todo`: not completed); with `All` it is `todos` itself; being a function it changes nothing |
| FilteredTodoList.TodoListStore.AddTodo | docs/components/live/tutorials-todo-filter/todo-list.store.ts:26-28 | `todos == old(todos) + [todo]`; the filter and the added todo are unchanged; the view grows by the new todo exactly when the filter lets it through |
| FilteredTodoList.TodoListStore.SetFilter | docs/components/live/tutorials-todo-filter/todo-list.store.ts:30-32 | `filter == f` and `todos` is unchanged |
| FilteredTodoList.ToggleListed | docs/components/live/tutorials-todo-filter/todo-list.store.ts:8-16 | after a listed todo is toggled on its own store, the list's fields are unchanged; the todo is in the selection for its new flag and not in the one for its old flag |
| FilteredTodoList.SeedDemo | docs/components/live/tutorials-todo-filter/app.tsx:6-10 | after seeding there are two new, open todos, "Take out trash" then "Work out"; the filter is `All` and the view shows both |
| TodoList.TodoListStore.constructor | docs/components/live/tutorials-todo/todo-list.store.ts:5 | a new list has `todos == []`; same as todo-react-guides.tsx:17 |
| TodoList.TodoListStore.AddTodo | docs/components/live/tutorials-todo/todo-list.store.ts:7-10 | `todos == old(todos) + [todo]`; the length grows by one; earlier todos keep their indices; the trailing read of `todo.completed` leaves the todo unchanged; same as todo-react-guides.tsx:19-21 |
| TodoList.SeedGuide | docs/components/live/todo-react-guides.tsx:24-27 | after seeding the list holds exactly two distinct, new, open todos, "Throw the trash out" then "Work out" |
| BasicTodo.TodoStore.constructor | docs/snippets/basics/store.ts:9 | a new store has an empty `todo` list |
| BasicTodo.TodoStore.AddTodo | docs/snippets/basics/store.ts:13-15 | `todo == old(todo) + [item]`, and the last record has the given `text` and `done` |
| BasicTodo.AddInOrder | docs/snippets/basics/store.ts:13-15 | adding A and then B appends `[A, B]`, in insertion order |
| Counter.CounterStore.constructor | docs/snippets/counter/counter.store.ts:6 | a new counter has `count == 0`; same as counter-react.tsx:5 and counter-react-interval.tsx:6 |
| Counter.CounterStore.Increment | docs/snippets/counter/counter.store.ts:9-11 | `count == old(count) + 1`; same as counter-react.tsx:7-9 and counter-react-interval.tsx:8-10 |
| Counter.CounterStore.Decrement | docs/snippets/counter/counter.store.ts:13-15 | `count == old(count) - 1`; same as counter-react.tsx:11-13 and counter-react-interval.tsx:12-14 |
| Counter.RunAppend | docs/snippets/counter/counter.store.ts:9-15 | running two sequences of actions one after the other is the same as running their concatenation |
| Counter.RunIsNet | docs/snippets/counter/counter.store.ts:9-15 | for any sequence of actions, the count moves by the number of increments minus the number of decrements, whatever their order |
| Counter.Cancel | docs/snippets/counter/counter.store.ts:9-15 | an increment next to a decrement, in either order, can be removed anywhere in a sequence without changing the final count; see also counter-react.tsx:7-13 and counter-react-interval.tsx:8-14 |
| Counter.Dispatch | docs/components/live/counter-react-interval.tsx:8-14 | invoking the actions one by one on a store, as button clicks and interval ticks do, leaves the count that `Run` gives |
| Counter.Replay | docs/snippets/counter/index.ts:4-12 | a fresh counter driven by any sequence of actions shows increments minus decrements; for example, 0 at the start and 1 after one increment |
| IntegrationCounter.CounterStore.constructor | docs/components/live/guides-integration/index.tsx:5 | a new counter has `count == 0` |
| IntegrationCounter.CounterStore.Increment | docs/components/live/guides-integration/index.tsx:7-9 | `count == old(count) + 1`, so the count strictly grows |
| IntegrationCounter.Click | docs/components/live/guides-integration/index.tsx:4-10 | `n` clicks raise the count by exactly `n`, so it never decreases |
| IntegrationCounter.CountClicks | docs/components/live/guides-integration/index.tsx:5-9 | a fresh counter clicked `n` times shows `n` |

## Left out

- The exome base class and library calls (`Exome`, `onAction`, `update`,
  `getExomeId`) come from the exome package, which is not part of this model.
  This covers the list constructor's `onAction(TodoStore, "toggle", …)` hook.
  It also covers change notification, batching, subscriptions and version
  markers: none of that is modelled, and a store here is a plain class.
- React bindings (`useStore`), the components and the form handlers are UI.
  They are not modelled.
- Timers: the interval that calls `increment` once a second is not modelled as
  scheduling. `Counter.Dispatch` covers only the repeated increments it causes.
- JavaScript numbers are doubles. `count` is modelled as an unbounded `int`,
  so precision loss at very large counts is not modelled.
- `docs/components/live/tutorials-todo/todo.store.ts` is not part of this
  model. The tutorial list is modelled with the same `TodoItem.TodoStore` as
  the filter tutorial.
- FilteredTodoList.TodoListStore.FilteredTodos: under `All` the getter
  returns the `todos` array object itself, a live alias. Under `Done` and
  `Todo` it returns a new array. The model returns a sequence value in all
  three cases, so that aliasing difference is not modelled.
- FilteredTodoList.TodoListStore.AddTodo, TodoList.TodoListStore.AddTodo and
  BasicTodo.TodoStore.AddTodo: the `todos` and `todo` arrays are modelled as
  sequence values that each call replaces. In the source, `push` changes the
  same array object in place, so a caller that read the array earlier also
  sees later additions. In the model, that caller keeps the old value.
- BasicTodo.TodoStore.AddTodo: a record is a JavaScript object reference, and
  the caller could change it after adding it. Here records are values, so
  that aliasing is not modelled.
- The site configuration (`vocs.config.ts`), the footer and the render entry
  point `docs/snippets/counter/index.tsx` hold no logic.
