/**
 * The two reducers of the useReducer page and the page's "Add Todo" handler.
 * Both reducers dispatch on a closed union of actions; the source's `default: throw`
 * branch is unreachable, and the exhaustive `match` below has no such case.
 */
module Reducers {
  import opened Text

  // ---------------------------------------------------------------- counter

  datatype CounterState = CounterState(count: int)

  datatype CounterAction = Increment | Decrement | Reset

  /** The state `useReducer(counterReducer, { count: 0 })` starts from. */
  const CounterInit := CounterState(0)

  /** Number of increments minus number of decrements in `actions`. */
  function Net(actions: seq<CounterAction>): int {
    (multiset(actions)[Increment] as int) - (multiset(actions)[Decrement] as int)
  }

  /** `counterReducer`: increment and decrement move the count by one, reset zeroes it. */
  function CounterReducer(state: CounterState, action: CounterAction): (r: CounterState)
    ensures action != Reset ==> r.count == state.count + Net([action])
    ensures action == Reset ==> r == CounterInit
  {
    match action
    case Increment => CounterState(state.count + 1)
    case Decrement => CounterState(state.count - 1)
    case Reset => CounterState(0)
  }

  /** Dispatching `actions` one after the other, first to last. */
  function CounterRun(state: CounterState, actions: seq<CounterAction>): (r: CounterState)
    ensures actions != [] && actions[|actions| - 1] == Reset ==> r == CounterInit
    decreases |actions|
  {
    if actions == [] then state else CounterRun(CounterReducer(state, actions[0]), actions[1..])
  }

  /** Without a reset, the count moves by exactly (#increments - #decrements), which may be negative. */
  lemma {:induction false} CounterRunNet(state: CounterState, actions: seq<CounterAction>)
    requires Reset !in actions
    ensures CounterRun(state, actions).count == state.count + Net(actions)
    decreases |actions|
  {
    if actions != [] {
      assert actions == [actions[0]] + actions[1..];
      assert multiset(actions) == multiset([actions[0]]) + multiset(actions[1..]);
      CounterRunNet(CounterReducer(state, actions[0]), actions[1..]);
    }
  }

  /** From the initial `{count: 0}`, a reset-free sequence ends at #increments - #decrements. */
  lemma CounterFromInit(actions: seq<CounterAction>)
    requires Reset !in actions
    ensures CounterRun(CounterInit, actions).count == Net(actions)
  {
    CounterRunNet(CounterInit, actions);
  }

  /** Dispatching `a + b` is dispatching `a`, then `b`. */
  lemma {:induction false} CounterRunAppend(state: CounterState, a: seq<CounterAction>, b: seq<CounterAction>)
    ensures CounterRun(state, a + b) == CounterRun(CounterRun(state, a), b)
    decreases |a|
  {
    if a != [] {
      assert (a + b)[0] == a[0];
      assert (a + b)[1..] == a[1..] + b;
      CounterRunAppend(CounterReducer(state, a[0]), a[1..], b);
    } else {
      assert a + b == b;
    }
  }

  /** A reset forgets the whole history before it: whatever the prior state, what follows starts from 0. */
  lemma ResetForgetsHistory(state: CounterState, before: seq<CounterAction>, after: seq<CounterAction>)
    ensures CounterRun(state, before + [Reset] + after) == CounterRun(CounterInit, after)
  {
    CounterRunAppend(state, before + [Reset], after);
    CounterRunAppend(state, before, [Reset]);
  }

  // ---------------------------------------------------------------- todo list

  /** A task record; `id` is the `Date.now()` timestamp taken when it was added. */
  datatype Todo = Todo(id: int, text: string, completed: bool)

  datatype TodoState = TodoState(todos: seq<Todo>)

  datatype TodoAction = AddTodo(text: string) | ToggleTodo(id: int) | DeleteTodo(id: int)

  /** `todos.map(todo => todo.id === id ? { ...todo, completed: !todo.completed } : todo)`. */
  function ToggleMatching(todos: seq<Todo>, id: int): (r: seq<Todo>)
    ensures |r| == |todos|
    ensures forall i :: 0 <= i < |todos| ==>
      && r[i].id == todos[i].id
      && r[i].text == todos[i].text
      && (r[i].completed <==> (todos[i].completed != (todos[i].id == id)))
  {
    if todos == [] then []
    else
      var t := todos[0];
      [if t.id == id then t.(completed := !t.completed) else t] + ToggleMatching(todos[1..], id)
  }

  /** `todos.filter(todo => todo.id !== id)`. */
  function KeepOthers(todos: seq<Todo>, id: int): (r: seq<Todo>)
    ensures |r| <= |todos|
    ensures forall t :: t in r ==> t.id != id
    ensures forall t :: t in todos && t.id != id ==> t in r
  {
    if todos == [] then []
    else
      (if todos[0].id == id then [] else [todos[0]]) + KeepOthers(todos[1..], id)
  }

  /** `todoReducer`; `now` is the value `Date.now()` returns while an ADD_TODO is reduced. */
  function TodoReducer(state: TodoState, action: TodoAction, now: int): (r: TodoState)
    ensures action.AddTodo? ==>
      && |r.todos| == |state.todos| + 1
      && r.todos[..|state.todos|] == state.todos
      && r.todos[|state.todos|] == Todo(now, action.text, false)
    ensures action.ToggleTodo? ==> r.todos == ToggleMatching(state.todos, action.id)
    ensures action.DeleteTodo? ==> r.todos == KeepOthers(state.todos, action.id)
  {
    match action
    case AddTodo(text) => TodoState(state.todos + [Todo(now, text, false)])
    case ToggleTodo(id) => TodoState(ToggleMatching(state.todos, id))
    case DeleteTodo(id) => TodoState(KeepOthers(state.todos, id))
  }

  /** Some record carries `id`. */
  predicate HasId(todos: seq<Todo>, id: int) {
    exists i :: 0 <= i < |todos| && todos[i].id == id
  }

  /** Number of records carrying `id`. */
  function CountId(todos: seq<Todo>, id: int): nat {
    if todos == [] then 0 else (if todos[0].id == id then 1 else 0) + CountId(todos[1..], id)
  }

  /** Toggling an id nobody carries returns the list unchanged. */
  lemma {:induction false} ToggleAbsent(todos: seq<Todo>, id: int)
    requires !HasId(todos, id)
    ensures ToggleMatching(todos, id) == todos
  {
    if todos != [] {
      assert !HasId(todos[1..], id) by {
        forall i | 0 <= i < |todos[1..]| ensures todos[1..][i].id != id {
          assert todos[1..][i] == todos[i + 1];
        }
      }
      ToggleAbsent(todos[1..], id);
    }
  }

  /** Toggling the same id twice restores the list. */
  lemma ToggleTwice(todos: seq<Todo>, id: int)
    ensures ToggleMatching(ToggleMatching(todos, id), id) == todos
  {
    var once := ToggleMatching(todos, id);
    var twice := ToggleMatching(once, id);
    assert forall i :: 0 <= i < |todos| ==> twice[i] == todos[i];
  }

  /** Filtering distributes over concatenation: the kept records stay in their original relative order. */
  lemma {:induction false} KeepOthersAppend(a: seq<Todo>, b: seq<Todo>, id: int)
    ensures KeepOthers(a + b, id) == KeepOthers(a, id) + KeepOthers(b, id)
  {
    if a != [] {
      assert (a + b)[1..] == a[1..] + b;
      assert (a + b)[0] == a[0];
      KeepOthersAppend(a[1..], b, id);
    } else {
      assert a + b == b;
    }
  }

  /** Deleting keeps every other record as many times as it occurred, and no record carrying `id`. */
  lemma {:induction false} KeepOthersMultiset(todos: seq<Todo>, id: int)
    ensures forall t :: multiset(KeepOthers(todos, id))[t] == if t.id == id then 0 else multiset(todos)[t]
  {
    if todos != [] {
      assert todos == [todos[0]] + todos[1..];
      KeepOthersMultiset(todos[1..], id);
    }
  }

  /** A single record survives the filter exactly when its id differs. */
  lemma KeepOthersSingle(t: Todo, id: int)
    ensures KeepOthers([t], id) == if t.id == id then [] else [t]
  {
    assert [t][1..] == [];
  }

  /** Deleting removes one record per match, and nothing else. */
  lemma {:induction false} KeepOthersLength(todos: seq<Todo>, id: int)
    ensures |KeepOthers(todos, id)| == |todos| - CountId(todos, id)
  {
    if todos != [] {
      KeepOthersLength(todos[1..], id);
    }
  }

  /** Deleting an id nobody carries is a no-op. */
  lemma {:induction false} DeleteAbsent(todos: seq<Todo>, id: int)
    requires !HasId(todos, id)
    ensures KeepOthers(todos, id) == todos
  {
    if todos != [] {
      assert todos[0].id != id;
      assert !HasId(todos[1..], id) by {
        forall i | 0 <= i < |todos[1..]| ensures todos[1..][i].id != id {
          assert todos[1..][i] == todos[i + 1];
        }
      }
      DeleteAbsent(todos[1..], id);
    }
  }

  /** Ids are pairwise distinct (the source hopes so of `Date.now()` stamps, but nothing enforces it). */
  predicate UniqueIds(todos: seq<Todo>) {
    forall i, j :: 0 <= i < j < |todos| ==> todos[i].id != todos[j].id
  }

  /** Each id occurs at most once in a list of distinct ids, and once exactly when present. */
  lemma {:induction false} CountIdUnique(todos: seq<Todo>, id: int)
    requires UniqueIds(todos)
    ensures CountId(todos, id) == if HasId(todos, id) then 1 else 0
  {
    if todos != [] {
      var rest := todos[1..];
      assert UniqueIds(rest) by {
        forall i, j | 0 <= i < j < |rest| ensures rest[i].id != rest[j].id {
          assert rest[i] == todos[i + 1] && rest[j] == todos[j + 1];
        }
      }
      CountIdUnique(rest, id);
      if todos[0].id == id {
        assert !HasId(rest, id) by {
          forall i | 0 <= i < |rest| ensures rest[i].id != id {
            assert rest[i] == todos[i + 1];
          }
        }
      } else {
        assert HasId(rest, id) <==> HasId(todos, id) by {
          if HasId(todos, id) {
            var k :| 0 <= k < |todos| && todos[k].id == id;
            assert rest[k - 1] == todos[k];
          }
          if HasId(rest, id) {
            var k :| 0 <= k < |rest| && rest[k].id == id;
            assert todos[k + 1] == rest[k];
          }
        }
      }
    }
  }

  /** With distinct ids, deleting a present id shortens the list by exactly one. */
  lemma DeleteUniqueRemovesOne(todos: seq<Todo>, id: int)
    requires UniqueIds(todos) && HasId(todos, id)
    ensures |KeepOthers(todos, id)| == |todos| - 1
  {
    KeepOthersLength(todos, id);
    CountIdUnique(todos, id);
  }

  /** Adding `texts` one after the other, the i-th stamped `nows[i]`. */
  function AddAll(state: TodoState, texts: seq<string>, nows: seq<int>): TodoState
    requires |texts| == |nows|
    decreases |texts|
  {
    if texts == [] then state
    else AddAll(TodoReducer(state, AddTodo(texts[0]), nows[0]), texts[1..], nows[1..])
  }

  /** Adding texts to any list keeps the list as a prefix and appends the new records in order, each incomplete. */
  lemma {:induction false} AddAllInOrder(state: TodoState, texts: seq<string>, nows: seq<int>)
    requires |texts| == |nows|
    ensures var r := AddAll(state, texts, nows).todos;
      && |r| == |state.todos| + |texts|
      && r[..|state.todos|] == state.todos
      && forall i :: 0 <= i < |texts| ==> r[|state.todos| + i] == Todo(nows[i], texts[i], false)
    decreases |texts|
  {
    if texts != [] {
      var next := TodoReducer(state, AddTodo(texts[0]), nows[0]);
      AddAllInOrder(next, texts[1..], nows[1..]);
      var r := AddAll(state, texts, nows).todos;
      assert r[..|next.todos|][..|state.todos|] == r[..|state.todos|];
      forall i | 0 <= i < |texts| ensures r[|state.todos| + i] == Todo(nows[i], texts[i], false) {
        if i > 0 {
          assert r[|next.todos| + (i - 1)] == Todo(nows[1..][i - 1], texts[1..][i - 1], false);
        } else {
          assert r[..|next.todos|][|state.todos|] == r[|state.todos|];
        }
      }
    }
  }

  // ---------------------------------------------------------------- the page's state cells

  /** The useReducer page's todo card: the reducer state and the `newTodo` input cell. */
  class TodoCard {
    var todos: seq<Todo>
    var newTodo: string

    constructor ()
      ensures todos == [] && newTodo == ""
    {
      todos := [];
      newTodo := "";
    }

    /** The input's onChange: `setNewTodo(e.target.value)`. */
    method EditInput(value: string)
      modifies this
      ensures newTodo == value && todos == old(todos)
    {
      newTodo := value;
    }

    /**
     * `handleAddTodo`: dispatches ADD_TODO with the untrimmed input, then clears it,
     * but only when the trimmed input is non-empty. `now` stands for `Date.now()`.
     */
    method HandleAddTodo(now: int)
      modifies this
      ensures !Blank(old(newTodo)) ==>
        && todos == old(todos) + [Todo(now, old(newTodo), false)]
        && newTodo == ""
      ensures Blank(old(newTodo)) ==> todos == old(todos) && newTodo == old(newTodo)
    {
      TrimEmptyIffBlank(newTodo);
      if Trim(newTodo) != [] {
        todos := TodoReducer(TodoState(todos), AddTodo(newTodo), now).todos;
        newTodo := "";
      }
    }

    /** A click on a record's text: dispatches TOGGLE_TODO with that record's id. */
    method ToggleClick(id: int)
      modifies this
      ensures todos == ToggleMatching(old(todos), id) && newTodo == old(newTodo)
    {
      todos := TodoReducer(TodoState(todos), ToggleTodo(id), 0).todos;
    }

    /** A click on a record's Delete button: dispatches DELETE_TODO with that record's id. */
    method DeleteClick(id: int)
      modifies this
      ensures todos == KeepOthers(old(todos), id) && newTodo == old(newTodo)
    {
      todos := TodoReducer(TodoState(todos), DeleteTodo(id), 0).todos;
    }
  }
}
