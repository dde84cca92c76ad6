/**
 * The todo-list machine of examples/todo.ts: a list of todos and the last
 * command typed, an `idle` state waiting for a command and an `assisting`
 * state in which the agent turns the command into one of the list events.
 * The list events are handled at the root, so they apply in either state.
 */
module Todo {
  import opened Options

  datatype Todo = Todo(title: string, content: string, done: bool)

  datatype TodoState = Idle | Assisting

  /** The machine's context; `command` is `null` until a command arrives. */
  datatype TodoContext = TodoContext(todos: seq<Todo>, command: Option<string>)

  datatype Config = Config(state: TodoState, context: TodoContext)

  /**
   * The agent's four events, the `assist` event, and the done event of the
   * terminal prompt invoked in `idle` (carrying the line that was typed).
   */
  datatype TodoEvent =
    | AddTodo(title: string, content: string)
    | DeleteTodo(index: int)
    | ToggleTodo(index: int)
    | DoNothing
    | Assist(command: string)
    | CommandEntered(output: string)

  /** The initial configuration: `idle`, no todos, no command. */
  function Initial(): (c: Config)
    ensures c.state == Idle && |c.context.todos| == 0 && c.context.command.None?
  {
    Config(Idle, TodoContext([], None))
  }

  /** `[...todos, { title, content, done: false }]` */
  function Added(todos: seq<Todo>, title: string, content: string): (r: seq<Todo>)
    ensures |r| == |todos| + 1 && r[..|todos|] == todos
    ensures r[|todos|].title == title && r[|todos|].content == content && !r[|todos|].done
  {
    todos + [Todo(title, content, false)]
  }

  /**
   * Where `splice(index, 1)` starts on a list of length `n`: a negative
   * index counts from the end, and the result is clamped to `0..n`.
   */
  function SpliceStart(n: nat, index: int): (k: nat)
    ensures k <= n
    ensures 0 <= index <= n ==> k == index
    ensures index < 0 && 0 <= n + index ==> k == n + index
    ensures n + index < 0 ==> k == 0
    ensures index > n ==> k == n
  {
    if index < 0 then (if n + index < 0 then 0 else n + index)
    else if index < n then index else n
  }

  /** The list after `todos.splice(index, 1)`: the element at the start position is removed, if there is one. */
  function Deleted(todos: seq<Todo>, index: int): seq<Todo>
  {
    var k := SpliceStart(|todos|, index);
    if k < |todos| then todos[..k] + todos[k + 1..] else todos
  }

  /**
   * The `deleteTodo` assignment: copy the list into a fresh array, then
   * splice one element out of the copy in place, shifting the rest left.
   */
  method DeleteTodoAction(todos: seq<Todo>, index: int) returns (r: seq<Todo>)
    ensures r == Deleted(todos, index)
  {
    var n := |todos|;
    var a := new Todo[n](i requires 0 <= i < n => todos[i]);
    var k := SpliceStart(n, index);
    if k < n {
      ShiftLeft(a, k);
      r := a[..n - 1];
      ShiftedIsDeleted(todos, r, k);
    } else {
      r := a[..];
      assert r == todos;
    }
  }

  /** `splice(k, 1)` on the array: every element after position `k` moves one place left; the last slot is left stale. */
  method ShiftLeft(a: array<Todo>, k: nat)
    requires k < a.Length
    modifies a
    ensures forall p :: 0 <= p < k ==> a[p] == old(a[p])
    ensures forall p :: k <= p < a.Length - 1 ==> a[p] == old(a[p + 1])
  {
    var j := k;
    while j < a.Length - 1
      invariant k <= j <= a.Length - 1
      invariant forall p :: 0 <= p < k ==> a[p] == old(a[p])
      invariant forall p :: k <= p < j ==> a[p] == old(a[p + 1])
      invariant forall p :: j <= p < a.Length ==> a[p] == old(a[p])
    {
      a[j] := a[j + 1];
      j := j + 1;
    }
  }

  /** A list that agrees with `todos` before `k` and with its successor from `k` on is `todos` without position `k`. */
  lemma ShiftedIsDeleted(todos: seq<Todo>, r: seq<Todo>, k: nat)
    requires k < |todos| && |r| == |todos| - 1
    requires forall p :: 0 <= p < k ==> r[p] == todos[p]
    requires forall p :: k <= p < |r| ==> r[p] == todos[p + 1]
    ensures r == todos[..k] + todos[k + 1..]
  {
    var d := todos[..k] + todos[k + 1..];
    assert |d| == |r|;
    forall p | 0 <= p < |r|
      ensures r[p] == d[p]
    {
      if p < k {
        assert d[p] == todos[..k][p];
      } else {
        assert d[p] == todos[k + 1..][p - k];
      }
    }
  }

  /** An index inside the list removes exactly that todo and keeps the others in order. */
  lemma DeleteInRange(todos: seq<Todo>, index: int)
    requires 0 <= index < |todos|
    ensures Deleted(todos, index) == todos[..index] + todos[index + 1..]
    ensures |Deleted(todos, index)| == |todos| - 1
    ensures multiset(Deleted(todos, index)) + multiset{todos[index]} == multiset(todos)
  {
    assert todos == todos[..index] + [todos[index]] + todos[index + 1..];
  }

  /** A negative index counts from the end: `-1` removes the last todo. */
  lemma DeleteFromEnd(todos: seq<Todo>, index: int)
    requires -|todos| <= index < 0
    ensures Deleted(todos, index) == todos[..|todos| + index] + todos[|todos| + index + 1..]
  {
  }

  /** An index past the end removes nothing; one before the start removes the first todo. */
  lemma DeleteOutOfRange(todos: seq<Todo>, index: int)
    ensures index >= |todos| ==> Deleted(todos, index) == todos
    ensures index < -|todos| && |todos| > 0 ==> Deleted(todos, index) == todos[1..]
  {
  }

  /** Deleting the todo just added gives back the list it was added to. */
  lemma DeleteUndoesAdd(todos: seq<Todo>, title: string, content: string)
    ensures Deleted(Added(todos, title, content), |todos|) == todos
    ensures Deleted(Added(todos, title, content), -1) == todos
  {
    var added := Added(todos, title, content);
    assert added[..|todos|] == todos;
  }

  /** `todos.map((todo, i) => i === index ? { ...todo, done: !todo.done } : todo)` */
  function Toggled(todos: seq<Todo>, index: int): seq<Todo>
  {
    seq(|todos|, i requires 0 <= i < |todos| => if i == index then todos[i].(done := !todos[i].done) else todos[i])
  }

  /** Toggling flips `done` at the index only; titles, contents and every other todo stay as they were. */
  lemma ToggleOnlyAtIndex(todos: seq<Todo>, index: int)
    ensures |Toggled(todos, index)| == |todos|
    ensures forall i :: 0 <= i < |todos| ==>
      Toggled(todos, index)[i].title == todos[i].title && Toggled(todos, index)[i].content == todos[i].content
    ensures forall i :: 0 <= i < |todos| && i != index ==> Toggled(todos, index)[i] == todos[i]
    ensures 0 <= index < |todos| ==> Toggled(todos, index)[index].done == !todos[index].done
    ensures !(0 <= index < |todos|) ==> Toggled(todos, index) == todos
  {
  }

  /** Toggling the same index twice restores the list. */
  lemma ToggleTwice(todos: seq<Todo>, index: int)
    ensures Toggled(Toggled(todos, index), index) == todos
  {
    var t := Toggled(Toggled(todos, index), index);
    assert |t| == |todos|;
    forall i | 0 <= i < |todos|
      ensures t[i] == todos[i]
    {
    }
  }

  /**
   * One event. The list events are root transitions: they apply in either
   * state and target `idle`; all but `doNothing` also clear `command`.
   * `assist` and the terminal's done event are handled in `idle` only,
   * where they store the command and move to `assisting`.
   */
  function Step(c: Config, e: TodoEvent): Config
  {
    match e
    case AddTodo(title, content) =>
      Config(Idle, TodoContext(Added(c.context.todos, title, content), None))
    case DeleteTodo(index) =>
      Config(Idle, TodoContext(Deleted(c.context.todos, index), None))
    case ToggleTodo(index) =>
      Config(Idle, TodoContext(Toggled(c.context.todos, index), None))
    case DoNothing =>
      Config(Idle, c.context)
    case Assist(command) =>
      if c.state == Idle then Config(Assisting, c.context.(command := Some(command))) else c
    case CommandEntered(output) =>
      if c.state == Idle then Config(Assisting, c.context.(command := Some(output))) else c
  }

  predicate IsListEvent(e: TodoEvent)
  {
    e.AddTodo? || e.DeleteTodo? || e.ToggleTodo? || e.DoNothing?
  }

  /** Every agent event ends in `idle`, whichever state it arrives in; only `doNothing` keeps the command. */
  lemma ListEventsReturnToIdle(c: Config, e: TodoEvent)
    requires IsListEvent(e)
    ensures Step(c, e).state == Idle
    ensures Step(c, e).context.command == if e.DoNothing? then c.context.command else None
  {
  }

  /** A command is taken only in `idle`; in `assisting` it is ignored. */
  lemma CommandOnlyInIdle(c: Config, e: TodoEvent)
    requires e.Assist? || e.CommandEntered?
    ensures c.state == Idle ==> Step(c, e).state == Assisting && Step(c, e).context.todos == c.context.todos
    ensures c.state == Idle ==> Step(c, e).context.command == Some(if e.Assist? then e.command else e.output)
    ensures c.state == Assisting ==> Step(c, e) == c
  {
  }

  /** One event changes the number of todos by at most one, and only an add can grow the list. */
  lemma StepChangesAtMostOne(c: Config, e: TodoEvent)
    ensures var n := |c.context.todos|; var m := |Step(c, e).context.todos|;
      (m == n + 1 <==> e.AddTodo?) && n - 1 <= m <= n + 1
  {
    if e.DeleteTodo? {
      var k := SpliceStart(|c.context.todos|, e.index);
      if k < |c.context.todos| {
        DeleteInRange(c.context.todos, k);
      }
    }
  }

  /** Events applied in order. */
  function Run(c: Config, es: seq<TodoEvent>): Config
    decreases |es|
  {
    if |es| == 0 then c else Run(Step(c, es[0]), es[1..])
  }

  /** Adding n todos and nothing else leaves n todos, all of them not done. */
  lemma {:induction false} AddsAreUndone(c: Config, es: seq<TodoEvent>)
    requires forall i :: 0 <= i < |es| ==> es[i].AddTodo?
    ensures |Run(c, es).context.todos| == |c.context.todos| + |es|
    ensures Run(c, es).context.todos[..|c.context.todos|] == c.context.todos
    ensures forall i :: |c.context.todos| <= i < |Run(c, es).context.todos| ==> !Run(c, es).context.todos[i].done
    decreases |es|
  {
    if |es| > 0 {
      var c1 := Step(c, es[0]);
      AddsAreUndone(c1, es[1..]);
      assert c1.context.todos[..|c.context.todos|] == c.context.todos;
      var r := Run(c, es).context.todos;
      assert r[..|c1.context.todos|] == c1.context.todos;
      assert r[..|c.context.todos|] == c1.context.todos[..|c.context.todos|];
    }
  }
}
