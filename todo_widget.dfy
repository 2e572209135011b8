/** The to-do widget: a list of todos and a draft text, changed by three
    handlers (toggle, delete, add). Each handler replaces the whole list. */
module TodoWidget {
  import Text
  import Seqs

  datatype Todo = Todo(id: int, text: string, completed: bool, time: string)

  /** The list the widget starts with. */
  const InitialTodos: seq<Todo> := [
    Todo(1, "Launch the AI workflow", true, "18:26"),
    Todo(2, "Upload content quite a lot", false, "20:10"),
    Todo(3, "Port version", false, "6:30am"),
    Todo(4, "Submit blog", false, "5pm")
  ]

  /** The list after `toggleTodo(id)`: every todo with that id has `completed`
      flipped; length, order and every other field stay as they were. */
  function Toggled(todos: seq<Todo>, id: int): (r: seq<Todo>)
    ensures |r| == |todos|
    ensures forall i :: 0 <= i < |r| ==>
      r[i].id == todos[i].id && r[i].text == todos[i].text && r[i].time == todos[i].time
    ensures forall i :: 0 <= i < |r| ==>
      r[i].completed == (if todos[i].id == id then !todos[i].completed else todos[i].completed)
  {
    seq(|todos|, i requires 0 <= i < |todos| =>
      if todos[i].id == id then todos[i].(completed := !todos[i].completed) else todos[i])
  }

  /** Toggling the same id twice gives back the original list. */
  lemma ToggleTwice(todos: seq<Todo>, id: int)
    ensures Toggled(Toggled(todos, id), id) == todos
  {
    var r := Toggled(Toggled(todos, id), id);
    assert forall i :: 0 <= i < |todos| ==> r[i] == todos[i];
  }

  /** Toggling an id no todo has leaves the list as it is. */
  lemma ToggleAbsent(todos: seq<Todo>, id: int)
    requires forall t :: t in todos ==> t.id != id
    ensures Toggled(todos, id) == todos
  {
    var r := Toggled(todos, id);
    assert forall i :: 0 <= i < |todos| ==> r[i] == todos[i];
  }

  /** The list after `deleteTodo(id)`: the todos with another id, in their order. */
  function Without(todos: seq<Todo>, id: int): (r: seq<Todo>)
    ensures Seqs.IsSubsequence(r, todos)
    ensures forall t :: t in r <==> t in todos && t.id != id
    ensures forall t :: multiset(r)[t] == if t.id != id then multiset(todos)[t] else 0
    ensures (forall t :: t in todos ==> t.id != id) ==> r == todos
    decreases |todos|
  {
    if todos == [] then []
    else
      assert todos == [todos[0]] + todos[1..];
      if todos[0].id != id then [todos[0]] + Without(todos[1..], id)
      else Without(todos[1..], id)
  }

  /** The widget's state. */
  class TodoList {
    var todos: seq<Todo>
    var newTodo: string

    constructor ()
      ensures todos == InitialTodos && newTodo == ""
    {
      todos := InitialTodos;
      newTodo := "";
    }

    /** Typing in the input replaces the draft. */
    method SetNewTodo(text: string)
      modifies this`newTodo
      ensures newTodo == text
    {
      newTodo := text;
    }

    /** `toggleTodo(id)`. */
    method ToggleTodo(id: int)
      modifies this`todos
      ensures todos == Toggled(old(todos), id)
    {
      todos := Toggled(todos, id);
    }

    /** `deleteTodo(id)`. */
    method DeleteTodo(id: int)
      modifies this`todos
      ensures todos == Without(old(todos), id)
    {
      todos := Without(todos, id);
    }

    /** `addTodo`: a blank draft changes nothing; otherwise exactly one todo
        with the untrimmed draft as its text is appended, not completed, and the
        draft is cleared. The id (`Date.now()`) and the displayed time are
        readings of the clock, passed in. */
    method AddTodo(id: int, time: string)
      modifies this
      ensures Text.IsBlank(old(newTodo)) ==> todos == old(todos) && newTodo == old(newTodo)
      ensures !Text.IsBlank(old(newTodo)) ==>
        todos == old(todos) + [Todo(id, old(newTodo), false, time)] && newTodo == ""
      ensures todos[..|old(todos)|] == old(todos)
    {
      if !Text.IsBlank(newTodo) {
        ghost var before := todos;
        todos := todos + [Todo(id, newTodo, false, time)];
        newTodo := "";
        assert todos[..|before|] == before;
      }
    }
  }
}
