/**
 * The todo list store: an ordered list of todos and the counter that hands out their ids.
 * Signals are plain fields, computed signals are functions of those fields, and each
 * `update`/`set` call is an assignment of the new list built by a pure function.
 * Dates are millisecond timestamps supplied by the caller.
 */
module TodoStore {
  import opened Seqs

  datatype Todo = Todo(id: int, title: string, completed: bool, createdAt: int)

  predicate IsCompleted(t: Todo) { t.completed }

  predicate IsActive(t: Todo) { !t.completed }

  /** The predicate `deleteTodo` filters with: every todo except those carrying `id`. */
  function HasOtherId(id: int): Todo -> bool
  {
    (t: Todo) => t.id != id
  }

  /** The predicate that selects the todos created at time `at`. */
  function CreatedAt(at: int): Todo -> bool
  {
    (t: Todo) => t.createdAt == at
  }

  predicate DistinctIds(s: seq<Todo>)
  {
    forall i, j :: 0 <= i < j < |s| ==> s[i].id != s[j].id
  }

  /** Every id in `s` was handed out by a counter that started at 1 and now stands at `next`. */
  predicate IdsBelow(s: seq<Todo>, next: int)
  {
    forall i :: 0 <= i < |s| ==> 1 <= s[i].id < next
  }

  predicate HasId(s: seq<Todo>, id: int)
  {
    exists i :: 0 <= i < |s| && s[i].id == id
  }

  /** A filtered list keeps distinct ids and the id bound of the list it came from. */
  lemma {:induction false} FilterKeepsIds(s: seq<Todo>, keep: Todo -> bool, next: int)
    requires DistinctIds(s) && IdsBelow(s, next)
    ensures DistinctIds(Filter(s, keep)) && IdsBelow(Filter(s, keep), next)
  {
    if s != [] {
      FilterKeepsIds(s[1..], keep, next);
      var rest := Filter(s[1..], keep);
      if keep(s[0]) {
        var r := Filter(s, keep);
        assert r == [s[0]] + rest;
        forall j | 0 < j < |r|
          ensures r[0].id != r[j].id
        {
          assert r[j] in s[1..];
        }
      }
    }
  }

  // ----- toggleTodo -----

  /** The spread `{ ...todo, completed: !todo.completed }`: only the flag changes. */
  function Flipped(t: Todo): (r: Todo)
    ensures r.id == t.id && r.title == t.title && r.createdAt == t.createdAt
    ensures r.completed != t.completed
  {
    t.(completed := !t.completed)
  }

  /** The `map` of `toggleTodo`: flips `completed` on the todos carrying `id`, keeps the others. */
  function Toggled(s: seq<Todo>, id: int): (r: seq<Todo>)
    ensures |r| == |s|
    ensures forall i :: 0 <= i < |s| ==> r[i] == if s[i].id == id then Flipped(s[i]) else s[i]
  {
    if s == [] then []
    else [if s[0].id == id then Flipped(s[0]) else s[0]] + Toggled(s[1..], id)
  }

  /** Toggling changes no id, title or date, and nothing at all on the todos not carrying `id`. */
  lemma ToggledKeepsFields(s: seq<Todo>, id: int)
    ensures forall i :: 0 <= i < |s| ==>
      var r := Toggled(s, id)[i];
      r.id == s[i].id && r.title == s[i].title && r.createdAt == s[i].createdAt &&
      (r.completed <==> (s[i].id == id) != s[i].completed)
  {
  }

  /** Toggling the same id twice restores the list. */
  lemma ToggleTwice(s: seq<Todo>, id: int)
    ensures Toggled(Toggled(s, id), id) == s
  {
  }

  /** Toggling an id no todo carries is a no-op. */
  lemma ToggleUnknownId(s: seq<Todo>, id: int)
    requires !HasId(s, id)
    ensures Toggled(s, id) == s
  {
  }

  // ----- deleteTodo and clearCompleted -----

  /** The list `deleteTodo(id)` leaves behind. */
  function WithoutId(s: seq<Todo>, id: int): (r: seq<Todo>)
    ensures |r| <= |s|
    ensures forall i :: 0 <= i < |r| ==> r[i].id != id && r[i] in s
  {
    Filter(s, HasOtherId(id))
  }

  /** deleteTodo removes exactly the todos carrying `id` and keeps the others in their original order. */
  lemma DeleteSpec(s: seq<Todo>, id: int)
    ensures forall t :: t in WithoutId(s, id) <==> t in s && t.id != id
    ensures IsSubsequence(WithoutId(s, id), s)
    ensures !HasId(s, id) ==> WithoutId(s, id) == s
  {
    forall t
      ensures t in WithoutId(s, id) <==> t in s && t.id != id
    {
      FilterMembership(s, HasOtherId(id), t);
    }
    FilterIsSubsequence(s, HasOtherId(id));
    if !HasId(s, id) {
      FilterAllKept(s, HasOtherId(id));
    }
  }

  /** With distinct ids, deleting an id that is present shortens the list by exactly one. */
  lemma {:induction false} DeleteOne(s: seq<Todo>, id: int)
    requires DistinctIds(s) && HasId(s, id)
    ensures |WithoutId(s, id)| == |s| - 1
  {
    if s[0].id == id {
      FilterAllKept(s[1..], HasOtherId(id));
    } else {
      var i :| 0 <= i < |s| && s[i].id == id;
      assert s[1..][i - 1].id == id;
      DeleteOne(s[1..], id);
    }
  }

  /** The list `clearCompleted` leaves behind. */
  function Incomplete(s: seq<Todo>): (r: seq<Todo>)
    ensures |r| <= |s|
    ensures forall i :: 0 <= i < |r| ==> !r[i].completed && r[i] in s
  {
    Filter(s, IsActive)
  }

  // ----- computed statistics -----

  /** The `completedTodos` count: none exactly when no todo is completed. */
  function CompletedCount(s: seq<Todo>): (n: nat)
    ensures n <= |s|
    ensures n == 0 <==> forall i :: 0 <= i < |s| ==> !s[i].completed
  {
    FilterEmpty(s, IsCompleted);
    |Filter(s, IsCompleted)|
  }

  /** The `activeTodos` count: none exactly when every todo is completed. */
  function ActiveCount(s: seq<Todo>): (n: nat)
    ensures n <= |s|
    ensures n == 0 <==> forall i :: 0 <= i < |s| ==> s[i].completed
  {
    FilterEmpty(s, IsActive);
    |Filter(s, IsActive)|
  }

  /** Completed and active todos add up to the total. */
  lemma CountsAddUp(s: seq<Todo>)
    ensures CompletedCount(s) + ActiveCount(s) == |s|
  {
    FilterPartition(s, IsCompleted, IsActive);
  }

  /** A todo added as not completed leaves the completed count alone and adds one active todo. */
  lemma AddCounts(s: seq<Todo>, t: Todo)
    requires !t.completed
    ensures CompletedCount(s + [t]) == CompletedCount(s)
    ensures ActiveCount(s + [t]) == ActiveCount(s) + 1
  {
    FilterConcat(s, [t], IsCompleted);
    FilterConcat(s, [t], IsActive);
  }

  /** clearCompleted keeps only incomplete todos, in order; the active count is unchanged,
      the completed count drops to zero, and clearing twice equals clearing once. */
  lemma ClearCompletedSpec(s: seq<Todo>)
    ensures forall t :: t in Incomplete(s) <==> t in s && !t.completed
    ensures IsSubsequence(Incomplete(s), s)
    ensures ActiveCount(Incomplete(s)) == ActiveCount(s)
    ensures CompletedCount(Incomplete(s)) == 0
    ensures Incomplete(Incomplete(s)) == Incomplete(s)
  {
    forall t
      ensures t in Incomplete(s) <==> t in s && !t.completed
    {
      FilterMembership(s, IsActive, t);
    }
    FilterIsSubsequence(s, IsActive);
    FilterIdempotent(s, IsActive);
    FilterComplementEmpty(s, IsCompleted, IsActive);
  }

  /** `Math.round(part / total * 100)`, with 0 for an empty list, on exact rationals:
      the percentage rounded to the nearest integer, halves rounded up. */
  function RoundedPercent(part: nat, total: nat): (p: nat)
    ensures total == 0 ==> p == 0
    ensures total > 0 ==> -(total as int) <= 2 * (100 * part - p * total) < total
    ensures part <= total ==> p <= 100
  {
    if total == 0 then 0
    else
      var p := (200 * part + total) / (2 * total);
      PercentBounds(part, total, p);
      p
  }

  lemma PercentBounds(part: nat, total: nat, p: int)
    requires total > 0 && p == (200 * part + total) / (2 * total)
    ensures -(total as int) <= 2 * (100 * part - p * total) < total
    ensures p >= 0
    ensures part <= total ==> p <= 100
  {
    var n, d := 200 * part + total, 2 * total;
    var rem := n % d;
    assert n == d * p + rem && 0 <= rem < d;
    assert d * p == 2 * (p * total);
    assert 2 * (100 * part - p * total) == rem - total;
    if p < 0 {
      MultiplyMonotone(total, p, -1);
    }
    if part <= total && p > 100 {
      MultiplyMonotone(total, 101, p);
    }
  }

  lemma MultiplyMonotone(k: nat, a: int, b: int)
    requires a <= b
    ensures k * a <= k * b
  {
    var diff := b - a;
    assert k * b == k * a + k * diff;
  }

  // ----- sortedTodos -----

  predicate NewestFirstOrder(s: seq<Todo>)
  {
    forall i, j :: 0 <= i < j < |s| ==> s[i].createdAt >= s[j].createdAt
  }

  /** Inserts `t` before the first todo that is not newer than it. */
  function InsertNewest(t: Todo, s: seq<Todo>): (r: seq<Todo>)
    ensures multiset(r) == multiset(s) + multiset{t}
    ensures forall x :: x in r ==> x == t || x in s
  {
    if s == [] then [t]
    else if s[0].createdAt <= t.createdAt then [t] + s
    else
      var r := [s[0]] + InsertNewest(t, s[1..]);
      assert s == [s[0]] + s[1..];
      r
  }

  /** A todo at least as new as every todo of a newest-first list may head it. */
  lemma PrependKeepsOrder(t: Todo, s: seq<Todo>)
    requires NewestFirstOrder(s)
    requires forall x :: x in s ==> t.createdAt >= x.createdAt
    ensures NewestFirstOrder([t] + s)
  {
  }

  /** Inserting into a newest-first list keeps it newest first. */
  lemma {:induction false} InsertKeepsOrder(t: Todo, s: seq<Todo>)
    requires NewestFirstOrder(s)
    ensures NewestFirstOrder(InsertNewest(t, s))
  {
    if s == [] {
    } else if s[0].createdAt <= t.createdAt {
      PrependKeepsOrder(t, s);
    } else {
      var rest := InsertNewest(t, s[1..]);
      InsertKeepsOrder(t, s[1..]);
      forall x | x in rest
        ensures s[0].createdAt >= x.createdAt
      {
        if x != t {
          var k :| 0 <= k < |s[1..]| && s[1..][k] == x;
          assert s[k + 1] == x;
        }
      }
      PrependKeepsOrder(s[0], rest);
    }
  }

  /** The copy-and-sort of `sortedTodos`: newest first, ties in list order (a stable sort). */
  function NewestFirst(s: seq<Todo>): (r: seq<Todo>)
    ensures multiset(r) == multiset(s)
    ensures NewestFirstOrder(r)
  {
    if s == [] then []
    else
      var r := InsertNewest(s[0], NewestFirst(s[1..]));
      InsertKeepsOrder(s[0], NewestFirst(s[1..]));
      assert s == [s[0]] + s[1..];
      r
  }

  lemma {:induction false} InsertKeepsTies(t: Todo, s: seq<Todo>, at: int)
    ensures Filter(InsertNewest(t, s), CreatedAt(at)) == Filter([t] + s, CreatedAt(at))
  {
    if s != [] && s[0].createdAt > t.createdAt {
      InsertKeepsTies(t, s[1..], at);
      var rest := InsertNewest(t, s[1..]);
      assert InsertNewest(t, s) == [s[0]] + rest;
      assert ([t] + s)[1..] == s;
      assert ([s[0]] + rest)[1..] == rest;
      assert ([t] + s[1..])[1..] == s[1..];
    }
  }

  /** The sort is stable: the todos created at any one time keep their relative list order. */
  lemma {:induction false} SortIsStable(s: seq<Todo>, at: int)
    ensures Filter(NewestFirst(s), CreatedAt(at)) == Filter(s, CreatedAt(at))
  {
    if s != [] {
      SortIsStable(s[1..], at);
      InsertKeepsTies(s[0], NewestFirst(s[1..]), at);
      assert ([s[0]] + NewestFirst(s[1..]))[1..] == NewestFirst(s[1..]);
    }
  }

  // ----- loadSampleData -----

  /** The three sample todos, numbered from `first`, created one hour ago, half an hour ago and now. */
  function SampleTodos(first: int, now: int): (r: seq<Todo>)
    ensures |r| == 3 && DistinctIds(r)
    ensures forall i :: 0 <= i < 3 ==> r[i].id == first + i
    ensures r[0].completed && !r[1].completed && !r[2].completed
  {
    [ Todo(first, "Learn Signals in Angular", true, now - 3600000),
      Todo(first + 1, "Understand computed() and effect()", false, now - 1800000),
      Todo(first + 2, "Implement untracked() in effects", false, now) ]
  }

  /** `TodoService`: the list signal `todos` and the id counter `nextId`. */
  class TodoService {
    var todos: seq<Todo>
    var nextId: int

    /** Ids are distinct and all below the counter, so the counter always hands out a fresh one. */
    ghost predicate Valid()
      reads this
    {
      1 <= nextId && DistinctIds(todos) && IdsBelow(todos, nextId)
    }

    constructor ()
      ensures Valid() && todos == [] && nextId == 1
    {
      todos := [];
      nextId := 1;
    }

    function TotalTodos(): (n: nat)
      reads this
      ensures n == CompletedCount(todos) + ActiveCount(todos)
    {
      CountsAddUp(todos);
      |todos|
    }

    function CompletedTodos(): (n: nat)
      reads this
      ensures n <= |todos|
    {
      CountsAddUp(todos);
      CompletedCount(todos)
    }

    function ActiveTodos(): (n: nat)
      reads this
      ensures n == |todos| - CompletedCount(todos)
    {
      CountsAddUp(todos);
      ActiveCount(todos)
    }

    function CompletionPercentage(): (p: nat)
      reads this
      ensures p <= 100
      ensures todos == [] ==> p == 0
      ensures todos != [] ==> -|todos| <= 2 * (100 * CompletedTodos() - p * |todos|) < |todos|
    {
      RoundedPercent(CompletedTodos(), TotalTodos())
    }

    function SortedTodos(): (r: seq<Todo>)
      reads this
      ensures multiset(r) == multiset(todos)
      ensures NewestFirstOrder(r)
    {
      NewestFirst(todos)
    }

    method AddTodo(title: string, now: int)
      requires Valid()
      modifies this
      ensures Valid()
      ensures todos == old(todos) + [Todo(old(nextId), title, false, now)]
      ensures nextId == old(nextId) + 1
    {
      var todo := Todo(nextId, title, false, now);
      nextId := nextId + 1;
      todos := todos + [todo];
    }

    method ToggleTodo(id: int)
      requires Valid()
      modifies this
      ensures Valid()
      ensures todos == Toggled(old(todos), id) && nextId == old(nextId)
    {
      todos := Toggled(todos, id);
    }

    method DeleteTodo(id: int)
      requires Valid()
      modifies this
      ensures Valid()
      ensures todos == WithoutId(old(todos), id) && nextId == old(nextId)
    {
      FilterKeepsIds(todos, HasOtherId(id), nextId);
      todos := WithoutId(todos, id);
    }

    method ClearCompleted()
      requires Valid()
      modifies this
      ensures Valid()
      ensures todos == Incomplete(old(todos)) && nextId == old(nextId)
    {
      FilterKeepsIds(todos, IsActive, nextId);
      todos := Incomplete(todos);
    }

    method LoadSampleData(now: int)
      requires Valid()
      modifies this
      ensures Valid()
      ensures todos == SampleTodos(old(nextId), now)
      ensures nextId == old(nextId) + 3
    {
      todos := SampleTodos(nextId, now);
      nextId := nextId + 3;
    }
  }
}
