/**
 * The task-list reducers of `src/features/tasks/taskSlice.js`.
 *
 * The slice state is `{ tasks: [] }`; each reducer writes into that state.
 * `TaskStore` is the state object, its `tasks` field the array the reducers
 * assign or push onto. The pure functions `FindIndex`, `WithoutId` and
 * `Updated` are the array operations the reducers use (`findIndex`, `filter`,
 * the indexed assignment), and the lemmas below state what they promise.
 */
module TaskSlice {

  /** A task record. Only `id` is ever examined here; the other fields are payload. */
  datatype Task = Task(id: string, title: string, description: string, status: string)

  /** The ids of a task list, in order. */
  function Ids(tasks: seq<Task>): (r: seq<string>)
    ensures |r| == |tasks|
    ensures forall k :: 0 <= k < |tasks| ==> r[k] == tasks[k].id
  {
    if tasks == [] then [] else [tasks[0].id] + Ids(tasks[1..])
  }

  /** How often tasks with the given id occur. */
  function CountId(tasks: seq<Task>, id: string): (n: nat)
  {
    if tasks == [] then 0
    else (if tasks[0].id == id then 1 else 0) + CountId(tasks[1..], id)
  }

  // ---------------------------------------------------------------------------
  // findIndex

  /**
   * `tasks.findIndex(task => task.id === id)`: the first index holding a task
   * with that id, or -1 when there is none.
   */
  function FindIndex(tasks: seq<Task>, id: string): (i: int)
    ensures -1 <= i < |tasks|
    ensures i == -1 <==> (forall k :: 0 <= k < |tasks| ==> tasks[k].id != id)
    ensures 0 <= i ==> tasks[i].id == id && forall k :: 0 <= k < i ==> tasks[k].id != id
  {
    if tasks == [] then -1
    else if tasks[0].id == id then 0
    else
      var j := FindIndex(tasks[1..], id);
      if j == -1 then -1 else j + 1
  }

  // ---------------------------------------------------------------------------
  // filter

  /** `tasks.filter(task => task.id !== id)`. */
  function WithoutId(tasks: seq<Task>, id: string): (r: seq<Task>)
    ensures |r| <= |tasks|
    ensures forall k :: 0 <= k < |r| ==> r[k].id != id
  {
    if tasks == [] then []
    else if tasks[0].id != id then [tasks[0]] + WithoutId(tasks[1..], id)
    else WithoutId(tasks[1..], id)
  }

  /** `sub` is obtained from `s` by deleting elements: it keeps their relative order. */
  predicate IsSubsequence(sub: seq<Task>, s: seq<Task>)
    decreases |s|
  {
    if sub == [] then true
    else if s == [] then false
    else if sub[0] == s[0] then IsSubsequence(sub[1..], s[1..])
    else IsSubsequence(sub, s[1..])
  }

  /** `r` holds every task of `s` whose id is not `id`, as often as `s` does, and nothing else. */
  ghost predicate KeepsExactlyOthers(r: seq<Task>, s: seq<Task>, id: string)
  {
    forall t :: multiset(r)[t] == if t.id == id then 0 else multiset(s)[t]
  }

  lemma {:induction false} SubsequenceOfEmpty(sub: seq<Task>)
    requires IsSubsequence(sub, [])
    ensures sub == []
  {
  }

  lemma {:induction false} SubsequenceMultiset(sub: seq<Task>, s: seq<Task>)
    requires IsSubsequence(sub, s)
    ensures multiset(sub) <= multiset(s)
    decreases |s|
  {
    if sub == [] {
    } else {
      assert s == [s[0]] + s[1..];
      if sub[0] == s[0] {
        SubsequenceMultiset(sub[1..], s[1..]);
        assert sub == [sub[0]] + sub[1..];
      } else {
        SubsequenceMultiset(sub, s[1..]);
      }
    }
  }

  /** The filter keeps the relative order of the tasks it keeps. */
  lemma {:induction false} WithoutIdKeepsOrder(tasks: seq<Task>, id: string)
    ensures IsSubsequence(WithoutId(tasks, id), tasks)
  {
    if tasks != [] {
      WithoutIdKeepsOrder(tasks[1..], id);
      var r := WithoutId(tasks, id);
      if tasks[0].id != id {
        assert r[0] == tasks[0] && r[1..] == WithoutId(tasks[1..], id);
      } else if r != [] {
        assert r[0].id != id;
      }
    }
  }

  /** The filter keeps exactly the tasks whose id differs, each as often as before. */
  lemma {:induction false} WithoutIdKeepsOthers(tasks: seq<Task>, id: string)
    ensures KeepsExactlyOthers(WithoutId(tasks, id), tasks, id)
  {
    if tasks != [] {
      WithoutIdKeepsOthers(tasks[1..], id);
      assert tasks == [tasks[0]] + tasks[1..];
    }
  }

  /**
   * The two properties above determine the filter's result: any order-keeping
   * selection that keeps exactly the tasks with another id is `WithoutId`.
   */
  lemma {:induction false} WithoutIdUnique(r: seq<Task>, tasks: seq<Task>, id: string)
    requires IsSubsequence(r, tasks)
    requires KeepsExactlyOthers(r, tasks, id)
    ensures r == WithoutId(tasks, id)
    decreases |tasks|
  {
    if tasks == [] {
      SubsequenceOfEmpty(r);
    } else {
      var x, rest := tasks[0], tasks[1..];
      assert tasks == [x] + rest;
      if x.id == id {
        assert multiset(r)[x] == 0;
        if r != [] {
          assert r[0] in multiset(r);
          assert r[0] != x;
        }
        assert IsSubsequence(r, rest);
        forall t ensures multiset(r)[t] == if t.id == id then 0 else multiset(rest)[t] {
        }
        WithoutIdUnique(r, rest, id);
      } else {
        assert multiset(r)[x] == multiset(tasks)[x] >= 1;
        assert r != [];
        if r[0] != x {
          assert IsSubsequence(r, rest);
          SubsequenceMultiset(r, rest);
          assert false;
        }
        assert IsSubsequence(r[1..], rest);
        assert r == [x] + r[1..];
        forall t ensures multiset(r[1..])[t] == if t.id == id then 0 else multiset(rest)[t] {
          assert multiset(r)[t] == multiset(r[1..])[t] + (if t == x then 1 else 0);
        }
        WithoutIdUnique(r[1..], rest, id);
      }
    }
  }

  /** When no task has the id, the filter changes nothing. */
  lemma {:induction false} WithoutIdAbsent(tasks: seq<Task>, id: string)
    requires forall k :: 0 <= k < |tasks| ==> tasks[k].id != id
    ensures WithoutId(tasks, id) == tasks
  {
    if tasks != [] {
      WithoutIdAbsent(tasks[1..], id);
      assert tasks == [tasks[0]] + tasks[1..];
    }
  }

  /** Deleting twice is deleting once. */
  lemma {:induction false} WithoutIdIdempotent(tasks: seq<Task>, id: string)
    ensures WithoutId(WithoutId(tasks, id), id) == WithoutId(tasks, id)
  {
    WithoutIdAbsent(WithoutId(tasks, id), id);
  }

  /** The filter distributes over concatenation. */
  lemma {:induction false} WithoutIdAppend(a: seq<Task>, b: seq<Task>, id: string)
    ensures WithoutId(a + b, id) == WithoutId(a, id) + WithoutId(b, id)
  {
    if a == [] {
      assert a + b == b;
    } else {
      WithoutIdAppend(a[1..], b, id);
      assert (a + b)[1..] == a[1..] + b;
    }
  }

  /** The filter leaves no task with the id and removes every one of them. */
  lemma {:induction false} WithoutIdCount(tasks: seq<Task>, id: string)
    ensures CountId(WithoutId(tasks, id), id) == 0
    ensures |WithoutId(tasks, id)| == |tasks| - CountId(tasks, id)
  {
    if tasks != [] {
      WithoutIdCount(tasks[1..], id);
      if tasks[0].id != id {
        assert WithoutId(tasks, id)[1..] == WithoutId(tasks[1..], id);
      }
    }
  }

  // ---------------------------------------------------------------------------
  // indexed update

  /** `updateTask`'s effect on the list: overwrite the first slot whose id matches `payload.id`. */
  function Updated(tasks: seq<Task>, payload: Task): (r: seq<Task>)
    ensures |r| == |tasks|
  {
    var index := FindIndex(tasks, payload.id);
    if index != -1 then tasks[index := payload] else tasks
  }

  /**
   * When some task has `payload.id`, the first such slot becomes `payload`
   * and every other slot, later duplicates of the same id included, is kept.
   */
  lemma UpdatedOverwritesFirstMatch(tasks: seq<Task>, payload: Task, i: nat)
    requires i < |tasks| && tasks[i].id == payload.id
    requires forall k :: 0 <= k < i ==> tasks[k].id != payload.id
    ensures |Updated(tasks, payload)| == |tasks|
    ensures Updated(tasks, payload)[i] == payload
    ensures forall k :: 0 <= k < |tasks| && k != i ==> Updated(tasks, payload)[k] == tasks[k]
  {
  }

  /** When no task has `payload.id`, `updateTask` changes nothing. */
  lemma UpdatedWithoutMatch(tasks: seq<Task>, payload: Task)
    requires forall k :: 0 <= k < |tasks| ==> tasks[k].id != payload.id
    ensures Updated(tasks, payload) == tasks
  {
  }

  /** An update never changes which ids the list holds, nor their order. */
  lemma UpdatedKeepsIds(tasks: seq<Task>, payload: Task)
    ensures Ids(Updated(tasks, payload)) == Ids(tasks)
  {
    var r := Updated(tasks, payload);
    assert |Ids(r)| == |Ids(tasks)|;
    forall k | 0 <= k < |tasks| ensures Ids(r)[k] == Ids(tasks)[k] {
    }
  }

  /** `addTask` makes no id check: a task whose id is already present is appended alongside it. */
  lemma {:induction false} AppendedCountsDuplicate(tasks: seq<Task>, t: Task)
    ensures CountId(tasks + [t], t.id) == CountId(tasks, t.id) + 1
  {
    if tasks == [] {
      assert tasks + [t] == [t];
    } else {
      AppendedCountsDuplicate(tasks[1..], t);
      assert (tasks + [t])[1..] == tasks[1..] + [t];
    }
  }

  /** Deleting the id of a freshly added task removes it together with every earlier task of that id. */
  lemma AppendThenDelete(tasks: seq<Task>, t: Task)
    ensures WithoutId(tasks + [t], t.id) == WithoutId(tasks, t.id)
  {
    WithoutIdAppend(tasks, [t], t.id);
    assert WithoutId([t], t.id) == [];
  }

  // ---------------------------------------------------------------------------
  // the slice state and its reducers

  /** The slice state `{ tasks: [...] }`, mutated in place by the reducers. */
  class TaskStore {
    var tasks: seq<Task>

    /** `initialState`: no tasks. */
    constructor ()
      ensures tasks == []
    {
      tasks := [];
    }

    /** `setTasks`: the list becomes the payload, whatever it held before. */
    method SetTasks(payload: seq<Task>)
      modifies this
      ensures tasks == payload
    {
      tasks := payload;
    }

    /** `addTask`: push the payload onto the list, with no id check. */
    method AddTask(payload: Task)
      modifies this
      ensures tasks == old(tasks) + [payload]
      ensures |tasks| == |old(tasks)| + 1 && tasks[|tasks| - 1] == payload
      ensures tasks[..|old(tasks)|] == old(tasks)
    {
      tasks := tasks + [payload];
    }

    /** `deleteTask`: keep, in order, exactly the tasks whose id differs from the payload. */
    method DeleteTask(id: string)
      modifies this
      ensures tasks == WithoutId(old(tasks), id)
      ensures |tasks| <= |old(tasks)|
      ensures forall k :: 0 <= k < |tasks| ==> tasks[k].id != id
      ensures IsSubsequence(tasks, old(tasks)) && KeepsExactlyOthers(tasks, old(tasks), id)
    {
      WithoutIdKeepsOrder(tasks, id);
      WithoutIdKeepsOthers(tasks, id);
      tasks := WithoutId(tasks, id);
    }

    /** `updateTask`: overwrite the first task whose id is `payload.id`, if there is one. */
    method UpdateTask(payload: Task)
      modifies this
      ensures tasks == Updated(old(tasks), payload)
      ensures |tasks| == |old(tasks)|
      ensures (forall k :: 0 <= k < |old(tasks)| ==> old(tasks)[k].id != payload.id) ==> tasks == old(tasks)
      ensures forall i :: (0 <= i < |old(tasks)| && old(tasks)[i].id == payload.id &&
                           (forall k :: 0 <= k < i ==> old(tasks)[k].id != payload.id)) ==>
                tasks == old(tasks)[i := payload]
    {
      var index := FindIndex(tasks, payload.id);
      if index != -1 {
        tasks := tasks[index := payload];
      }
    }
  }
}
