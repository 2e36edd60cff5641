/**
 * The task records the server keeps in memory, the partial record a client
 * sends in a request body, and the `findIndex` lookup by id that every
 * id-taking route uses (server.js).
 */
module Tasks {
  import opened Wrappers

  /**
   * A task. `title` is None when the POST that created the task carried no
   * title: the record then holds `undefined`, which JSON output drops.
   */
  datatype Task = Task(id: int, title: Option<string>, isCompleted: bool)

  /** An already-decoded request body: each known field is present or absent. */
  datatype Payload = Payload(id: Option<int>, title: Option<string>, isCompleted: Option<bool>)

  /** The collection the process starts with. */
  const SEED: seq<Task> := [
    Task(1, Some("Task One"), false),
    Task(2, Some("Task Two"), true),
    Task(3, Some("Task Three"), false)
  ]

  /**
   * `t.id === id`, where `id` is the Number parsed from the URL; None stands
   * for NaN, which is strictly equal to nothing.
   */
  predicate Matches(t: Task, id: Option<int>) {
    id.Some? && t.id == id.value
  }

  /** `k` is the index of the first task carrying `id`. */
  predicate IsFirstMatch(ts: seq<Task>, id: Option<int>, k: int) {
    0 <= k < |ts| && Matches(ts[k], id) && forall j :: 0 <= j < k ==> !Matches(ts[j], id)
  }

  /** No task carries `id`. */
  predicate Absent(ts: seq<Task>, id: Option<int>) {
    forall i :: 0 <= i < |ts| ==> !Matches(ts[i], id)
  }

  /** `ts.findIndex(t => t.id === id)`: the first matching index, or -1. */
  function FindIndex(ts: seq<Task>, id: Option<int>): (k: int)
    ensures -1 <= k < |ts|
    ensures k == -1 <==> Absent(ts, id)
    ensures k != -1 ==> IsFirstMatch(ts, id, k)
    decreases |ts|
  {
    if |ts| == 0 then -1
    else if Matches(ts[0], id) then 0
    else
      var k := FindIndex(ts[1..], id);
      if k == -1 then -1 else k + 1
  }

  /** There is only one first match, so FindIndex is the only index that is one. */
  lemma FirstMatchIsFindIndex(ts: seq<Task>, id: Option<int>, k: int)
    requires IsFirstMatch(ts, id, k)
    ensures FindIndex(ts, id) == k
  {
    assert Matches(ts[k], id);
  }

  /** The shallow merge `{...t, ...p}`: every field the payload carries wins, `id` included. */
  function Merge(t: Task, p: Payload): Task {
    Task(
      if p.id.Some? then p.id.value else t.id,
      if p.title.Some? then p.title else t.title,
      if p.isCompleted.Some? then p.isCompleted.value else t.isCompleted)
  }

  /** An empty body changes nothing. */
  lemma MergeEmptyPayload(t: Task)
    ensures Merge(t, Payload(None, None, None)) == t
  {
  }

  /** Applying the same body twice is the same as applying it once. */
  lemma MergeIdempotent(t: Task, p: Payload)
    ensures Merge(Merge(t, p), p) == Merge(t, p)
  {
  }

  /** A body carrying only `isCompleted` keeps the id and the title and sets the flag. */
  lemma MergeCompletionOnly(t: Task, done: bool)
    ensures Merge(t, Payload(None, None, Some(done))) == Task(t.id, t.title, done)
  {
  }

  /** Every task carries a different id. */
  predicate UniqueIds(ts: seq<Task>) {
    forall i, j :: 0 <= i < j < |ts| ==> ts[i].id != ts[j].id
  }
}
