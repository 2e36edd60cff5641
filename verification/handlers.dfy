/**
 * The bodies of the get-by-id, POST, PUT and DELETE handlers of server.js
 * as functions on the collection: what each leaves in the collection and
 * the envelope it answers with. They specify the methods of
 * Server.TaskServer, which change the collection in place.
 */
module Handlers {
  import opened Wrappers
  import opened Tasks
  import opened Responses

  /** The collection after a handler ran, and the envelope it answered with. */
  datatype Step = Step(tasks: seq<Task>, envelope: Envelope)

  /** Get-by-id: `tasks.find(t => t.id === id)`, 200 with the task or the 404 envelope. */
  function LookupStep(ts: seq<Task>, id: Option<int>): (env: Envelope)
    ensures Absent(ts, id) ==> env == NOT_FOUND
    ensures forall k :: IsFirstMatch(ts, id, k) ==> env == Envelope(200, None, OneTask(ts[k]))
  {
    var k := FindIndex(ts, id);
    if k == -1 then NOT_FOUND
    else
      assert forall k' :: IsFirstMatch(ts, id, k') ==> k' == k by {
        forall k' | IsFirstMatch(ts, id, k') ensures k' == k { FirstMatchIsFindIndex(ts, id, k'); }
      }
      Envelope(200, None, OneTask(ts[k]))
  }

  /** POST: push `{id: tasks.length + 1, title: payload.title, isCompleted: false}`, answer 201. */
  function CreateStep(ts: seq<Task>, p: Payload): (r: Step)
    ensures |r.tasks| == |ts| + 1 && r.tasks[..|ts|] == ts
    ensures r.tasks[|ts|] == Task(|ts| + 1, p.title, false)
    ensures r.envelope == Envelope(201, Some(CREATED_MESSAGE), OneTask(r.tasks[|ts|]))
  {
    var t := Task(|ts| + 1, p.title, false);
    Step(ts + [t], Envelope(201, Some(CREATED_MESSAGE), OneTask(t)))
  }

  /** PUT: overwrite the first task with the id by its shallow merge with the body, or 404. */
  function UpdateStep(ts: seq<Task>, id: Option<int>, p: Payload): (r: Step)
    ensures Absent(ts, id) ==> r == Step(ts, NOT_FOUND)
    ensures forall k :: IsFirstMatch(ts, id, k) ==>
              |r.tasks| == |ts| && r.tasks[k] == Merge(ts[k], p) &&
              (forall i :: 0 <= i < |ts| && i != k ==> r.tasks[i] == ts[i]) &&
              r.envelope == Envelope(200, Some(UPDATED_MESSAGE), OneTask(r.tasks[k]))
  {
    var k := FindIndex(ts, id);
    if k == -1 then Step(ts, NOT_FOUND)
    else
      assert forall k' :: IsFirstMatch(ts, id, k') ==> k' == k by {
        forall k' | IsFirstMatch(ts, id, k') ensures k' == k { FirstMatchIsFindIndex(ts, id, k'); }
      }
      var updated := ts[k := Merge(ts[k], p)];
      Step(updated, Envelope(200, Some(UPDATED_MESSAGE), OneTask(updated[k])))
  }

  /** DELETE: `tasks.splice(index, 1)` on the first task with the id, or 404. */
  function DeleteStep(ts: seq<Task>, id: Option<int>): (r: Step)
    ensures Absent(ts, id) ==> r == Step(ts, NOT_FOUND)
    ensures forall k :: IsFirstMatch(ts, id, k) ==>
              |r.tasks| == |ts| - 1 &&
              (forall i :: 0 <= i < k ==> r.tasks[i] == ts[i]) &&
              (forall i :: k <= i < |r.tasks| ==> r.tasks[i] == ts[i + 1]) &&
              r.envelope == Envelope(200, Some(DELETED_MESSAGE), NoData)
  {
    var k := FindIndex(ts, id);
    if k == -1 then Step(ts, NOT_FOUND)
    else
      assert forall k' :: IsFirstMatch(ts, id, k') ==> k' == k by {
        forall k' | IsFirstMatch(ts, id, k') ensures k' == k { FirstMatchIsFindIndex(ts, id, k'); }
      }
      Step(ts[..k] + ts[k + 1..], Envelope(200, Some(DELETED_MESSAGE), NoData))
  }

  /** Delete removes exactly one occurrence of the task it found and keeps every other. */
  lemma DeleteRemovesOneOccurrence(ts: seq<Task>, id: Option<int>, k: int)
    requires IsFirstMatch(ts, id, k)
    ensures multiset(DeleteStep(ts, id).tasks) + multiset{ts[k]} == multiset(ts)
  {
    FirstMatchIsFindIndex(ts, id, k);
    var left, right := ts[..k], ts[k + 1..];
    assert DeleteStep(ts, id).tasks == left + right;
    assert ts == left + [ts[k]] + right;
    calc {
      multiset(ts);
      multiset(left) + multiset{ts[k]} + multiset(right);
      multiset(left + right) + multiset{ts[k]};
    }
  }
}
