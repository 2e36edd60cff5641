/**
 * Ids come from `tasks.length + 1` (server.js, POST handler) and a PUT body
 * may carry its own `id`, so unique ids are not something the server keeps.
 * These lemmas show when ids stay unique and how they stop being so.
 */
module IdAssignment {
  import opened Wrappers
  import opened Tasks
  import opened Responses
  import opened Handlers

  /** Ids are exactly 1 .. |ts|, each once: the shape of the seed while only POSTs happen. */
  predicate DenseIds(ts: seq<Task>) {
    UniqueIds(ts) && forall i :: 0 <= i < |ts| ==> 1 <= ts[i].id <= |ts|
  }

  lemma SeedIsDense()
    ensures DenseIds(SEED)
  {
  }

  /** While ids are dense, a POST assigns an id nobody holds and keeps them dense. */
  lemma CreateKeepsDenseIds(ts: seq<Task>, p: Payload)
    requires DenseIds(ts)
    ensures Absent(ts, Some(|ts| + 1))
    ensures DenseIds(CreateStep(ts, p).tasks)
  {
    var r := CreateStep(ts, p).tasks;
    assert forall i :: 0 <= i < |ts| ==> r[i] == ts[i];
  }

  /**
   * GET on the id a POST just assigned returns the created record when no
   * older task holds that id (as while ids are dense, by CreateKeepsDenseIds).
   */
  lemma GetAfterCreate(ts: seq<Task>, p: Payload)
    requires Absent(ts, Some(|ts| + 1))
    ensures var s := CreateStep(ts, p);
      LookupStep(s.tasks, Some(|ts| + 1)) == Envelope(200, None, s.envelope.data)
  {
    var s := CreateStep(ts, p);
    assert forall j :: 0 <= j < |ts| ==> s.tasks[j] == ts[j];
    assert IsFirstMatch(s.tasks, Some(|ts| + 1), |ts|);
  }

  /** When an older task already holds the assigned id, GET after POST returns that older task. */
  lemma GetAfterCreateCanFindOlder(p: Payload)
    ensures var ts := [Task(2, Some("x"), true)];
      CreateStep(ts, p).tasks[1].id == 2 &&
      LookupStep(CreateStep(ts, p).tasks, Some(2)) == Envelope(200, None, OneTask(Task(2, Some("x"), true)))
  {
    var ts := [Task(2, Some("x"), true)];
    assert IsFirstMatch(CreateStep(ts, p).tasks, Some(2), 0);
  }

  /** Delete keeps ids unique: it only drops a task. */
  lemma DeleteKeepsUniqueIds(ts: seq<Task>, id: Option<int>)
    requires UniqueIds(ts)
    ensures UniqueIds(DeleteStep(ts, id).tasks)
  {
    var k := FindIndex(ts, id);
    if k != -1 {
      var r := DeleteStep(ts, id).tasks;
      forall i, j | 0 <= i < j < |r| ensures r[i].id != r[j].id {
        var i' := if i < k then i else i + 1;
        var j' := if j < k then j else j + 1;
        assert r[i] == ts[i'] && r[j] == ts[j'];
      }
    }
  }

  /** With unique ids, GET on an id just deleted answers 404. */
  lemma GetAfterDelete(ts: seq<Task>, id: Option<int>)
    requires UniqueIds(ts)
    ensures LookupStep(DeleteStep(ts, id).tasks, id) == NOT_FOUND
  {
    var k := FindIndex(ts, id);
    var r := DeleteStep(ts, id).tasks;
    if k != -1 {
      forall i | 0 <= i < |r| ensures !Matches(r[i], id) {
        if i < k { assert r[i] == ts[i]; } else { assert r[i] == ts[i + 1]; }
      }
    }
  }

  /** With two tasks sharing an id, the same GET still finds the second one. */
  lemma GetAfterDeleteWithDuplicate()
    ensures var ts := [Task(1, Some("a"), false), Task(1, Some("b"), true)];
      LookupStep(DeleteStep(ts, Some(1)).tasks, Some(1)) == Envelope(200, None, OneTask(Task(1, Some("b"), true)))
  {
    var ts := [Task(1, Some("a"), false), Task(1, Some("b"), true)];
    assert IsFirstMatch(ts, Some(1), 0);
    var r := DeleteStep(ts, Some(1)).tasks;
    assert r == [Task(1, Some("b"), true)];
    assert IsFirstMatch(r, Some(1), 0);
  }

  /**
   * Deleting any task but the one holding id |ts|, then creating, hands out
   * |ts| a second time.
   */
  lemma DeleteThenCreateReusesId(ts: seq<Task>, id: Option<int>, holder: int, p: Payload)
    requires 0 <= holder < |ts| && ts[holder].id == |ts|
    requires !Absent(ts, id) && id != Some(|ts|)
    ensures !UniqueIds(CreateStep(DeleteStep(ts, id).tasks, p).tasks)
  {
    var k := FindIndex(ts, id);
    var d := DeleteStep(ts, id).tasks;
    assert |d| == |ts| - 1;
    assert holder != k;
    var h := if holder < k then holder else holder - 1;
    assert d[h] == ts[holder];
    var c := CreateStep(d, p).tasks;
    assert c[h] == d[h] && c[|d|].id == |ts|;
  }

  /** On the seed: delete id 1, create, and two tasks carry id 3. */
  lemma SeedDeleteThenCreate(p: Payload)
    ensures CreateStep(DeleteStep(SEED, Some(1)).tasks, p).tasks ==
            [SEED[1], SEED[2], Task(3, p.title, false)]
  {
    assert IsFirstMatch(SEED, Some(1), 0);
  }

  /** A PUT whose body carries another task's id makes two tasks share it. */
  lemma UpdateCanDuplicateId(ts: seq<Task>, id: Option<int>, other: int, p: Payload)
    requires !Absent(ts, id)
    requires 0 <= other < |ts| && !Matches(ts[other], id)
    requires p.id == Some(ts[other].id)
    ensures !UniqueIds(UpdateStep(ts, id, p).tasks)
  {
    var k := FindIndex(ts, id);
    var r := UpdateStep(ts, id, p).tasks;
    assert r[k].id == ts[other].id && r[other] == ts[other];
    if k < other { assert r[k].id == r[other].id; } else { assert r[other].id == r[k].id; }
  }

  /** A PUT body without `id` keeps ids unique. */
  lemma UpdateWithoutIdKeepsUniqueIds(ts: seq<Task>, id: Option<int>, p: Payload)
    requires UniqueIds(ts) && p.id.None?
    ensures UniqueIds(UpdateStep(ts, id, p).tasks)
  {
    var k := FindIndex(ts, id);
    if k != -1 {
      var r := UpdateStep(ts, id, p).tasks;
      assert forall i :: 0 <= i < |r| ==> r[i].id == ts[i].id;
    }
  }
}
