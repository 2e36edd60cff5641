/**
 * Route selection in the request callback of server.js: a chain of `if`
 * tests on the method and the raw URL, tried in order, the first that holds
 * picking the handler; and the id a handler reads off the URL,
 * `Number(url.split("/").pop())`.
 */
module Routing {
  import opened Wrappers

  /** The branch of the request callback that serves a request. */
  datatype Handler =
    | Preflight
    | ListTasks
    | GetTask
    | CreateTask
    | UpdateTask
    | DeleteTask
    | Relay
    | NotFound

  const TASKS_PATH: string := "/api/tasks"
  const TASK_PREFIX: string := "/api/tasks/"
  const RELAY_PREFIX: string := "/bypass-cors"

  /**
   * The `if` chain. Paths are compared as raw strings: `==` for the
   * collection, `startsWith` (the sequence prefix `<=`) for the rest; the
   * query string is not split off first.
   */
  function Dispatch(verb: string, url: string): (h: Handler)
    ensures h == Preflight <==> verb == "OPTIONS"
    ensures h in {ListTasks, GetTask, Relay} ==> verb == "GET"
    ensures h == CreateTask ==> verb == "POST"
    ensures h == UpdateTask ==> verb == "PUT"
    ensures h == DeleteTask ==> verb == "DELETE"
    ensures h in {ListTasks, CreateTask} ==> url == TASKS_PATH
    ensures h in {GetTask, UpdateTask, DeleteTask} ==> TASK_PREFIX <= url
    ensures h == Relay ==> RELAY_PREFIX <= url
  {
    if verb == "OPTIONS" then Preflight
    else if verb == "GET" && url == TASKS_PATH then ListTasks
    else if verb == "GET" && TASK_PREFIX <= url then GetTask
    else if verb == "POST" && url == TASKS_PATH then CreateTask
    else if verb == "PUT" && TASK_PREFIX <= url then UpdateTask
    else if verb == "DELETE" && TASK_PREFIX <= url then DeleteTask
    else if verb == "GET" && RELAY_PREFIX <= url then Relay
    else NotFound
  }

  // ---------------------------------------------------------------------
  // The same routes written as a declarative table with first-match lookup.
  // ---------------------------------------------------------------------

  datatype PathRule = AnyPath | ExactPath(path: string) | PathPrefix(prefix: string)

  /** A route: the request method it serves, a path rule and its handler. */
  datatype Rule = Rule(verb: string, path: PathRule, handler: Handler)

  predicate Applies(rule: Rule, verb: string, url: string) {
    rule.verb == verb &&
    match rule.path
    case AnyPath => true
    case ExactPath(p) => url == p
    case PathPrefix(p) => p <= url
  }

  const ROUTE_TABLE: seq<Rule> := [
    Rule("OPTIONS", AnyPath, Preflight),
    Rule("GET", ExactPath(TASKS_PATH), ListTasks),
    Rule("GET", PathPrefix(TASK_PREFIX), GetTask),
    Rule("POST", ExactPath(TASKS_PATH), CreateTask),
    Rule("PUT", PathPrefix(TASK_PREFIX), UpdateTask),
    Rule("DELETE", PathPrefix(TASK_PREFIX), DeleteTask),
    Rule("GET", PathPrefix(RELAY_PREFIX), Relay)
  ]

  /** The handler of the first rule at or after `from` that applies; NotFound when none does. */
  function FirstApplicable(rules: seq<Rule>, verb: string, url: string, from: nat): Handler
    requires from <= |rules|
    decreases |rules| - from
  {
    if from == |rules| then NotFound
    else if Applies(rules[from], verb, url) then rules[from].handler
    else FirstApplicable(rules, verb, url, from + 1)
  }

  /** FirstApplicable picks the first applicable rule, and NotFound only when none applies. */
  lemma {:induction false} FirstApplicableIsFirstMatch(rules: seq<Rule>, verb: string, url: string, from: nat)
    requires from <= |rules|
    ensures forall i :: from <= i < |rules| && Applies(rules[i], verb, url) &&
                        (forall j :: from <= j < i ==> !Applies(rules[j], verb, url))
                        ==> FirstApplicable(rules, verb, url, from) == rules[i].handler
    ensures (forall i :: from <= i < |rules| ==> !Applies(rules[i], verb, url)) ==>
            FirstApplicable(rules, verb, url, from) == NotFound
    decreases |rules| - from
  {
    if from < |rules| && !Applies(rules[from], verb, url) {
      FirstApplicableIsFirstMatch(rules, verb, url, from + 1);
    }
  }

  /** The `if` chain is exactly first-match over the route table. */
  lemma DispatchFollowsRouteTable(verb: string, url: string)
    ensures Dispatch(verb, url) == FirstApplicable(ROUTE_TABLE, verb, url, 0)
  {
    var t := ROUTE_TABLE;
    assert FirstApplicable(t, verb, url, 7) == NotFound;
    assert FirstApplicable(t, verb, url, 6) ==
      if Applies(t[6], verb, url) then Relay else FirstApplicable(t, verb, url, 7);
    assert FirstApplicable(t, verb, url, 5) ==
      if Applies(t[5], verb, url) then DeleteTask else FirstApplicable(t, verb, url, 6);
    assert FirstApplicable(t, verb, url, 4) ==
      if Applies(t[4], verb, url) then UpdateTask else FirstApplicable(t, verb, url, 5);
    assert FirstApplicable(t, verb, url, 3) ==
      if Applies(t[3], verb, url) then CreateTask else FirstApplicable(t, verb, url, 4);
    assert FirstApplicable(t, verb, url, 2) ==
      if Applies(t[2], verb, url) then GetTask else FirstApplicable(t, verb, url, 3);
    assert FirstApplicable(t, verb, url, 1) ==
      if Applies(t[1], verb, url) then ListTasks else FirstApplicable(t, verb, url, 2);
    assert FirstApplicable(t, verb, url, 0) ==
      if Applies(t[0], verb, url) then Preflight else FirstApplicable(t, verb, url, 1);
  }

  /**
   * A query string on the collection path defeats both the exact list rule
   * and the `/api/tasks/` prefix rule, so the request falls through to 404.
   */
  lemma ListWithQueryIsNotFound(query: string)
    ensures Dispatch("GET", TASKS_PATH + "?" + query) == NotFound
  {
    var url := TASKS_PATH + "?" + query;
    assert url[10] == '?';
    assert url != TASKS_PATH by { assert |url| > |TASKS_PATH|; }
    assert !(TASK_PREFIX <= url) by { assert TASK_PREFIX[10] == '/'; }
    assert !(RELAY_PREFIX <= url) by { assert url[1] == 'a' && RELAY_PREFIX[1] == 'b'; }
  }

  /** Create needs the exact collection path; update, delete and get-by-id need the trailing slash. */
  lemma WrongSlashIsNotFound()
    ensures Dispatch("POST", TASK_PREFIX) == NotFound
    ensures Dispatch("PUT", TASKS_PATH) == NotFound
    ensures Dispatch("DELETE", TASKS_PATH) == NotFound
  {
  }

  // ---------------------------------------------------------------------
  // The id segment: `url.split("/").pop()` then `Number(...)`.
  // ---------------------------------------------------------------------

  /** `s.split("/").pop()`: the longest suffix of `s` without a slash. */
  function LastSegment(s: string): (seg: string)
    ensures |seg| <= |s| && seg == s[|s| - |seg|..]
    ensures forall i :: 0 <= i < |seg| ==> seg[i] != '/'
    ensures |seg| < |s| ==> s[|s| - |seg| - 1] == '/'
    decreases |s|
  {
    if |s| == 0 then ""
    else if s[|s| - 1] == '/' then ""
    else LastSegment(s[..|s| - 1]) + [s[|s| - 1]]
  }

  /** Whatever precedes the last slash, the segment after it is what `pop` returns. */
  lemma LastSegmentAfterSlash(prefix: string, seg: string)
    requires forall i :: 0 <= i < |seg| ==> seg[i] != '/'
    ensures LastSegment(prefix + "/" + seg) == seg
  {
    var s := prefix + "/" + seg;
    var r := LastSegment(s);
    assert s[|s| - |seg| - 1] == '/';
    assert forall i :: 0 <= i < |seg| ==> s[|s| - |seg| + i] == seg[i];
    assert |r| == |seg|;
    assert r == s[|s| - |seg|..] == seg;
  }

  predicate IsDigit(c: char) {
    '0' <= c <= '9'
  }

  predicate AllDigits(s: string) {
    forall i :: 0 <= i < |s| ==> IsDigit(s[i])
  }

  /** The decimal value of a digit string, most significant digit first. */
  function DigitsValue(s: string): nat
    requires AllDigits(s)
    decreases |s|
  {
    if |s| == 0 then 0
    else DigitsValue(s[..|s| - 1]) * 10 + (s[|s| - 1] as int - '0' as int)
  }

  /**
   * `Number(segment)` on the inputs modelled: a string of decimal digits
   * (the empty string gives 0); anything else is NaN, written None.
   */
  function ParseNumber(s: string): Option<int> {
    if AllDigits(s) then Some(DigitsValue(s)) else None
  }

  /** The id a GET, PUT or DELETE handler reads from its URL. */
  function RequestId(url: string): Option<int> {
    ParseNumber(LastSegment(url))
  }

  /** The decimal spelling of a natural number, as a client writes it into a URL. */
  function DecimalString(n: nat): (s: string)
    ensures |s| >= 1 && AllDigits(s)
    decreases n
  {
    var d := ((n % 10) + '0' as int) as char;
    if n < 10 then [d] else DecimalString(n / 10) + [d]
  }

  /** Reading back a written id gives the id. */
  lemma {:induction false} ParseDecimalString(n: nat)
    ensures ParseNumber(DecimalString(n)) == Some(n)
    decreases n
  {
    var s := DecimalString(n);
    if n < 10 {
      assert s[..0] == [];
      assert DigitsValue(s) == DigitsValue(s[..0]) * 10 + (s[0] as int - '0' as int);
    } else {
      ParseDecimalString(n / 10);
      assert s[..|s| - 1] == DecimalString(n / 10);
    }
  }

  /** `GET /api/tasks/<n>` reaches get-by-id with id n. */
  lemma GetByDecimalId(n: nat)
    ensures Dispatch("GET", TASK_PREFIX + DecimalString(n)) == GetTask
    ensures RequestId(TASK_PREFIX + DecimalString(n)) == Some(n)
  {
    var seg := DecimalString(n);
    var url := TASK_PREFIX + seg;
    assert url != TASKS_PATH by { assert |url| > |TASKS_PATH|; }
    assert TASK_PREFIX <= url;
    assert url == TASKS_PATH + "/" + seg;
    LastSegmentAfterSlash(TASKS_PATH, seg);
    ParseDecimalString(n);
  }

  /** A trailing slash leaves an empty segment, and `Number("")` is 0. */
  lemma EmptySegmentIsZero(prefix: string)
    ensures RequestId(prefix + "/") == Some(0)
  {
    LastSegmentAfterSlash(prefix, "");
    assert prefix + "/" + "" == prefix + "/";
  }

  /** A query string glued to the id makes the segment non-numeric: NaN. */
  lemma QueryAfterIdIsNaN(prefix: string, seg: string)
    requires forall i :: 0 <= i < |seg| ==> seg[i] != '/'
    requires '?' in seg
    ensures RequestId(prefix + "/" + seg) == None
  {
    LastSegmentAfterSlash(prefix, seg);
  }
}
