/** The helpers every I/O adaptor shares: the one-line status messages an
    adaptor reports to its launcher, and the executor that runs several
    copies of a stream executor side by side and gathers their results. */
module IoUtils {
  import opened Common

  type ObjectID = nat

  /** The content of a report: a string, a vineyard object id, or any other
      JSON value (kept opaque). */
  datatype Value = Str(s: string) | Id(id: ObjectID) | Other(json: nat)

  /** A status message: the JSON object printed on one line. */
  type Message = map<string, Value>

  // ----------------------------------------------------------------- reports

  /** `report_status(status, content)`: a message with exactly the keys
      `type` and `content`. */
  function ReportStatus(status: string, content: Value): (m: Message)
    ensures m.Keys == {"type", "content"}
    ensures m["type"] == Str(status) && m["content"] == content
  {
    map["type" := Str(status), "content" := content]
  }

  /** What a launcher reads back from a report line: its type and its
      content, when the line is a well-formed report. */
  function ParseReport(m: Message): (r: Option<(string, Value)>)
    ensures r.Some? ==> "type" in m && "content" in m && m["type"] == Str(r.value.0) && m["content"] == r.value.1
  {
    if m.Keys == {"type", "content"} && m["type"].Str? then Some((m["type"].s, m["content"])) else None
  }

  /** Every report reads back as the status and content it was made from. */
  lemma ReportRoundTrip(status: string, content: Value)
    ensures ParseReport(ReportStatus(status, content)) == Some((status, content))
  {
  }

  const ErrorType: string := "error"
  const ReturnType: string := "return"

  /** `report_error(content)`. */
  function ReportError(content: Value): (m: Message)
    ensures ParseReport(m) == Some((ErrorType, content))
  {
    ReportRoundTrip(ErrorType, content);
    ReportStatus(ErrorType, content)
  }

  /** `report_exception()`: an error whose content is the formatted
      traceback of the exception being handled, given here as `trace`. */
  function ReportException(trace: string): (m: Message)
    ensures ParseReport(m) == Some((ErrorType, Str(trace)))
  {
    ReportRoundTrip(ErrorType, Str(trace));
    ReportStatus(ErrorType, Str(trace))
  }

  /** `report_success(content)`: an object id is sent as its `repr`
      string (the rendering is the parameter `repr`); any other content is
      sent unchanged. */
  function ReportSuccess(content: Value, repr: ObjectID -> string): (m: Message)
    ensures ParseReport(m).Some? && ParseReport(m).value.0 == ReturnType
    ensures content.Id? ==> ParseReport(m).value.1 == Str(repr(content.id))
    ensures !content.Id? ==> ParseReport(m).value.1 == content
  {
    var c := if content.Id? then Str(repr(content.id)) else content;
    ReportRoundTrip(ReturnType, c);
    ReportStatus(ReturnType, c)
  }

  /** A success report never carries a raw object id, so it is always
      representable as JSON. */
  lemma SuccessCarriesNoId(content: Value, repr: ObjectID -> string)
    ensures forall k :: k in ReportSuccess(content, repr) ==> !ReportSuccess(content, repr)[k].Id?
  {
    var m := ReportSuccess(content, repr);
    assert m.Keys == {"type", "content"};
  }

  // -------------------------------------------------------------- executors

  /** An instance of the stream executor class, built from its keyword
      arguments. */
  datatype StreamExecutor = StreamExecutor(cls: string, kwargs: map<string, Value>)

  /** What `execute()` of one executor does: returns a value or raises. */
  datatype Outcome = Returned(value: Value) | Raised(error: string)

  const MaxWorkersPositive: string := "max_workers must be greater than 0"

  /** Index of the first executor that raised, or `|outcomes|`. */
  function FirstRaised(outcomes: seq<Outcome>): (k: nat)
    ensures k <= |outcomes|
    ensures forall i :: 0 <= i < k ==> outcomes[i].Returned?
    ensures k < |outcomes| ==> outcomes[k].Raised?
  {
    if outcomes == [] then 0
    else if outcomes[0].Raised? then 0
    else 1 + FirstRaised(outcomes[1..])
  }

  /** What `ThreadStreamExecutor.execute` returns or raises, given what each
      executor's own `execute` does. A thread pool needs at least one worker;
      otherwise the results are collected in executor order, so the first
      executor in the list that raised decides the error. */
  function ExecuteOutcome(parallelism: int, outcomes: seq<Outcome>): (r: Result<seq<Value>, string>)
    ensures parallelism <= 0 ==> r == Err(MaxWorkersPositive)
    ensures r.Ok? ==> |r.value| == |outcomes|
    ensures parallelism > 0 && r.Err? ==>
      exists i :: 0 <= i < |outcomes| && outcomes[i].Raised? && r.error == outcomes[i].error
  {
    if parallelism <= 0 then Err(MaxWorkersPositive)
    else
      var k := FirstRaised(outcomes);
      if k < |outcomes| then Err(outcomes[k].error)
      else Ok(seq(|outcomes|, i requires 0 <= i < |outcomes| => outcomes[i].value))
  }

  /** With a positive parallelism, `execute` succeeds exactly when every
      executor returned, and then result `i` is what executor `i` returned. */
  lemma ExecuteSucceeds(parallelism: int, outcomes: seq<Outcome>)
    requires parallelism > 0
    ensures ExecuteOutcome(parallelism, outcomes).Ok? <==> forall i :: 0 <= i < |outcomes| ==> outcomes[i].Returned?
    ensures ExecuteOutcome(parallelism, outcomes).Ok? ==>
      |ExecuteOutcome(parallelism, outcomes).value| == |outcomes| &&
      forall i :: 0 <= i < |outcomes| ==> ExecuteOutcome(parallelism, outcomes).value[i] == outcomes[i].value
  {
  }

  /** When `execute` fails with a positive parallelism, the error is the one
      raised by the lowest-index executor that raised. */
  lemma ExecuteRaisesFirst(parallelism: int, outcomes: seq<Outcome>)
    requires parallelism > 0 && ExecuteOutcome(parallelism, outcomes).Err?
    ensures exists k ::
      && 0 <= k < |outcomes| && outcomes[k].Raised?
      && (forall i :: 0 <= i < k ==> outcomes[i].Returned?)
      && ExecuteOutcome(parallelism, outcomes).error == outcomes[k].error
  {
    var k := FirstRaised(outcomes);
    assert 0 <= k < |outcomes| && outcomes[k].Raised?;
  }

  /** `ThreadStreamExecutor`: `parallelism` copies of one executor class,
      all built from the same keyword arguments. */
  class ThreadStreamExecutor {
    var parallelism: int
    var executors: seq<StreamExecutor>

    /** `__init__`: `range(parallism)` is empty for a parallelism below one. */
    constructor (cls: string, parallelism: int, kwargs: map<string, Value>)
      ensures this.parallelism == parallelism
      ensures |executors| == if parallelism > 0 then parallelism else 0
      ensures forall i :: 0 <= i < |executors| ==> executors[i] == StreamExecutor(cls, kwargs)
    {
      this.parallelism := parallelism;
      var made := seq(if parallelism > 0 then parallelism else 0, _ => StreamExecutor(cls, kwargs));
      assert forall i :: 0 <= i < |made| ==> made[i] == StreamExecutor(cls, kwargs);
      executors := made;
    }

    /** `execute`: runs every executor (their behaviour is `outcomes`, one
        per executor) and waits for the results in list order. */
    method Execute(outcomes: seq<Outcome>) returns (r: Result<seq<Value>, string>)
      requires |outcomes| == |executors|
      ensures r == ExecuteOutcome(parallelism, outcomes)
    {
      if parallelism <= 0 {
        return Err(MaxWorkersPositive);
      }
      var results: seq<Value> := [];
      var i := 0;
      while i < |outcomes|
        invariant 0 <= i <= |outcomes|
        invariant forall j :: 0 <= j < i ==> outcomes[j].Returned?
        invariant |results| == i && forall j :: 0 <= j < i ==> results[j] == outcomes[j].value
      {
        match outcomes[i] {
          case Raised(e) =>
            FirstRaisedAt(outcomes, i);
            return Err(e);
          case Returned(v) =>
            results := results + [v];
        }
        i := i + 1;
      }
      FirstRaisedAt(outcomes, i);
      assert results == ExecuteOutcome(parallelism, outcomes).value;
      r := Ok(results);
    }
  }

  /** The first raising executor is the first index that did not return. */
  lemma {:induction false} FirstRaisedAt(outcomes: seq<Outcome>, i: nat)
    requires i <= |outcomes|
    requires forall j :: 0 <= j < i ==> outcomes[j].Returned?
    requires i < |outcomes| ==> outcomes[i].Raised?
    ensures FirstRaised(outcomes) == i
    decreases i
  {
    if i > 0 {
      FirstRaisedAt(outcomes[1..], i - 1);
    }
  }
}
