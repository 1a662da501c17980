/**
 * Combining several query results into one (src/combineQueryResults.ts):
 * the data and errors side by side, a single status in which an error beats
 * loading and loading beats success, and the first error that is set.
 */
module QueryResults {
  import opened Results

  datatype Status = Success | Error | Loading

  /** `statuses.some(s => s === target)`, scanned from the front. */
  function AnyIs(statuses: seq<Status>, target: Status): (r: bool)
    ensures r <==> target in statuses
  {
    if |statuses| == 0 then false
    else statuses[0] == target || AnyIs(statuses[1..], target)
  }

  /** `summariseStatuses`: any error wins, then any loading, and success otherwise. */
  function Summarise(statuses: seq<Status>): (r: Status)
    ensures r == Error <==> Error in statuses
    ensures r == Loading <==> Error !in statuses && Loading in statuses
    ensures r == Success <==> Error !in statuses && Loading !in statuses
  {
    if AnyIs(statuses, Error) then Error
    else if AnyIs(statuses, Loading) then Loading
    else Success
  }

  /** How far a status is from success: the summary is the worst status present. */
  function Severity(s: Status): (n: nat)
    ensures n < 3
    ensures s == Success <==> n == 0
  {
    match s
    case Success => 0
    case Loading => 1
    case Error => 2
  }

  function Worse(a: Status, b: Status): (r: Status)
    ensures r == a || r == b
    ensures Severity(r) >= Severity(a) && Severity(r) >= Severity(b)
  {
    if Severity(a) >= Severity(b) then a else b
  }

  /** Summarising a concatenation is taking the worse of the two summaries. */
  lemma SummaryOfConcatenation(s: seq<Status>, t: seq<Status>)
    ensures Summarise(s + t) == Worse(Summarise(s), Summarise(t))
  {
    forall x: Status
      ensures x in s + t <==> x in s || x in t
    {
      if x in s + t {
        var i :| 0 <= i < |s + t| && (s + t)[i] == x;
        if i >= |s| {
          assert t[i - |s|] == x;
        }
      }
      if x in t {
        var j :| 0 <= j < |t| && t[j] == x;
        assert (s + t)[|s| + j] == x;
      }
    }
  }

  /** The summary does not depend on the order of the statuses. */
  lemma SummaryIgnoresOrder(s: seq<Status>, t: seq<Status>)
    requires multiset(s) == multiset(t)
    ensures Summarise(s) == Summarise(t)
  {
    assert Error in s <==> Error in multiset(s);
    assert Error in t <==> Error in multiset(t);
    assert Loading in s <==> Loading in multiset(s);
    assert Loading in t <==> Loading in multiset(t);
  }

  /** One query's state: its data and error are absent (undefined) or present. */
  datatype QueryResult<D, E> = QueryResult(data: Option<D>, status: Status, error: Option<E>)

  datatype Combined<D, E> = Combined(data: seq<Option<D>>, status: Status, errors: seq<Option<E>>, error: Option<E>)

  /** `!!err`: an absent error is falsy; a present one is as truthy as `truthy` says. */
  predicate IsSet<E>(e: Option<E>, truthy: E -> bool)
  {
    e.Some? && truthy(e.value)
  }

  /** Position `i` holds the first error that is set. */
  predicate FirstSetAt<E>(errors: seq<Option<E>>, truthy: E -> bool, i: int)
  {
    0 <= i < |errors| && IsSet(errors[i], truthy) && forall j :: 0 <= j < i ==> !IsSet(errors[j], truthy)
  }

  /** `errors.find(err => !!err)`. */
  function FirstSet<E>(errors: seq<Option<E>>, truthy: E -> bool): (r: Option<E>)
    ensures r.None? <==> forall i :: 0 <= i < |errors| ==> !IsSet(errors[i], truthy)
    ensures r.Some? ==> exists i :: FirstSetAt(errors, truthy, i) && errors[i] == r
  {
    if |errors| == 0 then None
    else if IsSet(errors[0], truthy) then
      assert FirstSetAt(errors, truthy, 0);
      errors[0]
    else
      var r := FirstSet(errors[1..], truthy);
      assert r.Some? ==> exists i :: FirstSetAt(errors, truthy, i) && errors[i] == r by {
        if r.Some? {
          var i :| FirstSetAt(errors[1..], truthy, i) && errors[1..][i] == r;
          assert FirstSetAt(errors, truthy, i + 1);
        }
      }
      r
  }

  function StatusesOf<D, E>(qs: seq<QueryResult<D, E>>): (ss: seq<Status>)
    ensures |ss| == |qs| && forall i :: 0 <= i < |qs| ==> ss[i] == qs[i].status
  {
    seq(|qs|, i requires 0 <= i < |qs| => qs[i].status)
  }

  /**
   * `combineQueryResults`: data and errors are the inputs' in the same order,
   * the status is an error if any query failed, else loading if any is still
   * loading, else success; the error is the first one that is set.
   */
  function CombineQueryResults<D, E>(qs: seq<QueryResult<D, E>>, truthy: E -> bool): (r: Combined<D, E>)
    ensures |r.data| == |qs| && forall i :: 0 <= i < |qs| ==> r.data[i] == qs[i].data
    ensures |r.errors| == |qs| && forall i :: 0 <= i < |qs| ==> r.errors[i] == qs[i].error
    ensures r.status == Error <==> exists i :: 0 <= i < |qs| && qs[i].status == Error
    ensures r.status == Loading <==>
      (forall i :: 0 <= i < |qs| ==> qs[i].status != Error) && exists i :: 0 <= i < |qs| && qs[i].status == Loading
    ensures r.error.None? <==> forall i :: 0 <= i < |qs| ==> !IsSet(qs[i].error, truthy)
    ensures r.error.Some? ==> exists i :: FirstSetAt(r.errors, truthy, i) && qs[i].error == r.error
  {
    var errors := seq(|qs|, i requires 0 <= i < |qs| => qs[i].error);
    var statuses := StatusesOf(qs);
    assert Error in statuses <==> exists i :: 0 <= i < |qs| && qs[i].status == Error by {
      if Error in statuses {
        var i :| 0 <= i < |statuses| && statuses[i] == Error;
        assert qs[i].status == Error;
      }
    }
    assert Loading in statuses <==> exists i :: 0 <= i < |qs| && qs[i].status == Loading by {
      if Loading in statuses {
        var i :| 0 <= i < |statuses| && statuses[i] == Loading;
        assert qs[i].status == Loading;
      }
    }
    Combined(
      seq(|qs|, i requires 0 <= i < |qs| => qs[i].data),
      Summarise(statuses),
      errors,
      FirstSet(errors, truthy))
  }

  /** With nothing to combine, the status is success and no error is set. */
  lemma NothingToCombine<D, E>(qs: seq<QueryResult<D, E>>, truthy: E -> bool)
    requires |qs| == 0
    ensures CombineQueryResults(qs, truthy) == Combined([], Success, [], None)
  {
  }
}
