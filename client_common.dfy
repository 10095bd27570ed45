/**
 * What every EKAP client operation shares: the outcome of the HTTP call, the error records it
 * turns failures into, the loop that formats a list of upstream records, and the DevExtreme
 * `loadOptions` payload of the OKAS and authority searches.
 */
module ClientCommon {
  import opened Wrappers
  import opened Decimal

  /**
   * What `_make_request` gives back: the decoded JSON body, an HTTP error status
   * (`httpx.HTTPStatusError`), or any other failure, each with the text of `str(e)`.
   */
  datatype Upstream<T> =
    | Received(body: T)
    | HttpStatus(status: int, detail: string)
    | RequestFailure(detail: string)

  /** The `{"error": ..., ...}` dictionaries a client operation returns instead of data. */
  datatype ErrorRecord =
    | Failed(error: string, message: string)
    | DetailsNotFound(tenderId: int)
  {
    /** The value under the `"error"` key. */
    function ErrorText(): string
    {
      match this
      case Failed(e, _) => e
      case DetailsNotFound(_) => "Tender details not found"
    }
  }

  /** A client result: the formatted data, or an error record. */
  datatype Outcome<T> = Success(value: T) | Failure(err: ErrorRecord)

  const StatusPrefix := "API request failed with status "

  /** `f"API request failed with status {e.response.status_code}"`. */
  function StatusErrorText(status: int): (t: string)
    ensures |t| > |StatusPrefix| && t[..|StatusPrefix|] == StatusPrefix
  {
    StatusPrefix + IntToString(status)
  }

  /** The status code can be read back out of the error text. */
  lemma StatusErrorTextReadsBack(status: int)
    ensures ParseInt(StatusErrorText(status)[|StatusPrefix|..]) == Some(status)
  {
    assert StatusErrorText(status)[|StatusPrefix|..] == IntToString(status);
    IntRoundTrip(status);
  }

  /**
   * The two `except` clauses: an HTTP status becomes the status text, any other failure the
   * operation's own fallback text; both keep `str(e)` as the message.
   */
  function FailureRecord<T>(u: Upstream<T>, fallback: string): (e: ErrorRecord)
    requires !u.Received? && fallback != []
    ensures e.Failed? && e.message == u.detail && e.ErrorText() != []
    ensures u.HttpStatus? ==> e.error == StatusErrorText(u.status)
    ensures u.RequestFailure? ==> e.error == fallback
  {
    match u
    case HttpStatus(status, detail) => Failed(StatusErrorText(status), detail)
    case RequestFailure(detail) => Failed(fallback, detail)
  }

  /** The `for item in items: results.append({...})` loops: one formatted record per upstream record, in order. */
  method MapSeq<A, B>(xs: seq<A>, f: A -> B) returns (ys: seq<B>)
    ensures |ys| == |xs|
    ensures forall i :: 0 <= i < |xs| ==> ys[i] == f(xs[i])
  {
    ys := [];
    var i := 0;
    while i < |xs|
      invariant 0 <= i <= |xs|
      invariant |ys| == i
      invariant forall j :: 0 <= j < i ==> ys[j] == f(xs[j])
    {
      ys := ys + [f(xs[i])];
      i := i + 1;
    }
  }

  /** `set(f(x) for x in xs)`: the distinct values `f` takes on the list. */
  function DistinctValues<A, B(==)>(xs: seq<A>, f: A -> B): (s: set<B>)
    ensures forall i :: 0 <= i < |xs| ==> f(xs[i]) in s
    ensures forall b :: b in s ==> exists i :: 0 <= i < |xs| && f(xs[i]) == b
  {
    set i | 0 <= i < |xs| :: f(xs[i])
  }

  /** There are at most as many distinct values as list elements, and some exactly when the list is not empty. */
  lemma {:induction false} DistinctValuesSize<A, B>(xs: seq<A>, f: A -> B)
    ensures |DistinctValues(xs, f)| <= |xs|
    ensures DistinctValues(xs, f) == {} <==> xs == []
    decreases |xs|
  {
    if xs != [] {
      var init := xs[..|xs| - 1];
      DistinctValuesSize(init, f);
      assert DistinctValues(xs, f) == DistinctValues(init, f) + {f(xs[|xs| - 1])};
    } else {
      assert DistinctValues(xs, f) == {};
    }
  }

  /** `if value > hi: value = hi` / `elif value < lo: value = lo`. */
  function ClampToRange(value: int, lo: int, hi: int): (r: int)
    requires lo <= hi
    ensures lo <= r <= hi
    ensures lo <= value <= hi ==> r == value
    ensures value > hi ==> r == hi
    ensures value < lo ==> r == lo
  {
    if value > hi then hi else if value < lo then lo else value
  }

  /** One element of a DevExtreme filter expression: a `[field, operator, value]` clause or a joining word. */
  datatype FilterToken = Clause(field: string, operator: string, value: string) | Joiner(word: string)

  /**
   * `{"loadOptions": {"filter": {...}, "take": n}}`. The other seven keys of the inner `filter`
   * dictionary (`sort`, `group`, `totalSummary`, `groupSummary`, `select`, `preSelect`,
   * `primaryKey`) are always empty lists and are not represented.
   */
  datatype LoadOptions = LoadOptions(filter: seq<FilterToken>, take: int)

  const MaxLoadTake := 500

  /**
   * The shared part of `search_okas_codes` and `search_authorities`: clamp `limit` into
   * [1, 500], start from an empty `filter` list, put the filters in when there are any,
   * and set `take` to the clamped limit.
   */
  method BuildLoadOptions(filters: seq<FilterToken>, limit: int) returns (options: LoadOptions, effective: int)
    ensures 1 <= effective <= MaxLoadTake
    ensures effective == ClampToRange(limit, 1, MaxLoadTake)
    ensures options.filter == filters && options.take == effective
  {
    effective := limit;
    if effective > MaxLoadTake {
      effective := MaxLoadTake;
    } else if effective < 1 {
      effective := 1;
    }
    options := LoadOptions([], 0);
    if filters != [] {
      options := options.(filter := filters);
    }
    options := options.(take := effective);
  }
}
