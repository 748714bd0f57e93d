/** Day-by-day iteration over an inclusive date range, and the "fetch every
    day first, abort on the first failure" rule the multi-day metrics share. */
module Days {
  import opened Base
  import opened Records
  import opened Client

  /** A per-date client call: a record, or the error the call raised. */
  type Fetcher<R> = Date -> Result<R, ClientError>

  /** The days from `start` to `end`, both included, in ascending order;
      nothing when `start` is after `end`. */
  function DayRange(start: Date, end: Date): (days: seq<Date>)
    ensures |days| == if start <= end then end - start + 1 else 0
    ensures forall i :: 0 <= i < |days| ==> days[i] == start + i
    decreases end - start
  {
    if start > end then [] else [start] + DayRange(start + 1, end)
  }

  /** Each day of a range occurs in it exactly once, in ascending order. */
  lemma DayRangeAscending(start: Date, end: Date, i: int, j: int)
    requires 0 <= i < j < |DayRange(start, end)|
    ensures DayRange(start, end)[i] < DayRange(start, end)[j]
    ensures start <= DayRange(start, end)[i] && DayRange(start, end)[j] <= end
  {
  }

  /** A range splits at any day into the part up to it and the part after. */
  lemma DayRangeSplit(start: Date, mid: Date, end: Date)
    requires start - 1 <= mid <= end
    ensures DayRange(start, end) == DayRange(start, mid) + DayRange(mid + 1, end)
  {
    var whole, left, right := DayRange(start, end), DayRange(start, mid), DayRange(mid + 1, end);
    assert |whole| == |left| + |right|;
    forall i | 0 <= i < |whole|
      ensures whole[i] == (left + right)[i]
    {
      if i >= |left| {
        assert (left + right)[i] == right[i - |left|];
      }
    }
  }

  /** The outcome of a multi-day operation: the days it actually fetched, in
      order, and either its value or the first error. */
  datatype Traced<T> = Traced(issued: seq<Date>, result: Result<T, ClientError>)

  /** Fetches the days in order, stopping at the first call that fails. */
  function Collect<R>(fetch: Fetcher<R>, days: seq<Date>): (c: Traced<seq<R>>)
    ensures c.issued <= days
    ensures c.result.Success? ==> c.issued == days && |c.result.value| == |days|
    ensures c.result.Failure? ==> 0 < |c.issued|
  {
    if |days| == 0 then Traced([], Success([]))
    else if fetch(days[0]).Failure? then Traced([days[0]], Failure(fetch(days[0]).error))
    else Prepend(days[0], fetch(days[0]).value, Collect(fetch, days[1..]))
  }

  /** The outcome of fetching `day`, which gave `record`, then the rest. */
  function Prepend<R>(day: Date, record: R, rest: Traced<seq<R>>): Traced<seq<R>> {
    var result := if rest.result.Success? then Success([record] + rest.result.value) else rest.result;
    Traced([day] + rest.issued, result)
  }

  /** A successful collection holds each day's record at that day's
      position. */
  lemma {:induction false} CollectValues<R>(fetch: Fetcher<R>, days: seq<Date>)
    requires Collect(fetch, days).result.Success?
    ensures var values := Collect(fetch, days).result.value;
      forall i :: 0 <= i < |days| ==> fetch(days[i]) == Success(values[i])
    decreases |days|
  {
    if |days| > 0 {
      CollectValues(fetch, days[1..]);
      var values, rest := Collect(fetch, days).result.value, Collect(fetch, days[1..]).result.value;
      assert values == [fetch(days[0]).value] + rest;
      forall i | 1 <= i < |days|
        ensures fetch(days[i]) == Success(values[i])
      {
        assert days[i] == days[1..][i - 1];
      }
    }
  }

  /** A failed collection stopped at its last fetched day, which failed with
      the returned error, after every earlier day succeeded. */
  lemma {:induction false} CollectStopsAtFirstFailure<R>(fetch: Fetcher<R>, days: seq<Date>)
    requires Collect(fetch, days).result.Failure?
    ensures var c := Collect(fetch, days);
      && fetch(days[|c.issued| - 1]) == Failure(c.result.error)
      && forall i :: 0 <= i < |c.issued| - 1 ==> fetch(days[i]).Success?
    decreases |days|
  {
    if fetch(days[0]).Success? {
      CollectStopsAtFirstFailure(fetch, days[1..]);
      var c, rest := Collect(fetch, days), Collect(fetch, days[1..]);
      assert c.issued == [days[0]] + rest.issued;
      forall i | 1 <= i < |c.issued|
        ensures days[i] == days[1..][i - 1]
      {
      }
    }
  }

  /** Collecting succeeds exactly when every day's fetch does. */
  lemma CollectSucceedsIffAllSucceed<R>(fetch: Fetcher<R>, days: seq<Date>)
    ensures Collect(fetch, days).result.Success? <==> forall i :: 0 <= i < |days| ==> fetch(days[i]).Success?
  {
    if Collect(fetch, days).result.Success? {
      CollectValues(fetch, days);
    } else {
      CollectStopsAtFirstFailure(fetch, days);
    }
  }

  /** If some day of `a` fails, fetching `a + b` stops there and never
      reaches `b`. */
  lemma {:induction false} CollectAppendAbort<R>(fetch: Fetcher<R>, a: seq<Date>, b: seq<Date>)
    requires Collect(fetch, a).result.Failure?
    ensures Collect(fetch, a + b) == Collect(fetch, a)
    decreases |a|
  {
    var ab := a + b;
    assert ab[0] == a[0];
    assert ab[1..] == a[1..] + b;
    if fetch(a[0]).Success? {
      CollectAppendAbort(fetch, a[1..], b);
    }
  }

  /** If every day of `a` succeeds, fetching `a + b` requests all of `a` and
      then what fetching `b` alone requests. */
  lemma {:induction false} CollectAppendIssued<R>(fetch: Fetcher<R>, a: seq<Date>, b: seq<Date>)
    requires Collect(fetch, a).result.Success?
    ensures Collect(fetch, a + b).issued == a + Collect(fetch, b).issued
    decreases |a|
  {
    if |a| == 0 {
      assert a + b == b;
    } else {
      var ab := a + b;
      assert ab[0] == a[0];
      assert ab[1..] == a[1..] + b;
      CollectAppendIssued(fetch, a[1..], b);
      var cb := Collect(fetch, b);
      assert Collect(fetch, ab) == Prepend(a[0], fetch(a[0]).value, Collect(fetch, a[1..] + b));
      assert [a[0]] + (a[1..] + cb.issued) == a + cb.issued;
    }
  }

  /** One unfolding of `Collect` on a list written as its first day and the
      rest. */
  lemma CollectCons<R>(fetch: Fetcher<R>, day: Date, rest: seq<Date>)
    ensures Collect(fetch, [day] + rest)
         == if fetch(day).Failure? then Traced([day], Failure(fetch(day).error))
            else Prepend(day, fetch(day).value, Collect(fetch, rest))
  {
    var days := [day] + rest;
    assert days[0] == day;
    assert days[1..] == rest;
  }

  /** If every day of `a` succeeds, fetching `a + b` fails as fetching `b`
      does, or returns the records of `a` followed by those of `b`. */
  lemma {:induction false} CollectAppendResult<R>(fetch: Fetcher<R>, a: seq<Date>, b: seq<Date>)
    requires Collect(fetch, a).result.Success?
    ensures var ca, cb, c := Collect(fetch, a), Collect(fetch, b), Collect(fetch, a + b);
      && (cb.result.Failure? ==> c.result == cb.result)
      && (cb.result.Success? ==> c.result == Success(ca.result.value + cb.result.value))
    decreases |a|
  {
    if |a| == 0 {
      assert a + b == b;
      assert Collect(fetch, a).result.value == [];
      if Collect(fetch, b).result.Success? {
        assert [] + Collect(fetch, b).result.value == Collect(fetch, b).result.value;
      }
    } else {
      var day, a' := a[0], a[1..];
      assert a == [day] + a';
      assert a + b == [day] + (a' + b);
      CollectCons(fetch, day, a');
      CollectCons(fetch, day, a' + b);
      CollectAppendResult(fetch, a', b);
      var cb := Collect(fetch, b);
      if cb.result.Success? {
        var first, rest := fetch(day).value, Collect(fetch, a').result.value;
        assert [first] + (rest + cb.result.value) == [first] + rest + cb.result.value;
      }
    }
  }

  /** Collecting a range succeeds exactly when every day's fetch succeeds,
      and then it fetched each day once, in order, with the record of day `d`
      at position `d - start`. */
  lemma CollectRangeSuccess<R>(fetch: Fetcher<R>, start: Date, end: Date)
    ensures var c := Collect(fetch, DayRange(start, end));
      && (c.result.Success? <==> forall d :: start <= d <= end ==> fetch(d).Success?)
      && (c.result.Success? ==>
            && c.issued == DayRange(start, end)
            && forall d :: start <= d <= end ==> fetch(d) == Success(c.result.value[d - start]))
  {
    if Collect(fetch, DayRange(start, end)).result.Failure? {
      CollectRangeFailure(fetch, start, end);
    } else {
      CollectRangeValues(fetch, start, end);
    }
  }

  /** A successful range collection holds the record of day `d` at position
      `d - start`. */
  lemma CollectRangeValues<R>(fetch: Fetcher<R>, start: Date, end: Date)
    requires Collect(fetch, DayRange(start, end)).result.Success?
    ensures var values := Collect(fetch, DayRange(start, end)).result.value;
      forall d :: start <= d <= end ==> fetch(d) == Success(values[d - start])
  {
    forall d | start <= d <= end
      ensures fetch(d) == Success(Collect(fetch, DayRange(start, end)).result.value[d - start])
    {
      CollectDayValue(fetch, start, end, d);
    }
  }

  /** The record of one day of a successful range collection. */
  lemma CollectDayValue<R>(fetch: Fetcher<R>, start: Date, end: Date, d: Date)
    requires Collect(fetch, DayRange(start, end)).result.Success?
    requires start <= d <= end
    ensures var values := Collect(fetch, DayRange(start, end)).result.value;
      d - start < |values| && fetch(d) == Success(values[d - start])
  {
    var days := DayRange(start, end);
    CollectValues(fetch, days);
    assert days[d - start] == d;
  }

  /** A non-empty prefix of a run of consecutive days is itself a run. */
  lemma RunPrefixIsRange(days: seq<Date>, issued: seq<Date>, start: Date)
    requires issued <= days && 0 < |issued|
    requires forall i :: 0 <= i < |days| ==> days[i] == start + i
    ensures issued == DayRange(start, start + |issued| - 1)
  {
    var run := DayRange(start, start + |issued| - 1);
    forall i | 0 <= i < |run|
      ensures run[i] == issued[i]
    {
      assert issued[i] == days[i];
    }
  }

  /** The first `n` days of a run of consecutive days are the days from
      `start` up to `start + n - 1`. */
  lemma RunPrefixSucceeds<R>(fetch: Fetcher<R>, days: seq<Date>, n: nat, start: Date)
    requires n <= |days|
    requires forall i :: 0 <= i < |days| ==> days[i] == start + i
    requires forall i :: 0 <= i < n ==> fetch(days[i]).Success?
    ensures forall d :: start <= d < start + n ==> fetch(d).Success?
  {
    forall d | start <= d < start + n
      ensures fetch(d).Success?
    {
      assert days[d - start] == d;
    }
  }

  /** A failed range collection fetched the ascending run of days from
      `start` up to the first failing day and returns that day's error. */
  lemma CollectRangeFailure<R>(fetch: Fetcher<R>, start: Date, end: Date)
    requires Collect(fetch, DayRange(start, end)).result.Failure?
    ensures var c := Collect(fetch, DayRange(start, end));
      var last := start + |c.issued| - 1;
      && start <= last <= end
      && c.issued == DayRange(start, last)
      && fetch(last) == Failure(c.result.error)
      && forall d :: start <= d < last ==> fetch(d).Success?
  {
    var days := DayRange(start, end);
    var c := Collect(fetch, days);
    CollectStopsAtFirstFailure(fetch, days);
    RunPrefixIsRange(days, c.issued, start);
    RunPrefixSucceeds(fetch, days, |c.issued| - 1, start);
  }

  /** Collecting a one-day range fetches that day alone. */
  lemma CollectRangeSingleDay<R>(fetch: Fetcher<R>, day: Date)
    requires fetch(day).Success?
    ensures Collect(fetch, DayRange(day, day)).result == Success([fetch(day).value])
  {
    assert DayRange(day, day) == [day] + [];
    CollectCons(fetch, day, []);
    assert Collect(fetch, []) == Traced([], Success([]));
    assert [fetch(day).value] + [] == [fetch(day).value];
  }

  /** A successful range collection is the collection up to any day followed
      by the collection after it. */
  lemma CollectRangeSplit<R>(fetch: Fetcher<R>, start: Date, mid: Date, end: Date)
    requires start - 1 <= mid <= end
    requires Collect(fetch, DayRange(start, end)).result.Success?
    ensures var left, right := Collect(fetch, DayRange(start, mid)), Collect(fetch, DayRange(mid + 1, end));
      && left.result.Success? && right.result.Success?
      && Collect(fetch, DayRange(start, end)).result.value == left.result.value + right.result.value
  {
    var left, right := DayRange(start, mid), DayRange(mid + 1, end);
    DayRangeSplit(start, mid, end);
    CollectRangeSuccess(fetch, start, end);
    CollectRangeSuccess(fetch, start, mid);
    CollectAppendResult(fetch, left, right);
  }

  /** A multi-day operation: fetch every day from `start` to `end` in
      ascending order, then, only if every fetch succeeded, fold the records
      with `aggregate`. */
  function FetchRange<R, T>(fetch: Fetcher<R>, start: Date, end: Date, aggregate: seq<R> -> T): (r: Traced<T>)
    ensures start > end ==> r == Traced([], Success(aggregate([])))
  {
    var c := Collect(fetch, DayRange(start, end));
    Traced(c.issued, c.result.MapValue(aggregate))
  }

  /** A multi-day operation succeeds exactly when every day's fetch does, and
      then it fetched every day of the range once, in ascending order. */
  lemma FetchRangeSucceedsIff<R, T>(fetch: Fetcher<R>, start: Date, end: Date, aggregate: seq<R> -> T)
    ensures var r := FetchRange(fetch, start, end, aggregate);
      && (r.result.Success? <==> forall d :: start <= d <= end ==> fetch(d).Success?)
      && (r.result.Success? ==> r.issued == DayRange(start, end))
  {
    CollectRangeSuccess(fetch, start, end);
  }

  /** A failed multi-day operation fetched the days from `start` up to the
      first failing day, in ascending order, and nothing after it, and fails
      with that day's error: no partial result survives. */
  lemma FetchRangeStopsAtFirstFailure<R, T>(fetch: Fetcher<R>, start: Date, end: Date, aggregate: seq<R> -> T)
    requires FetchRange(fetch, start, end, aggregate).result.Failure?
    ensures var r := FetchRange(fetch, start, end, aggregate);
      var last := start + |r.issued| - 1;
      && start <= last <= end
      && r.issued == DayRange(start, last)
      && fetch(last) == Failure(r.result.error)
      && forall d :: start <= d < last ==> fetch(d).Success?
  {
    var c := Collect(fetch, DayRange(start, end));
    assert FetchRange(fetch, start, end, aggregate) == Traced(c.issued, Failure(c.result.error));
    CollectRangeFailure(fetch, start, end);
  }
}
