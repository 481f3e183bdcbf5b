/** The weather store: loads one reading per resort for the selected day and
    publishes them as one snapshot, with a loading flag and a single alert message.
    The per-resort tasks of the task group are computed in catalog order; the order
    in which they complete is the `order` argument, a permutation of the catalog
    positions. What the network answers in a run is that run's `answers` argument, a
    function from a resort to what the fetch for it returns. */
module WeatherStore {
  import opened Wrappers
  import opened SeoulTime
  import opened Resorts
  import opened WeatherModels
  import opened WeatherServices
  import DateNavigation

  // ----- Day offset and retrieval strategy -----

  /** The retrieval strategy a day offset calls for. */
  datatype DateBucket = Past | Today | Future(offset: int) | TooFar

  /** Signed number of Seoul calendar days from `now`'s day to `date`'s day, as the
      store computes it from the two midnights. */
  function DaysOffset(now: int, date: int): (d: int)
    ensures d == DayIndex(date) - DayIndex(now)
  {
    DaysBetween(StartOfDay(now), StartOfDay(date))
  }

  /** The store's chain of tests on the day offset. Exactly one bucket applies to every
      offset, so the chain's final `else` is never reached. */
  function Classify(daysDiff: int): (b: DateBucket)
    ensures b == Today <==> daysDiff == 0
    ensures b.Future? <==> 1 <= daysDiff <= 7
    ensures b.Future? ==> b.offset == daysDiff
    ensures b == Past <==> daysDiff < 0
    ensures b == TooFar <==> daysDiff > 7
  {
    if daysDiff == 0 then Today
    else if daysDiff > 0 && daysDiff <= 7 then Future(daysDiff)
    else if daysDiff < 0 then Past
    else if daysDiff > 7 then TooFar
    else assert false; TooFar
  }

  /** A day the date window admits is always fetched, never refused by date: today
      or one of the next seven days. */
  lemma WindowDaysAreFetched(date: int, now: int)
    requires DateNavigation.InWindow(date, now)
    ensures Classify(DaysOffset(now, date)) == Today || Classify(DaysOffset(now, date)).Future?
    ensures date == now ==> Classify(DaysOffset(now, date)) == Today
  {
  }

  // ----- One resort's task -----

  /** Position of the first daily entry whose Seoul midnight is `day`, if any. */
  function FirstOnDay(daily: seq<DailyForecast>, day: int): (r: Option<nat>)
    ensures r.Some? ==> r.value < |daily| && StartOfDay(daily[r.value].dt) == day
    ensures r.Some? ==> forall j :: 0 <= j < r.value ==> StartOfDay(daily[j].dt) != day
    ensures r.None? ==> forall j :: 0 <= j < |daily| ==> StartOfDay(daily[j].dt) != day
  {
    if daily == [] then None
    else if StartOfDay(daily[0].dt) == day then Some(0)
    else
      match FirstOnDay(daily[1..], day)
      case None => None
      case Some(k) => Some(k + 1)
  }

  /** `daily.first`. */
  function FirstDaily(daily: seq<DailyForecast>): (r: Option<DailyForecast>)
    ensures r.Some? <==> daily != []
    ensures r.Some? ==> r.value == daily[0]
  {
    if daily == [] then None else Some(daily[0])
  }

  type Outcome = Result<WeatherDisplayModel, FetchError>
  type Fetcher = Resort -> Result<OneCallResponse, FetchError>

  /** One child task: `daysDiff` is the day offset, `selectedDay` the selected day's
      midnight and `now` the clock reading. Today's reading is the current weather
      with today's sun times; a day 1 to 7 ahead is the first daily entry on that day,
      or no data; any other day is no data without a fetch. A failed fetch is the
      task's failure as it is. */
  function ResortTask(resort: Resort, daysDiff: int, selectedDay: int, now: int, service: Fetcher): (o: Outcome)
    ensures daysDiff < 0 || daysDiff > 7 ==> o == Failure(ServiceError(NoDataAvailable))
    ensures 0 <= daysDiff <= 7 && service(resort).Failure? ==> o == Failure(service(resort).error)
    ensures daysDiff == 0 && service(resort).Success? ==>
      var bundle := service(resort).value;
      o == Success(FromCurrent(bundle.current, FirstDaily(bundle.daily), resort.name, now))
    ensures 1 <= daysDiff <= 7 && service(resort).Success? ==>
      var daily := service(resort).value.daily;
      var hit := FirstOnDay(daily, selectedDay);
      o == if hit.Some? then Success(FromDaily(daily[hit.value], resort.name))
           else Failure(ServiceError(NoDataAvailable))
  {
    match Classify(daysDiff)
    case Today =>
      (match service(resort)
       case Failure(e) => Failure(e)
       case Success(bundle) => Success(FromCurrent(bundle.current, FirstDaily(bundle.daily), resort.name, now)))
    case Future(_) =>
      (match service(resort)
       case Failure(e) => Failure(e)
       case Success(bundle) =>
         match FirstOnDay(bundle.daily, selectedDay)
         case Some(k) => Success(FromDaily(bundle.daily[k], resort.name))
         case None => Failure(ServiceError(NoDataAvailable)))
    case Past => Failure(ServiceError(NoDataAvailable))
    case TooFar => Failure(ServiceError(NoDataAvailable))
  }

  /** Outside today..today+7 the service is never consulted: the outcome is the same
      whatever the service would have answered. */
  lemma UnsupportedDayFetchesNothing(resort: Resort, daysDiff: int, selectedDay: int, now: int, s1: Fetcher, s2: Fetcher)
    requires daysDiff < 0 || daysDiff > 7
    ensures ResortTask(resort, daysDiff, selectedDay, now, s1) == ResortTask(resort, daysDiff, selectedDay, now, s2)
  {
  }

  /** A forecast day succeeds exactly when the fetch succeeds and some daily entry
      falls on the selected day; the entry used is on that day. */
  lemma ForecastDaySucceedsIffDayListed(resort: Resort, daysDiff: int, selectedDay: int, now: int, service: Fetcher)
    requires 1 <= daysDiff <= 7
    ensures ResortTask(resort, daysDiff, selectedDay, now, service).Success? <==>
      service(resort).Success? &&
      exists j :: 0 <= j < |service(resort).value.daily| && StartOfDay(service(resort).value.daily[j].dt) == selectedDay
    ensures ResortTask(resort, daysDiff, selectedDay, now, service).Success? ==>
      StartOfDay(ResortTask(resort, daysDiff, selectedDay, now, service).value.timestamp) == selectedDay
  {
  }

  /** Every task's outcome for one run, in catalog order. */
  function Outcomes(resorts: seq<Resort>, daysDiff: int, selectedDay: int, now: int, service: Fetcher): (os: seq<Outcome>)
    ensures |os| == |resorts|
    ensures forall i :: 0 <= i < |resorts| ==> os[i] == ResortTask(resorts[i], daysDiff, selectedDay, now, service)
  {
    seq(|resorts|, i requires 0 <= i < |resorts| => ResortTask(resorts[i], daysDiff, selectedDay, now, service))
  }

  /** The fan-out: starts one task per resort, in catalog order. */
  method RunTasks(resorts: seq<Resort>, daysDiff: int, selectedDay: int, now: int, service: Fetcher) returns (outcomes: seq<Outcome>)
    ensures outcomes == Outcomes(resorts, daysDiff, selectedDay, now, service)
  {
    outcomes := [];
    var i := 0;
    while i < |resorts|
      invariant 0 <= i <= |resorts|
      invariant outcomes == Outcomes(resorts, daysDiff, selectedDay, now, service)[..i]
    {
      outcomes := outcomes + [ResortTask(resorts[i], daysDiff, selectedDay, now, service)];
      i := i + 1;
    }
  }

  // ----- Completion order and the fold over it -----

  /** A completed child task: the resort's id and its outcome. */
  datatype Arrival = Arrival(id: nat, outcome: Outcome)

  /** `order` lists every catalog position of `n` resorts exactly once: each child
      task completes once. */
  predicate IsArrivalOrder(order: seq<nat>, n: nat)
  {
    && |order| == n
    && (forall k :: 0 <= k < n ==> order[k] < n)
    && (forall j, k :: 0 <= j < k < n ==> order[j] != order[k])
    && (forall i :: 0 <= i < n ==> i in order)
  }

  /** The completed tasks in the order the task group yields them. */
  function Arrivals(resorts: seq<Resort>, outcomes: seq<Outcome>, order: seq<nat>): (a: seq<Arrival>)
    requires |outcomes| == |resorts| && IsArrivalOrder(order, |resorts|)
    ensures |a| == |order|
    ensures forall k :: 0 <= k < |a| ==> a[k] == Arrival(resorts[order[k]].id, outcomes[order[k]])
  {
    seq(|order|, k requires 0 <= k < |order| => Arrival(resorts[order[k]].id, outcomes[order[k]]))
  }

  /** The snapshot after folding `arrivals` in order into an empty map: each success
      stores its reading under its id, each failure leaves the map as it is. */
  function SnapshotOf(arrivals: seq<Arrival>): map<nat, WeatherDisplayModel>
  {
    if arrivals == [] then map[]
    else
      var last := arrivals[|arrivals| - 1];
      var before := SnapshotOf(arrivals[..|arrivals| - 1]);
      if last.outcome.Success? then before[last.id := last.outcome.value] else before
  }

  /** The error kept after folding `arrivals`: the most recent failure, if any. */
  function LastError(arrivals: seq<Arrival>): Option<FetchError>
  {
    if arrivals == [] then None
    else if arrivals[|arrivals| - 1].outcome.Failure? then Some(arrivals[|arrivals| - 1].outcome.error)
    else LastError(arrivals[..|arrivals| - 1])
  }

  /** The alert a run ends with: the last failure's description, or none. */
  function AlertFor(error: Option<FetchError>): (r: Option<string>)
    ensures r.None? <==> error.None?
    ensures error.Some? ==> r == Some(LocalizedDescription(error.value))
  {
    if error.Some? then Some(LocalizedDescription(error.value)) else None
  }

  /** The `for await` loop: folds the completed tasks, in the order they arrive, into
      a map that starts empty and a most recent error that starts absent. */
  method CollectArrivals(arrivals: seq<Arrival>) returns (snapshot: map<nat, WeatherDisplayModel>, encounteredError: Option<FetchError>)
    ensures snapshot == SnapshotOf(arrivals)
    ensures encounteredError == LastError(arrivals)
  {
    snapshot := map[];
    encounteredError := None;
    var k := 0;
    while k < |arrivals|
      invariant 0 <= k <= |arrivals|
      invariant snapshot == SnapshotOf(arrivals[..k])
      invariant encounteredError == LastError(arrivals[..k])
    {
      assert arrivals[..k + 1][..k] == arrivals[..k];
      var arrival := arrivals[k];
      if arrival.outcome.Success? {
        snapshot := snapshot[arrival.id := arrival.outcome.value];
      } else {
        encounteredError := Some(arrival.outcome.error);
      }
      k := k + 1;
    }
    assert arrivals[..k] == arrivals;
  }

  /** The snapshot's keys are exactly the ids that arrived with a success. */
  lemma {:induction false} SnapshotKeys(arrivals: seq<Arrival>)
    ensures SnapshotOf(arrivals).Keys ==
      set k | 0 <= k < |arrivals| && arrivals[k].outcome.Success? :: arrivals[k].id
  {
    if arrivals != [] {
      var n := |arrivals| - 1;
      SnapshotKeys(arrivals[..n]);
      var init := arrivals[..n];
      assert (set k | 0 <= k < |arrivals| && arrivals[k].outcome.Success? :: arrivals[k].id)
          == (set k | 0 <= k < n && init[k].outcome.Success? :: init[k].id)
           + (if arrivals[n].outcome.Success? then {arrivals[n].id} else {});
    }
  }

  /** The snapshot never holds more entries than there were arrivals. */
  lemma {:induction false} SnapshotSize(arrivals: seq<Arrival>)
    ensures |SnapshotOf(arrivals)| <= |arrivals|
  {
    if arrivals != [] {
      SnapshotSize(arrivals[..|arrivals| - 1]);
    }
  }

  ghost predicate DistinctIds(arrivals: seq<Arrival>)
  {
    forall j, k :: 0 <= j < k < |arrivals| ==> arrivals[j].id != arrivals[k].id
  }

  /** With distinct ids, each successful arrival's reading is the one stored under its
      id. */
  lemma {:induction false} SnapshotValues(arrivals: seq<Arrival>)
    requires DistinctIds(arrivals)
    ensures forall k :: 0 <= k < |arrivals| && arrivals[k].outcome.Success? ==>
      arrivals[k].id in SnapshotOf(arrivals) && SnapshotOf(arrivals)[arrivals[k].id] == arrivals[k].outcome.value
  {
    if arrivals != [] {
      var n := |arrivals| - 1;
      var init := arrivals[..n];
      SnapshotValues(init);
      forall k | 0 <= k < |arrivals| && arrivals[k].outcome.Success?
        ensures arrivals[k].id in SnapshotOf(arrivals) && SnapshotOf(arrivals)[arrivals[k].id] == arrivals[k].outcome.value
      {
        if k < n {
          assert init[k] == arrivals[k];
        }
      }
    }
  }

  /** The kept error is absent exactly when every arrival succeeded; otherwise it is
      the error of a failure after which only successes arrived. */
  lemma {:induction false} LastErrorIsLastFailure(arrivals: seq<Arrival>)
    ensures LastError(arrivals).None? <==> forall k :: 0 <= k < |arrivals| ==> arrivals[k].outcome.Success?
    ensures LastError(arrivals).Some? ==>
      exists k :: 0 <= k < |arrivals| && arrivals[k].outcome == Failure(LastError(arrivals).value)
        && forall j :: k < j < |arrivals| ==> arrivals[j].outcome.Success?
  {
    if arrivals != [] {
      var n := |arrivals| - 1;
      var init := arrivals[..n];
      LastErrorIsLastFailure(init);
      if arrivals[n].outcome.Success? {
        if LastError(init).Some? {
          var k :| 0 <= k < n && init[k].outcome == Failure(LastError(init).value)
            && forall j :: k < j < n ==> init[j].outcome.Success?;
          assert arrivals[k] == init[k];
          forall j | k < j < |arrivals| ensures arrivals[j].outcome.Success? {
            if j < n { assert arrivals[j] == init[j]; }
          }
        } else {
          forall k | 0 <= k < |arrivals| ensures arrivals[k].outcome.Success? {
            if k < n { assert arrivals[k] == init[k]; }
          }
        }
      }
    }
  }

  /** Whatever order the tasks complete in, the snapshot holds exactly the resorts
      whose task succeeded, each with its own reading: it has at most one entry per
      resort and depends on the completion order not at all. */
  lemma SnapshotIsPerResort(resorts: seq<Resort>, outcomes: seq<Outcome>, order: seq<nat>)
    requires |outcomes| == |resorts| && IsArrivalOrder(order, |resorts|)
    requires forall i, j :: 0 <= i < j < |resorts| ==> resorts[i].id != resorts[j].id
    ensures var snap := SnapshotOf(Arrivals(resorts, outcomes, order));
      && (forall i :: 0 <= i < |resorts| ==> (resorts[i].id in snap <==> outcomes[i].Success?))
      && (forall i :: 0 <= i < |resorts| && outcomes[i].Success? ==> snap[resorts[i].id] == outcomes[i].value)
      && (forall id :: id in snap ==> exists i :: 0 <= i < |resorts| && resorts[i].id == id)
      && |snap| <= |resorts|
  {
    var a := Arrivals(resorts, outcomes, order);
    var snap := SnapshotOf(a);
    SnapshotKeys(a);
    SnapshotSize(a);
    assert DistinctIds(a) by {
      forall j, k | 0 <= j < k < |a| ensures a[j].id != a[k].id {
        assert order[j] != order[k];
      }
    }
    SnapshotValues(a);
    forall i | 0 <= i < |resorts|
      ensures resorts[i].id in snap <==> outcomes[i].Success?
      ensures outcomes[i].Success? ==> snap[resorts[i].id] == outcomes[i].value
    {
      assert i in order;
      var k :| 0 <= k < |order| && order[k] == i;
      assert a[k] == Arrival(resorts[i].id, outcomes[i]);
      if resorts[i].id in snap {
        var k' :| 0 <= k' < |a| && a[k'].outcome.Success? && a[k'].id == resorts[i].id;
        assert resorts[order[k']].id == resorts[i].id;
        assert order[k'] == i;
      }
    }
    forall id | id in snap ensures exists i :: 0 <= i < |resorts| && resorts[i].id == id {
      var k :| 0 <= k < |a| && a[k].outcome.Success? && a[k].id == id;
      assert resorts[order[k]].id == id;
    }
  }

  /** Two completion orders of the same run publish the same snapshot. */
  lemma SnapshotIndependentOfOrder(resorts: seq<Resort>, outcomes: seq<Outcome>, order1: seq<nat>, order2: seq<nat>)
    requires |outcomes| == |resorts| && IsArrivalOrder(order1, |resorts|) && IsArrivalOrder(order2, |resorts|)
    requires forall i, j :: 0 <= i < j < |resorts| ==> resorts[i].id != resorts[j].id
    ensures SnapshotOf(Arrivals(resorts, outcomes, order1)) == SnapshotOf(Arrivals(resorts, outcomes, order2))
  {
    var s1, s2 := SnapshotOf(Arrivals(resorts, outcomes, order1)), SnapshotOf(Arrivals(resorts, outcomes, order2));
    SnapshotIsPerResort(resorts, outcomes, order1);
    SnapshotIsPerResort(resorts, outcomes, order2);
    forall id | id in s1 ensures id in s2 && s1[id] == s2[id] {
      var i :| 0 <= i < |resorts| && resorts[i].id == id;
    }
    forall id | id in s2 ensures id in s1 {
      var i :| 0 <= i < |resorts| && resorts[i].id == id;
    }
  }

  /** The alert, unlike the snapshot, depends on the completion order: of two failures
      the one that completes last is reported. */
  lemma AlertReportsLaterOfTwoFailures(a: nat, b: nat, ea: FetchError, eb: FetchError)
    ensures LastError([Arrival(a, Failure(ea)), Arrival(b, Failure(eb))]) == Some(eb)
    ensures LastError([Arrival(b, Failure(eb)), Arrival(a, Failure(ea))]) == Some(ea)
  {
  }

  // ----- The store -----

  class ResortWeatherStore {
    /** Readings of the last completed run, by resort id. */
    var weatherByResort: map<nat, WeatherDisplayModel>
    /** True while a run is fetching. */
    var isLoading: bool
    /** Message of the last failure of the last completed run. */
    var alertMessage: Option<string>

    constructor()
      ensures weatherByResort == map[] && !isLoading && alertMessage == None
    {
      weatherByResort := map[];
      isLoading := false;
      alertMessage := None;
    }

    /** The state observers see while the tasks of a run are in flight: the loading
        flag is up, the alert is cleared and the previous readings stay visible. */
    method BeginLoad()
      modifies this
      ensures isLoading && alertMessage == None
      ensures weatherByResort == old(weatherByResort)
    {
      isLoading := true;
      alertMessage := None;
    }

    /** The end of a run: the snapshot replaces the readings wholesale and the flag
        drops; the alert is set only when an error was kept, and otherwise stays as it
        is. */
    method Publish(snapshot: map<nat, WeatherDisplayModel>, encounteredError: Option<FetchError>)
      modifies this
      ensures weatherByResort == snapshot && !isLoading
      ensures encounteredError.Some? ==> alertMessage == AlertFor(encounteredError)
      ensures encounteredError.None? ==> alertMessage == old(alertMessage)
    {
      weatherByResort := snapshot;
      isLoading := false;

      if encounteredError.Some? {
        alertMessage := Some(LocalizedDescription(encounteredError.value));
      }
    }

    /** `loadWeather(for:on:)` for resorts `resorts`, selected date `date`, clock
        reading `now`, the service's answers `answers` for this run, and tasks
        completing in the order `order`. An empty list only clears the readings.
        Otherwise the run begins as `BeginLoad` states, every task runs, and it ends
        as `Publish` states: the folded snapshot of this run only, the flag down, and
        the alert reporting the last failure in completion order. */
    method LoadWeather(resorts: seq<Resort>, date: int, now: int, answers: Fetcher, order: seq<nat>)
      requires IsArrivalOrder(order, |resorts|)
      modifies this
      ensures resorts == [] ==>
        weatherByResort == map[] && isLoading == old(isLoading) && alertMessage == old(alertMessage)
      ensures resorts != [] ==>
        var arrivals := Arrivals(resorts, Outcomes(resorts, DaysOffset(now, date), StartOfDay(date), now, answers), order);
        && weatherByResort == SnapshotOf(arrivals)
        && !isLoading
        && alertMessage == AlertFor(LastError(arrivals))
    {
      if |resorts| == 0 {
        weatherByResort := map[];
        return;
      }

      BeginLoad();

      var today := StartOfDay(now);
      var selectedDay := StartOfDay(date);
      var daysDiff := DaysBetween(today, selectedDay);

      var outcomes := RunTasks(resorts, daysDiff, selectedDay, now, answers);
      var arrivals := Arrivals(resorts, outcomes, order);
      var snapshot, encounteredError := CollectArrivals(arrivals);

      Publish(snapshot, encounteredError);
    }
  }
}
