/** When the data thread takes its turns: every turn's batch carries a later time than the last. */
module Launch {
  import opened Time
  import opened Timeline

  /** The planned time of the next turn. The carry waits until the microseconds exceed a million,
      so they may be exactly a million. */
  function Planned(launch: Timeval, period: nat): Timeval {
    var t := Timeval(launch.sec + period / MILLION, launch.usec + period % MILLION);
    if t.usec > MILLION then Timeval(t.sec + 1, t.usec - MILLION) else t
  }

  /** A turn that is already late at `now` is followed by one a whole period from now. */
  function NextLaunch(launch: Timeval, period: nat, now: Timeval): Timeval {
    var t := Planned(launch, period);
    var left := Minus(t, now);
    if left.sec >= 0 && left.usec >= 0 then t
    else Plus(now, Timeval(period / MILLION, period % MILLION))
  }

  ghost predicate NearNormal(t: Timeval) {
    0 <= t.usec <= MILLION
  }

  lemma PlannedIsLater(launch: Timeval, period: nat)
    requires NearNormal(launch) && period > 0
    ensures Less(launch, Planned(launch, period)) && NearNormal(Planned(launch, period))
  {
    assert period == period / MILLION * MILLION + period % MILLION;
  }

  /** Launch times strictly increase, whatever the clock shows. */
  lemma LaunchAdvances(launch: Timeval, period: nat, now: Timeval)
    requires NearNormal(launch) && Normal(now) && period > 0
    ensures Less(launch, NextLaunch(launch, period, now)) && NearNormal(NextLaunch(launch, period, now))
  {
    PlannedIsLater(launch, period);
    var t := Planned(launch, period);
    if Minus(t, now).sec < 0 {
      assert Less(t, now);
      PlannedIsLater(now, period);
      assert period == period / MILLION * MILLION + period % MILLION;
    }
  }

  /** A turn on time comes one period after the last launch, a late one a period after `now`. */
  lemma OnePeriodLater(launch: Timeval, period: nat, now: Timeval)
    requires NearNormal(launch) && Normal(now) && period > 0
    ensures Micros(Planned(launch, period)) == Micros(launch) + period
    ensures Micros(NextLaunch(launch, period, now))
         == period + if Less(Planned(launch, period), now) then Micros(now) else Micros(launch)
  {
    assert period == period / MILLION * MILLION + period % MILLION;
    PlannedIsLater(launch, period);
  }

  /** The launch times of successive turns, with the clock readings in between. */
  ghost predicate Launches(ls: seq<Timeval>, period: nat, clock: seq<Timeval>) {
    && |clock| == |ls| && (forall k :: 0 <= k < |clock| ==> Normal(clock[k]))
    && (ls != [] ==> NearNormal(ls[0]))
    && forall k :: 0 <= k < |ls| - 1 ==> Turn(ls, period, clock, k)
  }

  ghost predicate Turn(ls: seq<Timeval>, period: nat, clock: seq<Timeval>, k: nat)
    requires k + 1 < |ls| == |clock|
  {
    ls[k + 1] == NextLaunch(ls[k], period, clock[k])
  }

  lemma {:induction false} LaunchesIncrease(ls: seq<Timeval>, period: nat, clock: seq<Timeval>, i: nat, j: nat)
    requires Launches(ls, period, clock) && period > 0 && i <= j < |ls|
    ensures NearNormal(ls[j]) && (i < j ==> Less(ls[i], ls[j]))
    decreases j
  {
    if j > 0 {
      LaunchesIncrease(ls, period, clock, if i < j then i else j - 1, j - 1);
      assert Turn(ls, period, clock, j - 1);
      LaunchAdvances(ls[j - 1], period, clock[j - 1]);
    }
  }

  /** The time of event `k`'s batch is the launch time of its turn, and later events belong to
      later turns. Turns without a batch, and turns of which no request was staged, drop out. */
  ghost predicate Scheduled(evs: seq<Event>, ls: seq<Timeval>, turns: seq<nat>) {
    && |turns| == |evs|
    && (forall k :: 0 <= k < |evs| && evs[k].Arrive? ==> turns[k] < |ls| && evs[k].time == ls[turns[k]])
    && forall j, k :: 0 <= j < k < |evs| && evs[j].Arrive? && evs[k].Arrive? ==> turns[j] < turns[k]
  }

  /** The clock of a run shows its beginning or the time of an earlier batch. */
  lemma {:induction false} ClockShowsABatch(evs: seq<Event>, now: Timeval, n: nat)
    requires n <= |evs|
    ensures ClockAt(evs, now, n) == now || exists j :: 0 <= j < n && evs[j].Arrive? && evs[j].time == ClockAt(evs, now, n)
  {
    if n > 0 { ClockShowsABatch(evs, now, n - 1); }
  }

  /** So the batches of a run come at strictly increasing times. */
  lemma LaunchesAreStrict(evs: seq<Event>, now: Timeval, ls: seq<Timeval>, period: nat, clock: seq<Timeval>, turns: seq<nat>)
    requires Launches(ls, period, clock) && period > 0 && Scheduled(evs, ls, turns)
    requires forall k :: 0 <= k < |evs| && evs[k].Arrive? ==> Less(now, evs[k].time)
    ensures Strict(evs, now)
  {
    forall k | 0 <= k < |evs| && evs[k].Arrive? ensures Less(ClockAt(evs, now, k), evs[k].time) {
      ClockShowsABatch(evs, now, k);
      if j :| 0 <= j < k && evs[j].Arrive? && evs[j].time == ClockAt(evs, now, k) {
        LaunchesIncrease(ls, period, clock, turns[j], turns[k]);
      }
    }
  }
}
