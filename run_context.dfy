/** The run simulation: one mutable run record, four commands (start, pause,
    reset, toggle unit) and the one-second tick that advances the clock, the
    distance and the trail. */
module RunContext {
  import opened Types

  /** Most positions the trail keeps (`slice(-100)`). */
  const MaxTrail: nat := 100

  /** Conversion ratios used when the unit is toggled. */
  const KmToMi: real := 0.621371
  const MiToKm: real := 1.60934

  const InitialPosition: Position := Position(40.7128, -74.0060)

  /** The record at mount and after every reset: 0 km, 00:00:00 stopped,
      empty trail, current position at the fixed start coordinate. */
  const InitialRunData: RunData :=
    RunData(Distance(0, Km), Time(0, 0, 0, false), Route([], InitialPosition))

  // ---------------------------------------------------------------------
  // Elapsed time

  function TotalSeconds(t: Time): nat {
    t.hours * 3600 + t.minutes * 60 + t.seconds
  }

  /** Minutes and seconds are carried, as after every update of the clock. */
  predicate Normalized(t: Time) {
    t.seconds < 60 && t.minutes < 60
  }

  /** The clock showing `n` seconds of elapsed time. */
  function FromTotalSeconds(n: nat, isRunning: bool): (t: Time)
    ensures Normalized(t) && TotalSeconds(t) == n && t.isRunning == isRunning
  {
    var rest := n % 3600;
    Time(n / 3600, rest / 60, rest % 60, isRunning)
  }

  /** A carried clock is determined by its total number of seconds. */
  lemma NormalizedTimeUnique(a: Time, b: Time)
    requires Normalized(a) && Normalized(b) && TotalSeconds(a) == TotalSeconds(b)
    ensures a.hours == b.hours && a.minutes == b.minutes && a.seconds == b.seconds
  {
  }

  /** The clock after `n` ticks from `t`, one second at a time, each tick
      giving the carried clock one second further on (the contract of
      `RunProvider.UpdateTime`). */
  function TimeAfter(t: Time, n: nat): Time
    decreases n
  {
    if n == 0 then t
    else TimeAfter(FromTotalSeconds(TotalSeconds(t) + 1, t.isRunning), n - 1)
  }

  /** `n` ticks from a carried clock add exactly `n` seconds. */
  lemma {:induction false} TimeAfterAddsSeconds(t: Time, n: nat)
    requires Normalized(t)
    ensures TimeAfter(t, n) == FromTotalSeconds(TotalSeconds(t) + n, t.isRunning)
    decreases n
  {
    if n == 0 {
      NormalizedTimeUnique(t, FromTotalSeconds(TotalSeconds(t), t.isRunning));
    } else {
      TimeAfterAddsSeconds(FromTotalSeconds(TotalSeconds(t) + 1, t.isRunning), n - 1);
    }
  }

  /** 3661 ticks from 00:00:00 show 01:01:01. */
  lemma ClockAfter3661Ticks(isRunning: bool)
    ensures TimeAfter(Time(0, 0, 0, isRunning), 3661) == Time(1, 1, 1, isRunning)
  {
    TimeAfterAddsSeconds(Time(0, 0, 0, isRunning), 3661);
  }

  // ---------------------------------------------------------------------
  // Distance

  /** `Number(x.toFixed(2))` for a non-negative `x`, in hundredths: the
      nearest hundredth, a tie going up. */
  function RoundToHundredths(x: real): (n: nat)
    requires x >= 0.0
    ensures n as real - 0.5 <= x * 100.0 < n as real + 0.5
  {
    (x * 100.0 + 0.5).Floor
  }

  /** The distance after one tick: an increment `draw * 0.04 + 0.01` in the
      current unit is added and the sum is rounded to two decimals. */
  function AdvancedDistance(d: Distance, draw: real): (r: Distance)
    requires 0.0 <= draw < 1.0
    ensures r.unit == d.unit
    ensures d.hundredths + 1 <= r.hundredths <= d.hundredths + 5
  {
    var sum := d.hundredths as real / 100.0 + (draw * 0.04 + 0.01);
    assert sum * 100.0 == d.hundredths as real + draw * 4.0 + 1.0;
    Distance(RoundToHundredths(sum), d.unit)
  }

  /** The distance after the unit is toggled: the other unit, and the value
      converted with the fixed ratio and rounded to two decimals. */
  function ToggledDistance(d: Distance): (r: Distance)
    ensures r.unit != d.unit
    ensures d.unit == Km ==>
      r.hundredths as real - 0.5 <= d.hundredths as real * KmToMi < r.hundredths as real + 0.5
    ensures d.unit == Mi ==>
      r.hundredths as real - 0.5 <= d.hundredths as real * MiToKm < r.hundredths as real + 0.5
  {
    var value := d.hundredths as real / 100.0;
    if d.unit == Km then
      Distance(RoundToHundredths(value * KmToMi), Mi)
    else
      Distance(RoundToHundredths(value * MiToKm), Km)
  }

  /** Toggling twice restores the unit. */
  lemma ToggleTwiceRestoresUnit(d: Distance)
    ensures ToggledDistance(ToggledDistance(d)).unit == d.unit
  {
  }

  /** km -> mi -> km comes back within one hundredth for distances up to
      1000 km (the ratios' product is 0.99999720514, not 1). */
  lemma KmMiKmWithinOneHundredth(d: Distance)
    requires d.unit == Km && d.hundredths <= 100000
    ensures ToggledDistance(ToggledDistance(d)).unit == Km
    ensures -1 <= ToggledDistance(ToggledDistance(d)).hundredths - d.hundredths <= 1
  {
  }

  /** mi -> km -> mi is exact for distances up to 600 mi. */
  lemma MiKmMiExact(d: Distance)
    requires d.unit == Mi && d.hundredths <= 60000
    ensures ToggledDistance(ToggledDistance(d)) == d
  {
  }

  /** The km -> mi -> km round trip is not the identity: 0.01 km becomes
      0.01 mi and then 0.02 km. */
  lemma KmMiKmNotIdentity()
    ensures ToggledDistance(Distance(1, Km)) == Distance(1, Mi)
    ensures ToggledDistance(ToggledDistance(Distance(1, Km))) == Distance(2, Km)
  {
  }

  // ---------------------------------------------------------------------
  // Route

  /** `s.slice(-n)`: the last `n` elements of `s`, or all of `s` when it is
      shorter, in their original order. */
  function KeepLast<T>(s: seq<T>, n: nat): (r: seq<T>)
    ensures |r| == if |s| <= n then |s| else n
    ensures r == s[|s| - |r|..]
  {
    if |s| <= n then s else s[|s| - n..]
  }

  /** Keeping the last `n` early does not change what is kept later. */
  lemma KeepLastAbsorbs<T>(s: seq<T>, t: seq<T>, n: nat)
    ensures KeepLast(KeepLast(s, n) + t, n) == KeepLast(s + t, n)
  {
    var k := KeepLast(s, n);
    assert k + t == (s + t)[|s| - |k|..];
    var a, b := KeepLast(k + t, n), KeepLast(s + t, n);
    assert |a| == |b|;
    forall i | 0 <= i < |a| ensures a[i] == b[i] {
      assert a[i] == (k + t)[|k + t| - |a| + i];
    }
  }

  /** The position after one tick: each coordinate moves by
      `(draw - 0.5) * 0.001` degrees. */
  function MovedPosition(p: Position, latDraw: real, lngDraw: real): (q: Position)
    requires 0.0 <= latDraw < 1.0 && 0.0 <= lngDraw < 1.0
    ensures -0.0005 <= q.lat - p.lat < 0.0005
    ensures -0.0005 <= q.lng - p.lng < 0.0005
  {
    Position(p.lat + (latDraw - 0.5) * 0.001, p.lng + (lngDraw - 0.5) * 0.001)
  }

  /** The trail after the positions `moves` were appended one tick at a time. */
  function TrailAfter(trail: seq<Position>, moves: seq<Position>): (r: seq<Position>)
    ensures |trail| <= MaxTrail ==> |r| <= MaxTrail
    ensures moves != [] ==> |r| > 0 && r[|r| - 1] == moves[|moves| - 1]
    ensures moves == [] ==> r == trail
    decreases |moves|
  {
    if moves == [] then trail
    else TrailAfter(KeepLast(trail + [moves[0]], MaxTrail), moves[1..])
  }

  /** However many ticks happen, the trail is the last 100 of all positions
      appended, in chronological order. */
  lemma {:induction false} TrailKeepsLastHundred(trail: seq<Position>, moves: seq<Position>)
    requires |trail| <= MaxTrail
    ensures TrailAfter(trail, moves) == KeepLast(trail + moves, MaxTrail)
    decreases |moves|
  {
    if moves == [] {
      assert trail + moves == trail;
    } else {
      var next := KeepLast(trail + [moves[0]], MaxTrail);
      TrailKeepsLastHundred(next, moves[1..]);
      KeepLastAbsorbs(trail + [moves[0]], moves[1..], MaxTrail);
      assert trail + [moves[0]] + moves[1..] == trail + moves;
    }
  }

  // ---------------------------------------------------------------------
  // The run record

  /** What holds of the record between any two commands or ticks. */
  ghost predicate WellFormed(d: RunData) {
    && Normalized(d.time)
    && |d.route.coordinates| <= MaxTrail
    && (d.route.coordinates != [] ==>
          d.route.coordinates[|d.route.coordinates| - 1] == d.route.currentPosition)
  }

  /** The provider of the run record: the record is replaced as a whole by
      each command and by each tick. */
  class RunProvider {
    var runData: RunData

    ghost predicate Valid()
      reads this
    {
      WellFormed(runData)
    }

    /** Mounting the provider. */
    constructor ()
      ensures Valid() && runData == InitialRunData
    {
      runData := InitialRunData;
    }

    /** Advance the clock by one second, carrying into minutes and hours. */
    method UpdateTime()
      requires Valid()
      modifies this
      ensures Valid()
      ensures runData.time == FromTotalSeconds(TotalSeconds(old(runData.time)) + 1, old(runData.time.isRunning))
      ensures runData.distance == old(runData.distance) && runData.route == old(runData.route)
    {
      var hours, minutes, seconds := runData.time.hours, runData.time.minutes, runData.time.seconds;
      seconds := seconds + 1;
      if seconds >= 60 {
        seconds := 0;
        minutes := minutes + 1;
      }
      if minutes >= 60 {
        minutes := 0;
        hours := hours + 1;
      }
      runData := runData.(time := runData.time.(hours := hours, minutes := minutes, seconds := seconds));
      NormalizedTimeUnique(runData.time, FromTotalSeconds(TotalSeconds(old(runData.time)) + 1, runData.time.isRunning));
    }

    /** Add the simulated distance increment for one second. */
    method UpdateDistance(draw: real)
      requires Valid() && 0.0 <= draw < 1.0
      modifies this
      ensures Valid()
      ensures runData == old(runData).(distance := AdvancedDistance(old(runData.distance), draw))
    {
      runData := runData.(distance := AdvancedDistance(runData.distance, draw));
    }

    /** Move the current position by a small step and append it to the
      trail, keeping only the last 100 positions. */
    method UpdateRoute(latDraw: real, lngDraw: real)
      requires Valid() && 0.0 <= latDraw < 1.0 && 0.0 <= lngDraw < 1.0
      modifies this
      ensures Valid()
      ensures runData.route.currentPosition
           == MovedPosition(old(runData.route.currentPosition), latDraw, lngDraw)
      ensures runData.route.coordinates
           == KeepLast(old(runData.route.coordinates) + [runData.route.currentPosition], MaxTrail)
      ensures runData.distance == old(runData.distance) && runData.time == old(runData.time)
    {
      var latChange := (latDraw - 0.5) * 0.001;
      var lngChange := (lngDraw - 0.5) * 0.001;
      var newLat := runData.route.currentPosition.lat + latChange;
      var newLng := runData.route.currentPosition.lng + lngChange;
      var newCoordinates := KeepLast(runData.route.coordinates + [Position(newLat, newLng)], MaxTrail);
      runData := runData.(route := Route(newCoordinates, Position(newLat, newLng)));
    }

    /** One firing of the one-second interval. The interval is armed only
        while the run is running, so a stopped record does not change. */
    method Tick(distanceDraw: real, latDraw: real, lngDraw: real)
      requires Valid()
      requires 0.0 <= distanceDraw < 1.0 && 0.0 <= latDraw < 1.0 && 0.0 <= lngDraw < 1.0
      modifies this
      ensures Valid()
      ensures !old(runData.time.isRunning) ==> runData == old(runData)
      ensures old(runData.time.isRunning) ==>
        && runData.time == FromTotalSeconds(TotalSeconds(old(runData.time)) + 1, true)
        && runData.distance == AdvancedDistance(old(runData.distance), distanceDraw)
        && runData.route.currentPosition
           == MovedPosition(old(runData.route.currentPosition), latDraw, lngDraw)
        && runData.route.coordinates
           == KeepLast(old(runData.route.coordinates) + [runData.route.currentPosition], MaxTrail)
    {
      if runData.time.isRunning {
        UpdateTime();
        UpdateDistance(distanceDraw);
        UpdateRoute(latDraw, lngDraw);
      }
    }

    /** Set the running flag; nothing else changes. */
    method StartRun()
      requires Valid()
      modifies this
      ensures Valid()
      ensures runData == old(runData).(time := old(runData.time).(isRunning := true))
    {
      runData := runData.(time := runData.time.(isRunning := true));
    }

    /** Clear the running flag; nothing else changes. */
    method PauseRun()
      requires Valid()
      modifies this
      ensures Valid()
      ensures runData == old(runData).(time := old(runData.time).(isRunning := false))
    {
      runData := runData.(time := runData.time.(isRunning := false));
    }

    /** Restore the initial record, whatever the state before. */
    method ResetRun()
      modifies this
      ensures Valid() && runData == InitialRunData
    {
      runData := InitialRunData;
    }

    /** Switch between km and mi, converting the value; time and route do
        not change. */
    method ToggleUnit()
      requires Valid()
      modifies this
      ensures Valid()
      ensures runData == old(runData).(distance := ToggledDistance(old(runData.distance)))
    {
      var currentUnit := runData.distance.unit;
      var newUnit := if currentUnit == Km then Mi else Km;
      var newValue := runData.distance.hundredths;
      if currentUnit == Km && newUnit == Mi {
        newValue := RoundToHundredths(runData.distance.hundredths as real / 100.0 * KmToMi);
      } else if currentUnit == Mi && newUnit == Km {
        newValue := RoundToHundredths(runData.distance.hundredths as real / 100.0 * MiToKm);
      }
      runData := runData.(distance := Distance(newValue, newUnit));
    }
  }
}
