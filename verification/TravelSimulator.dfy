/** The cars of Assignment3 and the laps they drive, with double modelled as real. */
module TravelSimulator {
  const TANK := 50.0

  // ---- one car ----

  /** Level after pouring: capped at 50 liters. */
  function Poured(tank: real, liters: real): real {
    if tank + liters > TANK then TANK else tank + liters
  }

  /** Level after a distance in km at liters per 100 km: never below empty. */
  function Driven(tank: real, efficiency: real, distance: real): real {
    var left := tank - efficiency / 100.0 * distance;
    if left < 0.0 then 0.0 else left
  }

  /** class Automobile, with what was poured in, where it went, and the level after each pouring
      as histories. */
  class Automobile {
    var fuelEfficiency: real
    var fuelInTank: real
    ghost var poured: real
    ghost var burned: real
    ghost var spilled: real
    ghost var dumped: real
    ghost var refuels: seq<real>

    /** The tank never overflows or runs negative, and no fuel is lost or made. */
    ghost predicate Valid()
      reads this
    {
      && 0.0 <= fuelInTank <= TANK
      && 0.0 <= burned && 0.0 <= spilled && 0.0 <= dumped
      && poured == fuelInTank + burned + spilled + dumped
    }

    constructor ()
      ensures Valid() && fuelInTank == 0.0 && poured == 0.0 && refuels == []
    {
      fuelInTank, fuelEfficiency := 0.0, 0.0;
      poured, burned, spilled, dumped, refuels := 0.0, 0.0, 0.0, 0.0, [];
    }

    method SetFuelEfficiency(efficiency: real)
      modifies this`fuelEfficiency
      ensures fuelEfficiency == efficiency
    {
      fuelEfficiency := efficiency;
    }

    method EmptyFuel()
      requires Valid()
      modifies this`fuelInTank, this`dumped
      ensures Valid() && fuelInTank == 0.0 && dumped == old(dumped + fuelInTank)
    {
      dumped := dumped + fuelInTank;
      fuelInTank := 0.0;
    }

    method AddFuel(liters: real)
      requires Valid() && liters >= 0.0
      modifies this`fuelInTank, this`poured, this`spilled, this`refuels
      ensures Valid() && poured == old(poured) + liters
      ensures fuelInTank == Poured(old(fuelInTank), liters)
      ensures spilled == old(spilled) + (old(fuelInTank) + liters - fuelInTank)
      ensures refuels == old(refuels) + [fuelInTank]
    {
      fuelInTank, poured := fuelInTank + liters, poured + liters;
      if fuelInTank > 50.0 {
        spilled := spilled + (fuelInTank - 50.0);
        fuelInTank := 50.0;
      }
      refuels := refuels + [fuelInTank];
    }

    method Drive(distance: real)
      requires Valid() && fuelEfficiency >= 0.0 && distance >= 0.0
      modifies this`fuelInTank, this`burned
      ensures Valid()
      ensures fuelInTank == Driven(old(fuelInTank), fuelEfficiency, distance)
    {
      assert fuelEfficiency / 100.0 * distance >= 0.0;
      ghost var before := fuelInTank;
      var fuelConsumed := fuelEfficiency / 100.0 * distance;
      fuelInTank := fuelInTank - fuelConsumed;
      if fuelInTank < 0.0 {
        fuelInTank := 0.0;
      }
      burned := burned + (before - fuelInTank);
    }
  }

  // ---- laps ----

  // Liters per 100 km of car1 to car4 in the city and on the highway.

  function City(car: nat): real
    requires car < 4
  {
    [8.2, 7.8, 10.6, 17.29][car]
  }

  function Highway(car: nat): real
    requires car < 4
  {
    [6.2, 5.8, 7.5, 12.5][car]
  }

  /** The update of `track`. */
  function NextTrack(t: int): int {
    (t + 1) % 5 + 1
  }

  /** The value of `track` in lap n, counted from 0. */
  function Track(n: nat): (t: int) {
    if n == 0 then 1 else NextTrack(Track(n - 1))
  }

  lemma AddTwoModFive(m: nat)
    ensures (m % 5 + 2) % 5 == (m + 2) % 5
  {
    var q, r := m / 5, m % 5;
    assert m + 2 == if r < 3 then 5 * q + (r + 2) else 5 * (q + 1) + (r - 3);
  }

  /** The cycle of tracks: 1, 3, 5, 2, 4. */
  lemma {:induction false} TrackCycle(n: nat)
    ensures Track(n) == 2 * n % 5 + 1 && 1 <= Track(n) <= 5
  {
    if n > 0 {
      TrackCycle(n - 1);
      AddTwoModFive(2 * (n - 1));
    }
  }

  /** Does a full tank last the city part of track t? */
  predicate LastsInCity(car: nat, t: int)
    requires car < 4
  {
    City(car) * t as real <= TANK
  }

  /** In the city, car4 runs dry exactly on tracks 3 to 5 and car3 exactly on track 5; the
      others always get through. */
  lemma WhoRunsDry(car: nat, t: int)
    requires car < 4 && 1 <= t <= 5
    ensures LastsInCity(car, t) <==> !(car == 3 && t >= 3) && !(car == 2 && t == 5)
  {
    assert City(car) * t as real ==
      if t == 1 then City(car) else if t == 2 then City(car) * 2.0 else if t == 3 then City(car) * 3.0
      else if t == 4 then City(car) * 4.0 else City(car) * 5.0;
  }

  /** What a car holds at the end of a lap on track t: 50 - highwayRate * (5 - t), in liters. */
  function LapEnd(car: nat, t: int): real
    requires car < 4
  {
    match car
    case 0 => 19.0 + 6.2 * t as real
    case 1 => 21.0 + 5.8 * t as real
    case 2 => 12.5 + 7.5 * t as real
    case _ => -12.5 + 12.5 * t as real
  }

  /** What the second pouring spills: what was left of 50 liters after the city part. */
  function CityLeft(car: nat, t: int): real
    requires car < 4
  {
    match car
    case 0 => 50.0 - 8.2 * t as real
    case 1 => 50.0 - 7.8 * t as real
    case 2 => if t == 5 then 0.0 else 50.0 - 10.6 * t as real
    case _ => if t >= 3 then 0.0 else 50.0 - 17.29 * t as real
  }

  /** The highway part never empties a full tank. */
  lemma HighwayIsShort(car: nat, t: int)
    requires car < 4 && 1 <= t <= 5
    ensures Driven(50.0, Highway(car), (500 - t * 100) as real) == LapEnd(car, t) && 0.0 <= LapEnd(car, t) <= 50.0
  {
    if t == 1 {} else if t == 2 {} else if t == 3 {} else if t == 4 {}
  }

  lemma CityPart(car: nat, t: int)
    requires car < 4 && 1 <= t <= 5
    ensures Driven(50.0, City(car), (t * 100) as real) == CityLeft(car, t) && 0.0 <= CityLeft(car, t)
  {
    if t == 1 {} else if t == 2 {} else if t == 3 {} else if t == 4 {}
  }

  /** One car over one lap. Both pourings end at exactly 50 liters, and the car
      ends the lap with 50 - highwayRate * (5 - track) liters, never running dry on the
      highway. */
  method DriveLap(c: Automobile, car: nat, track: int)
    requires car < 4 && 1 <= track <= 5 && c.Valid()
    modifies c
    ensures c.Valid()
    ensures c.fuelInTank ==
            match car
            case 0 => 19.0 + 6.2 * track as real
            case 1 => 21.0 + 5.8 * track as real
            case 2 => 12.5 + 7.5 * track as real
            case _ => -12.5 + 12.5 * track as real
    ensures c.spilled - old(c.spilled) ==
            match car
            case 0 => 50.0 - 8.2 * track as real
            case 1 => 50.0 - 7.8 * track as real
            case 2 => (if track == 5 then 0.0 else 50.0 - 10.6 * track as real)
            case _ => (if track >= 3 then 0.0 else 50.0 - 17.29 * track as real)
    ensures c.poured == old(c.poured) + 100.0
    ensures c.dumped == old(c.dumped) + old(c.fuelInTank)
    ensures c.refuels == old(c.refuels) + [TANK, TANK]
  {
    c.EmptyFuel();
    c.AddFuel(50.0);
    var cityDistance := track * 100;
    c.SetFuelEfficiency(City(car));
    CityPart(car, track);
    c.Drive(cityDistance as real);
    c.AddFuel(50.0);
    var highwayDistance := 500 - cityDistance;
    c.SetFuelEfficiency(Highway(car));
    HighwayIsShort(car, track);
    c.Drive(highwayDistance as real);
  }

  /** The track in lap n, counted from 0: 1, 3, 5, 2, 4, and so on. */
  function Cycle(n: nat): nat {
    2 * n % 5 + 1
  }

  /** What became of the fuel of one car: in the tank, poured in, spilled and dumped so far. */
  datatype Account = Account(tank: real, poured: real, spilled: real, dumped: real)

  /** The account after one more lap on track t. */
  function AfterLap(a: Account, car: nat, t: int): Account
    requires car < 4
  {
    Account(LapEnd(car, t), a.poured + 100.0, a.spilled + CityLeft(car, t), a.dumped + a.tank)
  }

  function AfterLaps(car: nat, laps: nat): Account
    requires car < 4
  {
    if laps == 0 then Account(0.0, 0.0, 0.0, 0.0) else AfterLap(AfterLaps(car, laps - 1), car, Cycle(laps - 1))
  }

  /** A car after some laps: its account, and every pouring ended at exactly 50. */
  ghost predicate Lapped(c: Automobile, car: nat, laps: nat)
    requires car < 4
    reads c
  {
    && c.Valid() && Account(c.fuelInTank, c.poured, c.spilled, c.dumped) == AfterLaps(car, laps)
    && |c.refuels| == 2 * laps && forall level | level in c.refuels :: level == 50.0
  }

  /** In liters: 100 poured in each lap, and the level the last lap leaves. */
  lemma {:induction false} AccountNumbers(car: nat, laps: nat)
    requires car < 4
    ensures var a := AfterLaps(car, laps);
            && a.poured == 100.0 * laps as real
            && (laps > 0 ==> a.tank == LapEnd(car, 2 * (laps - 1) % 5 + 1))
  {
    if laps > 0 {
      AccountNumbers(car, laps - 1);
    }
  }

  method OneMoreLap(c: Automobile, car: nat, track: int, ghost lap: nat)
    requires car < 4 && track == Track(lap) && Lapped(c, car, lap)
    modifies c
    ensures Lapped(c, car, lap + 1)
  {
    TrackCycle(lap);
    DriveLap(c, car, track);
  }

  /** One pass of main's loop. */
  method LapOfAll(car1: Automobile, car2: Automobile, car3: Automobile, car4: Automobile, track: int, ghost lap: nat)
    requires car1 != car2 && car1 != car3 && car1 != car4 && car2 != car3 && car2 != car4 && car3 != car4
    requires Lapped(car1, 0, lap) && Lapped(car2, 1, lap) && Lapped(car3, 2, lap) && Lapped(car4, 3, lap)
    requires track == Track(lap)
    modifies car1, car2, car3, car4
    ensures Lapped(car1, 0, lap + 1) && Lapped(car2, 1, lap + 1) && Lapped(car3, 2, lap + 1) && Lapped(car4, 3, lap + 1)
  {
    OneMoreLap(car1, 0, track, lap);
    OneMoreLap(car2, 1, track, lap);
    OneMoreLap(car3, 2, track, lap);
    OneMoreLap(car4, 3, track, lap);
  }

  /** Any number of laps of main's loop with its four cars. */
  method Simulate(laps: nat, car1: Automobile, car2: Automobile, car3: Automobile, car4: Automobile) returns (track: int)
    requires car1 != car2 && car1 != car3 && car1 != car4 && car2 != car3 && car2 != car4 && car3 != car4
    requires Lapped(car1, 0, 0) && Lapped(car2, 1, 0) && Lapped(car3, 2, 0) && Lapped(car4, 3, 0)
    modifies car1, car2, car3, car4
    ensures track == Track(laps)
    ensures Lapped(car1, 0, laps) && Lapped(car2, 1, laps) && Lapped(car3, 2, laps) && Lapped(car4, 3, laps)
  {
    track := 1;
    for lap := 0 to laps
      invariant track == Track(lap)
      invariant Lapped(car1, 0, lap) && Lapped(car2, 1, lap) && Lapped(car3, 2, lap) && Lapped(car4, 3, lap)
    {
      LapOfAll(car1, car2, car3, car4, track, lap);
      track := NextTrack(track);
    }
  }
}
