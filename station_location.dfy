/**
 * The station view a map client shows: a station's coordinates and capacity and the
 * bikes parked there that a rider could take right now, ordered by dock.
 */
module StationLocations {
  import opened Common
  import opened Domain

  /** A bike row together with its id (its index in the bikes table). */
  datatype ParkedBike = ParkedBike(id: nat, bike: Bike)

  function Ids(ps: seq<ParkedBike>): (r: seq<nat>)
    ensures |r| == |ps| && forall i :: 0 <= i < |ps| ==> r[i] == ps[i].id
  {
    seq(|ps|, i requires 0 <= i < |ps| => ps[i].id)
  }

  predicate IncreasingIds(ps: seq<ParkedBike>)
  {
    forall i, j :: 0 <= i < j < |ps| ==> ps[i].id < ps[j].id
  }

  /** The station's parkedBikes: the bikes whose current station is `stationId`, in id order. */
  function BikesAt(bikes: seq<Bike>, stationId: nat, n: nat): (r: seq<ParkedBike>)
    requires n <= |bikes|
    ensures IncreasingIds(r)
    ensures forall p :: p in r <==> p.id < n && p.bike == bikes[p.id] && p.bike.currentStation == Some(stationId)
  {
    if n == 0 then []
    else
      var init := BikesAt(bikes, stationId, n - 1);
      if bikes[n - 1].currentStation == Some(stationId) then init + [ParkedBike(n - 1, bikes[n - 1])] else init
  }

  /** The filter: parked, not offered as a HiBike, and at least 20% battery. */
  predicate IsAvailable(b: Bike)
  {
    b.status == Parked && b.hiBikeStatus == HiBikeNone && b.batteryLevel >= 20
  }

  function Available(ps: seq<ParkedBike>): (r: seq<ParkedBike>)
    ensures forall p :: p in r <==> p in ps && IsAvailable(p.bike)
    ensures IncreasingIds(ps) ==> IncreasingIds(r)
  {
    if |ps| == 0 then []
    else
      var init := Available(ps[..|ps| - 1]);
      var last := ps[|ps| - 1];
      assert forall p :: p in ps <==> p in ps[..|ps| - 1] || p == last;
      if IsAvailable(last.bike) then init + [last] else init
  }

  // ------------------------------------------------------------------
  // Ordering by dock, null docks last

  function Dock(p: ParkedBike): Option<int>
  {
    p.bike.currentDockId
  }

  /** Comparator.nullsLast(naturalOrder()) on the dock id, as "not after". */
  predicate DockLe(a: Option<int>, b: Option<int>)
  {
    b.None? || (a.Some? && a.value <= b.value)
  }

  /** DockLe is a total preorder, so sorting by it is meaningful. */
  lemma DockLeTotalPreorder(a: Option<int>, b: Option<int>, c: Option<int>)
    ensures DockLe(a, a)
    ensures DockLe(a, b) || DockLe(b, a)
    ensures DockLe(a, b) && DockLe(b, c) ==> DockLe(a, c)
    ensures DockLe(a, b) && DockLe(b, a) ==> a == b
  {
  }

  predicate SortedByDock(ps: seq<ParkedBike>)
  {
    forall i, j :: 0 <= i < j < |ps| ==> DockLe(Dock(ps[i]), Dock(ps[j]))
  }

  /** The entries of `ps` whose dock is `d`, in their order in `ps`. */
  function WithDock(ps: seq<ParkedBike>, d: Option<int>): seq<ParkedBike>
  {
    if |ps| == 0 then []
    else WithDock(ps[..|ps| - 1], d) + (if Dock(ps[|ps| - 1]) == d then [ps[|ps| - 1]] else [])
  }

  /** Insert `x` after every entry whose dock is not after its own. */
  function Insert(s: seq<ParkedBike>, x: ParkedBike): seq<ParkedBike>
  {
    if |s| == 0 then [x]
    else if DockLe(Dock(s[|s| - 1]), Dock(x)) then s + [x]
    else Insert(s[..|s| - 1], x) + [s[|s| - 1]]
  }

  /** The stable sort that Stream.sorted performs on an ordered stream. */
  function SortByDock(ps: seq<ParkedBike>): seq<ParkedBike>
  {
    if |ps| == 0 then [] else Insert(SortByDock(ps[..|ps| - 1]), ps[|ps| - 1])
  }

  lemma {:induction false} InsertPermutes(s: seq<ParkedBike>, x: ParkedBike)
    ensures multiset(Insert(s, x)) == multiset(s) + multiset{x}
  {
    if |s| > 0 && !DockLe(Dock(s[|s| - 1]), Dock(x)) {
      var init, last := s[..|s| - 1], s[|s| - 1];
      InsertPermutes(init, x);
      assert s == init + [last];
    }
  }

  lemma {:induction false} InsertPermutesIds(s: seq<ParkedBike>, x: ParkedBike)
    ensures multiset(Ids(Insert(s, x))) == multiset(Ids(s)) + multiset{x.id}
  {
    if |s| == 0 {
      assert Ids([x]) == [x.id];
    } else if !DockLe(Dock(s[|s| - 1]), Dock(x)) {
      var init, last := s[..|s| - 1], s[|s| - 1];
      InsertPermutesIds(init, x);
      assert Ids(s) == Ids(init) + [last.id];
      assert Ids(Insert(init, x) + [last]) == Ids(Insert(init, x)) + [last.id];
    } else {
      assert Ids(s + [x]) == Ids(s) + [x.id];
    }
  }

  lemma {:induction false} InsertSorted(s: seq<ParkedBike>, x: ParkedBike)
    requires SortedByDock(s)
    ensures SortedByDock(Insert(s, x))
  {
    if |s| > 0 && !DockLe(Dock(s[|s| - 1]), Dock(x)) {
      var init, last := s[..|s| - 1], s[|s| - 1];
      InsertSorted(init, x);
      InsertPermutes(init, x);
      var u := Insert(init, x);
      forall i | 0 <= i < |u|
        ensures DockLe(Dock(u[i]), Dock(last))
      {
        assert u[i] in multiset(init) + multiset{x};
        if u[i] in init {
          var k :| 0 <= k < |init| && init[k] == u[i];
          assert s[k] == u[i];
        }
      }
    }
  }

  lemma {:induction false} InsertKeepsDockOrder(s: seq<ParkedBike>, x: ParkedBike, d: Option<int>)
    ensures WithDock(Insert(s, x), d) == WithDock(s, d) + (if Dock(x) == d then [x] else [])
  {
    if |s| == 0 {
      assert WithDock([x], d) == WithDock([x][..0], d) + (if Dock(x) == d then [x] else []);
    } else if DockLe(Dock(s[|s| - 1]), Dock(x)) {
      assert (s + [x])[..|s|] == s;
    } else {
      var init, last := s[..|s| - 1], s[|s| - 1];
      var u := Insert(init, x);
      InsertKeepsDockOrder(init, x, d);
      assert (u + [last])[..|u|] == u;
      assert Dock(last) != Dock(x);
    }
  }

  /** SortByDock returns the entries ordered by dock. */
  lemma {:induction false} SortByDockSorted(ps: seq<ParkedBike>)
    ensures SortedByDock(SortByDock(ps))
  {
    if |ps| > 0 {
      SortByDockSorted(ps[..|ps| - 1]);
      InsertSorted(SortByDock(ps[..|ps| - 1]), ps[|ps| - 1]);
    }
  }

  /** SortByDock keeps each entry exactly as often as before. */
  lemma {:induction false} SortByDockPermutes(ps: seq<ParkedBike>)
    ensures multiset(SortByDock(ps)) == multiset(ps)
  {
    if |ps| > 0 {
      var init, last := ps[..|ps| - 1], ps[|ps| - 1];
      SortByDockPermutes(init);
      InsertPermutes(SortByDock(init), last);
      assert ps == init + [last];
    }
  }

  /** SortByDock keeps each id exactly as often as before. */
  lemma {:induction false} SortByDockPermutesIds(ps: seq<ParkedBike>)
    ensures multiset(Ids(SortByDock(ps))) == multiset(Ids(ps))
  {
    if |ps| > 0 {
      var init, last := ps[..|ps| - 1], ps[|ps| - 1];
      SortByDockPermutesIds(init);
      InsertPermutesIds(SortByDock(init), last);
      assert Ids(ps) == Ids(init) + [last.id];
    }
  }

  /** SortByDock keeps the input order among entries at the same dock. */
  lemma {:induction false} SortByDockStable(ps: seq<ParkedBike>, d: Option<int>)
    ensures WithDock(SortByDock(ps), d) == WithDock(ps, d)
  {
    if |ps| > 0 {
      var init, last := ps[..|ps| - 1], ps[|ps| - 1];
      SortByDockStable(init, d);
      InsertKeepsDockOrder(SortByDock(init), last, d);
    }
  }

  /** In a list with increasing ids every id occurs at most once. */
  lemma {:induction false} IncreasingIdsOnce(ps: seq<ParkedBike>, b: nat)
    requires IncreasingIds(ps)
    ensures multiset(Ids(ps))[b] == if exists p :: p in ps && p.id == b then 1 else 0
  {
    if |ps| > 0 {
      var init, last := ps[..|ps| - 1], ps[|ps| - 1];
      IncreasingIdsOnce(init, b);
      assert Ids(ps) == Ids(init) + [last.id];
      assert forall p :: p in ps <==> p in init || p == last;
      if last.id == b {
        assert forall p :: p in init ==> p.id < b;
      }
    }
  }

  // ------------------------------------------------------------------
  // The DTO

  datatype BikeInfo = BikeInfo(
    bikeId: nat,
    qrCode: string,
    batteryLevel: int,
    status: BikeStatus,
    hiBikeStatus: HiBikeStatus,
    currentDockId: Option<int>,
    homeHubId: nat,
    homeHubName: string)

  datatype StationLocation = StationLocation(
    stationId: nat,
    stationName: string,
    latitude: Coordinate,
    longitude: Coordinate,
    capacity: int,
    availableBikes: seq<BikeInfo>)

  function Info(p: ParkedBike): BikeInfo
  {
    BikeInfo(p.id, p.bike.qrCode, p.bike.batteryLevel, p.bike.status, p.bike.hiBikeStatus,
             p.bike.currentDockId, p.bike.homeHub.id, p.bike.homeHub.name)
  }

  /** StationLocationDto.from for the station stored under `stationId`. */
  function From(t: Tables, stationId: nat): StationLocation
    requires stationId in t.stations
  {
    var station := t.stations[stationId];
    var chosen := SortByDock(Available(BikesAt(t.bikes, stationId, |t.bikes|)));
    StationLocation(stationId, station.name, station.latitude, station.longitude, station.capacity,
                    seq(|chosen|, i requires 0 <= i < |chosen| => Info(chosen[i])))
  }

  function InfoIds(infos: seq<BikeInfo>): seq<nat>
  {
    seq(|infos|, i requires 0 <= i < |infos| => infos[i].bikeId)
  }

  /** The station's own fields are copied unchanged. */
  lemma FromCopiesStation(t: Tables, stationId: nat)
    requires stationId in t.stations
    ensures var r := From(t, stationId);
      var station := t.stations[stationId];
      && r.stationId == stationId && r.stationName == station.name && r.latitude == station.latitude
      && r.longitude == station.longitude && r.capacity == station.capacity
  {
  }

  /** Every listed bike is parked at the station and available, and is described by its own row. */
  lemma FromDescribesAvailableBikes(t: Tables, stationId: nat)
    requires stationId in t.stations
    ensures var infos := From(t, stationId).availableBikes;
      forall i :: 0 <= i < |infos| ==>
        var info := infos[i];
        && info.bikeId < |t.bikes|
        && var b := t.bikes[info.bikeId];
        && b.currentStation == Some(stationId) && IsAvailable(b)
        && info == BikeInfo(info.bikeId, b.qrCode, b.batteryLevel, b.status, b.hiBikeStatus,
                            b.currentDockId, b.homeHub.id, b.homeHub.name)
  {
    var filtered := Available(BikesAt(t.bikes, stationId, |t.bikes|));
    var chosen := SortByDock(filtered);
    SortByDockPermutes(filtered);
    forall i | 0 <= i < |chosen|
      ensures chosen[i] in filtered
    {
      assert chosen[i] in multiset(chosen);
    }
  }

  /** The list is ordered by dock id, bikes without a dock last. */
  lemma FromOrderedByDock(t: Tables, stationId: nat)
    requires stationId in t.stations
    ensures var infos := From(t, stationId).availableBikes;
      forall i, j :: 0 <= i < j < |infos| ==> DockLe(infos[i].currentDockId, infos[j].currentDockId)
  {
    SortByDockSorted(Available(BikesAt(t.bikes, stationId, |t.bikes|)));
  }

  /** Every available bike parked at the station is listed exactly once, and no other bike is. */
  lemma FromListsEachOnce(t: Tables, stationId: nat, b: nat)
    requires stationId in t.stations
    ensures multiset(InfoIds(From(t, stationId).availableBikes))[b]
      == if b < |t.bikes| && t.bikes[b].currentStation == Some(stationId) && IsAvailable(t.bikes[b]) then 1 else 0
  {
    var filtered := Available(BikesAt(t.bikes, stationId, |t.bikes|));
    var chosen := SortByDock(filtered);
    SortByDockPermutesIds(filtered);
    IncreasingIdsOnce(filtered, b);
    assert InfoIds(From(t, stationId).availableBikes) == Ids(chosen);
    if b < |t.bikes| && t.bikes[b].currentStation == Some(stationId) && IsAvailable(t.bikes[b]) {
      assert ParkedBike(b, t.bikes[b]) in filtered;
    }
  }

  /** Bikes sharing a dock id (in practice only bikes without a dock) keep the id order of
    * the station's list. */
  lemma FromIsStable(t: Tables, stationId: nat, d: Option<int>)
    requires stationId in t.stations
    ensures var chosen := SortByDock(Available(BikesAt(t.bikes, stationId, |t.bikes|)));
      && IncreasingIds(WithDock(chosen, d))
      && From(t, stationId).availableBikes == seq(|chosen|, i requires 0 <= i < |chosen| => Info(chosen[i]))
  {
    var filtered := Available(BikesAt(t.bikes, stationId, |t.bikes|));
    SortByDockStable(filtered, d);
    WithDockKeepsIncreasing(filtered, d);
  }

  lemma {:induction false} WithDockKeepsIncreasing(ps: seq<ParkedBike>, d: Option<int>)
    requires IncreasingIds(ps)
    ensures IncreasingIds(WithDock(ps, d)) && forall p :: p in WithDock(ps, d) ==> p in ps
  {
    if |ps| > 0 {
      var init, last := ps[..|ps| - 1], ps[|ps| - 1];
      WithDockKeepsIncreasing(init, d);
      forall p | p in WithDock(init, d)
        ensures p in ps && p.id < last.id
      {
        var k :| 0 <= k < |init| && init[k] == p;
        assert ps[k] == p;
      }
    }
  }
}
