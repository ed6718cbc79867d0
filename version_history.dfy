/** What changed between the legacy and the current agency tools: the
    route id moved from the GTFS route ID to the short name, the long-name
    and colour tables stayed the same, and the split registry gained 441A
    and the Dial-A-Bus routes 490 to 494 while five entries changed their
    stop orders or headsigns. */
module VersionHistory {
  import opened Wrappers
  import opened RouteIdCodec
  import opened GtfsData
  import Current = AgencyTools
  import Legacy = LegacyAgencyTools

  /** Both versions encode with the same rule; the legacy one reads the
      GTFS route ID where the current one reads the short name. */
  lemma RouteIdSourceChanged(route: GRoute)
    ensures var renamed := route.(routeShortName := route.routeId);
      && (Legacy.GetRouteId(route).Success? <==> Current.GetRouteId(renamed).Success?)
      && (Legacy.GetRouteId(route).Success? ==> Legacy.GetRouteId(route).value == Current.GetRouteId(renamed).value)
    ensures route.routeId == route.routeShortName ==> Legacy.GetRouteId(route) == Current.GetRouteId(route)
  {
    var renamed := route.(routeShortName := route.routeId);
    assert renamed.routeShortName == route.routeId;
  }

  /** The long-name table is the same in both versions. */
  lemma LongNamesUnchanged(route: GRoute, cleanRouteLongName: string -> string)
    ensures Legacy.GetRouteLongName(route, cleanRouteLongName) == Current.GetRouteLongName(route, cleanRouteLongName)
  {
    assert Legacy.BethelTt == Current.BethelTt;
    assert Legacy.GovCtrNait == Current.GovCtrNait;
    assert Legacy.Rln441A == Current.Rln441A;
  }

  /** The colour table is the same in both versions. */
  lemma ColoursUnchanged(route: GRoute)
    ensures Legacy.GetRouteColor(route) == Current.GetRouteColor(route)
  {
  }

  /** The current registry is the legacy one plus 441A and the Dial-A-Bus
      routes 490 to 494. */
  lemma RegistryGrew(id: int)
    ensures id in Current.AllRouteTrips2 <==>
      id in Legacy.AllRouteTrips2 || id == 441 + RidEwA || 490 <= id <= 494
  {
  }

  lemma EntriesKept0()
    ensures Current.Spec401 == Legacy.Spec401
    ensures Current.Spec403 == Legacy.Spec403
    ensures Current.Spec404 == Legacy.Spec404
    ensures Current.Spec413 == Legacy.Spec413
    ensures Current.Spec414 == Legacy.Spec414
    ensures Current.Spec420 == Legacy.Spec420
  {
  }

  lemma EntriesKept1()
    ensures Current.Spec430 == Legacy.Spec430
    ensures Current.Spec431 == Legacy.Spec431
    ensures Current.Spec433 == Legacy.Spec433
    ensures Current.Spec442 == Legacy.Spec442
    ensures Current.Spec443 == Legacy.Spec443
    ensures Current.Spec450 == Legacy.Spec450
  {
  }

  lemma EntriesKept2()
    ensures Current.Spec451 == Legacy.Spec451
    ensures Current.Spec433A == Legacy.Spec433A
    ensures Current.Spec451A == Legacy.Spec451A
    ensures Current.Spec443B == Legacy.Spec443B
    ensures Current.Spec451B == Legacy.Spec451B
  {
  }

  lemma EntriesKeptIn0(id: int)
    requires id in {401, 403, 404, 413, 414, 420}
    ensures id in Current.AllRouteTrips2 && id in Legacy.AllRouteTrips2
    ensures Current.AllRouteTrips2[id] == Legacy.AllRouteTrips2[id]
  {
    EntriesKept0();
  }

  lemma EntriesKeptIn1(id: int)
    requires id in {430, 431, 433, 442, 443, 450}
    ensures id in Current.AllRouteTrips2 && id in Legacy.AllRouteTrips2
    ensures Current.AllRouteTrips2[id] == Legacy.AllRouteTrips2[id]
  {
    EntriesKept1();
  }

  lemma EntriesKeptIn2(id: int)
    requires id in {451, 433 + RidEwA, 451 + RidEwA, 443 + RidEwB, 451 + RidEwB}
    ensures id in Current.AllRouteTrips2 && id in Legacy.AllRouteTrips2
    ensures Current.AllRouteTrips2[id] == Legacy.AllRouteTrips2[id]
  {
    EntriesKept2();
  }

  /** The entries present in both versions are the same except for routes
      411, 432, 440, 441 and 443A. */
  lemma EntriesKept(id: int)
    requires id in Legacy.AllRouteTrips2
    requires id !in {411, 432, 440, 441, 443 + RidEwA}
    ensures id in Current.AllRouteTrips2 && Current.AllRouteTrips2[id] == Legacy.AllRouteTrips2[id]
  {
    if id < 430 {
      EntriesKeptIn0(id);
    } else if id < 451 {
      EntriesKeptIn1(id);
    } else {
      EntriesKeptIn2(id);
    }
  }

  /** The five entries that changed, each with one stop order or headsign
      that differs. */
  lemma EntriesChanged()
    ensures Current.Spec411.tripSorts[0].stopIds[1] == "1439" && Legacy.Spec411.tripSorts[0].stopIds[1] == "1292"
    ensures Current.Spec432.tripSorts[1].stopIds[1] == "8304" && Legacy.Spec432.tripSorts[1].stopIds[1] == "8112"
    ensures Current.Spec440.tripSorts[0].stopIds[0] == "8000" && Legacy.Spec440.tripSorts[0].stopIds[0] == "7199"
    ensures |Current.Spec441.tripSorts[1].stopIds| == 6 && |Legacy.Spec441.tripSorts[1].stopIds| == 4
    ensures Current.Spec443A.headsign0 == "AM" && Legacy.Spec443A.headsign0 == "Bethel TT"
  {
  }
}
