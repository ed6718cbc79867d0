/** The agency-specific configuration of the Strathcona County Transit bus
    converter, legacy version: the route id comes from the GTFS route ID
    (not the short name), the colour table goes through named constants,
    fatal conditions print a message and exit, and the split registry is an
    earlier one.  There is no stop-id conversion in this version. */
module LegacyAgencyTools {
  import opened Wrappers
  import opened TextUtils
  import opened RouteIdCodec
  import opened GtfsData
  import Current = AgencyTools

  // ---------------------------------------------------------------------
  // Route ids (getRouteId)
  // ---------------------------------------------------------------------

  /** `getRouteId`: the encoding of the route's GTFS ROUTE ID; an id the
      encoding rejects is fatal. */
  function GetRouteId(route: GRoute): (r: Result<nat, Error>)
    ensures r.Success? <==> IsRouteCode(route.routeId)
    ensures IsDigitsOnly(route.routeId) ==> r == Success(DigitsValue(route.routeId))
    ensures !IsDigitsOnly(route.routeId) && r.Success? ==>
      var run := FirstDigitRun(route.routeId).value.1;
      r.value == (if EndsWith(route.routeId, 'A') then RidEwA else RidEwB) + DigitsValue(run)
    ensures r.Failure? ==> r.error == UnexpectedRouteId(route)
  {
    match EncodeRouteId(route.routeId)
    case Some(id) => Success(id)
    case None => Failure(UnexpectedRouteId(route))
  }

  // ---------------------------------------------------------------------
  // Route long names and colours
  // ---------------------------------------------------------------------

  const BethelTt: string := "Bethel TT"
  const OrdzeTc: string := "Ordze TC"
  const Downtown: string := "Downtown"
  const Dab: string := "Dial-A-Bus"
  const EdmCityCtr: string := "Edm City Ctr"
  const GovCtr: string := "Gov Ctr"
  const Nait: string := "NAIT"
  const GovCtrNait: string := GovCtr + " / " + Nait
  const UOfAlberta: string := "U of Alberta"
  const MillenniumPlace: string := "Millennium Pl"
  const EmeraldHills: string := "Emerald Hls"
  const Abj: string := "ABJ Sch"
  const EmeraldHillsAbj: string := EmeraldHills + " / " + Abj
  const Summerwood: string := "Summerwood"
  const Clarkdale: string := "Clarkdale"
  const HeritageHills: string := "Heritage Hls"
  const Nottingham: string := "Nottingham"
  const Brentwood: string := "Brentwood"
  const GlenAllan: string := "Glen Allan"
  const Village: string := "Village"
  const Broadmoor: string := "Broadmoor"
  const Citp: string := "Ctr in the Park"
  const Rln401: string := OrdzeTc + " - " + EdmCityCtr
  const Rln403: string := OrdzeTc + " - " + GovCtr
  const Rln404: string := OrdzeTc + " - " + UOfAlberta
  const Rln411: string := BethelTt + " - " + EdmCityCtr
  const Rln413: string := BethelTt + " - " + GovCtrNait
  const Rln414: string := BethelTt + " - " + UOfAlberta
  const Rln420: string := BethelTt + " - " + MillenniumPlace
  const Rln430: string := BethelTt + " - " + EmeraldHills + " CW"
  const Rln431: string := BethelTt + " - " + EmeraldHills + " CCW"
  const Rln432: string := BethelTt + " -" + Summerwood
  const Rln433: string := BethelTt + " - " + Clarkdale
  const Rln441A: string := BethelTt + " - " + "Regency"
  const Rln433A: string := Clarkdale + " - " + Abj
  const Rln440: string := BethelTt + " - " + HeritageHills
  const Rln441: string := BethelTt + " - " + OrdzeTc + " - Regency"
  const Rln442: string := BethelTt + " - " + Nottingham
  const Rln443: string := BethelTt + " - " + OrdzeTc + " - Glen Allan"
  const Rln443A: string := BethelTt + " - " + Brentwood
  const Rln443B: string := BethelTt + " - " + GlenAllan
  const Rln450: string := BethelTt + " - " + Citp
  const Rln451: string := BethelTt + " - " + OrdzeTc + " - Mills Haven / Westboro"
  const Rln451A: string := BethelTt + " - Woodbridge"
  const Rln451B: string := BethelTt + " - Mills Haven"
  const Rln490: string := Dab + " A"
  const Rln491: string := Dab + " B"
  const Rln492: string := Dab + " C"
  const Rln493: string := Dab + " D"
  const Rln494: string := Dab + " E"
  const Rln495: string := Dab + " F"

  const Rsn441A: string := "441A"
  const Rsn433A: string := "433A"
  const Rsn443A: string := "443A"
  const Rsn443B: string := "443B"
  const Rsn451A: string := "451A"
  const Rsn451B: string := "451B"

  /** `getRouteLongName`: the same table as the current version; a GTFS
      long name, when present, is cleaned (`cleanRouteLongName`, a
      parameter here); an unknown short name is fatal. */
  function GetRouteLongName(route: GRoute, cleanRouteLongName: string -> string): (r: Result<string, Error>)
    ensures |route.routeLongName| > 0 ==> r == Success(cleanRouteLongName(route.routeLongName))
    ensures |route.routeLongName| == 0 ==> (r.Success? <==> Current.IsKnownShortName(route.routeShortName))
    ensures r.Failure? ==> r.error == UnexpectedRouteLongName(route)
  {
    if |route.routeLongName| == 0 then
      var rsnText := route.routeShortName;
      if !IsDigitsOnly(rsnText) then
        if Rsn441A == rsnText then Success(Rln441A)
        else if Rsn433A == rsnText then Success(Rln433A)
        else if Rsn443A == rsnText then Success(Rln443A)
        else if Rsn443B == rsnText then Success(Rln443B)
        else if Rsn451A == rsnText then Success(Rln451A)
        else if Rsn451B == rsnText then Success(Rln451B)
        else Failure(UnexpectedRouteLongName(route))
      else
        var rsn := DigitsValue(rsnText);
        match rsn
        case 401 => Success(Rln401)
        case 403 => Success(Rln403)
        case 404 => Success(Rln404)
        case 411 => Success(Rln411)
        case 413 => Success(Rln413)
        case 414 => Success(Rln414)
        case 420 => Success(Rln420)
        case 430 => Success(Rln430)
        case 431 => Success(Rln431)
        case 432 => Success(Rln432)
        case 433 => Success(Rln433)
        case 440 => Success(Rln440)
        case 441 => Success(Rln441)
        case 442 => Success(Rln442)
        case 443 => Success(Rln443)
        case 450 => Success(Rln450)
        case 451 => Success(Rln451)
        case 490 => Success(Rln490)
        case 491 => Success(Rln491)
        case 492 => Success(Rln492)
        case 493 => Success(Rln493)
        case 494 => Success(Rln494)
        case 495 => Success(Rln495)
        case _ => Failure(UnexpectedRouteLongName(route))
    else
      Success(cleanRouteLongName(route.routeLongName))
  }

  // The named colour constants of the table, each a six-character code.
  const ColorED0E58: string := "ED0E58"
  const Color231F20: string := "231F20"
  const Color00A34E: string := "00A34E"
  const Color6E6EAB: string := "6E6EAB"
  const ColorD04CAE: string := "D04CAE"
  const ColorF78F20: string := "F78F20"
  const Color9F237E: string := "9F237E"
  const ColorFFC745: string := "FFC745"
  const Color6BC7B9: string := "6BC7B9"
  const Color0076BC: string := "0076BC"
  const ColorF16278: string := "F16278"
  const ColorED1C24: string := "ED1C24"
  const ColorFFF30C: string := "FFF30C"
  const Color08796F: string := "08796F"
  const Color652290: string := "652290"
  const Color7BC928: string := "7BC928"
  const Color832B30: string := "832B30"
  const Color2E3192: string := "2E3192"
  const Color006A2F: string := "006A2F"
  const ColorEC008C: string := "EC008C"
  const ColorF57415: string := "F57415"
  const Color1270BB: string := "1270BB"
  const ColorED2D32: string := "ED2D32"
  const Color0F6B3B: string := "0F6B3B"
  const Color61CACA: string := "61CACA"
  const ColorE59A12: string := "E59A12"

  /** `getRouteColor`: looked up by short name through the named colour
      constants; route 495 has no colour of its own and an unknown short
      name is fatal. */
  function GetRouteColor(route: GRoute): (r: Result<Option<string>, Error>)
    ensures r.Success? <==> Current.IsKnownShortName(route.routeShortName)
    ensures r == Success(None) <==>
      IsDigitsOnly(route.routeShortName) && DigitsValue(route.routeShortName) == 495
    ensures r.Success? && r.value.Some? ==> |r.value.value| == 6
    ensures r.Failure? ==> r.error == UnexpectedRouteColor(route)
  {
    var rsnText := route.routeShortName;
    if !IsDigitsOnly(rsnText) then
      if Rsn441A == rsnText then Success(Some(Color832B30))
      else if Rsn433A == rsnText then Success(Some(ColorED0E58))
      else if Rsn443A == rsnText then Success(Some(Color231F20))
      else if Rsn443B == rsnText then Success(Some(Color00A34E))
      else if Rsn451A == rsnText then Success(Some(Color6E6EAB))
      else if Rsn451B == rsnText then Success(Some(ColorD04CAE))
      else Failure(UnexpectedRouteColor(route))
    else
      var rsn := DigitsValue(rsnText);
      match rsn
      case 401 => Success(Some(ColorF78F20))
      case 403 => Success(Some(Color9F237E))
      case 404 => Success(Some(ColorFFC745))
      case 411 => Success(Some(Color6BC7B9))
      case 413 => Success(Some(Color0076BC))
      case 414 => Success(Some(ColorF16278))
      case 420 => Success(Some(ColorED1C24))
      case 430 => Success(Some(Color2E3192))
      case 431 => Success(Some(ColorFFF30C))
      case 432 => Success(Some(Color08796F))
      case 433 => Success(Some(Color652290))
      case 440 => Success(Some(Color7BC928))
      case 441 => Success(Some(Color832B30))
      case 442 => Success(Some(Color2E3192))
      case 443 => Success(Some(Color006A2F))
      case 450 => Success(Some(ColorEC008C))
      case 451 => Success(Some(ColorF57415))
      case 490 => Success(Some(Color1270BB))
      case 491 => Success(Some(ColorED2D32))
      case 492 => Success(Some(Color0F6B3B))
      case 493 => Success(Some(Color61CACA))
      case 494 => Success(Some(ColorE59A12))
      case 495 => Success(None)
      case _ => Failure(UnexpectedRouteColor(route))
  }

  // ---------------------------------------------------------------------
  // Stop codes and trips
  // ---------------------------------------------------------------------

  /** `getStopCode`: the code "0" means the stop has no code; any other code
      is left to the library's default (a parameter here). */
  function GetStopCode(gStop: GStop, defaultStopCode: Option<string>): (r: Option<string>)
    ensures gStop.stopCode == "0" ==> r == None
    ensures gStop.stopCode != "0" ==> r == defaultStopCode
  {
    if "0" == gStop.stopCode then None else defaultStopCode
  }

  /** `setTripHeadsign`: a trip of a route in this version's registry is
      left as it is; any other trip gets the cleaned trip headsign
      (`cleanTripHeadsign`, a parameter here) and the trip's direction id. */
  method SetTripHeadsign(routeId: int, mTrip: MTrip, gTrip: GTrip, cleanTripHeadsign: string -> string)
    modifies mTrip
    ensures routeId in AllRouteTrips2 ==> unchanged(mTrip)
    ensures routeId !in AllRouteTrips2 ==>
      mTrip.headsignValue == cleanTripHeadsign(gTrip.tripHeadsign) && mTrip.headsignId == gTrip.directionId
  {
    RegistryEntriesWellFormed();
    if TripHandling(AllRouteTrips2, routeId).SplitBySpec? {
      return;
    }
    mTrip.SetHeadsignString(cleanTripHeadsign(gTrip.tripHeadsign), gTrip.directionId);
  }

  /** `mergeHeadsign`: merging two trips is never expected and always
      fatal. */
  function MergeHeadsign(mTrip: MTrip, mTripToMerge: MTrip): (r: Result<bool, Error>)
    ensures r.Failure? && r.error == UnexpectedTripsToMerge(mTrip, mTripToMerge)
  {
    Failure(UnexpectedTripsToMerge(mTrip, mTripToMerge))
  }

  // ---------------------------------------------------------------------
  // The split registry (ALL_ROUTE_TRIPS2)
  // ---------------------------------------------------------------------

  /** The routes whose trips are split by declared stop orders, keyed by
      route id. */
  const AllRouteTrips2: map<int, RouteTripSpec> := map[
    401 := Spec401,
    403 := Spec403,
    404 := Spec404,
    411 := Spec411,
    413 := Spec413,
    414 := Spec414,
    420 := Spec420,
    430 := Spec430,
    431 := Spec431,
    432 := Spec432,
    433 := Spec433,
    433 + RidEwA := Spec433A,
    440 := Spec440,
    441 := Spec441,
    442 := Spec442,
    443 := Spec443,
    443 + RidEwA := Spec443A,
    443 + RidEwB := Spec443B,
    450 := Spec450,
    451 := Spec451,
    451 + RidEwA := Spec451A,
    451 + RidEwB := Spec451B
  ]

  const Spec401: RouteTripSpec :=
    NewRouteTripSpec(401,
      0, HeadsignTypeString, OrdzeTc,
      1, HeadsignTypeString, Downtown)
    .AddTripSort(0, ["1973", "1292", "4000"])
    .AddTripSort(1, ["4000", "1457", "1973"])

  const Spec403: RouteTripSpec :=
    NewRouteTripSpec(403,
      0, HeadsignTypeString, OrdzeTc,
      1, HeadsignTypeString, GovCtr)
    .AddTripSort(0, ["1732", "1629", "4000"])
    .AddTripSort(1, ["4000", "1794", "1973"])

  const Spec404: RouteTripSpec :=
    NewRouteTripSpec(404,
      0, HeadsignTypeString, OrdzeTc,
      1, HeadsignTypeString, UOfAlberta)
    .AddTripSort(0, ["2636", "2722", "4000"])
    .AddTripSort(1, ["4000", "2752", "2638", "2625", "2636"])

  const Spec411: RouteTripSpec :=
    NewRouteTripSpec(411,
      0, HeadsignTypeString, BethelTt,
      1, HeadsignTypeString, Downtown)
    .AddTripSort(0, ["1973", "1292", "8000"])
    .AddTripSort(1, ["8000", "2289", "1973"])

  const Spec413: RouteTripSpec :=
    NewRouteTripSpec(413,
      0, HeadsignTypeString, BethelTt,
      1, HeadsignTypeString, GovCtrNait)
    .AddTripSort(0, ["1223", "1973", "1732", "1643", "1629", "8005", "8000"])
    .AddTripSort(1, ["8000", "8004", "1728", "1898", "1973", "1227"])

  const Spec414: RouteTripSpec :=
    NewRouteTripSpec(414,
      0, HeadsignTypeString, BethelTt,
      1, HeadsignTypeString, UOfAlberta)
    .AddTripSort(0, ["2636", "8000"])
    .AddTripSort(1, ["8000", "2636"])

  const Spec420: RouteTripSpec :=
    NewRouteTripSpec(420,
      0, HeadsignTypeString, BethelTt,
      1, HeadsignTypeString, MillenniumPlace)
    .AddTripSort(0, ["8800", "8811", "8000"])
    .AddTripSort(1, ["8000", "8700", "8800"])

  const Spec430: RouteTripSpec :=
    NewRouteTripSpec(430,
      0, HeadsignTypeString, BethelTt,
      1, HeadsignTypeString, EmeraldHillsAbj)
    .AddTripSort(0, ["7921", "7436", "8000"])
    .AddTripSort(1, ["8000", "8304", "7921"])

  const Spec431: RouteTripSpec :=
    NewRouteTripSpec(431,
      0, HeadsignTypeString, BethelTt,
      1, HeadsignTypeString, EmeraldHills)
    .AddTripSort(0, ["7920", "8849", "8000"])
    .AddTripSort(1, ["8000", "7437", "7920"])

  const Spec432: RouteTripSpec :=
    NewRouteTripSpec(432,
      0, HeadsignTypeString, BethelTt,
      1, HeadsignTypeString, Summerwood)
    .AddTripSort(0, ["7870", "7508", "8000"])
    .AddTripSort(1, ["8000", "8112", "7870"])

  const Spec433: RouteTripSpec :=
    NewRouteTripSpec(433,
      0, HeadsignTypeString, BethelTt,
      1, HeadsignTypeString, "Davidson Crk")
    .AddTripSort(0, ["7272", "7431", "8000"])
    .AddTripSort(1, ["8000", "8135", "7272"])

  const Spec433A: RouteTripSpec :=
    NewRouteTripSpec(433 + RidEwA,
      0, HeadsignTypeString, "Charlton Hts",
      1, HeadsignTypeString, Abj)
    .AddTripSort(0, ["7921", "7330", "8114"])
    .AddTripSort(1, ["8113", "7319", "7920"])

  const Spec440: RouteTripSpec :=
    NewRouteTripSpec(440,
      0, HeadsignTypeString, BethelTt,
      1, HeadsignTypeString, HeritageHills)
    .AddTripSort(0, ["7199", "7124", "7106", "7104", "7011", "1068", "7102", "8000"])
    .AddTripSort(1, ["8000", "7103", "7105", "1090", "7024", "7199"])

  const Spec441: RouteTripSpec :=
    NewRouteTripSpec(441,
      0, HeadsignTypeString, BethelTt,
      1, HeadsignTypeString, OrdzeTc)
    .AddTripSort(0, ["4000", "9157", "8000"])
    .AddTripSort(1, ["8000", "9240", "9115", "4000"])

  const Spec442: RouteTripSpec :=
    NewRouteTripSpec(442,
      0, HeadsignTypeString, BethelTt,
      1, HeadsignTypeString, Nottingham)
    .AddTripSort(0, ["9015", "9180", "8000"])
    .AddTripSort(1, ["8000", "1002", "9015"])

  const Spec443: RouteTripSpec :=
    NewRouteTripSpec(443,
      0, HeadsignTypeString, BethelTt,
      1, HeadsignTypeString, OrdzeTc)
    .AddTripSort(0, ["4000", "6012", "8000"])
    .AddTripSort(1, ["8000", "1088", "6065", "4000"])

  const Spec443A: RouteTripSpec :=
    NewRouteTripSpec(443 + RidEwA,
      0, HeadsignTypeString, BethelTt,
      1, HeadsignTypeString, Brentwood)
    .AddTripSort(0, ["6035", "1009", "2000", "1001", "8000"])
    .AddTripSort(1, ["8000", "1002", "2001", "6035", "6079", "6042", "2000"])

  const Spec443B: RouteTripSpec :=
    NewRouteTripSpec(443 + RidEwB,
      0, HeadsignTypeString, BethelTt,
      1, HeadsignTypeString, Citp)
    .AddTripSort(0, ["6048", "1024", "8000"])
    .AddTripSort(1, ["8000", "1033", "6029"])

  const Spec450: RouteTripSpec :=
    NewRouteTripSpec(450,
      0, HeadsignTypeString, BethelTt,
      1, HeadsignTypeString, Citp)
    .AddTripSort(0, ["2001", "6072", "8000"])
    .AddTripSort(1, ["8000", "8105", "2001"])

  const Spec451: RouteTripSpec :=
    NewRouteTripSpec(451,
      0, HeadsignTypeString, BethelTt,
      1, HeadsignTypeString, OrdzeTc)
    .AddTripSort(0, ["4000", "5040", "8000"])
    .AddTripSort(1, ["8000", "5005", "5115", "4000"])

  const Spec451A: RouteTripSpec :=
    NewRouteTripSpec(451 + RidEwA,
      0, HeadsignTypeString, BethelTt,
      1, HeadsignTypeString, Village)
    .AddTripSort(0, ["5040", "5078", "8000"])
    .AddTripSort(1, ["8000", "5083", "5115"])

  const Spec451B: RouteTripSpec :=
    NewRouteTripSpec(451 + RidEwB,
      0, HeadsignTypeString, BethelTt,
      1, HeadsignTypeString, Broadmoor)
    .AddTripSort(0, ["5041", "5138", "8000"])
    .AddTripSort(1, ["8000", "5005", "5041"])

  lemma EntriesWellFormed0()
    ensures EntryWellFormed(401, Spec401)
    ensures EntryWellFormed(403, Spec403)
    ensures EntryWellFormed(404, Spec404)
    ensures EntryWellFormed(411, Spec411)
  {
  }

  lemma EntriesWellFormed1()
    ensures EntryWellFormed(413, Spec413)
    ensures EntryWellFormed(414, Spec414)
    ensures EntryWellFormed(420, Spec420)
    ensures EntryWellFormed(430, Spec430)
  {
  }

  lemma EntriesWellFormed2()
    ensures EntryWellFormed(431, Spec431)
    ensures EntryWellFormed(432, Spec432)
    ensures EntryWellFormed(433, Spec433)
    ensures EntryWellFormed(433 + RidEwA, Spec433A)
  {
  }

  lemma EntriesWellFormed3()
    ensures EntryWellFormed(440, Spec440)
    ensures EntryWellFormed(441, Spec441)
    ensures EntryWellFormed(442, Spec442)
    ensures EntryWellFormed(443, Spec443)
  {
  }

  lemma EntriesWellFormed4()
    ensures EntryWellFormed(443 + RidEwA, Spec443A)
    ensures EntryWellFormed(443 + RidEwB, Spec443B)
    ensures EntryWellFormed(450, Spec450)
    ensures EntryWellFormed(451, Spec451)
  {
  }

  lemma EntriesWellFormed5()
    ensures EntryWellFormed(451 + RidEwA, Spec451A)
    ensures EntryWellFormed(451 + RidEwB, Spec451B)
  {
  }

  /** Every entry is filed under its own route id and declares directions
      0 and 1 with distinct headsigns and non-empty stop orders. */
  lemma RegistryEntriesWellFormed()
    ensures RegistryWellFormed(AllRouteTrips2)
  {
    EntriesWellFormed0();
    EntriesWellFormed1();
    EntriesWellFormed2();
    EntriesWellFormed3();
    EntriesWellFormed4();
    EntriesWellFormed5();
  }

  // ---------------------------------------------------------------------
  // Consistency between the tables
  // ---------------------------------------------------------------------

  /** Registry keys below 10 000 are the table's route numbers other than
      the Dial-A-Bus routes 490 to 495; the keys above are the lettered ids
      other than that of 441A. */
  lemma RegistryKeysByRange(id: int)
    ensures 0 <= id < RidEwA ==>
      (id in AllRouteTrips2 <==> id in Current.RouteNumbers && !(490 <= id <= 495))
    ensures RidEwA <= id ==>
      (id in AllRouteTrips2 <==> id in Current.LetteredRouteIds && id != 441 + RidEwA)
  {
  }

  /** Every short name the tables know has a route id, and that id is
      registered for splitting unless it is 441A's or a Dial-A-Bus route's. */
  lemma RegistryCoversRouteTable(rsn: string)
    requires Current.IsKnownShortName(rsn)
    ensures EncodeRouteId(rsn).Some?
    ensures var id := EncodeRouteId(rsn).value;
      id in AllRouteTrips2 <==> id != 441 + RidEwA && !(490 <= id <= 495)
  {
    if IsDigitsOnly(rsn) {
      RegistryKeysByRange(DigitsValue(rsn));
    } else {
      Current.LetteredShortNamesEncode(rsn);
      RegistryKeysByRange(EncodeRouteId(rsn).value);
    }
  }

  /** Route 441A has an id, a long name and a colour in this version ... */
  lemma Route441AHasTableEntries(cleanRouteLongName: string -> string)
    ensures GetRouteId(GRoute(Rsn441A, Rsn441A, "")) == Success(441 + RidEwA)
    ensures GetRouteLongName(GRoute(Rsn441A, Rsn441A, ""), cleanRouteLongName).Success?
    ensures GetRouteColor(GRoute(Rsn441A, Rsn441A, "")) == Success(Some(Color832B30))
  {
    Current.Encodes441A();
    assert Rsn441A == Current.Rsn441A;
    assert !IsDigitsOnly(Rsn441A) by { assert !IsDigit(Rsn441A[3]); }
  }

  /** The table reuses named colours: 430 and 442 share one constant, and
      so do 441 and 441A. */
  lemma SharedColours()
    ensures GetRouteColor(GRoute("", "430", "")) == GetRouteColor(GRoute("", "442", ""))
                                                 == Success(Some(Color2E3192))
    ensures GetRouteColor(GRoute("", "441", "")) == GetRouteColor(GRoute("", "441A", ""))
                                                 == Success(Some(Color832B30))
  {
    ThreeDigitValue("430");
    ThreeDigitValue("442");
    ThreeDigitValue("441");
    assert Rsn441A == "441A";
    assert !IsDigitsOnly("441A") by { assert !IsDigit("441A"[3]); }
  }

  /** ... but no registry entry, so its trips get the default headsign and
      split. */
  lemma Route441AIsNotSplit()
    ensures RegistryWellFormed(AllRouteTrips2)
    ensures TripHandling(AllRouteTrips2, 441 + RidEwA) == DefaultBehaviour
  {
    RegistryEntriesWellFormed();
  }
}
