/** The agency-specific configuration of the Strathcona County Transit bus
    converter, current version: how a GTFS route's short name becomes a
    numeric route id, how a GTFS stop id becomes a numeric stop id, the
    fixed route long-name and colour tables, and the registry of routes
    whose trips are split into directions by a declared stop order. */
module AgencyTools {
  import opened Wrappers
  import opened TextUtils
  import opened RouteIdCodec
  import opened GtfsData

  // ---------------------------------------------------------------------
  // Route ids (getRouteId)
  // ---------------------------------------------------------------------

  /** `getRouteId`: the encoding of the route's SHORT NAME; a short name the
      encoding rejects is fatal. */
  function GetRouteId(route: GRoute): (r: Result<nat, Error>)
    ensures r.Success? <==> IsRouteCode(route.routeShortName)
    ensures IsDigitsOnly(route.routeShortName) ==> r == Success(DigitsValue(route.routeShortName))
    ensures !IsDigitsOnly(route.routeShortName) && r.Success? ==>
      var run := FirstDigitRun(route.routeShortName).value.1;
      r.value == (if EndsWith(route.routeShortName, 'A') then RidEwA else RidEwB) + DigitsValue(run)
    ensures r.Failure? ==> r.error == UnexpectedRouteId(route)
  {
    match EncodeRouteId(route.routeShortName)
    case Some(id) => Success(id)
    case None => Failure(UnexpectedRouteId(route))
  }

  // ---------------------------------------------------------------------
  // Route long names and colours
  // ---------------------------------------------------------------------

  const Slash: string := " / "
  const Bethel: string := "Bethel"
  const BethelTt: string := Bethel + " TT"
  const OrdzeTc: string := "Ordze TC"
  const Downtown: string := "Downtown"
  const Dab: string := "Dial-A-Bus"
  const EdmCityCtr: string := "Edm City Ctr"
  const GovCtr: string := "Gov Ctr"
  const Nait: string := "NAIT"
  const GovCtrNait: string := GovCtr + Slash + Nait
  const UOfAlberta: string := "U of Alberta"
  const MillenniumPlace: string := "Millennium Pl"
  const EmeraldHills: string := "Emerald Hls"
  const Abj: string := "ABJ Sch"
  const EmeraldHillsAbj: string := EmeraldHills + Slash + Abj
  const Summerwood: string := "Summerwood"
  const Clarkdale: string := "Clarkdale"
  const HeritageHills: string := "Heritage Hls"
  const Nottingham: string := "Nottingham"
  const Brentwood: string := "Brentwood"
  const GlenAllan: string := "Glen Allan"
  const Village: string := "Village"
  const Broadmoor: string := "Broadmoor"
  const Citp: string := "Ctr in the Park"
  const Regency: string := "Regency"
  const Rln401: string := OrdzeTc + " - " + EdmCityCtr
  const Rln403: string := OrdzeTc + " - " + GovCtr
  const Rln404: string := OrdzeTc + " - " + UOfAlberta
  const Rln411: string := BethelTt + " - " + EdmCityCtr
  const Rln413: string := BethelTt + " - " + GovCtrNait
  const Rln414: string := BethelTt + " - " + UOfAlberta
  const Rln420: string := BethelTt + " - " + MillenniumPlace
  const Rln430: string := BethelTt + " - " + EmeraldHills + " CW"
  const Rln431: string := BethelTt + " - " + EmeraldHills + " CCW"
  const Rln432: string := BethelTt + " -" + Summerwood
  const Rln433: string := BethelTt + " - " + Clarkdale
  const Rln441A: string := BethelTt + " - " + Regency
  const Rln433A: string := Clarkdale + " - " + Abj
  const Rln440: string := BethelTt + " - " + HeritageHills
  const Rln441: string := BethelTt + " - " + OrdzeTc + " - Regency"
  const Rln442: string := BethelTt + " - " + Nottingham
  const Rln443: string := BethelTt + " - " + OrdzeTc + " - Glen Allan"
  const Rln443A: string := BethelTt + " - " + Brentwood
  const Rln443B: string := BethelTt + " - " + GlenAllan
  const Rln450: string := BethelTt + " - " + Citp
  const Rln451: string := BethelTt + " - " + OrdzeTc + " - Mills Haven / Westboro"
  const Rln451A: string := BethelTt + " - Woodbridge"
  const Rln451B: string := BethelTt + " - Mills Haven"
  const Rln490: string := Dab + " A"
  const Rln491: string := Dab + " B"
  const Rln492: string := Dab + " C"
  const Rln493: string := Dab + " D"
  const Rln494: string := Dab + " E"
  const Rln495: string := Dab + " F"

  const Rsn441A: string := "441A"
  const Rsn433A: string := "433A"
  const Rsn443A: string := "443A"
  const Rsn443B: string := "443B"
  const Rsn451A: string := "451A"
  const Rsn451B: string := "451B"

  /** The short names with letters that the long-name and colour tables know. */
  const LetteredShortNames: set<string> := {Rsn441A, Rsn433A, Rsn443A, Rsn443B, Rsn451A, Rsn451B}

  /** The route numbers that the long-name and colour tables know. */
  const RouteNumbers: set<nat> := {
    401, 403, 404, 411, 413, 414, 420, 430, 431, 432, 433, 440,
    441, 442, 443, 450, 451, 490, 491, 492, 493, 494, 495}

  /** The short names both tables accept: a known lettered name, or digits
      whose value is a known route number (so "0401" counts as 401). */
  predicate IsKnownShortName(rsn: string) {
    if IsDigitsOnly(rsn) then DigitsValue(rsn) in RouteNumbers else rsn in LetteredShortNames
  }

  /** `getRouteLongName`: a non-empty long name is passed to the cleaner
      (`cleanRouteLongName`, whose library calls are not part of this model,
      so it is a parameter); an empty one is looked up by short name, and a
      short name the table does not know is fatal. */
  function GetRouteLongName(route: GRoute, cleanRouteLongName: string -> string): (r: Result<string, Error>)
    ensures |route.routeLongName| > 0 ==> r == Success(cleanRouteLongName(route.routeLongName))
    ensures |route.routeLongName| == 0 ==> (r.Success? <==> IsKnownShortName(route.routeShortName))
    ensures r.Failure? ==> r.error == UnexpectedRouteLongName(route)
  {
    if |route.routeLongName| == 0 then
      var rsnText := route.routeShortName;
      if !IsDigitsOnly(rsnText) then
        if Rsn441A == rsnText then Success(Rln441A)
        else if Rsn433A == rsnText then Success(Rln433A)
        else if Rsn443A == rsnText then Success(Rln443A)
        else if Rsn443B == rsnText then Success(Rln443B)
        else if Rsn451A == rsnText then Success(Rln451A)
        else if Rsn451B == rsnText then Success(Rln451B)
        else Failure(UnexpectedRouteLongName(route))
      else
        var rsn := DigitsValue(rsnText);
        match rsn
        case 401 => Success(Rln401)
        case 403 => Success(Rln403)
        case 404 => Success(Rln404)
        case 411 => Success(Rln411)
        case 413 => Success(Rln413)
        case 414 => Success(Rln414)
        case 420 => Success(Rln420)
        case 430 => Success(Rln430)
        case 431 => Success(Rln431)
        case 432 => Success(Rln432)
        case 433 => Success(Rln433)
        case 440 => Success(Rln440)
        case 441 => Success(Rln441)
        case 442 => Success(Rln442)
        case 443 => Success(Rln443)
        case 450 => Success(Rln450)
        case 451 => Success(Rln451)
        case 490 => Success(Rln490)
        case 491 => Success(Rln491)
        case 492 => Success(Rln492)
        case 493 => Success(Rln493)
        case 494 => Success(Rln494)
        case 495 => Success(Rln495)
        case _ => Failure(UnexpectedRouteLongName(route))
    else
      Success(cleanRouteLongName(route.routeLongName))
  }

  /** `getRouteColor`: looked up by short name; route 495 has no colour of
      its own (`null`, so the agency colour applies) and a short name the
      table does not know is fatal. */
  function GetRouteColor(route: GRoute): (r: Result<Option<string>, Error>)
    ensures r.Success? <==> IsKnownShortName(route.routeShortName)
    ensures r == Success(None) <==>
      IsDigitsOnly(route.routeShortName) && DigitsValue(route.routeShortName) == 495
    ensures r.Success? && r.value.Some? ==> |r.value.value| == 6
    ensures r.Failure? ==> r.error == UnexpectedRouteColor(route)
  {
    var rsnText := route.routeShortName;
    if !IsDigitsOnly(rsnText) then
      if Rsn441A == rsnText then Success(Some("832B30"))
      else if Rsn433A == rsnText then Success(Some("ED0E58"))
      else if Rsn443A == rsnText then Success(Some("231F20"))
      else if Rsn443B == rsnText then Success(Some("00A34E"))
      else if Rsn451A == rsnText then Success(Some("6E6EAB"))
      else if Rsn451B == rsnText then Success(Some("D04CAE"))
      else Failure(UnexpectedRouteColor(route))
    else
      var rsn := DigitsValue(rsnText);
      match rsn
      case 401 => Success(Some("F78F20"))
      case 403 => Success(Some("9F237E"))
      case 404 => Success(Some("FFC745"))
      case 411 => Success(Some("6BC7B9"))
      case 413 => Success(Some("0076BC"))
      case 414 => Success(Some("F16278"))
      case 420 => Success(Some("ED1C24"))
      case 430 => Success(Some("2E3192"))
      case 431 => Success(Some("FFF30C"))
      case 432 => Success(Some("08796F"))
      case 433 => Success(Some("652290"))
      case 440 => Success(Some("7BC928"))
      case 441 => Success(Some("832B30"))
      case 442 => Success(Some("2E3192"))
      case 443 => Success(Some("006A2F"))
      case 450 => Success(Some("EC008C"))
      case 451 => Success(Some("F57415"))
      case 490 => Success(Some("1270BB"))
      case 491 => Success(Some("ED2D32"))
      case 492 => Success(Some("0F6B3B"))
      case 493 => Success(Some("61CACA"))
      case 494 => Success(Some("E59A12"))
      case 495 => Success(None)
      case _ => Failure(UnexpectedRouteColor(route))
  }

  // ---------------------------------------------------------------------
  // Stop ids and stop codes
  // ---------------------------------------------------------------------

  predicate IsLetterS(c: char) {
    c == 'S' || c == 's'
  }

  predicate StartsWithLetterS(s: string) {
    |s| > 0 && IsLetterS(s[0])
  }

  /** `cleanStopOriginalId`: the pattern `^S`, case-insensitive, replaced
      by nothing; at most the first character is removed. */
  function CleanStopOriginalId(gStopId: string): (r: string)
    ensures StartsWithLetterS(gStopId) ==> gStopId == [gStopId[0]] + r
    ensures !StartsWithLetterS(gStopId) ==> r == gStopId
  {
    if StartsWithLetterS(gStopId) then gStopId[1..] else gStopId
  }

  /** The cleaning removes exactly one leading `S` or `s` and is the identity
      on ids without one. */
  lemma CleanStopIdStripsOneLetter(c: char, rest: string)
    ensures IsLetterS(c) ==> CleanStopOriginalId([c] + rest) == rest
    ensures !StartsWithLetterS(rest) ==> CleanStopOriginalId(rest) == rest
  {
    assert ([c] + rest)[1..] == rest;
  }

  /** Cleaning twice equals cleaning once exactly when the id does not begin
      with two S letters: "SS12" cleans to "S12", which cleans to "12". */
  lemma CleanStopIdIdempotentIff(gStopId: string)
    ensures CleanStopOriginalId(CleanStopOriginalId(gStopId)) == CleanStopOriginalId(gStopId)
            <==> !(|gStopId| >= 2 && IsLetterS(gStopId[0]) && IsLetterS(gStopId[1]))
    ensures CleanStopOriginalId("SS12") == "S12" && CleanStopOriginalId("S12") == "12"
  {
    if |gStopId| >= 2 && IsLetterS(gStopId[0]) && IsLetterS(gStopId[1]) {
      assert |CleanStopOriginalId(CleanStopOriginalId(gStopId))| == |gStopId| - 2;
    }
  }

  /** The offset added to the digits of a stop id that still begins with an
      S letter after cleaning. */
  const StopIdOffsetS: nat := 1_900_000

  /** `getStopId`: the cleaned id's value when it is all digits; otherwise,
      when it holds a digit and begins with an S letter, 1 900 000 plus the
      value of its first run of digits; anything else is fatal. */
  function GetStopId(gStop: GStop): (r: Result<nat, Error>)
    ensures var id := CleanStopOriginalId(gStop.stopId);
      && (IsDigitsOnly(id) ==> r == Success(DigitsValue(id)))
      && (!IsDigitsOnly(id) && StartsWithLetterS(id) && ContainsDigit(id) ==>
            r == Success(StopIdOffsetS + DigitsValue(FirstDigitRun(id).value.1)))
      && (r.Success? <==> IsDigitsOnly(id) || (StartsWithLetterS(id) && ContainsDigit(id)))
    ensures r.Failure? ==> r.error == UnexpectedStopId(gStop)
  {
    var stopId := CleanStopOriginalId(gStop.stopId);
    if !IsDigitsOnly(stopId) then
      match FirstDigitRun(stopId)
      case Some((_, run)) =>
        if StartsWithLetterS(stopId) then Success(StopIdOffsetS + DigitsValue(run))
        else Failure(UnexpectedStopId(gStop))
      case None => Failure(UnexpectedStopId(gStop))
    else Success(DigitsValue(stopId))
  }

  /** Round trip: a stop number written in decimal is its own stop id. */
  lemma StopIdOfDigits(n: nat, stopCode: string)
    ensures GetStopId(GStop(NatToString(n), stopCode)) == Success(n)
  {
    var digits := NatToString(n);
    assert !StartsWithLetterS(digits) by { assert IsDigit(digits[0]); }
  }

  /** Round trip: one leading `S` or `s` before the number is dropped, so
      "S123" has the stop id of "123". */
  lemma StopIdOfOneLetterS(c: char, n: nat, stopCode: string)
    requires IsLetterS(c)
    ensures GetStopId(GStop([c] + NatToString(n), stopCode)) == Success(n)
  {
    var digits := NatToString(n);
    CleanStopIdStripsOneLetter(c, digits);
  }

  /** Round trip: two leading S letters before the number give the number
      plus 1 900 000. */
  lemma StopIdOfTwoLettersS(c: char, d: char, n: nat, stopCode: string)
    requires IsLetterS(c) && IsLetterS(d)
    ensures GetStopId(GStop([c, d] + NatToString(n), stopCode)) == Success(StopIdOffsetS + n)
  {
    var digits := NatToString(n);
    var once := [d] + digits;
    assert [c, d] + digits == [c] + once;
    CleanStopIdStripsOneLetter(c, once);
    FirstDigitRunAfterNonDigit(d, digits);
    assert !IsDigitsOnly(once) by { assert !IsDigit(once[0]); }
  }

  /** The 1 900 000 branch is taken exactly for raw ids that begin with two
      S letters and hold a digit: after the cleaning, a single leading S
      letter is gone, so "S123" and "123" get the same stop id. */
  lemma OffsetBranchIffDoubleS(gStop: GStop)
    ensures (GetStopId(gStop).Success? && !IsDigitsOnly(CleanStopOriginalId(gStop.stopId)))
            <==> (|gStop.stopId| >= 2 && IsLetterS(gStop.stopId[0]) && IsLetterS(gStop.stopId[1])
                  && ContainsDigit(gStop.stopId))
  {
    var raw := gStop.stopId;
    var id := CleanStopOriginalId(raw);
    if |raw| >= 2 && IsLetterS(raw[0]) && IsLetterS(raw[1]) {
      assert id == raw[1..];
      assert StartsWithLetterS(id);
      assert !IsDigitsOnly(id) by { assert !IsDigit(id[0]); }
      if ContainsDigit(raw) {
        var i :| 0 <= i < |raw| && IsDigit(raw[i]);
        assert i > 0 && id[i - 1] == raw[i];
      }
      if ContainsDigit(id) {
        var i :| 0 <= i < |id| && IsDigit(id[i]);
        assert raw[i + 1] == id[i];
      }
    } else if StartsWithLetterS(raw) {
      assert id == raw[1..];
      assert !StartsWithLetterS(id);
    }
  }

  /** `getStopCode`: the code "0" means the stop has no code; any other code
      is left to the library's default (a parameter here). */
  function GetStopCode(gStop: GStop, defaultStopCode: Option<string>): (r: Option<string>)
    ensures gStop.stopCode == "0" ==> r == None
    ensures gStop.stopCode != "0" ==> r == defaultStopCode
  {
    if "0" == gStop.stopCode then None else defaultStopCode
  }

  // ---------------------------------------------------------------------
  // The split registry (ALL_ROUTE_TRIPS2) and its membership guard
  // ---------------------------------------------------------------------

  /** The routes whose trips are split by a declared stop order, keyed by
      route id; built once and never changed. */
  const AllRouteTrips2: map<int, RouteTripSpec> := map[
    401 := Spec401,
    403 := Spec403,
    404 := Spec404,
    411 := Spec411,
    413 := Spec413,
    414 := Spec414,
    420 := Spec420,
    430 := Spec430,
    431 := Spec431,
    432 := Spec432,
    433 := Spec433,
    433 + RidEwA := Spec433A,
    440 := Spec440,
    441 := Spec441,
    441 + RidEwA := Spec441A,
    442 := Spec442,
    443 := Spec443,
    443 + RidEwA := Spec443A,
    443 + RidEwB := Spec443B,
    450 := Spec450,
    451 := Spec451,
    451 + RidEwA := Spec451A,
    451 + RidEwB := Spec451B,
    490 := Spec490,
    491 := Spec491,
    492 := Spec492,
    493 := Spec493,
    494 := Spec494
  ]

  const Spec401: RouteTripSpec :=
    NewRouteTripSpec(401,
      0, HeadsignTypeString, OrdzeTc,
      1, HeadsignTypeString, Downtown)
    .AddTripSort(0, ["1973", "1292", "4000"])
    .AddTripSort(1, ["4000", "1457", "1973"])

  const Spec403: RouteTripSpec :=
    NewRouteTripSpec(403,
      0, HeadsignTypeString, OrdzeTc,
      1, HeadsignTypeString, GovCtr)
    .AddTripSort(0, ["1732", "1629", "4000"])
    .AddTripSort(1, ["4000", "1794", "1973"])

  const Spec404: RouteTripSpec :=
    NewRouteTripSpec(404,
      0, HeadsignTypeString, OrdzeTc,
      1, HeadsignTypeString, UOfAlberta)
    .AddTripSort(0, ["2636", "2722", "4000"])
    .AddTripSort(1, ["4000", "2752", "2638", "2625", "2636"])

  const Spec411: RouteTripSpec :=
    NewRouteTripSpec(411,
      0, HeadsignTypeString, BethelTt,
      1, HeadsignTypeString, Downtown)
    .AddTripSort(0, ["1973", "1439", "1292", "8000"])
    .AddTripSort(1, ["8000", "2289", "1973"])

  const Spec413: RouteTripSpec :=
    NewRouteTripSpec(413,
      0, HeadsignTypeString, BethelTt,
      1, HeadsignTypeString, GovCtrNait)
    .AddTripSort(0, ["1223", "1973", "1732", "1643", "1629", "8005", "8000"])
    .AddTripSort(1, ["8000", "8004", "1728", "1898", "1973", "1227"])

  const Spec414: RouteTripSpec :=
    NewRouteTripSpec(414,
      0, HeadsignTypeString, BethelTt,
      1, HeadsignTypeString, UOfAlberta)
    .AddTripSort(0, ["2636", "8000"])
    .AddTripSort(1, ["8000", "2636"])

  const Spec420: RouteTripSpec :=
    NewRouteTripSpec(420,
      0, HeadsignTypeString, BethelTt,
      1, HeadsignTypeString, MillenniumPlace)
    .AddTripSort(0, ["8800", "8811", "8000"])
    .AddTripSort(1, ["8000", "8700", "8800"])

  const Spec430: RouteTripSpec :=
    NewRouteTripSpec(430,
      0, HeadsignTypeString, BethelTt,
      1, HeadsignTypeString, EmeraldHillsAbj)
    .AddTripSort(0, ["7921", "7436", "8000"])
    .AddTripSort(1, ["8000", "8304", "7921"])

  const Spec431: RouteTripSpec :=
    NewRouteTripSpec(431,
      0, HeadsignTypeString, BethelTt,
      1, HeadsignTypeString, EmeraldHills)
    .AddTripSort(0, ["7920", "8849", "8000"])
    .AddTripSort(1, ["8000", "7437", "7920"])

  const Spec432: RouteTripSpec :=
    NewRouteTripSpec(432,
      0, HeadsignTypeString, BethelTt,
      1, HeadsignTypeString, Summerwood)
    .AddTripSort(0, ["7870", "7508", "8000"])
    .AddTripSort(1, ["8000", "8304", "7870"])

  const Spec433: RouteTripSpec :=
    NewRouteTripSpec(433,
      0, HeadsignTypeString, BethelTt,
      1, HeadsignTypeString, "Davidson Crk")
    .AddTripSort(0, ["7272", "7431", "8000"])
    .AddTripSort(1, ["8000", "8135", "7272"])

  const Spec433A: RouteTripSpec :=
    NewRouteTripSpec(433 + RidEwA,
      0, HeadsignTypeString, "Charlton Hts",
      1, HeadsignTypeString, Abj)
    .AddTripSort(0, ["7921", "7330", "8114"])
    .AddTripSort(1, ["8113", "7319", "7920"])

  const Spec440: RouteTripSpec :=
    NewRouteTripSpec(440,
      0, HeadsignTypeString, BethelTt,
      1, HeadsignTypeString, HeritageHills)
    .AddTripSort(0, ["8000", "7199", "7124", "7011", "1068", "7102", "8000"])
    .AddTripSort(1, ["8000", "1090", "7024", "7199"])

  const Spec441: RouteTripSpec :=
    NewRouteTripSpec(441,
      0, HeadsignTypeString, BethelTt,
      1, HeadsignTypeString, OrdzeTc)
    .AddTripSort(0, ["4000", "9157", "8000"])
    .AddTripSort(1, ["8000", "9240", "9115", "4939", "4933", "4000"])

  const Spec441A: RouteTripSpec :=
    NewRouteTripSpec(441 + RidEwA,
      0, HeadsignTypeString, BethelTt,
      1, HeadsignTypeString, Regency)
    .AddTripSort(0, ["9115", "9157", "9239", "9160", "8000"])
    .AddTripSort(1, ["8000", "9150", "9240", "9115", "9157"])

  const Spec442: RouteTripSpec :=
    NewRouteTripSpec(442,
      0, HeadsignTypeString, BethelTt,
      1, HeadsignTypeString, Nottingham)
    .AddTripSort(0, ["9015", "9180", "8000"])
    .AddTripSort(1, ["8000", "1002", "9015"])

  const Spec443: RouteTripSpec :=
    NewRouteTripSpec(443,
      0, HeadsignTypeString, BethelTt,
      1, HeadsignTypeString, OrdzeTc)
    .AddTripSort(0, ["4000", "6012", "8000"])
    .AddTripSort(1, ["8000", "1088", "6065", "4000"])

  const Spec443A: RouteTripSpec :=
    NewRouteTripSpec(443 + RidEwA,
      0, HeadsignTypeString, "AM",
      1, HeadsignTypeString, "PM")
    .AddTripSort(0, ["8000", "1013", "2001", "6035", "6126", "1009", "1011", "8000"])
    .AddTripSort(1, ["8000", "1013", "6079", "6115", "2000", "1011", "8000"])

  const Spec443B: RouteTripSpec :=
    NewRouteTripSpec(443 + RidEwB,
      0, HeadsignTypeString, BethelTt,
      1, HeadsignTypeString, Citp)
    .AddTripSort(0, ["6048", "1024", "8000"])
    .AddTripSort(1, ["8000", "1033", "6029"])

  const Spec450: RouteTripSpec :=
    NewRouteTripSpec(450,
      0, HeadsignTypeString, BethelTt,
      1, HeadsignTypeString, Citp)
    .AddTripSort(0, ["2001", "6072", "8000"])
    .AddTripSort(1, ["8000", "8105", "2001"])

  const Spec451: RouteTripSpec :=
    NewRouteTripSpec(451,
      0, HeadsignTypeString, BethelTt,
      1, HeadsignTypeString, OrdzeTc)
    .AddTripSort(0, ["4000", "5040", "8000"])
    .AddTripSort(1, ["8000", "5005", "5115", "4000"])

  const Spec451A: RouteTripSpec :=
    NewRouteTripSpec(451 + RidEwA,
      0, HeadsignTypeString, BethelTt,
      1, HeadsignTypeString, Village)
    .AddTripSort(0, ["5040", "5078", "8000"])
    .AddTripSort(1, ["8000", "5083", "5115"])

  const Spec451B: RouteTripSpec :=
    NewRouteTripSpec(451 + RidEwB,
      0, HeadsignTypeString, BethelTt,
      1, HeadsignTypeString, Broadmoor)
    .AddTripSort(0, ["5041", "5138", "8000"])
    .AddTripSort(1, ["8000", "5005", "5041"])

  const Spec490: RouteTripSpec :=
    NewRouteTripSpec(490,
      0, HeadsignTypeString, BethelTt,
      1, HeadsignTypeString, MillenniumPlace)
    .AddTripSort(0, ["8800", "8806", "8812", "8814", "8803", "7526", "8000"])
    .AddTripSort(1, ["8000", "8816", "8010", "8700", "8800"])

  const Spec491: RouteTripSpec :=
    NewRouteTripSpec(491,
      0, HeadsignTypeString, BethelTt,
      1, HeadsignTypeString, Summerwood)
    .AddTripSort(0, ["7807", "7508", "7406", "7312", "7229", "8138", "8000"])
    .AddTripSort(1, ["8000", "8010", "8816", "8101", "7604", "7807"])

  const Spec492: RouteTripSpec :=
    NewRouteTripSpec(492,
      0, HeadsignTypeString, BethelTt,
      1, HeadsignTypeString, Regency)
    .AddTripSort(0, ["9157", "9225", "7199", "7011", "1042", "1052", "1001", "8000"])
    .AddTripSort(1, ["8000", "8010", "8816", "8101", "1002", "9015", "9157"])

  const Spec493: RouteTripSpec :=
    NewRouteTripSpec(493,
      0, HeadsignTypeString, BethelTt,
      1, HeadsignTypeString, Brentwood)
    .AddTripSort(0, ["6097", "6115", "6065", "6048", "1004", "1090", "7006", "8111", "8000"])
    .AddTripSort(1, ["8000", "8010", "8816", "8101", "7011", "1042", "1071", "2001", "6079", "6091", "6097"])

  const Spec494: RouteTripSpec :=
    NewRouteTripSpec(494,
      0, HeadsignTypeString, BethelTt,
      1, HeadsignTypeString, OrdzeTc)
    .AddTripSort(0, ["4000", "6012", "9353", "9180", "1001", "1004", "5005", "5023", "4036", "8013", "8000"])
    .AddTripSort(1, ["8000", "8010", "8816", "1013", "1014", "5005", "5011", "5023", "4036", "5041", "5065", "5089", "5115", "4000"])

  lemma EntriesWellFormed0()
    ensures EntryWellFormed(401, Spec401)
    ensures EntryWellFormed(403, Spec403)
    ensures EntryWellFormed(404, Spec404)
    ensures EntryWellFormed(411, Spec411)
  {
  }

  lemma EntriesWellFormed1()
    ensures EntryWellFormed(413, Spec413)
    ensures EntryWellFormed(414, Spec414)
    ensures EntryWellFormed(420, Spec420)
    ensures EntryWellFormed(430, Spec430)
  {
  }

  lemma EntriesWellFormed2()
    ensures EntryWellFormed(431, Spec431)
    ensures EntryWellFormed(432, Spec432)
    ensures EntryWellFormed(433, Spec433)
    ensures EntryWellFormed(433 + RidEwA, Spec433A)
  {
  }

  lemma EntriesWellFormed3()
    ensures EntryWellFormed(440, Spec440)
    ensures EntryWellFormed(441, Spec441)
    ensures EntryWellFormed(441 + RidEwA, Spec441A)
    ensures EntryWellFormed(442, Spec442)
  {
  }

  lemma EntriesWellFormed4()
    ensures EntryWellFormed(443, Spec443)
    ensures EntryWellFormed(443 + RidEwA, Spec443A)
    ensures EntryWellFormed(443 + RidEwB, Spec443B)
    ensures EntryWellFormed(450, Spec450)
  {
  }

  lemma EntriesWellFormed5()
    ensures EntryWellFormed(451, Spec451)
    ensures EntryWellFormed(451 + RidEwA, Spec451A)
    ensures EntryWellFormed(451 + RidEwB, Spec451B)
    ensures EntryWellFormed(490, Spec490)
  {
    assert BethelTt[1] != Broadmoor[1];
  }

  lemma EntriesWellFormed6()
    ensures EntryWellFormed(491, Spec491)
    ensures EntryWellFormed(492, Spec492)
    ensures EntryWellFormed(493, Spec493)
    ensures EntryWellFormed(494, Spec494)
  {
    assert BethelTt[1] != Brentwood[1];
  }

  /** Every entry is filed under its own route id and declares directions
      0 and 1 with distinct headsigns and non-empty stop orders. */
  lemma RegistryEntriesWellFormed()
    ensures RegistryWellFormed(AllRouteTrips2)
  {
    EntriesWellFormed0();
    EntriesWellFormed1();
    EntriesWellFormed2();
    EntriesWellFormed3();
    EntriesWellFormed4();
    EntriesWellFormed5();
    EntriesWellFormed6();
  }

  /** `setTripHeadsign`: a registered route's trip is left as it is (its
      headsign comes from the split); any other trip gets the cleaned trip
      headsign (`cleanTripHeadsign`, a parameter here) and the trip's
      direction id. */
  method SetTripHeadsign(routeId: int, mTrip: MTrip, gTrip: GTrip, cleanTripHeadsign: string -> string)
    modifies mTrip
    ensures routeId in AllRouteTrips2 ==> unchanged(mTrip)
    ensures routeId !in AllRouteTrips2 ==>
      mTrip.headsignValue == cleanTripHeadsign(gTrip.tripHeadsign) && mTrip.headsignId == gTrip.directionId
  {
    RegistryEntriesWellFormed();
    if TripHandling(AllRouteTrips2, routeId).SplitBySpec? {
      return;
    }
    mTrip.SetHeadsignString(cleanTripHeadsign(gTrip.tripHeadsign), gTrip.directionId);
  }

  /** `mergeHeadsign`: two trips of one route with the same headsign are
      never expected, so merging always fails. */
  function MergeHeadsign(mTrip: MTrip, mTripToMerge: MTrip): (r: Result<bool, Error>)
    ensures r.Failure? && r.error == UnexpectedTripsToMerge(mTrip, mTripToMerge)
  {
    Failure(UnexpectedTripsToMerge(mTrip, mTripToMerge))
  }

  // ---------------------------------------------------------------------
  // Consistency between the tables
  // ---------------------------------------------------------------------

  /** The route ids of the lettered short names. */
  const LetteredRouteIds: set<int> :=
    {433 + RidEwA, 441 + RidEwA, 443 + RidEwA, 443 + RidEwB, 451 + RidEwA, 451 + RidEwB}

  /** The six lettered short names encode to their number plus the offset
      of their letter, the ids the registry files them under
      (`433L + RID_EW_A` for "433A"). */
  lemma Encodes433A()
    ensures EncodeRouteId(Rsn433A) == Some(433 + RidEwA)
  {
    ThreeDigitLetteredCode(Rsn433A);
  }

  lemma Encodes441A()
    ensures EncodeRouteId(Rsn441A) == Some(441 + RidEwA)
  {
    ThreeDigitLetteredCode(Rsn441A);
  }

  lemma Encodes443A()
    ensures EncodeRouteId(Rsn443A) == Some(443 + RidEwA)
  {
    ThreeDigitLetteredCode(Rsn443A);
  }

  lemma Encodes443B()
    ensures EncodeRouteId(Rsn443B) == Some(443 + RidEwB)
  {
    ThreeDigitLetteredCode(Rsn443B);
  }

  lemma Encodes451A()
    ensures EncodeRouteId(Rsn451A) == Some(451 + RidEwA)
  {
    ThreeDigitLetteredCode(Rsn451A);
  }

  lemma Encodes451B()
    ensures EncodeRouteId(Rsn451B) == Some(451 + RidEwB)
  {
    ThreeDigitLetteredCode(Rsn451B);
  }

  /** Each lettered short name has one of the six lettered ids. */
  lemma LetteredShortNamesEncode(rsn: string)
    requires rsn in LetteredShortNames
    ensures EncodeRouteId(rsn).Some? && EncodeRouteId(rsn).value in LetteredRouteIds
  {
    if rsn == Rsn433A {
      Encodes433A();
    } else if rsn == Rsn441A {
      Encodes441A();
    } else if rsn == Rsn443A {
      Encodes443A();
    } else if rsn == Rsn443B {
      Encodes443B();
    } else if rsn == Rsn451A {
      Encodes451A();
    } else {
      Encodes451B();
    }
  }

  /** Registry keys below 10 000 are exactly the table's route numbers
      other than 495; the keys above are exactly the lettered ids. */
  lemma RegistryKeysByRange(id: int)
    ensures 0 <= id < RidEwA ==> (id in AllRouteTrips2 <==> id in RouteNumbers && id != 495)
    ensures RidEwA <= id ==> (id in AllRouteTrips2 <==> id in LetteredRouteIds)
  {
  }

  /** Every short name the long-name table knows has a route id, and that
      id is registered for splitting unless it is 495. */
  lemma RegistryCoversRouteTable(route: GRoute)
    requires IsKnownShortName(route.routeShortName)
    ensures GetRouteId(route).Success?
    ensures GetRouteId(route).value in AllRouteTrips2 <==> GetRouteId(route).value != 495
  {
    var rsn := route.routeShortName;
    if IsDigitsOnly(rsn) {
      RegistryKeysByRange(DigitsValue(rsn));
    } else {
      LetteredShortNamesEncode(rsn);
      RegistryKeysByRange(EncodeRouteId(rsn).value);
    }
  }

  /** Each lettered id is the id of one of the six lettered short names. */
  lemma ShortNameOfLetteredId(id: int) returns (rsn: string)
    requires id in LetteredRouteIds
    ensures rsn in LetteredShortNames && EncodeRouteId(rsn) == Some(id)
  {
    if id == 433 + RidEwA {
      rsn := Rsn433A;
      Encodes433A();
    } else if id == 441 + RidEwA {
      rsn := Rsn441A;
      Encodes441A();
    } else if id == 443 + RidEwA {
      rsn := Rsn443A;
      Encodes443A();
    } else if id == 443 + RidEwB {
      rsn := Rsn443B;
      Encodes443B();
    } else if id == 451 + RidEwA {
      rsn := Rsn451A;
      Encodes451A();
    } else {
      rsn := Rsn451B;
      Encodes451B();
    }
  }

  /** Every registry key is the route id of a short name the long-name
      table knows: the registry names no route the tables do not. */
  lemma RegistryKeysAreRouteIds(id: int)
    requires id in AllRouteTrips2
    ensures exists rsn :: IsKnownShortName(rsn) && EncodeRouteId(rsn) == Some(id)
  {
    RegistryKeysByRange(id);
    if id < RidEwA {
      var rsn := NatToString(id);
      assert IsKnownShortName(rsn) && EncodeRouteId(rsn) == Some(id);
    } else {
      var rsn := ShortNameOfLetteredId(id);
      if IsDigitsOnly(rsn) {
        DigitsOnlyNotLettered(rsn);
      }
      assert IsKnownShortName(rsn);
    }
  }

  /** A digits-only short name is none of the lettered ones. */
  lemma DigitsOnlyNotLettered(rsn: string)
    requires IsDigitsOnly(rsn)
    ensures rsn !in LetteredShortNames
  {
    if |rsn| == 4 {
      assert IsDigit(rsn[3]);
    }
  }

  /** Two digits-only short names with the same route id (such as "401"
      and "0401") get the same long name and the same colour. */
  lemma RouteIdDeterminesTableEntries(a: GRoute, b: GRoute, cleanRouteLongName: string -> string)
    requires a.routeLongName == [] && b.routeLongName == []
    requires IsDigitsOnly(a.routeShortName) && IsDigitsOnly(b.routeShortName)
    requires GetRouteId(a) == GetRouteId(b)
    ensures GetRouteLongName(a, cleanRouteLongName) == GetRouteLongName(b, cleanRouteLongName)
              || (GetRouteLongName(a, cleanRouteLongName).Failure? && GetRouteLongName(b, cleanRouteLongName).Failure?)
    ensures GetRouteColor(a).Success? == GetRouteColor(b).Success?
    ensures GetRouteColor(a).Success? ==> GetRouteColor(a).value == GetRouteColor(b).value
  {
    DigitsOnlyNotLettered(a.routeShortName);
    DigitsOnlyNotLettered(b.routeShortName);
  }

  lemma LetteredTableExample(cleanRouteLongName: string -> string)
    ensures GetRouteLongName(GRoute("", Rsn441A, ""), cleanRouteLongName) == Success("Bethel TT - Regency")
    ensures GetRouteColor(GRoute("", Rsn441A, "")) == Success(Some("832B30"))
  {
    assert !IsDigitsOnly(Rsn441A) by { assert !IsDigit(Rsn441A[3]); }
    assert BethelTt == "Bethel TT";
    assert Rln441A == "Bethel TT - Regency";
  }

  lemma NumberedTableExample()
    ensures GetRouteColor(GRoute("", "441", "")) == Success(Some("832B30"))
    ensures GetRouteColor(GRoute("", "495", "")) == Success(None)
  {
    ThreeDigitValue("441");
    ThreeDigitValue("495");
  }
}
