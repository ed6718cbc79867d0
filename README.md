# Strathcona County Transit bus agency tools, in Dafny

The Strathcona County Transit GTFS converter uses an agency-specific
configuration class that turns GTFS records into the numeric ids and
labels the MonTransit app uses. This project models that class in two
versions: the current one and the legacy one. It covers:

- **Route ids.** A short name of digits is its own number, so `"401"` and
  `"0401"` are both 401. A short name holding digits and ending in `A` or
  `B` is 10 000 or 20 000 plus its first digit run, so `"433A"` is
  10 433. The legacy version reads the GTFS route ID instead of the short
  name (`RouteIdCodec`).
- **Stop ids** (current version only). One leading `S` or `s` is removed
  from the GTFS stop id. If the rest is all digits, it is the id. If it
  still begins with an S letter and holds a digit, the id is 1 900 000
  plus its first digit run. Anything else is fatal.
- **Route tables.** Fixed long-name and colour tables are keyed by short
  name. Route 495 has no colour of its own. The stop code `"0"` means
  "no code".
- **Split registry.** `ALL_ROUTE_TRIPS2` is the registry of routes whose
  trips are split into two directions by declared stop orders. Its key
  guard decides whether `setTripHeadsign`, `splitTrip`, `splitTripStop`
  and `compareEarly` use the route's entry or the library's defaults.
- **Merging.** `mergeHeadsign` is always fatal.

Fatal conditions are modelled as a `Failure` of `Result`:
`MTLog.Fatal` in the current version, and a message followed by
`System.exit(-1)` in the legacy one. A Java `null` becomes `None`.
The class's own text cleaners `cleanRouteLongName` and
`cleanTripHeadsign` (regular-expression rewriting over the library's
`CleanUtils`) and the library's default stop code are passed in as
parameters.

Files:

- `wrappers.dfy`: `Option` and `Result`.
- `text_utils.dfy`: digit strings, `Matcher.find` on `[\d]+`, and decimal
  values.
- `route_id_codec.dfy`: the route-id encoding shared by both versions.
- `gtfs_data.dfy`: GTFS records, the output trip, registry entries and
  the registry guard.
- `agency_tools.dfy`: the current version.
- `legacy_agency_tools.dfy`: the legacy version.
- `version_history.dfy`: what changed between the two versions.

Properties proved:

- Encoding round-trips.
- The stop-id offset branch is reachable only for ids that begin with two
  S letters. As a result, `"S123"` and `"123"` get the same stop id.
- Numeric code 10 000 + n and lettered code n`A` share a route id.
- Every registry entry is filed under its own route id and declares
  directions 0 and 1 with distinct headsigns and non-empty stop orders.
- The current registry covers every route of the tables except 495. The
  legacy registry covers them all except 441A and 490 to 495.
- Both versions have the same long-name and colour tables.
- The current registry is the legacy one plus 441A and 490 to 494. Five
  shared entries changed.

## Model

Paths are relative to the repository root. `current` is
`src/main/java/org/mtransit/parser/ca_strathcona_county_transit_bus/StrathconaCountyTransitBusAgencyTools.java`
and `legacy` is
`src/org/mtransit/parser/ca_strathcona_county_transit_bus/StrathconaCountyTransitBusAgencyTools.java`;
both are written out in the table.

| member | source | states |
|---|---|---|
| TextUtils.FirstDigitRun | src/main/java/org/mtransit/parser/ca_strathcona_county_transit_bus/StrathconaCountyTransitBusAgencyTools.java:918 | `find()` on `[\d]+` fails iff the text holds no digit. Otherwise it returns a non-empty all-digit run that appears at the returned index, has no digit before it, and cannot be extended to the right. |
| TextUtils.FirstDigitRunOfDigitPrefix | src/main/java/org/mtransit/parser/ca_strathcona_county_transit_bus/StrathconaCountyTransitBusAgencyTools.java:918 | A text that starts with digits followed by a non-digit (or nothing) finds exactly those leading digits at index 0. |
| RouteIdCodec.EncodeRouteId | src/main/java/org/mtransit/parser/ca_strathcona_county_transit_bus/StrathconaCountyTransitBusAgencyTools.java:110-125 | A code has an id iff it is all digits, or holds a digit and ends in `A` or `B`. An all-digit code's id is its value. Otherwise the id is 10 000 (`A`) or 20 000 (`B`) plus the value of the first digit run. |
| RouteIdCodec.EncodeLetteredCode | src/main/java/org/mtransit/parser/ca_strathcona_county_transit_bus/StrathconaCountyTransitBusAgencyTools.java:115-121 | Digits followed by `A` or `B` encode to the letter's offset plus the digits' value. |
| RouteIdCodec.EncodeLetteredRoute | src/main/java/org/mtransit/parser/ca_strathcona_county_transit_bus/StrathconaCountyTransitBusAgencyTools.java:110-125 | Round trip: the decimal text of n encodes to n, and that text followed by `A`/`B` encodes to n plus 10 000/20 000. |
| RouteIdCodec.LetteredIdsAboveNumeric | src/main/java/org/mtransit/parser/ca_strathcona_county_transit_bus/StrathconaCountyTransitBusAgencyTools.java:107-108 | Every id from a lettered code is at least 10 000. |
| RouteIdCodec.ThreeDigitLetteredCode | src/main/java/org/mtransit/parser/ca_strathcona_county_transit_bus/StrathconaCountyTransitBusAgencyTools.java:115-121 | A three-digit number plus a letter encodes to that number plus the letter's offset. |
| RouteIdCodec.EncodingCollision | src/main/java/org/mtransit/parser/ca_strathcona_county_transit_bus/StrathconaCountyTransitBusAgencyTools.java:110-125 | The numeric code of 10 000 + n and the code n`A` get the same id (for example "10433" and "433A"). |
| GtfsData.TripHandling | src/main/java/org/mtransit/parser/ca_strathcona_county_transit_bus/StrathconaCountyTransitBusAgencyTools.java:885-907 | The guard of `compareEarly`, `splitTrip` and `splitTripStop`: a route uses a registry entry iff its id is a key. That entry is the one under the key, carries the same route id and declares both directions. Otherwise the default applies. |
| AgencyTools.GetRouteId | src/main/java/org/mtransit/parser/ca_strathcona_county_transit_bus/StrathconaCountyTransitBusAgencyTools.java:110-125 | Succeeds iff the short name is a route code, with the encoding's value. Otherwise it fails with the unexpected-route-id error for that route. |
| AgencyTools.GetRouteLongName | src/main/java/org/mtransit/parser/ca_strathcona_county_transit_bus/StrathconaCountyTransitBusAgencyTools.java:183-231 | A non-empty GTFS long name is returned cleaned. An empty one succeeds iff the short name is a known lettered name or a digit string whose value is a known number. The error names the route. |
| AgencyTools.GetRouteColor | src/main/java/org/mtransit/parser/ca_strathcona_county_transit_bus/StrathconaCountyTransitBusAgencyTools.java:256-302 | Succeeds iff the short name is known. There is no colour (`null`) exactly for the digit strings of value 495. Every colour is a six-character code. The error names the route. |
| AgencyTools.CleanStopOriginalId | src/main/java/org/mtransit/parser/ca_strathcona_county_transit_bus/StrathconaCountyTransitBusAgencyTools.java:874-882 | An id that starts with `S`/`s` loses exactly that first character. Any other id is unchanged. |
| AgencyTools.CleanStopIdStripsOneLetter | src/main/java/org/mtransit/parser/ca_strathcona_county_transit_bus/StrathconaCountyTransitBusAgencyTools.java:874-882 | Cleaning an S letter followed by a text gives back the text. A text without a leading S letter is unchanged. |
| AgencyTools.CleanStopIdIdempotentIff | src/main/java/org/mtransit/parser/ca_strathcona_county_transit_bus/StrathconaCountyTransitBusAgencyTools.java:874-882 | Cleaning twice equals cleaning once iff the id does not start with two S letters ("SS12" → "S12" → "12"). |
| AgencyTools.GetStopId | src/main/java/org/mtransit/parser/ca_strathcona_county_transit_bus/StrathconaCountyTransitBusAgencyTools.java:920-934 | After cleaning: an all-digit id is its value. An id that starts with an S letter and holds a digit is 1 900 000 plus its first digit run. It succeeds in exactly those two cases. The error names the stop. |
| AgencyTools.StopIdOfDigits | src/main/java/org/mtransit/parser/ca_strathcona_county_transit_bus/StrathconaCountyTransitBusAgencyTools.java:920-934 | Round trip: the decimal text of n has stop id n. |
| AgencyTools.StopIdOfOneLetterS | src/main/java/org/mtransit/parser/ca_strathcona_county_transit_bus/StrathconaCountyTransitBusAgencyTools.java:874-934 | Round trip: one `S` or `s` followed by the decimal text of n has stop id n, the same as without the letter. |
| AgencyTools.StopIdOfTwoLettersS | src/main/java/org/mtransit/parser/ca_strathcona_county_transit_bus/StrathconaCountyTransitBusAgencyTools.java:874-934 | Round trip: two S letters followed by the decimal text of n have stop id 1 900 000 + n. |
| AgencyTools.OffsetBranchIffDoubleS | src/main/java/org/mtransit/parser/ca_strathcona_county_transit_bus/StrathconaCountyTransitBusAgencyTools.java:874-934 | The 1 900 000 branch is taken iff the raw stop id starts with two S letters and holds a digit. |
| AgencyTools.GetStopCode | src/main/java/org/mtransit/parser/ca_strathcona_county_transit_bus/StrathconaCountyTransitBusAgencyTools.java:936-942 | Code "0" gives no code. Any other code gives the library default. |
| AgencyTools.RegistryEntriesWellFormed | src/main/java/org/mtransit/parser/ca_strathcona_county_transit_bus/StrathconaCountyTransitBusAgencyTools.java:333-872 | Every entry is filed under its own route id and declares directions 0 and 1 with different headsigns. Its stop orders are one non-empty list for direction 0, then one for direction 1. |
| AgencyTools.SetTripHeadsign | src/main/java/org/mtransit/parser/ca_strathcona_county_transit_bus/StrathconaCountyTransitBusAgencyTools.java:304-313 | A trip of a registered route is left unchanged. Any other trip gets the cleaned GTFS headsign and the GTFS direction id. |
| AgencyTools.MergeHeadsign | src/main/java/org/mtransit/parser/ca_strathcona_county_transit_bus/StrathconaCountyTransitBusAgencyTools.java:315-318 | Always fails, with the error naming both trips. |
| AgencyTools.LetteredShortNamesEncode | src/main/java/org/mtransit/parser/ca_strathcona_county_transit_bus/StrathconaCountyTransitBusAgencyTools.java:249-254 | Every lettered short name of the tables has an id among the six lettered ids. |
| AgencyTools.RegistryKeysByRange | src/main/java/org/mtransit/parser/ca_strathcona_county_transit_bus/StrathconaCountyTransitBusAgencyTools.java:333-872 | Below 10 000, the keys are exactly the table's route numbers other than 495. From 10 000 up, they are exactly the six lettered ids. |
| AgencyTools.RegistryCoversRouteTable | src/main/java/org/mtransit/parser/ca_strathcona_county_transit_bus/StrathconaCountyTransitBusAgencyTools.java:333-872 | Every short name the tables know has a route id. That id is registered iff it is not 495. |
| AgencyTools.RegistryKeysAreRouteIds | src/main/java/org/mtransit/parser/ca_strathcona_county_transit_bus/StrathconaCountyTransitBusAgencyTools.java:333-872 | Every registry key is the route id of some short name the tables know. |
| AgencyTools.RouteIdDeterminesTableEntries | src/main/java/org/mtransit/parser/ca_strathcona_county_transit_bus/StrathconaCountyTransitBusAgencyTools.java:183-302 | Two digit short names with the same route id (such as "401" and "0401") get the same long-name result and the same colour result. |
| AgencyTools.LetteredTableExample | src/main/java/org/mtransit/parser/ca_strathcona_county_transit_bus/StrathconaCountyTransitBusAgencyTools.java:164-302 | 441A's long name is "Bethel TT - Regency" and its colour is 832B30. |
| AgencyTools.NumberedTableExample | src/main/java/org/mtransit/parser/ca_strathcona_county_transit_bus/StrathconaCountyTransitBusAgencyTools.java:256-302 | 441's colour is 832B30 and 495 has no colour. |
| LegacyAgencyTools.GetRouteId | src/org/mtransit/parser/ca_strathcona_county_transit_bus/StrathconaCountyTransitBusAgencyTools.java:95-112 | The same encoding applied to the GTFS route ID. It succeeds iff that id is a route code. The error names the route. |
| LegacyAgencyTools.GetRouteLongName | src/org/mtransit/parser/ca_strathcona_county_transit_bus/StrathconaCountyTransitBusAgencyTools.java:167-219 | A non-empty long name is cleaned. An empty one succeeds iff the short name is known. The error names the route. |
| LegacyAgencyTools.GetRouteColor | src/org/mtransit/parser/ca_strathcona_county_transit_bus/StrathconaCountyTransitBusAgencyTools.java:271-320 | Succeeds iff the short name is known. There is no colour exactly for value 495. Every colour is a six-character code. The error names the route. |
| LegacyAgencyTools.GetStopCode | src/org/mtransit/parser/ca_strathcona_county_transit_bus/StrathconaCountyTransitBusAgencyTools.java:766-772 | Code "0" gives no code. Any other code gives the library default. |
| LegacyAgencyTools.SetTripHeadsign | src/org/mtransit/parser/ca_strathcona_county_transit_bus/StrathconaCountyTransitBusAgencyTools.java:322-328 | A trip of a route in the legacy registry is unchanged. Any other trip gets the cleaned headsign and the direction id. |
| LegacyAgencyTools.MergeHeadsign | src/org/mtransit/parser/ca_strathcona_county_transit_bus/StrathconaCountyTransitBusAgencyTools.java:330-335 | Always fails, with the error naming both trips. |
| LegacyAgencyTools.RegistryEntriesWellFormed | src/org/mtransit/parser/ca_strathcona_county_transit_bus/StrathconaCountyTransitBusAgencyTools.java:350-730 | Every legacy entry is filed under its own id and declares both directions with distinct headsigns and non-empty stop orders. |
| LegacyAgencyTools.RegistryKeysByRange | src/org/mtransit/parser/ca_strathcona_county_transit_bus/StrathconaCountyTransitBusAgencyTools.java:350-730 | Below 10 000, the legacy keys are the table's numbers except 490 to 495. From 10 000 up, they are the lettered ids except 441A's. |
| LegacyAgencyTools.RegistryCoversRouteTable | src/org/mtransit/parser/ca_strathcona_county_transit_bus/StrathconaCountyTransitBusAgencyTools.java:350-730 | Every known short name has an id. That id is registered iff it is neither 441A's nor in 490 to 495. |
| LegacyAgencyTools.Route441AHasTableEntries | src/org/mtransit/parser/ca_strathcona_county_transit_bus/StrathconaCountyTransitBusAgencyTools.java:95-320 | In the legacy version, 441A has route id 10 441, a long name and the colour 832B30. |
| LegacyAgencyTools.SharedColours | src/org/mtransit/parser/ca_strathcona_county_transit_bus/StrathconaCountyTransitBusAgencyTools.java:271-306 | The legacy table gives 430 and 442 the same named colour 2E3192, and 441 and 441A the same named colour 832B30. |
| LegacyAgencyTools.Route441AIsNotSplit | src/org/mtransit/parser/ca_strathcona_county_transit_bus/StrathconaCountyTransitBusAgencyTools.java:322-754 | The legacy registry is well formed, and its guard (the one `setTripHeadsign`, `compareEarly`, `splitTrip` and `splitTripStop` share) sends 10 441 to the default handling: 441A's trips are not split. |
| VersionHistory.RouteIdSourceChanged | src/org/mtransit/parser/ca_strathcona_county_transit_bus/StrathconaCountyTransitBusAgencyTools.java:95-112 | The legacy id of a route is the current id computed with the GTFS route ID as short name, in both success and value. When the two fields agree, the results are equal. |
| VersionHistory.LongNamesUnchanged | src/org/mtransit/parser/ca_strathcona_county_transit_bus/StrathconaCountyTransitBusAgencyTools.java:137-219 | The legacy and current long-name functions agree on every route. |
| VersionHistory.ColoursUnchanged | src/org/mtransit/parser/ca_strathcona_county_transit_bus/StrathconaCountyTransitBusAgencyTools.java:244-320 | The legacy and current colour functions agree on every route. |
| VersionHistory.RegistryGrew | src/org/mtransit/parser/ca_strathcona_county_transit_bus/StrathconaCountyTransitBusAgencyTools.java:350-730 | An id is a current key iff it is a legacy key, 441A's id, or in 490 to 494. |
| VersionHistory.EntriesKept | src/org/mtransit/parser/ca_strathcona_county_transit_bus/StrathconaCountyTransitBusAgencyTools.java:350-730 | Every legacy entry other than 411, 432, 440, 441 and 443A is also in the current registry, unchanged. |
| VersionHistory.EntriesChanged | src/org/mtransit/parser/ca_strathcona_county_transit_bus/StrathconaCountyTransitBusAgencyTools.java:350-730 | For 411, 432, 440, 441 and 443A, one stop order or headsign of each differs between the versions. |

## Left out

- `Utils.isDigitsOnly` is not part of this model. It is assumed to hold exactly of non-empty strings of ASCII digits. Unicode digits that `Character.isDigit` might accept are not modelled.
- AgencyTools.GetRouteId: does not model the overflow of `Long.parseLong`. Digit values are unbounded naturals, so a code too long for a `long` gets a value where Java would throw.
- LegacyAgencyTools.GetRouteId: does not model the overflow of `Long.parseLong`, for the same reason.
- AgencyTools.GetStopId: does not model the overflow of `Integer.parseInt` or the 32-bit wrap of `1_900_000 + digits`. Stop ids are unbounded naturals.
- AgencyTools.GetRouteLongName and AgencyTools.GetRouteColor (and their legacy counterparts): a short name too long for `Integer.parseInt` throws a `NumberFormatException` in Java. Here it is the unexpected-long-name or unexpected-colour failure, as any unknown number is.
- `RouteTripSpec.compare`, `getAllTrips`, `compileBothTripSort` and `SplitUtils.splitTripStop` are not part of this model. `compareEarly`, `splitTrip` and `splitTripStop` are modelled only through their registry guard (`TripHandling`), which yields the entry they would use or the default. `compileBothTripSort` is taken to return the entry it is called on.
- The stop-name comments next to each registry stop id are not modelled. Only the ids and their order are.
- `cleanRouteLongName`, `cleanTripHeadsign` and `cleanStopName` (regular-expression rewriting and case folding) are not modelled. The first two are passed in as functions, and `cleanStopName` is left out entirely.
- The library default stop code (`super.getStopCode`) is a parameter.
- `main`, `start`, the service-id and calendar exclusions, `excludeRoute`, `excludeTrip`, `getAgencyColor` and `getAgencyRouteType` are not modelled. They read files, hold process state, or return a constant.
- Logging, `System.exit` and `MTLog.Fatal` are replaced by a `Failure` result that carries the offending record.
- AgencyTools.SetTripHeadsign: the current version reads `getDirectionIdOrDefault()`, which falls back to a default for a trip without a GTFS direction id. The model gives every trip an integer direction id, so a trip without one, and the fallback, are not modelled.
- LegacyAgencyTools.SetTripHeadsign: reads `getDirectionId()`. It shares the trip record with the current version, so a trip without a direction id is not modelled here either.
- `new RouteTripSpec(...)` and `addTripSort(...)` are library code and are not part of this model. `NewRouteTripSpec` and `RouteTripSpec.AddTripSort` model the builder as recording its arguments, with the stop orders kept in call order.
- `MTrip.setHeadsignString` is library code and is not part of this model. It is modelled as storing the headsign string and its direction id.
- A GTFS string that is `null` is not modelled. Records always carry strings, and an empty long name stands for `StringUtils.isEmpty`.

