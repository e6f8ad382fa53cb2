/**
 * The flight table behind the placeholder API: a constant list with a whole-table read
 * and a lookup by identifier. Nothing here mutates the table.
 */
module FlightsApi {
  import opened Wrappers
  import opened Types
  import Seqs

  const Kigali := LocationData("Kigali International Airport", "KGL", "Rwanda")
  const Entebbe := LocationData("Entebbe International Airport", "EBB", "Uganda")
  const Nairobi := LocationData("Jomo Kenyatta International Airport", "NBO", "Kenya")
  const Boeing := AircraftInfo("Boeing 737-800", 189, "Boeing")
  const Airbus := AircraftInfo("Airbus A320", 180, "Airbus")

  /** The seed rows; times are milliseconds since the epoch of the seed's local times, read as UTC. */
  const PlaceholderFlights: seq<Flight> := [
    Flight("WB101", "AC001", "LOC001", "LOC002", 1748764800000, 1748770200000, 12,
      Some(Boeing), Some(Kigali), Some(Entebbe)),
    Flight("WB103", "AC002", "LOC001", "LOC004", 1748872800000, 1748881800000, 45,
      Some(Airbus), Some(Kigali), Some(Nairobi)),
    Flight("WB104", "AC001", "LOC002", "LOC001", 1748883600000, 1748889000000, 89,
      Some(Boeing), Some(Entebbe), Some(Kigali))
  ]

  /** `getFlights`: the whole table, in table order. */
  function GetFlights(table: seq<Flight>): (r: seq<Flight>)
    ensures |r| == |table| && forall i :: 0 <= i < |r| ==> r[i] == table[i]
  {
    table
  }

  /** `getFlightById`: the first flight with the identifier, or null when there is none. */
  function GetFlightById(table: seq<Flight>, flightId: string): (r: Option<Flight>)
    ensures r.None? <==> forall i :: 0 <= i < |table| ==> table[i].flightId != flightId
    ensures r.Some? ==>
      && r.value.flightId == flightId
      && exists i :: 0 <= i < |table| && table[i] == r.value &&
           forall j :: 0 <= j < i ==> table[j].flightId != flightId
  {
    Seqs.Find(table, (f: Flight) => f.flightId == flightId)
  }
}
