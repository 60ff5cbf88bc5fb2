/** The flight record the server sends and the browser passes around, and
    the search parameters the search form builds. Only the fields that some
    modelled operation reads or writes are kept. */
module Flights {
  import opened Common

  /** One direction of travel as the server's itinerary parser lays it
      out (`_parse_itinerary`); the clock times are not kept. */
  datatype Leg = Leg(
    origin: string,
    destination: string,
    arrivalDate: string,
    duration: string,
    airline: string,
    flightNumber: string,
    stops: int,
    aircraft: string,
    bookingClass: string)

  /** One flight (or a combined round trip) as a JSON object: the outbound
      leg's fields, spread into the object, and the fare fields. `price` is
      the fare in dollars; `arrivalDate` and `arrivalDateAlt` are the
      `arrival_date` and `arrivalDate` spellings the client looks at. */
  datatype Flight = Flight(
    origin: string,
    destination: string,
    price: real,
    stops: int,
    gowildEligible: bool,
    arrivalDate: Option<string>,
    arrivalDateAlt: Option<string>,
    tripDurationDisplay: Option<string>,
    isRoundTrip: bool,
    returnFlight: Option<ReturnLeg>,
    totalPrice: Option<real>,
    duration: string,
    airline: string,
    flightNumber: string,
    aircraft: string,
    bookingClass: string)

  /** The `return_flight` of a round trip: the parsed return itinerary when
      the server built it, the chosen return flight when the browser did. */
  datatype ReturnLeg =
    | ParsedLeg(leg: Leg)
    | ChosenFlight(flight: Flight)

  /** The `searchParams` object the form submits; absent keys are `None`. */
  datatype SearchParams = SearchParams(
    searchMode: string,
    origins: seq<string>,
    destinations: seq<string>,
    tripType: string,
    departureDate: Option<string>,
    returnDate: Option<string>,
    desiredReturnDate: Option<string>,
    tripLength: Option<string>,
    tripLengthUnit: Option<string>,
    nonstopPreferred: Option<bool>,
    maxTripDuration: Option<string>,
    maxTripDurationUnit: Option<string>)

  /** The concatenation of a sequence of flight lists, in order. */
  function Flatten(batches: seq<seq<Flight>>): seq<Flight>
  {
    if |batches| == 0 then [] else Flatten(batches[..|batches| - 1]) + batches[|batches| - 1]
  }

  lemma FlattenAppend(batches: seq<seq<Flight>>, b: seq<Flight>)
    ensures Flatten(batches + [b]) == Flatten(batches) + b
  {
    assert (batches + [b])[..|batches|] == batches;
  }
}
