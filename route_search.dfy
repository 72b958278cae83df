/** The route-search form: its fields, the validation that runs when the user
    presses "Search Buses", and the small state transitions of the swap button
    and the city pickers. */
module RouteSearch {
  import opened Outcomes

  /** The two tabs of the form: city to city, or location to location. */
  datatype RouteType = Intercity | Local

  /** A day picked in the calendar popover. */
  datatype TravelDate = TravelDate(ordinal: int)

  /** A snapshot of the form's state hooks; `date` is None until a day is picked. */
  datatype Form = Form(
    fromCity: string,
    fromLocation: string,
    toCity: string,
    toLocation: string,
    date: Option<TravelDate>,
    routeType: RouteType)

  /** What the form shows when it is first rendered. */
  const InitialForm := Form("", "", "", "", None, Intercity)

  /** The arguments handed to the `onSearch` callback. */
  datatype Query = Query(from: string, to: string, date: TravelDate)

  /** The four ways a search is refused; each one is a destructive toast. */
  datatype SearchError =
    | DateRequired
    | CitiesRequired
    | LocationsRequired
    | InvalidRoute(mode: RouteType)

  /** The toast shown for a refused search. Both kinds of same-endpoint
      refusal share one title and differ in their description. */
  function ErrorToast(e: SearchError): (t: Toast)
    ensures t.variant == Destructive
    ensures t.title == "Invalid Route" <==> e.InvalidRoute?
  {
    match e
    case DateRequired =>
      Toast(Destructive, "Date Required", "Please select a travel date")
    case CitiesRequired =>
      Toast(Destructive, "Cities Required", "Please select both departure and destination cities")
    case LocationsRequired =>
      Toast(Destructive, "Locations Required", "Please select both departure and destination locations")
    case InvalidRoute(Intercity) =>
      Toast(Destructive, "Invalid Route", "Departure and destination cities cannot be the same")
    case InvalidRoute(Local) =>
      Toast(Destructive, "Invalid Route", "Departure and destination locations cannot be the same")
  }

  /** A local stop written as "location, city". */
  function Place(location: string, city: string): string {
    location + ", " + city
  }

  /** The decision made by the search button: the first failing check in a
      fixed order, or the query passed on. In local mode both endpoints are
      qualified with the departure city. */
  function Search(f: Form): (r: Result<Query, SearchError>)
    ensures r == Failure(DateRequired) <==> f.date.None?
    ensures r.Success? ==> f.date == Some(r.value.date) && r.value.from != "" && r.value.to != ""
  {
    if f.date.None? then Failure(DateRequired)
    else if f.routeType == Intercity then
      if f.fromCity == "" || f.toCity == "" then Failure(CitiesRequired)
      else if f.fromCity == f.toCity then Failure(InvalidRoute(Intercity))
      else Success(Query(f.fromCity, f.toCity, f.date.value))
    else
      if f.fromLocation == "" || f.toLocation == "" || f.fromCity == "" then Failure(LocationsRequired)
      else if f.fromLocation == f.toLocation then Failure(InvalidRoute(Local))
      else Success(Query(Place(f.fromLocation, f.fromCity), Place(f.toLocation, f.fromCity), f.date.value))
  }

  /** The form after the swap button: the pair of the current tab is exchanged. */
  function Swapped(f: Form): (r: Form)
    ensures r.date == f.date && r.routeType == f.routeType
    ensures multiset{r.fromCity, r.toCity} == multiset{f.fromCity, f.toCity}
    ensures multiset{r.fromLocation, r.toLocation} == multiset{f.fromLocation, f.toLocation}
    ensures r.routeType == Intercity ==> r.fromLocation == f.fromLocation && r.toLocation == f.toLocation
    ensures r.routeType == Local ==> r.fromCity == f.fromCity && r.toCity == f.toCity
  {
    if f.routeType == Intercity then f.(fromCity := f.toCity, toCity := f.fromCity)
    else f.(fromLocation := f.toLocation, toLocation := f.fromLocation)
  }

  /** A query with its endpoints exchanged; errors are left alone. */
  function Reversed(r: Result<Query, SearchError>): Result<Query, SearchError> {
    match r
    case Success(q) => Success(Query(q.to, q.from, q.date))
    case Failure(e) => Failure(e)
  }

  // ---------------------------------------------------------------------------
  // Properties of the decision

  /** Without a date the search is refused first, whatever else is filled in. */
  lemma MissingDateRefused(f: Form)
    requires f.date.None?
    ensures Search(f) == Failure(DateRequired)
  {
  }

  /** Intercity mode: the two refusals and the success, each exactly characterised. */
  lemma IntercityDecision(f: Form)
    requires f.date.Some? && f.routeType == Intercity
    ensures Search(f) == Failure(CitiesRequired) <==> f.fromCity == "" || f.toCity == ""
    ensures Search(f) == Failure(InvalidRoute(Intercity)) <==> f.fromCity != "" && f.fromCity == f.toCity
    ensures Search(f).Success? <==> f.fromCity != "" && f.toCity != "" && f.fromCity != f.toCity
    ensures Search(f).Success? ==> Search(f).value == Query(f.fromCity, f.toCity, f.date.value)
  {
  }

  /** Local mode: the two refusals and the success, each exactly characterised.
      The destination city is never consulted. */
  lemma LocalDecision(f: Form)
    requires f.date.Some? && f.routeType == Local
    ensures (Search(f) == Failure(LocationsRequired)) <==>
              (f.fromLocation == "" || f.toLocation == "" || f.fromCity == "")
    ensures (Search(f) == Failure(InvalidRoute(Local))) <==>
              (f.fromLocation != "" && f.fromCity != "" && f.fromLocation == f.toLocation)
    ensures Search(f).Success? <==>
              (f.fromLocation != "" && f.toLocation != "" && f.fromCity != "" && f.fromLocation != f.toLocation)
    ensures Search(f).Success? ==>
              Search(f).value == Query(f.fromLocation + ", " + f.fromCity, f.toLocation + ", " + f.fromCity, f.date.value)
  {
  }

  /** In local mode the destination city has no effect on the outcome. */
  lemma LocalIgnoresToCity(f: Form, city: string)
    requires f.routeType == Local
    ensures Search(f.(toCity := city)) == Search(f)
  {
  }

  /** Two places in the same city are equal only when their locations are:
      the fixed ", city" suffix cannot hide a difference. */
  lemma PlaceInjective(a: string, b: string, city: string)
    requires Place(a, city) == Place(b, city)
    ensures a == b
  {
    assert |a| == |b|;
    assert a == Place(a, city)[..|a|];
    assert b == Place(b, city)[..|b|];
  }

  /** A successful search never sends the callback a route whose origin is its
      destination, and carries the picked date. */
  lemma SuccessHasDistinctEndpoints(f: Form)
    requires Search(f).Success?
    ensures Search(f).value.from != Search(f).value.to
    ensures f.date == Some(Search(f).value.date)
  {
    if f.routeType == Local && Search(f).value.from == Search(f).value.to {
      PlaceInjective(f.fromLocation, f.toLocation, f.fromCity);
      assert false;
    }
  }

  /** The swap button is its own inverse. */
  lemma SwappedTwice(f: Form)
    ensures Swapped(Swapped(f)) == f
  {
  }

  /** Swapping before searching refuses with the same error, or succeeds with
      the two endpoints exchanged, in either mode. */
  lemma SwapReversesSearch(f: Form)
    ensures Search(Swapped(f)) == Reversed(Search(f))
  {
  }

  /** The intercity statement of the swap property: the outcome does not
      change kind, and a success hands over exactly the exchanged cities. */
  lemma IntercitySwapExchangesCities(f: Form)
    requires f.routeType == Intercity
    ensures Search(Swapped(f)).Success? <==> Search(f).Success?
    ensures Search(f).Success? ==>
              Search(Swapped(f)).value == Query(f.toCity, f.fromCity, f.date.value)
  {
    SwapReversesSearch(f);
  }

  // ---------------------------------------------------------------------------
  // The component's state and its handlers

  /** The six state hooks of the search form. */
  class SearchForm {
    var fromCity: string
    var fromLocation: string
    var toCity: string
    var toLocation: string
    var date: Option<TravelDate>
    var routeType: RouteType

    function Current(): Form
      reads this
    {
      Form(fromCity, fromLocation, toCity, toLocation, date, routeType)
    }

    constructor ()
      ensures Current() == InitialForm
    {
      fromCity, fromLocation, toCity, toLocation := "", "", "", "";
      date := None;
      routeType := Intercity;
    }

    /** The search button: builds the two endpoint strings in locals and
        either stops at a refusal or yields the callback's arguments. */
    method HandleSearch() returns (r: Result<Query, SearchError>)
      ensures r == Search(Current())
    {
      if date.None? {
        return Failure(DateRequired);
      }
      var fromValue := "";
      var toValue := "";
      if routeType == Intercity {
        if fromCity == "" || toCity == "" {
          return Failure(CitiesRequired);
        }
        if fromCity == toCity {
          return Failure(InvalidRoute(Intercity));
        }
        fromValue := fromCity;
        toValue := toCity;
      } else {
        if fromLocation == "" || toLocation == "" || fromCity == "" {
          return Failure(LocationsRequired);
        }
        if fromLocation == toLocation {
          return Failure(InvalidRoute(Local));
        }
        fromValue := fromLocation + ", " + fromCity;
        toValue := toLocation + ", " + fromCity;
      }
      r := Success(Query(fromValue, toValue, date.value));
    }

    /** The swap button, through a temporary as in the component. */
    method SwapLocations()
      modifies this
      ensures Current() == Swapped(old(Current()))
      ensures routeType == Intercity ==>
                fromCity == old(toCity) && toCity == old(fromCity)
                && fromLocation == old(fromLocation) && toLocation == old(toLocation)
      ensures routeType == Local ==>
                fromLocation == old(toLocation) && toLocation == old(fromLocation)
                && fromCity == old(fromCity) && toCity == old(toCity)
      ensures date == old(date) && routeType == old(routeType)
    {
      if routeType == Intercity {
        var tempCity := fromCity;
        fromCity := toCity;
        toCity := tempCity;
      } else {
        var tempLocation := fromLocation;
        fromLocation := toLocation;
        toLocation := tempLocation;
      }
    }

    /** The "Intercity" and "Local Routes" buttons. */
    method SetRouteType(t: RouteType)
      modifies this
      ensures Current() == old(Current()).(routeType := t)
    {
      routeType := t;
    }

    /** The departure-city picker: on the local tab it also clears the
        departure location; on the intercity tab it sets the city only. */
    method SelectFromCity(city: string)
      modifies this
      ensures routeType == Local ==> Current() == old(Current()).(fromCity := city, fromLocation := "")
      ensures routeType == Intercity ==> Current() == old(Current()).(fromCity := city)
    {
      fromCity := city;
      if routeType == Local {
        fromLocation := "";
      }
    }

    /** The destination-city picker, symmetric to SelectFromCity. */
    method SelectToCity(city: string)
      modifies this
      ensures routeType == Local ==> Current() == old(Current()).(toCity := city, toLocation := "")
      ensures routeType == Intercity ==> Current() == old(Current()).(toCity := city)
    {
      toCity := city;
      if routeType == Local {
        toLocation := "";
      }
    }

    /** The departure-location picker of the local tab. */
    method SelectFromLocation(location: string)
      modifies this
      ensures Current() == old(Current()).(fromLocation := location)
    {
      fromLocation := location;
    }

    /** The destination-location picker of the local tab. */
    method SelectToLocation(location: string)
      modifies this
      ensures Current() == old(Current()).(toLocation := location)
    {
      toLocation := location;
    }

    /** The calendar; picking the selected day again deselects it (None). */
    method SelectDate(d: Option<TravelDate>)
      modifies this
      ensures Current() == old(Current()).(date := d)
    {
      date := d;
    }
  }
}
