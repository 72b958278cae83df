/** The admin dashboard's in-memory inventory: a list of buses and a list of
    routes, changed only by validated appends and by deleting buses by id,
    with the two entry forms that feed the appends. */
module AdminDashboard {
  import opened Outcomes

  datatype Driver = Driver(name: string, phone: string)

  /** A bus in the fleet. `price` and `totalSeats` hold what `parseInt` made
      of the form's text: None where it gave NaN. */
  datatype Bus = Bus(
    id: string,
    operator: string,
    busNumber: string,
    route: string,
    departureTime: string,
    arrivalTime: string,
    price: Option<int>,
    totalSeats: Option<int>,
    busType: string,
    driver: Driver)

  datatype Route = Route(
    id: string,
    from: string,
    to: string,
    distance: string,
    estimatedTime: string,
    isActive: bool)

  /** The inputs of the "Add New Bus" form. */
  datatype BusField =
    | Operator | BusNumber | RouteName | DepartureTime | ArrivalTime
    | Price | TotalSeats | BusType | DriverName | DriverPhone

  /** The text typed into the "Add New Bus" form, one string per input. */
  datatype BusForm = BusForm(
    operator: string,
    busNumber: string,
    route: string,
    departureTime: string,
    arrivalTime: string,
    price: string,
    totalSeats: string,
    busType: string,
    driverName: string,
    driverPhone: string)
  {
    function Get(field: BusField): string {
      match field
      case Operator => operator
      case BusNumber => busNumber
      case RouteName => route
      case DepartureTime => departureTime
      case ArrivalTime => arrivalTime
      case Price => price
      case TotalSeats => totalSeats
      case BusType => busType
      case DriverName => driverName
      case DriverPhone => driverPhone
    }

    /** An input's change handler: `{...busForm, field: value}`. */
    function With(field: BusField, value: string): (r: BusForm)
      ensures r.Get(field) == value
      ensures forall g :: g != field ==> r.Get(g) == Get(g)
    {
      match field
      case Operator => this.(operator := value)
      case BusNumber => this.(busNumber := value)
      case RouteName => this.(route := value)
      case DepartureTime => this.(departureTime := value)
      case ArrivalTime => this.(arrivalTime := value)
      case Price => this.(price := value)
      case TotalSeats => this.(totalSeats := value)
      case BusType => this.(busType := value)
      case DriverName => this.(driverName := value)
      case DriverPhone => this.(driverPhone := value)
    }
  }

  /** The inputs of the "Add New Route" form. */
  datatype RouteField = From | To | Distance | EstimatedTime

  datatype RouteForm = RouteForm(from: string, to: string, distance: string, estimatedTime: string)
  {
    function Get(field: RouteField): string {
      match field
      case From => from
      case To => to
      case Distance => distance
      case EstimatedTime => estimatedTime
    }

    /** An input's change handler: `{...routeForm, field: value}`. */
    function With(field: RouteField, value: string): (r: RouteForm)
      ensures r.Get(field) == value
      ensures forall g :: g != field ==> r.Get(g) == Get(g)
    {
      match field
      case From => this.(from := value)
      case To => this.(to := value)
      case Distance => this.(distance := value)
      case EstimatedTime => this.(estimatedTime := value)
    }
  }

  const EmptyBusForm := BusForm("", "", "", "", "", "", "", "", "", "")
  const EmptyRouteForm := RouteForm("", "", "", "")

  /** The one bus the dashboard starts with. */
  const InitialBus := Bus("1", "Shree Travels", "MP-09-1234", "Indore to Bhopal", "06:00", "10:30",
                          Some(450), Some(40), "AC Sleeper",
                          Driver("\U{930}\U{93E}\U{92E} \U{915}\U{941}\U{92E}\U{93E}\U{930}", "+91 98765 43210"))

  /** The one route the dashboard starts with. */
  const InitialRoute := Route("1", "Indore", "Bhopal", "190 km", "4h 30m", true)

  /** The inputs the "Add Bus" button insists on. */
  const RequiredBusFields: set<BusField> := {Operator, BusNumber, RouteName}

  /** The inputs the "Add Route" button insists on. */
  const RequiredRouteFields: set<RouteField> := {From, To}

  /** The guard of "Add Bus": the operator, the number and the route are filled in. */
  predicate BusFormComplete(f: BusForm): (ok: bool)
    ensures ok <==> forall g :: g in RequiredBusFields ==> f.Get(g) != ""
  {
    f.operator != "" && f.busNumber != "" && f.route != ""
  }

  /** The guard of "Add Route": both endpoints are filled in. */
  predicate RouteFormComplete(f: RouteForm): (ok: bool)
    ensures ok <==> forall g :: g in RequiredRouteFields ==> f.Get(g) != ""
  {
    f.from != "" && f.to != ""
  }

  /** The bus built from the form, the timestamp id and the parsed numbers:
      every text input is copied verbatim into the field of the same name. */
  function NewBus(f: BusForm, id: string, price: Option<int>, totalSeats: Option<int>): (b: Bus)
    ensures b.id == id && b.price == price && b.totalSeats == totalSeats
    ensures b.operator == f.Get(Operator) && b.busNumber == f.Get(BusNumber) && b.route == f.Get(RouteName)
    ensures b.departureTime == f.Get(DepartureTime) && b.arrivalTime == f.Get(ArrivalTime)
    ensures b.busType == f.Get(BusType)
    ensures b.driver.name == f.Get(DriverName) && b.driver.phone == f.Get(DriverPhone)
  {
    Bus(id, f.operator, f.busNumber, f.route, f.departureTime, f.arrivalTime,
        price, totalSeats, f.busType, Driver(f.driverName, f.driverPhone))
  }

  /** The route built from the form and the timestamp id: always active, and
      every input copied verbatim into the field of the same name. */
  function NewRoute(f: RouteForm, id: string): (r: Route)
    ensures r.isActive && r.id == id
    ensures r.from == f.Get(From) && r.to == f.Get(To)
    ensures r.distance == f.Get(Distance) && r.estimatedTime == f.Get(EstimatedTime)
  {
    Route(id, f.from, f.to, f.distance, f.estimatedTime, true)
  }

  const MissingBusInformation :=
    Toast(Destructive, "Missing Information", "Please fill in all required fields")
  const MissingRouteInformation :=
    Toast(Destructive, "Missing Information", "Please fill in from and to locations")
  const BusDeleted :=
    Toast(Plain, "Bus Deleted", "Bus has been removed from the system")

  function BusAdded(b: Bus): Toast {
    Toast(Plain, "Bus Added Successfully!", b.operator + " bus has been added to the system")
  }

  function RouteAdded(r: Route): Toast {
    Toast(Plain, "Route Added Successfully!", "Route from " + r.from + " to " + r.to + " has been created")
  }

  // ---------------------------------------------------------------------------
  // Deleting by id: `buses.filter(bus => bus.id !== id)`

  predicate HasId(buses: seq<Bus>, id: string) {
    exists i :: 0 <= i < |buses| && buses[i].id == id
  }

  /** The buses whose id differs from `id`, in their original order. */
  function WithoutId(buses: seq<Bus>, id: string): (r: seq<Bus>)
    ensures |r| <= |buses|
    ensures forall i :: 0 <= i < |r| ==> r[i].id != id && r[i] in buses
    ensures !HasId(buses, id) ==> r == buses
    ensures HasId(buses, id) ==> |r| < |buses|
  {
    if buses == [] then []
    else if buses[0].id == id then WithoutId(buses[1..], id)
    else
      assert HasId(buses[1..], id) ==> HasId(buses, id) by {
        if HasId(buses[1..], id) {
          var i :| 0 <= i < |buses[1..]| && buses[1..][i].id == id;
          assert buses[i + 1].id == id;
        }
      }
      [buses[0]] + WithoutId(buses[1..], id)
  }

  /** Filtering a concatenation filters each part in place: the survivors
      keep their relative order. */
  lemma {:induction false} WithoutIdAppend(a: seq<Bus>, b: seq<Bus>, id: string)
    ensures WithoutId(a + b, id) == WithoutId(a, id) + WithoutId(b, id)
  {
    if a == [] {
      assert a + b == b;
    } else {
      assert (a + b)[1..] == a[1..] + b;
      WithoutIdAppend(a[1..], b, id);
    }
  }

  /** Every bus with the id is gone, and every other bus keeps its multiplicity. */
  lemma {:induction false} WithoutIdCounts(buses: seq<Bus>, id: string, b: Bus)
    ensures multiset(WithoutId(buses, id))[b] == if b.id == id then 0 else multiset(buses)[b]
  {
    if buses != [] {
      var head, tail := buses[0], buses[1..];
      WithoutIdCounts(tail, id, b);
      assert buses == [head] + tail;
      assert multiset(buses) == multiset{head} + multiset(tail);
      if head.id != id {
        assert WithoutId(buses, id) == [head] + WithoutId(tail, id);
        assert multiset(WithoutId(buses, id)) == multiset{head} + multiset(WithoutId(tail, id));
      } else {
        assert WithoutId(buses, id) == WithoutId(tail, id);
        assert head != b || b.id == id;
      }
    }
  }

  /** Deleting the same id twice is deleting it once. */
  lemma WithoutIdIdempotent(buses: seq<Bus>, id: string)
    ensures WithoutId(WithoutId(buses, id), id) == WithoutId(buses, id)
  {
  }

  // ---------------------------------------------------------------------------
  // Counting active routes: `routes.filter(r => r.isActive).length`

  predicate AllActive(routes: seq<Route>) {
    forall i :: 0 <= i < |routes| ==> routes[i].isActive
  }

  function CountActive(routes: seq<Route>): (n: nat)
    ensures n <= |routes|
  {
    if routes == [] then 0
    else CountActive(routes[1..]) + (if routes[0].isActive then 1 else 0)
  }

  /** When every route is active, the "Active Routes" figure is the list's length. */
  lemma {:induction false} AllActiveCount(routes: seq<Route>)
    requires AllActive(routes)
    ensures CountActive(routes) == |routes|
  {
    if routes != [] {
      AllActiveCount(routes[1..]);
    }
  }

  // ---------------------------------------------------------------------------
  // The component's state and its handlers

  class Dashboard {
    var buses: seq<Bus>
    var routes: seq<Route>
    var busForm: BusForm
    var routeForm: RouteForm

    /** Nothing ever deactivates a route. */
    ghost predicate Valid()
      reads this
    {
      AllActive(routes)
    }

    constructor ()
      ensures Valid()
      ensures buses == [InitialBus] && routes == [InitialRoute]
      ensures busForm == EmptyBusForm && routeForm == EmptyRouteForm
    {
      buses := [InitialBus];
      routes := [InitialRoute];
      busForm := EmptyBusForm;
      routeForm := EmptyRouteForm;
    }

    /** The "Total Buses" figure of the analytics tab: one per listed bus,
        duplicates of an id included. */
    function TotalBuses(): (n: nat)
      reads this
      ensures n == |multiset(buses)|
    {
      |buses|
    }

    /** The "Active Routes" figure of the analytics tab: every route counts. */
    function ActiveRoutes(): (n: nat)
      reads this
      requires Valid()
      ensures n == |routes|
    {
      AllActiveCount(routes);
      CountActive(routes)
    }

    /** "Add Bus": refused without operator, number or route; otherwise one
        bus is appended and the form is emptied. */
    method HandleAddBus(id: string, price: Option<int>, totalSeats: Option<int>) returns (t: Toast)
      requires Valid()
      modifies this
      ensures Valid()
      ensures routes == old(routes) && routeForm == old(routeForm)
      ensures !BusFormComplete(old(busForm)) ==>
                buses == old(buses) && busForm == old(busForm) && t == MissingBusInformation
      ensures BusFormComplete(old(busForm)) ==>
                buses == old(buses) + [NewBus(old(busForm), id, price, totalSeats)]
                && TotalBuses() == old(TotalBuses()) + 1
                && busForm == EmptyBusForm
                && t == BusAdded(buses[|buses| - 1])
    {
      if busForm.operator == "" || busForm.busNumber == "" || busForm.route == "" {
        return MissingBusInformation;
      }
      var newBus := NewBus(busForm, id, price, totalSeats);
      buses := buses + [newBus];
      busForm := EmptyBusForm;
      t := BusAdded(newBus);
    }

    /** "Add Route": refused without both endpoints; otherwise one active
        route is appended and the form is emptied. */
    method HandleAddRoute(id: string) returns (t: Toast)
      requires Valid()
      modifies this
      ensures Valid()
      ensures buses == old(buses) && busForm == old(busForm)
      ensures !RouteFormComplete(old(routeForm)) ==>
                routes == old(routes) && routeForm == old(routeForm) && t == MissingRouteInformation
      ensures RouteFormComplete(old(routeForm)) ==>
                routes == old(routes) + [NewRoute(old(routeForm), id)]
                && routes[|routes| - 1].isActive
                && routeForm == EmptyRouteForm
                && t == RouteAdded(routes[|routes| - 1])
    {
      if routeForm.from == "" || routeForm.to == "" {
        return MissingRouteInformation;
      }
      var newRoute := NewRoute(routeForm, id);
      routes := routes + [newRoute];
      routeForm := EmptyRouteForm;
      t := RouteAdded(newRoute);
    }

    /** The trash button: every bus with the id goes, the rest keep their order. */
    method DeleteBus(id: string) returns (t: Toast)
      requires Valid()
      modifies this
      ensures Valid()
      ensures buses == WithoutId(old(buses), id)
      ensures TotalBuses() <= old(TotalBuses())
      ensures HasId(old(buses), id) <==> TotalBuses() < old(TotalBuses())
      ensures routes == old(routes) && busForm == old(busForm) && routeForm == old(routeForm)
      ensures t == BusDeleted
    {
      buses := WithoutId(buses, id);
      t := BusDeleted;
    }

    /** A change in one input of the bus form. */
    method EditBusForm(field: BusField, value: string)
      requires Valid()
      modifies this
      ensures Valid()
      ensures busForm == old(busForm).With(field, value)
      ensures buses == old(buses) && routes == old(routes) && routeForm == old(routeForm)
    {
      busForm := busForm.With(field, value);
    }

    /** A change in one input of the route form. */
    method EditRouteForm(field: RouteField, value: string)
      requires Valid()
      modifies this
      ensures Valid()
      ensures routeForm == old(routeForm).With(field, value)
      ensures buses == old(buses) && routes == old(routes) && busForm == old(busForm)
    {
      routeForm := routeForm.With(field, value);
    }
  }

  /** A successful "Add Bus" empties every input of the bus form. */
  lemma EmptyBusFormIsBlank()
    ensures forall g :: EmptyBusForm.Get(g) == ""
  {
  }

  /** A successful "Add Route" empties every input of the route form. */
  lemma EmptyRouteFormIsBlank()
    ensures forall g :: EmptyRouteForm.Get(g) == ""
  {
  }
}
