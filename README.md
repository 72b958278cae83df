# Bus route search demo: verified model of its form logic

The demo is a browser bus-booking front end with no backend. Three pieces of
it hold decisions that can be stated exactly, and this project models them in
Dafny:

- **Route search form** (`RouteSearch`, `route_search.dfy`). The six state hooks
  of the form are the class `SearchForm`. The search button's validation is the
  function `Search`. It checks in a fixed order: the date, then the cities
  (intercity tab) or the locations and departure city (local tab), then that
  the two endpoints differ. It either returns one of four errors or returns the
  `(from, to, date)` query handed to `onSearch`. The method `HandleSearch`
  mirrors the handler's reassigned locals and is proved equal to `Search`. The
  swap button and the pickers are methods on the class.
- **Admin inventory** (`AdminDashboard`, `admin_dashboard.dfy`). The class
  `Dashboard` holds the bus list, the route list and the two entry forms. Adds
  are validated appends that empty their form. Deleting a bus filters the list
  by id; that filter is the recursive function `WithoutId`. The class invariant
  `Valid` says every route is active, so the "Active Routes" figure equals the
  number of routes.
- **Auth page** (`AuthPage`, `auth_page.dfy`). `Authenticate` decides a login or
  signup submission. It refuses when a required field is empty. Otherwise it
  returns the welcome toast and the page to navigate to. The page's state hooks
  are the class `AuthForm`.

Toasts and navigation are returned values (`Outcomes.Toast`, `Result`), not
calls. The wall-clock id from `Date.now()` is a method parameter. So are the
numbers `parseInt` produces; they are `Option<int>`, where `None` stands for NaN.

Observations the lemmas make precise:
- On the local tab, both endpoints of the query are qualified with the
  *departure* city (`LocalDecision`). The destination city is never consulted
  (`LocalIgnoresToCity`). If the two pickers name different cities, the query
  still says both stops are in the departure city.
- The same-endpoint check on the local tab compares location names only. Two
  same-named stops in different cities (both Dewas and Ujjain list "Railway
  Station") are refused as "Invalid Route".
- Swapping exchanges the endpoints of the resulting query on both tabs, not only
  the intercity one (`SwapReversesSearch`). On the local tab both sides keep the
  departure city.

## Model

| member | source | states |
|---|---|---|
| RouteSearch.ErrorToast | src/components/RouteSearch.tsx:44-94 | every refusal is a destructive toast; the title is "Invalid Route" exactly for the two same-endpoint refusals |
| RouteSearch.Search | src/components/RouteSearch.tsx:42-101 | the search is refused with DateRequired exactly when no date is picked; a success carries the picked date and two non-empty endpoints (its full decision is stated by the lemmas below) |
| RouteSearch.Swapped | src/components/RouteSearch.tsx:103-113 | the swap keeps the date and the tab, only permutes the city pair and the location pair, and leaves the pair of the other tab untouched |
| RouteSearch.MissingDateRefused | src/components/RouteSearch.tsx:44-51 | with no date the search fails with DateRequired, whatever the mode or other fields |
| RouteSearch.IntercityDecision | src/components/RouteSearch.tsx:56-76 | intercity: CitiesRequired iff a city is empty; InvalidRoute iff both set and equal; success iff both set and distinct, with query exactly (fromCity, toCity, date) |
| RouteSearch.LocalDecision | src/components/RouteSearch.tsx:77-97 | local: LocationsRequired iff a location or fromCity is empty; InvalidRoute iff the locations are equal; success otherwise, with both sides suffixed ", fromCity" |
| RouteSearch.LocalIgnoresToCity | src/components/RouteSearch.tsx:78-97 | on the local tab the outcome does not depend on toCity |
| RouteSearch.PlaceInjective | src/components/RouteSearch.tsx:96-97 | two "location, city" strings with the same city are equal only if the locations are |
| RouteSearch.SuccessHasDistinctEndpoints | src/components/RouteSearch.tsx:66-100 | a successful query never has origin equal to destination, and carries the selected date |
| RouteSearch.SwappedTwice | src/components/RouteSearch.tsx:103-113 | swapping twice restores the form |
| RouteSearch.SwapReversesSearch | src/components/RouteSearch.tsx:42-113 | searching after a swap fails with the same error, or succeeds with from and to exchanged, in either mode |
| RouteSearch.IntercitySwapExchangesCities | src/components/RouteSearch.tsx:103-107 | intercity: the swap keeps success or failure, and a success yields (toCity, fromCity, date) |
| RouteSearch.SearchForm.constructor | src/components/RouteSearch.tsx:34-39 | the form starts with empty cities and locations, no date, intercity tab |
| RouteSearch.SearchForm.HandleSearch | src/components/RouteSearch.tsx:42-101 | the handler's early returns and local reassignments compute exactly Search of the current form |
| RouteSearch.SearchForm.SwapLocations | src/components/RouteSearch.tsx:103-113 | exchanges the cities on the intercity tab or the locations on the local tab; the other pair, the date and the tab are unchanged |
| RouteSearch.SearchForm.SetRouteType | src/components/RouteSearch.tsx:119-133 | changes only the tab |
| RouteSearch.SearchForm.SelectFromCity | src/components/RouteSearch.tsx:141-156 | sets fromCity; on the local tab also clears fromLocation; nothing else changes |
| RouteSearch.SearchForm.SelectToCity | src/components/RouteSearch.tsx:198-213 | sets toCity; on the local tab also clears toLocation; nothing else changes |
| RouteSearch.SearchForm.SelectFromLocation | src/components/RouteSearch.tsx:167-167 | changes only fromLocation |
| RouteSearch.SearchForm.SelectToLocation | src/components/RouteSearch.tsx:224-224 | changes only toLocation |
| RouteSearch.SearchForm.SelectDate | src/components/RouteSearch.tsx:256-262 | changes only the date, which may be cleared |
| AdminDashboard.BusForm.With | src/pages/AdminDashboard.tsx:265-359 | an input's handler sets its own field of the bus form and leaves the other nine unchanged |
| AdminDashboard.RouteForm.With | src/pages/AdminDashboard.tsx:448-477 | an input's handler sets its own field of the route form and leaves the other three unchanged |
| AdminDashboard.BusFormComplete | src/pages/AdminDashboard.tsx:103-103 | the add-bus guard holds exactly when every required input (operator, bus number, route) is non-empty |
| AdminDashboard.RouteFormComplete | src/pages/AdminDashboard.tsx:149-149 | the add-route guard holds exactly when both required inputs (from, to) are non-empty |
| AdminDashboard.NewBus | src/pages/AdminDashboard.tsx:112-126 | the new bus has the supplied id and parsed numbers, and every text input copied verbatim into the field of the same name |
| AdminDashboard.NewRoute | src/pages/AdminDashboard.tsx:158-165 | the new route is active, has the supplied id, and copies every input verbatim |
| AdminDashboard.WithoutId | src/pages/AdminDashboard.tsx:189-190 | no survivor has the id; every survivor was in the list; an absent id leaves the list unchanged; a present one shortens it |
| AdminDashboard.WithoutIdAppend | src/pages/AdminDashboard.tsx:190-190 | the filter distributes over concatenation, so survivors keep their relative order |
| AdminDashboard.WithoutIdCounts | src/pages/AdminDashboard.tsx:190-190 | every bus with the id is removed and every other bus keeps its multiplicity |
| AdminDashboard.WithoutIdIdempotent | src/pages/AdminDashboard.tsx:189-190 | deleting the same id twice equals deleting it once |
| AdminDashboard.CountActive | src/pages/AdminDashboard.tsx:550-550 | the active-route count never exceeds the number of routes |
| AdminDashboard.AllActiveCount | src/pages/AdminDashboard.tsx:550-550 | when every route is active, the active-route count is the number of routes |
| AdminDashboard.EmptyBusFormIsBlank | src/pages/AdminDashboard.tsx:129-140 | the bus form after a successful add has every field empty |
| AdminDashboard.EmptyRouteFormIsBlank | src/pages/AdminDashboard.tsx:168-173 | the route form after a successful add has every field empty |
| AdminDashboard.Dashboard.constructor | src/pages/AdminDashboard.tsx:56-100 | starts with the one fixture bus, the one active fixture route and empty forms |
| AdminDashboard.Dashboard.TotalBuses | src/pages/AdminDashboard.tsx:546-546 | the "Total Buses" figure is the length of the bus list; HandleAddBus and DeleteBus state how it moves |
| AdminDashboard.Dashboard.ActiveRoutes | src/pages/AdminDashboard.tsx:545-551 | under the invariant, "Active Routes" equals routes.length |
| AdminDashboard.Dashboard.HandleAddBus | src/pages/AdminDashboard.tsx:102-146 | an empty operator, number or route changes nothing; otherwise exactly one bus copied from the form with the given id is appended, earlier buses are kept, the form is emptied; routes untouched |
| AdminDashboard.Dashboard.HandleAddRoute | src/pages/AdminDashboard.tsx:148-179 | an empty from or to changes nothing; otherwise one active route is appended and the form emptied; every route stays active |
| AdminDashboard.Dashboard.DeleteBus | src/pages/AdminDashboard.tsx:189-195 | the bus list becomes WithoutId of the old one; the total never grows and shrinks exactly when the id was listed; routes and both forms are untouched |
| AdminDashboard.Dashboard.EditBusForm | src/pages/AdminDashboard.tsx:265-359 | changes one field of the bus form and nothing else |
| AdminDashboard.Dashboard.EditRouteForm | src/pages/AdminDashboard.tsx:448-477 | changes one field of the route form and nothing else |
| AuthPage.FormData.With | src/pages/AuthPage.tsx:24-29 | the change handler sets exactly the named field and leaves the other three unchanged |
| AuthPage.ErrorToast | src/pages/AuthPage.tsx:33-48 | both refusals show a destructive "Missing Information" toast |
| AuthPage.Authenticate | src/pages/AuthPage.tsx:31-64 | an accepted submission has email and password, shows a plain toast and lands on "/admin" or "/dashboard" (its full decision is stated by the lemmas below) |
| AuthPage.AcceptedExactly | src/pages/AuthPage.tsx:31-49 | a submission is accepted iff email and password are non-empty and, for signup, name and phone are too |
| AuthPage.MissingCredentialsRefused | src/pages/AuthPage.tsx:33-40 | empty email or password fails with MissingInformation for both actions and roles |
| AuthPage.LoginIgnoresProfile | src/pages/AuthPage.tsx:42-49 | login's outcome does not depend on name or phone |
| AuthPage.RoleDoesNotDecide | src/pages/AuthPage.tsx:31-63 | acceptance does not depend on the role |
| AuthPage.DestinationByRole | src/pages/AuthPage.tsx:59-63 | on success the destination is "/admin" iff the role is admin, "/dashboard" iff user |
| AuthPage.WelcomeMessage | src/pages/AuthPage.tsx:52-56 | the success title names the action and the description names the role |
| AuthPage.AuthForm.constructor | src/pages/AuthPage.tsx:12-19 | starts on the login tab, as a user, with an empty form |
| AuthPage.AuthForm.HandleInputChange | src/pages/AuthPage.tsx:24-29 | only the named field of the form data changes |
| AuthPage.AuthForm.SelectUserType | src/pages/AuthPage.tsx:97-110 | changes only the role |
| AuthPage.AuthForm.SelectTab | src/pages/AuthPage.tsx:80-80 | changes only the tab; the form data is shared by both tabs |
| AuthPage.AuthForm.HandleAuth | src/pages/AuthPage.tsx:31-64 | the open tab's submit button computes exactly Authenticate of the current form data, the active tab as the action, and the toggled role |

## Left out

- Rendering, widgets, icons and styling: they contain no decision.
- The `toast` and `navigate` calls: they are returned as values, not performed.
- `Date.now()` ids: they are wall-clock values and are taken as parameters. Their uniqueness is not claimed, because two adds in the same millisecond collide.
- `parseInt` of price and seat count: its results are parameters (`None` for NaN). JavaScript number semantics are not modelled.
- The city and location option lists of the search form (`src/components/RouteSearch.tsx:13-19`): they only fill the pickers. `Search` and the picker methods accept any strings.
- The location pickers appear only on the local tab and only once that side's city is picked (`src/components/RouteSearch.tsx:166`, `223`). `SearchForm.SelectFromLocation` and `SearchForm.SelectToLocation` do not require either condition.
- The intercity route list `INTERCITY_ROUTES` (`src/components/RouteSearch.tsx:21-27`) is declared and never used, so there is nothing to model.
- The "Add New Bus" route picker (`src/pages/AdminDashboard.tsx:279-290`) offers only "from to to" for each listed route. The bus-type picker (`src/pages/AdminDashboard.tsx:294-304`) offers four fixed values. `Dashboard.EditBusForm` accepts any string for the route and bus-type fields, so the model admits values the pickers cannot produce.
- Disabling past days in the calendar, and date formatting: they depend on the clock and the locale. A date is an opaque `TravelDate`.
- The mock search orchestration in `src/pages/Index.tsx` and `src/pages/UserDashboard.tsx`: it is a timer plus a random draw, and both branches pass an empty list.
- `src/components/BusResults.tsx`, `src/components/Hero.tsx` and the static dashboard fixtures: they are pure rendering or static content.
- The admin logout handler (`src/pages/AdminDashboard.tsx:181-187`): it only shows a "Logged Out" toast and navigates to "/auth".
- The navigation-only buttons "View as User" (`src/pages/AdminDashboard.tsx:212-220`) and "Demo User" / "Demo Admin" (`src/pages/AuthPage.tsx:242-257`): they show no toast and navigate to a fixed page. "Demo Admin" reaches "/admin" without any validation, so `Authenticate` is not the only way onto the admin dashboard.
- The admin bus list's edit button: it is wired to no action.
