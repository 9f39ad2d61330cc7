# A verified model of the ride-hailing web client

This project models, in Dafny, the client-side logic of a Next.js web client for a ride-hailing backend.
Passengers search and book trips, drivers follow their rides, and partners and administrators manage vehicles, vehicle types, users and drivers.
The backend enforces the real state transitions. What the client decides for itself is modelled here:

- the status enums and record shapes (`Interfaces`);
- the selection list with its toggle, remove, filter and reset rules (`MultiSelect`, a class over a sequence of options);
- the pagination arithmetic shared by every page: Previous/Next guards, the page count, the visible window and the driver dashboard's index range (`Pagination`);
- the booking page: search guard and query, fare, order confirmation and clamped paging (`RidePage`);
- the driver dashboard's seat and revenue arithmetic, and the driver's ride cards (`DriverDashboard`, `DriverCourses`);
- the order list, where a validation or a cancellation changes only the matching order (`CommandesPage`);
- the side menu filtered by role, role labels and user initials (`Sidebar`);
- the settings page's field edits, password-change checks and image-upload checks (`SettingsPage`);
- the sign-up schema with its password and phone rules, image slots and payload (`SignupForm`, `SignupPage`);
- the vehicle, vehicle-type, trip and wallet-recharge forms (`FormVehicle`, `FormVehicleType`, `FormTrajet`, `RechargeWallet`):
  - their validators;
  - their normalisers;
  - their FormData payloads, with FormData as a class over a sequence of entries (`FormDataModel`);
  - the trip form's chain of route legs, with distance and arrival times from a distance service given as a parameter;
- the table cell renders and the status switch (`TableColumns`);
- the management pages for trips, vehicles, vehicle types, users, drivers and driver assignment, each a class with its drawer, edit value, submission branch and paging (`TrajetsPage`, `VehiculesPage`, `VehicleTypesPage`, `UtilisateursPage`, `DriversListe`, `AssignDriver`, `UsersTable`);
- the viewer of the trip stored in the browser (`RapRead`).

JavaScript semantics are written out where they matter:

- `||` treats `0` and `""` as missing, unlike `??`;
- `null`/`undefined` is an `Option` where the code treats them alike, and a three-valued `JsString` (absent, null, or a string) where they differ: in `new Date(...)` and inside a template literal;
- an absent value inside a template literal reads "undefined", and a null one "null";
- `Array(n - len)` with `len > n` throws, which is modelled as `None`;
- an invalid date is its own value;
- `toLowerCase` and `toUpperCase` map the Latin letters (A to Z, Latin-1 and Latin Extended-A), with their one-to-two expansions (ß to "SS", ŉ to an apostrophe and "N", the dotted capital I to "i" and a combining dot);
- `length`, a schema's `min` and a regular expression's `.` count UTF-16 code units, so a character above U+FFFF counts twice.

Money (Fcfa), seats, coordinates and distances are unbounded integers.

The services, the clock, `JSON.parse`, date parsing, the e-mail check of the schema library and the distance service are all parameters.
Each page's HTTP answer enters as a status code (and, where the page reads it, a thrown error).

## Model

| member | source | states |
|---|---|---|
| Text.NatToString | components/forms/FormTrajet.tsx:29 | the decimal text of a non-negative number: digits only, at least one, no leading zero |
| Text.ParseNatToString | components/forms/FormTrajet.tsx:29 | reading back the decimal text of a number gives the number |
| Text.NatToStringLength | components/forms/FormTrajet.tsx:29 | one digit below 10, two below 100, four for years 1000 to 9999 |
| Text.IntToString | components/forms/FormVehicle.tsx:147 | a negative number is a minus sign before the text of its magnitude |
| Text.PadStart2 | components/forms/FormTrajet.tsx:29 | a text shorter than two characters gets leading zeros up to two; a longer one is unchanged |
| Text.Pad2 | components/forms/FormTrajet.tsx:29 | a date component is at least two digits, exactly two below 100 |
| Text.ParsePad2 | components/forms/FormTrajet.tsx:29 | padding with zeros does not change the value read back |
| Text.ToLower | components/Select/MultiSelect.tsx:33 | `toLowerCase` on the Latin letters: without a dotted capital I every character is lowered in place by LowerChar, and a dotted capital I becomes two characters; the result is never shorter and at most twice as long |
| Text.ToUpper | components/dashboard/Sidebar.tsx:115 | `toUpperCase` on the Latin letters: without ß or ŉ every character is raised in place by UpperChar, and ß becomes "SS"; the result is never shorter and at most twice as long |
| Text.Take | components/dashboard/Sidebar.tsx:116 | the first n characters, or the whole text when it is shorter |
| Text.IncludesAt | components/Select/MultiSelect.tsx:33 | includes holds exactly when the needle occurs at some position |
| Text.IncludesEmpty | components/Select/MultiSelect.tsx:33 | every text includes the empty text |
| Text.Split | components/dashboard/Sidebar.tsx:112 | splitting always gives at least one piece |
| Text.SplitPiecesAvoidSeparator | components/dashboard/Sidebar.tsx:112 | no piece contains the separator |
| Text.JoinSplit | components/dashboard/Sidebar.tsx:112-114 | joining the pieces with the separator gives back the text |
| Text.SplitNoSeparator | components/dashboard/Sidebar.tsx:112 | a text without the separator splits into itself alone |
| Text.SplitAfterWord | components/dashboard/Sidebar.tsx:112 | a leading word without the separator is the first piece, and the rest splits on its own |
| Text.JoinAppend | components/table/columns/tableColumns.tsx:116 | joining two non-empty lists puts one separator between their joins, keeping the order |
| Text.LowerChar | components/Select/MultiSelect.tsx:33 | A to Z and the Latin-1 and Latin Extended-A capitals are lowered to their small letters; every changed character is raised back by UpperChar, and characters outside U+0041..U+017F are kept |
| Text.UpperChar | components/dashboard/Sidebar.tsx:115 | a to z and the Latin-1 and Latin Extended-A small letters are raised to their capitals (µ to Greek capital mu, dotless ı to I, long s to S); a letter raised from a capital is lowered back to it |
| Text.LowerText | components/Select/MultiSelect.tsx:33 | one character lowered: the dotted capital I gives "i" and a combining dot, every other character its LowerChar |
| Text.UpperText | components/dashboard/Sidebar.tsx:115 | one character raised: ß gives "SS", ŉ gives an apostrophe and "N", every other character its UpperChar |
| Text.ToLowerAppend | components/Select/MultiSelect.tsx:33 | lower-casing distributes over concatenation |
| Text.ToUpperAppend | components/dashboard/Sidebar.tsx:115 | upper-casing distributes over concatenation |
| Text.ToLowerIdempotent | components/Select/MultiSelect.tsx:33 | lower-casing a lower-cased text changes nothing, so the filter can be lowered once |
| Text.AccentedLetters | components/Select/MultiSelect.tsx:33 | É, À and Ç lower to é, à and ç; é, è and ç raise to É, È and Ç; ß raises to "SS" |
| Text.Utf16Length | components/home/Signup.tsx:17 | `length` counts UTF-16 units: never fewer than the characters, at most twice as many, and exactly as many when no character lies above U+FFFF |
| Text.Utf16LengthAppend | components/home/Signup.tsx:17 | code-unit lengths add up over concatenation |
| Text.Includes | components/Select/MultiSelect.tsx:33 | `includes`: the needle starts the text or is included in its tail |
| Text.Join | components/table/columns/tableColumns.tsx:116 | `join`: the pieces with the separator between consecutive ones |
| Interfaces.ParseRole | types/interfaces.tsx:3-8 | a string parses to the Role whose value it is, and to nothing exactly when no Role has that value |
| Interfaces.ParseRoleName | types/interfaces.tsx:3-8 | every Role value parses back to its own member, and no two members share a value |
| Interfaces.RoleValues | types/interfaces.tsx:3-8 | Role has exactly the four values ADMIN, PARTENAIRE, DRIVER, USER, pairwise distinct |
| Interfaces.RoleFromStorage | app/dashboard/commandes/page.tsx:29-32 | a stored role replaces the default only when it is present and one of the Role values; otherwise the default stays |
| Interfaces.ParseCommandeStatus | types/interfaces.tsx:31-37 | a string parses to the CommandeStatus whose value it is, and to nothing exactly when no member has that value |
| Interfaces.TrajetStatusValues | types/interfaces.tsx:10-16 | TrajetStatus has exactly five members with pairwise distinct values |
| Interfaces.CommandeStatusValues | types/interfaces.tsx:31-37 | CommandeStatus has exactly five members with pairwise distinct values |
| Interfaces.UserStatusValues | types/interfaces.tsx:19-23 | UserStatus has exactly the three values INACTIVE, ACTIVE, BLOCKED, pairwise distinct |
| Interfaces.SameStatusValues | types/interfaces.tsx:10-37 | every trip status value is an order status value and conversely |
| Interfaces.VehicleStatusOptionsComplete | types/interfaces.tsx:39-43 | the option list names each VehicleStatus exactly once, in declaration order |
| MultiSelect.RemoveId | components/Select/MultiSelect.tsx:40 | filtering by id keeps exactly the items with another id, and no item with that id is left |
| MultiSelect.RemoveIdAppend | components/Select/MultiSelect.tsx:40 | the filter distributes over concatenation, so the kept items stay in their order |
| MultiSelect.RemoveAbsentId | components/Select/MultiSelect.tsx:57 | removing an id no item has leaves the selection unchanged |
| MultiSelect.Toggled | components/Select/MultiSelect.tsx:38-52 | single mode gives exactly [option]; in multiple mode a present id is removed everywhere, an absent option is appended after the unchanged selection |
| MultiSelect.ToggleTwiceRestores | components/Select/MultiSelect.tsx:39-46 | in multiple mode, toggling the same absent option twice restores the selection |
| MultiSelect.ToggleRemoveKeepsOrder | components/Select/MultiSelect.tsx:39-42 | toggling a present option off keeps the other items in their order |
| MultiSelect.InitialSelection | components/Select/MultiSelect.tsx:31 | empty in multiple mode; [selected] in single mode when a selection is given; empty otherwise |
| MultiSelect.FilteredData | components/Select/MultiSelect.tsx:33 | the listed options are exactly the data options whose lower-cased label contains the lower-cased filter, with lower-casing as ToLower states it |
| MultiSelect.FilteredDataAppend | components/Select/MultiSelect.tsx:33 | the filter distributes over concatenation, so listed options keep the data order |
| MultiSelect.EmptyFilterKeepsAll | components/Select/MultiSelect.tsx:33 | an empty filter lists every option |
| MultiSelect.Select.constructor | components/Select/MultiSelect.tsx:20-31 | the component starts closed, with an empty filter and the initial selection, which holds at most one option in single mode |
| MultiSelect.Select.ClickHeader | components/Select/MultiSelect.tsx:74 | a click on the header opens a closed dropdown and closes an open one; a disabled header ignores it |
| MultiSelect.Select.Visible | components/Select/MultiSelect.tsx:33 | the open dropdown lists exactly the options matching the current filter |
| MultiSelect.Select.SetFilter | components/Select/MultiSelect.tsx:99 | typing changes only the filter |
| MultiSelect.Select.Toggle | components/Select/MultiSelect.tsx:35-53 | a disabled list changes nothing and emits nothing; otherwise the selection becomes the toggled one, multiple mode emits the new list, single mode emits the option and closes; single mode never holds or emits more than one option |
| MultiSelect.Select.RemoveItem | components/Select/MultiSelect.tsx:55-60 | a disabled list changes nothing; otherwise every item with that id is dropped and the new list is emitted, at most one option long in single mode |
| MultiSelect.Select.Reset | components/Select/MultiSelect.tsx:62-64 | a truthy reset signal empties the selection; nothing else changes |
| MultiSelect.Select.Sync | components/Select/MultiSelect.tsx:66-70 | a present selected prop replaces the selection (as a list, or as a one-item list in single mode) |
| MultiSelect.Matches | components/Select/MultiSelect.tsx:33 | an option matches when its lower-cased label includes the lower-cased filter (the predicate FilteredData keeps) |
| MultiSelect.SingleModeEmission | components/Select/MultiSelect.tsx:46-52 | what a single-mode list hands to `onChange` is one option or a list of at most one |
| Pagination.TotalPages | components/modelPagination.tsx:20 | the page count is the ceiling of total / limit: the fewest pages of `limit` rows holding every row, 0 exactly when there is no row |
| Pagination.MulMonotone | app/dashboard/commandes/page.tsx:130 | the guard product `currentPage * limit` grows with the page |
| Pagination.NextGuardIsPageBound | app/dashboard/commandes/page.tsx:130 | the list guard `currentPage * limit < totalItems` holds exactly when a later page exists |
| Pagination.EmptyListHasNoNext | components/modelPagination.tsx:20-44 | with no rows the page count is 0 and Next is disabled on every page |
| Pagination.Caption | components/modelPagination.tsx:25 | the caption is "Page ", the decimal text of currentPage, " sur " and the decimal text of the page count; a non-negative page number reads back from its slot as itself |
| Pagination.NextPage | app/dashboard/commandes/page.tsx:129-131 | Next moves one page forward exactly when a later page exists, and otherwise stays; it keeps a page inside the page range |
| Pagination.PreviousPage | app/dashboard/commandes/page.tsx:133-135 | Previous moves one page back above page 1 and never goes below 1 |
| Pagination.GuardsMatchButtons | components/modelPagination.tsx:33-44 | the handlers move exactly when the bar's Previous and Next buttons are enabled |
| Pagination.SliceIndex | app/dashboard/vehicleTypes/page.tsx:119 | a slice bound is clamped to the list, a negative one counting from the end |
| Pagination.Slice | app/dashboard/vehicleTypes/page.tsx:119 | `slice(start, end)` is the clamped sub-range, empty when the bounds cross |
| Pagination.Window | app/dashboard/vehicleTypes/page.tsx:119 | page p shows at most `limit` rows: the rows from index (p-1)·limit up to p·limit, in order |
| Pagination.WindowOfIndex | app/dashboard/vehicleTypes/page.tsx:119 | row i of a list is shown at position i % limit of page i / limit + 1 |
| Pagination.WindowEmptyPastLastPage | components/modelPagination.tsx:20 | a page shows no row exactly when it lies past the last page |
| Pagination.ServerPage | app/services/vehicleServices.ts:68-70 | the page of a list endpoint holds at most its page size of rows |
| Pagination.SlicedServerPageEmptyAfterFirst | app/dashboard/vehicules/page.tsx:189 | slicing an already paged answer again with the same page size leaves pages 2 and later empty |
| Pagination.SlicedServerPageSkipsRows | app/dashboard/trajets/page.tsx:169 | with a server page of 10 sliced by 5, on the ids 0 to 19 page 1 shows ids 0 to 4, page 2 ids 15 to 19 and every later page nothing, so ids 5 to 14 are never shown |
| Pagination.ServerPageCoversAll | app/services/vehicleServices.ts:68-70 | when the table shows the server's page as it comes, every row i is shown, at position i % limit of page i / limit + 1 |
| Pagination.IndexRangeIsWindow | app/dashboard/driver/page.tsx:114-116 | on an existing page, startIndex..endIndex (from 1) count exactly the rows of that page, and the first shown row is row startIndex |
| Pagination.LocalBarsAgree | app/dashboard/driver/page.tsx:307-337 | within the page range, the hand-written bars' equality tests agree with the shared bar's inequality tests |
| Pagination.PreviousDisabled | components/modelPagination.tsx:33 | the shared bar disables Previous at page 1 and below |
| Pagination.NextDisabled | components/modelPagination.tsx:44 | the shared bar disables Next from the last page on |
| Pagination.StartIndex | app/dashboard/driver/page.tsx:115 | the first shown row, counted from 1: (currentPage - 1) · limit + 1 |
| Pagination.EndIndex | app/dashboard/driver/page.tsx:116 | the last shown row: currentPage · limit, capped at the row count |
| Pagination.ControlsShown | app/dashboard/driver/page.tsx:307 | the hand-written bars show only with more than one page |
| Pagination.PreviousDisabledAtFirst | app/dashboard/driver/page.tsx:316 | the hand-written Previous is disabled exactly at page 1 |
| Pagination.NextDisabledAtLast | app/dashboard/driver/page.tsx:337 | the hand-written Next is disabled exactly on the last page |
| Pagination.SlicedServerPage | app/dashboard/vehicules/page.tsx:189 | what the server-paged lists show: the server's page for the current page, sliced again as if it were the whole list |
| RidePage.BuildQuery | app/ride/page.tsx:174-191 | a query exists exactly when departure and destination are both non-empty; it carries departure coordinates exactly when the user location is known and destination coordinates exactly when the destination location is known |
| RidePage.TypePrice | app/ride/page.tsx:233-234 | the price of the first vehicle type with that id, 0 when no type has it |
| RidePage.FarePerPlace | app/ride/page.tsx:235 | each extra place adds one trip-plus-type price to the fare, and one place costs exactly that price |
| RidePage.UnknownTypeFare | app/ride/page.tsx:233-235 | with no type of that id the fare is the trip price times the places |
| RidePage.OrderFor | app/ride/page.tsx:247-254 | the order's price is the fare, its status PENDING, its user and trip the given ones, and its type "standard" when no type has the chosen id |
| RidePage.RidePrevious | app/ride/page.tsx:438 | Précédent never goes below page 1 and goes back one page above it |
| RidePage.RideNext | app/ride/page.tsx:439 | Suivant never passes the page count, advances one page below it, and yields page 0 when there is no row |
| RidePage.RideNextInRange | app/ride/page.tsx:439 | inside the page range Suivant stays in range and stays put exactly on the last page |
| RidePage.Page.constructor | app/ride/page.tsx:39-63 | empty inputs, type "standard", no selection, one place, fare 0, page 1 of nothing |
| RidePage.Page.SetInputs | app/ride/page.tsx:352-353 | the typed inputs and the resolved locations are stored |
| RidePage.Page.Loaded | app/ride/page.tsx:215-224 | the loaded vehicle types and the user id are stored |
| RidePage.Page.RecomputeFare | app/ride/page.tsx:231-237 | with a selected trip the fare becomes the fare formula on it; without one the fare stays |
| RidePage.Page.Search | app/ride/page.tsx:174-204 | the query sent is BuildQuery's; an answer with data replaces the rows (missing rows read as none) and the total; otherwise they stay |
| RidePage.Page.SelectTrip | app/ride/page.tsx:207-213 | the selection becomes the trip; a trip with departure coordinates moves the driver marker there, otherwise the marker stays; the fare follows the selection |
| RidePage.Page.SetPlaces | app/ride/page.tsx:486 | the places change and the fare follows them when a trip is selected |
| RidePage.Page.SetType | app/ride/page.tsx:371 | the vehicle type changes and the fare follows it when a trip is selected |
| RidePage.Page.Reserve | app/ride/page.tsx:239-241 | "Réserver", shown only with a selected trip (line 444), opens the booking dialog |
| RidePage.Page.CloseConfirm | app/ride/page.tsx:464-491 | dismissing the dialog or "Annuler" closes it, the selection kept |
| RidePage.Page.Confirm | app/ride/page.tsx:244-268 | without a selected trip nothing is sent; otherwise OrderFor is sent, and only a 201 closes the dialog, clears the selection and resets places to 1 |
| RidePage.Page.PreviousPage | app/ride/page.tsx:438 | the page becomes RidePrevious of the old page |
| RidePage.Page.NextPage | app/ride/page.tsx:439 | the page becomes RideNext of the old page |
| RidePage.Fare | app/ride/page.tsx:233-235 | the fare is (trip price + type price) × places |
| RidePage.Page.Geolocated | app/ride/page.tsx:66-86 | a located position becomes the user's and the driver's position, the departure reads "Position actuelle", and the simulated destination lies one hundredth of a degree north-east; the typed destination stays |
| DriverDashboard.CountHolding | app/dashboard/driver/page.tsx:120 | the count of CONFIRMED or PENDING orders never exceeds the number of orders |
| DriverDashboard.CountHoldingAppend | app/dashboard/driver/page.tsx:120 | the held-place count adds up over a concatenation of order lists |
| DriverDashboard.CountHoldingAll | app/dashboard/driver/page.tsx:120 | the count equals the list length exactly when every order is CONFIRMED or PENDING |
| DriverDashboard.PlacesReservees | app/dashboard/driver/page.tsx:120 | a trip's reserved places are its CONFIRMED or PENDING orders, and 0 when it has no order list |
| DriverDashboard.CancelNeverAddsPlaces | app/dashboard/commandes/page.tsx:49 | cancelling an order never increases the reserved places |
| DriverDashboard.ConfirmKeepsPlaces | app/dashboard/commandes/page.tsx:49 | confirming an order of an all-pending list keeps the reserved places |
| DriverDashboard.NombreSieges | app/dashboard/driver/page.tsx:121 | the seat count is the vehicle's seats, else the trip's nbplaces, else 4, with 0 read as missing; it is never 0 |
| DriverDashboard.StatsAppend | app/dashboard/driver/page.tsx:142-148 | total reserved places and revenue both add up trip by trip, as the reduce does |
| DriverDashboard.RevenueBounds | app/dashboard/driver/page.tsx:148 | with non-negative prices the revenue is non-negative, and 0 when no place is reserved |
| DriverDashboard.UniformPriceRevenue | app/dashboard/driver/page.tsx:148 | when every trip has the same price the revenue is that price times the reserved places |
| DriverDashboard.StatsData | app/dashboard/driver/page.tsx:132-151 | the cards show the trip total and TotalReserved(trajets) as decimal numerals, and the decimal text of Revenue(trajets) followed by " Fcfa", which reads back as the revenue when it is not negative |
| DriverDashboard.StartButton | app/dashboard/driver/page.tsx:289-297 | a button exists exactly for PENDING or STARTED trips, reading "Démarrer" and "En cours" |
| DriverDashboard.Selected | app/dashboard/driver/page.tsx:153-163 | a non-click keeps the selection; clicking the selected trip deselects it; clicking another selects it |
| DriverDashboard.ClickTwice | app/dashboard/driver/page.tsx:153-163 | clicking a trip twice from no selection leaves no selection |
| DriverDashboard.BarStaysInRange | app/dashboard/driver/page.tsx:318-337 | from a page in range, the enabled Précédent and Suivant lead to a page in range |
| DriverDashboard.Dashboard.constructor | app/dashboard/driver/page.tsx:104-111 | no trip, no selection, page 1 of nothing |
| DriverDashboard.Dashboard.Loaded | app/dashboard/driver/page.tsx:169-171 | a successful fetch stores the rows and the total, keeping the selection and the page |
| DriverDashboard.Dashboard.SelectTrip | app/dashboard/driver/page.tsx:153-163 | the selection becomes Selected of the old one; nothing else changes |
| DriverDashboard.Dashboard.Paginer | app/dashboard/driver/page.tsx:118 | the page is set as given; nothing else changes |
| DriverDashboard.Dashboard.TotalPages | app/dashboard/driver/page.tsx:114 | the page count holds every row and is 0 exactly without rows |
| DriverDashboard.Dashboard.Range | app/dashboard/driver/page.tsx:115-116 | on a page in range, startIndex and endIndex lie within the rows and span at most one page |
| DriverDashboard.TotalReserved | app/dashboard/driver/page.tsx:142 | "Places réservées" sums the reserved places over the listed trips |
| DriverDashboard.Revenue | app/dashboard/driver/page.tsx:148 | "Revenu estimé" sums each trip's price times its reserved places |
| DriverDashboard.Dashboard.BarShown | app/dashboard/driver/page.tsx:307 | the bar shows only with more than one page |
| CommandesPage.SetStatus | app/dashboard/commandes/page.tsx:49 | the list keeps its length; every order with that id takes the new status and every other order is unchanged |
| CommandesPage.SetStatusKeepsIds | app/dashboard/commandes/page.tsx:49 | the rewrite never adds, drops or moves an order: the ids stay in place |
| CommandesPage.SetStatusEffect | app/dashboard/commandes/page.tsx:49 | an order's new status is the given one exactly when its id matches; its price never changes |
| CommandesPage.SetStatusIdempotent | app/dashboard/commandes/page.tsx:49 | applying the same update twice is the same as once |
| CommandesPage.SetStatusCommute | app/dashboard/commandes/page.tsx:49 | updates of two different orders can be applied in either order |
| CommandesPage.StatusColor | app/dashboard/commandes/page.tsx:82-93 | the grey default is used exactly for statuses other than PENDING, CONFIRMED and CANCELLED |
| CommandesPage.ButtonsAfterActions | app/dashboard/commandes/page.tsx:228-232 | after validation Valider is disabled and Annuler is not; after cancellation both are disabled |
| CommandesPage.PendingHasBothActions | app/dashboard/commandes/page.tsx:228-232 | a pending order can be both validated and cancelled |
| CommandesPage.Page.constructor | app/dashboard/commandes/page.tsx:13-25 | role DRIVER, not ready, no order, no selection, drawer closed, page 1 of nothing |
| CommandesPage.Page.Mount | app/dashboard/commandes/page.tsx:28-41 | the stored role replaces DRIVER only when it is a Role value; the page becomes ready; nothing else changes |
| CommandesPage.Page.Loaded | app/dashboard/commandes/page.tsx:113-122 | a 200 with data replaces the total, the page and the rows, keeping the selection and the drawer |
| CommandesPage.Page.Select | app/dashboard/commandes/page.tsx:148 | the clicked order opens in the drawer; the list is unchanged |
| CommandesPage.Page.CloseDrawer | app/dashboard/commandes/page.tsx:163-168 | the drawer closes and the selection stays |
| CommandesPage.Page.UpdateStatus | app/dashboard/commandes/page.tsx:44-58 | on 200 the orders with that id and the open order take the new status, the drawer closes and the list is reloaded; any other answer changes nothing and reloads nothing |
| CommandesPage.Page.Validate | app/dashboard/commandes/page.tsx:44-63 | without an open order nothing is sent; otherwise it asks to confirm the open order and applies the answer as UpdateStatus does, reloading the list exactly on 200 |
| CommandesPage.Page.Cancel | app/dashboard/commandes/page.tsx:65-79 | without an open order nothing is sent; otherwise the cancel names role "USER", and on 200 exactly that order becomes CANCELLED in the list and the drawer, which closes, and the list is reloaded |
| CommandesPage.Page.NextPage | app/dashboard/commandes/page.tsx:129-131 | the page becomes Pagination.NextPage of the old one; the rows and the selection stay |
| CommandesPage.Page.PreviousPage | app/dashboard/commandes/page.tsx:133-135 | the page becomes Pagination.PreviousPage of the old one; the rows and the selection stay |
| CommandesPage.CancelDisabled | app/dashboard/commandes/page.tsx:228 | Annuler is disabled exactly for a cancelled order |
| CommandesPage.ValidateDisabled | app/dashboard/commandes/page.tsx:232 | Valider is disabled for every order that is not pending |
| CommandesPage.Page.Renders | app/dashboard/commandes/page.tsx:136 | the page renders nothing until the role has been read |
| DriverCourses.StatusLabel | components/dashboard/DriverCourses.tsx:27-42 | the five order statuses get their French labels, and "Inconnu" is returned exactly for a value that is no order status; the order page's own `getStatusLabel` (app/dashboard/commandes/page.tsx:96-111, shown in the drawer at line 216) is the same switch and is this function |
| DriverCourses.StatusLabelsDistinct | components/dashboard/DriverCourses.tsx:27-42 | two different statuses never share a label |
| DriverCourses.StatusColor | components/dashboard/DriverCourses.tsx:9-24 | grey is used exactly for COMPLETED and for values that are no order status |
| DriverCourses.SumPricesAppend | components/dashboard/DriverCourses.tsx:80 | the price sum adds up over a concatenation, as the reduce does |
| DriverCourses.SumPricesBounds | components/dashboard/DriverCourses.tsx:80 | with non-negative prices the sum is at least each single order's price |
| DriverCourses.SumPricesNonNegative | components/dashboard/DriverCourses.tsx:80 | with non-negative prices the sum is non-negative |
| DriverCourses.TotalCommandes | components/dashboard/DriverCourses.tsx:78 | the number of the trip's orders, 0 without a trip or an order list |
| DriverCourses.TotalRevenu | components/dashboard/DriverCourses.tsx:79-80 | the sum of the trip's order prices, 0 without a trip or an order list |
| DriverCourses.CountLabel | components/dashboard/DriverCourses.tsx:144 | the label starts with the count and ends in "s" exactly when the count exceeds 1 |
| DriverCourses.RevenueShownRule | components/dashboard/DriverCourses.tsx:161 | the revenue line shows exactly for a read role other than USER |
| DriverCourses.MountedRole | components/dashboard/DriverCourses.tsx:55-62 | the role is the stored value exactly when that value is a Role, and none otherwise |
| DriverCourses.CardsOf | components/dashboard/DriverCourses.tsx:76-80 | one card per order, in order |
| DriverCourses.View | components/dashboard/DriverCourses.tsx:64-189 | a missing or empty list renders only the message; otherwise one card per order, a bar shown exactly with more than one page, Previous disabled at page 1 and Next at the last page |
| DriverCourses.SumPrices | components/dashboard/DriverCourses.tsx:80 | the reduce summing the orders' prices from 0 |
| DriverCourses.RevenueShown | components/dashboard/DriverCourses.tsx:161 | the revenue line shows for ADMIN, PARTENAIRE and DRIVER only |
| DriverCourses.CardOf | components/dashboard/DriverCourses.tsx:76-80 | one order's card: its id, status label and colour, order count, and the revenue only when RevenueShown |
| Sidebar.Filter | components/dashboard/Sidebar.tsx:89 | the kept entries are exactly the entries whose roles include the role |
| Sidebar.FilterAppend | components/dashboard/Sidebar.tsx:89 | the filter distributes over concatenation, so the menu keeps the declaration order |
| Sidebar.FilteredMenu | components/dashboard/Sidebar.tsx:88-90 | the menu shows exactly the declared entries that allow the user's role |
| Sidebar.ParametresForEveryRole | components/dashboard/Sidebar.tsx:79-84 | Paramètres is shown to every role |
| Sidebar.OnlyParametresForUser | components/dashboard/Sidebar.tsx:27-85 | every entry shown to the USER role is Paramètres |
| Sidebar.UserSeesOnlyParametres | components/dashboard/Sidebar.tsx:27-85 | a USER sees Paramètres and nothing else |
| Sidebar.ShownIffAllowed | components/dashboard/Sidebar.tsx:88-90 | a declared entry is in the filtered menu exactly when its role list includes the role |
| Sidebar.AllowsOne | components/dashboard/Sidebar.tsx:89 | an entry for one role includes exactly that role's value |
| Sidebar.AllowsTwo | components/dashboard/Sidebar.tsx:89 | an entry for two roles includes exactly those two roles' values |
| Sidebar.DashboardHomes | components/dashboard/Sidebar.tsx:28-41 | the "/dashboard" home is shown exactly to ADMIN, and "/dashboard/driver" exactly to PARTENAIRE and DRIVER; a USER gets neither |
| Sidebar.RestrictedEntries | components/dashboard/Sidebar.tsx:42-77 | Utilisateurs and the vehicle types are shown exactly to ADMIN; Ma flotte and the transactions exactly to ADMIN and PARTENAIRE |
| Sidebar.UnknownRoleSeesNothing | components/dashboard/Sidebar.tsx:88-90 | a role value outside the four roles sees an empty menu |
| Sidebar.FilterNone | components/dashboard/Sidebar.tsx:89 | when no entry allows the role, nothing is kept |
| Sidebar.Heads | components/dashboard/Sidebar.tsx:113-114 | the joined word heads are no longer than the word list |
| Sidebar.Initials | components/dashboard/Sidebar.tsx:109-117 | "U" without a name (missing or empty), and at most two characters otherwise |
| Sidebar.InitialsOneWord | components/dashboard/Sidebar.tsx:109-117 | a one-word name gives its first character upper-cased by UpperText ("SS" for ß), which is that one letter raised by UpperChar otherwise |
| Sidebar.InitialsTwoWords | components/dashboard/Sidebar.tsx:109-117 | a name of two or more words gives the first two characters of the upper-cased first letters of the first two words, which are those two letters raised by UpperChar when neither is ß or ŉ |
| Sidebar.BWordPrefix | components/dashboard/Sidebar.tsx:112 | the first piece of a split starts with any separator-free prefix of the string |
| Sidebar.SpacesOnlyName | components/dashboard/Sidebar.tsx:109-117 | a name of spaces only has empty initials rather than "U" |
| Sidebar.RoleLabel | components/dashboard/Sidebar.tsx:120-128 | the four roles get Administrateur, Partenaire, Chauffeur, Client, and "Utilisateur" is returned exactly for any other value that is not the name of a member of `Object.prototype` |
| Sidebar.RoleLabelsDistinct | components/dashboard/Sidebar.tsx:120-128 | two different roles never share a label |
| Sidebar.Menu.constructor | components/dashboard/Sidebar.tsx:23-24 | before the fetch the role is DRIVER and there is no user |
| Sidebar.Menu.Fetched | components/dashboard/Sidebar.tsx:92-102 | a truthy answer replaces the user and the role; otherwise nothing changes |
| Sidebar.Menu.Items | components/dashboard/Sidebar.tsx:130 | the shown entries are exactly those allowing the current role |
| Sidebar.Menu.UserInitials | components/dashboard/Sidebar.tsx:109-117 | at most two characters, "U" before any user is known |
| Sidebar.Allows | components/dashboard/Sidebar.tsx:89 | `item.roles.includes(role)`: some allowed role has that value |
| VehicleTypeName.FirstIndex | types/getVehicleTypeName.ts:13 | the index find stops at: the first type with that id, and none exactly when no type has it |
| VehicleTypeName.Find | types/getVehicleTypeName.ts:13 | the first element of the list with that id, and none exactly when no element has it |
| VehicleTypeName.GetVehicleTypeName | types/getVehicleTypeName.ts:13-14 | the name of the first type with that id, and "Type inconnu" when no type has it |
| VehicleTypeName.EmptyListUnknown | types/getVehicleTypeName.ts:13-14 | an empty list always yields "Type inconnu" |
| VehicleTypeName.FirstMatchWins | types/getVehicleTypeName.ts:13 | types after the first match never change the result |
| VehicleTypeName.NoMatchSkipped | types/getVehicleTypeName.ts:13 | types without that id before the match never change the result |
| SettingsPage.CheckPassword | app/dashboard/parametres/page.tsx:108-123 | without a user nothing happens; a mismatch is refused first; then a password shorter than 6 UTF-16 units is refused; otherwise exactly the new password is sent for the user's id |
| SettingsPage.MismatchReportedFirst | app/dashboard/parametres/page.tsx:111-119 | a short password that does not match its confirmation is reported as a mismatch |
| SettingsPage.CheckUpload | app/dashboard/parametres/page.tsx:142-160 | nothing happens without a file or a user; the file is sent for the user's id exactly when its type starts with "image/" and its size is at most 5·1024·1024 bytes |
| SettingsPage.VehicleStatusInfo | app/dashboard/parametres/page.tsx:203-210 | the three statuses get their option labels; any other value that is not the name of a member of `Object.prototype` shows itself, and grey is used exactly for such values |
| SettingsPage.UserImage | app/dashboard/parametres/page.tsx:213-218 | the first image of a non-empty list, none without a user, without images or with an empty list; a lone non-empty URL gives its first character |
| SettingsPage.OrEmpty | app/dashboard/parametres/page.tsx:43-45 | the value when present, "" otherwise |
| SettingsPage.ProfileOf | app/dashboard/parametres/page.tsx:42-46 | the profile form holds exactly name, email and phone from the user, "" when missing |
| SettingsPage.Settings.constructor | app/dashboard/parametres/page.tsx:22-32 | no user, no vehicle, not editing, empty profile and password forms |
| SettingsPage.Settings.Load | app/dashboard/parametres/page.tsx:35-58 | an answer with data fills the user and the profile form, and the vehicles when present; otherwise nothing changes |
| SettingsPage.Settings.InputChange | app/dashboard/parametres/page.tsx:65-71 | only the profile field with that name changes |
| SettingsPage.Settings.PasswordChange | app/dashboard/parametres/page.tsx:74-80 | only the password field with that name changes |
| SettingsPage.Settings.StartEditing | app/dashboard/parametres/page.tsx:315-321 | "Modifier" on the profile card starts editing it |
| SettingsPage.Settings.StartEditingPassword | app/dashboard/parametres/page.tsx:423-429 | "Modifier" on the password card starts editing the password |
| SettingsPage.Settings.Save | app/dashboard/parametres/page.tsx:83-105 | without a user nothing is sent; otherwise name, email and phone are sent in that order to the signed-in user's id, and an answer with data replaces the user and ends editing |
| SettingsPage.Settings.SavePassword | app/dashboard/parametres/page.tsx:108-139 | the verdict is CheckPassword's on the new password and its confirmation; an accepted change answered with data clears all three fields and ends password editing; otherwise nothing changes |
| SettingsPage.Settings.ImageUpload | app/dashboard/parametres/page.tsx:142-173 | the verdict is CheckUpload's; an accepted upload answered with data replaces the user; otherwise the user stays; the settings invariant is kept |
| SettingsPage.Settings.Cancel | app/dashboard/parametres/page.tsx:181-190 | with a user the profile form is restored from it ("" for missing values); editing ends either way |
| SettingsPage.Settings.CancelPassword | app/dashboard/parametres/page.tsx:193-200 | the three password fields are cleared and password editing ends |
| SettingsPage.AstralCharactersCountTwice | app/dashboard/parametres/page.tsx:115 | a password of three emoji is six UTF-16 units long, so it passes the six-character rule and is sent |
| SignupForm.LookaheadOnCleanInput | components/home/Signup.tsx:13 | on input without line breaks, a lookahead `(?=.*[C])` succeeds exactly when some character is in the class |
| SignupForm.PasswordRule | components/home/Signup.tsx:13 | a password is accepted exactly when it has at least 8 UTF-16 units, no line break, an uppercase letter, a digit and one of the listed symbols |
| SignupForm.PhoneRule | components/home/Signup.tsx:14-22 | a phone is accepted exactly when it is empty, or an optional "+" followed by 8 to 15 digits |
| SignupForm.SignupErrors | components/home/Signup.tsx:16-32 | each field is flagged exactly when its rule fails: name under 3 UTF-16 units, e-mail rejected, phone rule, password rule, more than 4 images, and a mismatch flagged on the confirmation |
| SignupForm.MismatchBlocksSubmit | components/home/Signup.tsx:29-32 | a password mismatch alone makes the form invalid, with the error on the confirmation field and not on a valid password |
| SignupForm.SlotCount | components/home/Signup.tsx:66 | one image slot for USER and ADMIN, four for the other roles |
| SignupForm.FileLabels | components/home/Signup.tsx:104 | one caption per image slot |
| SignupForm.RoleFR | components/home/Signup.tsx:42-47 | every role has a non-empty French title word |
| SignupForm.RoleFRDistinct | components/home/Signup.tsx:42-47 | no two roles share a title word |
| SignupForm.InitialSlots | components/home/Signup.tsx:64-68 | the initial images fill the first slots and the rest are empty; more images than slots make the initialiser throw |
| SignupForm.FirstThroughSignupParts | components/home/Signup.tsx:83-94 | reading a name from the payload finds it in name and email first, then the phone, then password and role, then the files |
| SignupForm.SignupPayloadFields | components/home/Signup.tsx:83-88 | the payload always has name, email, password and role; phone exactly when it is non-empty |
| SignupForm.SignupPayloadFiles | components/home/Signup.tsx:90-94 | one "images" entry per picked file, and every "images" entry is a file |
| SignupForm.BuildSignupForm | components/home/Signup.tsx:81-94 | the appended FormData holds exactly the payload entries, in order |
| SignupForm.SignupImages.constructor | components/home/Signup.tsx:64-68 | the slots start as InitialSlots for the role |
| SignupForm.SignupImages.ChangeImage | components/home/Signup.tsx:74-79 | only the slot at that index changes, and the form library gets the same slots |
| SignupForm.PasswordRegex | components/home/Signup.tsx:13 | `passwordRegex.test`: the three lookaheads, no line break, and at least 8 UTF-16 units |
| SignupForm.PhoneRegex | components/home/Signup.tsx:14 | `phoneRegex.test`: an optional "+" then 8 to 15 digits and nothing else |
| SignupForm.PhoneOk | components/home/Signup.tsx:19-22 | the phone field passes when absent, empty, or matching the phone regex |
| SignupPage.RoleMessage | app/auth/signup/page.tsx:49-68 | every role has a non-empty title and subtitle |
| SignupPage.RoleMessagesDistinct | app/auth/signup/page.tsx:49-66 | different roles are greeted with different titles |
| SignupPage.SignupRedirect | app/auth/signup/page.tsx:29-44 | the page navigates to "/auth/login" exactly on a 201 answer |
| SignupPage.Page.constructor | app/auth/signup/page.tsx:14-15 | before mounting the role is DRIVER and the page is not ready |
| SignupPage.Page.Mount | app/auth/signup/page.tsx:17-27 | a stored Role value is kept, anything else becomes USER; the page becomes ready |
| SignupPage.Page.Heading | app/auth/signup/page.tsx:46-80 | nothing is rendered before the role is resolved, then the role's greeting |
| FormDataModel.Without | app/dashboard/vehicules/page.tsx:128 | deleting a name keeps exactly the entries with other names |
| FormDataModel.First | app/dashboard/vehicules/page.tsx:125 | get returns a value some entry with that name carries, and null exactly when no entry has the name |
| FormDataModel.CountAppend | components/home/Signup.tsx:83-94 | entry counts add up over successive appends |
| FormDataModel.GetAfterDelete | app/dashboard/vehicules/page.tsx:125-129 | after deleting a name it reads back as null, and every other name reads as before |
| FormDataModel.FirstAppend | components/home/Signup.tsx:83-94 | get is decided by the earlier entries when they have the name, otherwise by the appended ones |
| FormDataModel.FirstAt | components/home/Signup.tsx:83-94 | get returns the value at k when no earlier entry has that name |
| FormDataModel.CountAbsent | components/home/Signup.tsx:83-94 | a name no entry carries is counted zero times |
| FormDataModel.FileEntries | components/home/Signup.tsx:90-94 | the file appends all carry the given name and a file, at most one per slot |
| FormDataModel.FileEntriesAppend | components/home/Signup.tsx:90-94 | the file appends of two slot lists are those of each, in slot order |
| FormDataModel.FileEntriesCount | components/home/Signup.tsx:90-94 | exactly one entry per picked file is appended |
| FormDataModel.PadSlots | components/home/Signup.tsx:64-68 | the initial images followed by empty slots up to the count; a longer list makes Array throw |
| FormDataModel.SetSlot | components/home/Signup.tsx:74-77 | only the slot at the index changes |
| FormDataModel.ImageSlots | app/dashboard/vehicules/page.tsx:50 | one slot per image of an array (a URL kept, an image object's src or an empty slot), and none for anything but an array |
| FormDataModel.ImageSlotsNotPicked | app/dashboard/vehicules/page.tsx:50 | no slot of an edit value is a picked file, so resubmitting it uploads nothing |
| FormDataModel.NoPickedSlots | app/dashboard/vehicules/page.tsx:50 | slots without a picked file count zero picked files |
| FormDataModel.FormData.constructor | components/home/Signup.tsx:83 | a new FormData is empty |
| FormDataModel.FormData.Append | components/home/Signup.tsx:84-88 | append adds one entry at the end |
| FormDataModel.FormData.Delete | app/dashboard/vehicules/page.tsx:128 | delete removes every entry with the name and keeps the others in order |
| FormDataModel.FormData.Get | app/dashboard/vehicules/page.tsx:125 | get returns a value some entry with that name carries, and null exactly when there is none |
| FormDataModel.FormData.AppendFiles | components/home/Signup.tsx:90-94 | the picked files are appended in slot order and nothing else |
| FormVehicle.DefaultValues | components/forms/FormVehicle.tsx:44-56 | every field takes the initial value's key when present and the form's default otherwise (empty texts, the current year, mileage 0, 4 seats, AVAILABLE, no image) |
| FormVehicle.VehicleErrors | components/forms/FormVehicle.tsx:18-32 | each field is flagged exactly when its rule fails: registration or brand under 2 UTF-16 units, empty type or model, a year outside [1990, current year], a negative mileage, a non-positive seat count, more than 4 images |
| FormVehicle.UntouchedFormErrors | components/forms/FormVehicle.tsx:18-56 | an untouched creation form is refused on exactly registration, type, brand and model |
| FormVehicle.FilledFormAccepted | components/forms/FormVehicle.tsx:18-56 | a creation form with registration, type, brand and model filled in passes every rule, so it can be sent |
| FormVehicle.YearWindow | components/forms/FormVehicle.tsx:15-24 | a year passes exactly when it lies between 1990 and the current year, and none passes while the current year is before 1990 |
| FormVehicle.InitialSlots | components/forms/FormVehicle.tsx:60-63 | four slots holding the initial images then empty ones; more than four initial images make the initialiser throw |
| FormVehicle.TextIfGiven | components/forms/FormVehicle.tsx:148 | a text field is appended, once and under its name, exactly when it is a non-empty string |
| FormVehicle.NumberIfDefined | components/forms/FormVehicle.tsx:149-150 | a number field is appended, once and under its name, exactly when it is defined |
| FormVehicle.MiddleEntries | components/forms/FormVehicle.tsx:148-151 | the optional entries between year and status carry only the names color, mileage, seats and id |
| FormVehicle.OwnerEntries | components/forms/FormVehicle.tsx:152-154 | the entries after the optional ones carry only the names status, partnerId and driverId |
| FormVehicle.FirstThroughParts | components/forms/FormVehicle.tsx:142-157 | reading a name from the payload finds it in the required entries first, then the optional ones, then status and owner ids, then the files |
| FormVehicle.RequiredFieldsSent | components/forms/FormVehicle.tsx:143-147 | registration, type, brand, model and year are read back from the FormData as typed |
| FormVehicle.RequiredLacks | components/forms/FormVehicle.tsx:143-147 | a name other than the five required ones is not read from the required entries |
| FormVehicle.MiddleLacks | components/forms/FormVehicle.tsx:148-151 | a name other than colour, mileage, seats and id is not read from the optional entries |
| FormVehicle.OwnerLacks | components/forms/FormVehicle.tsx:152-154 | a name other than status, partnerId and driverId is not read from the owner entries |
| FormVehicle.FilesLack | components/forms/FormVehicle.tsx:155-157 | a name other than images is not read from the file entries |
| FormVehicle.StatusSent | components/forms/FormVehicle.tsx:152 | the status is always sent, under its enum name |
| FormVehicle.IdSentWhenGiven | components/forms/FormVehicle.tsx:151 | an id entry is present exactly when the id is non-empty, and then it is the id |
| FormVehicle.DriverIdSentWhenGiven | components/forms/FormVehicle.tsx:154 | a driver id entry is present exactly when the driver id is non-empty |
| FormVehicle.ZeroMileageIsSent | components/forms/FormVehicle.tsx:149 | a mileage of 0 is still sent |
| FormVehicle.VehiclePayloadFiles | components/forms/FormVehicle.tsx:155-157 | the number of image entries equals the number of picked files; existing URLs and empty slots send nothing |
| FormVehicle.AppendIfGiven | components/forms/FormVehicle.tsx:148 | the FormData gains exactly the conditional text entry |
| FormVehicle.AppendIfDefined | components/forms/FormVehicle.tsx:149-150 | the FormData gains exactly the conditional number entry |
| FormVehicle.AppendRequired | components/forms/FormVehicle.tsx:143-147 | the FormData gains the five unconditional entries in order |
| FormVehicle.AppendMiddle | components/forms/FormVehicle.tsx:148-151 | the FormData gains colour, mileage, seats and id under their conditions, in order |
| FormVehicle.AppendOwner | components/forms/FormVehicle.tsx:152-154 | the FormData gains the status, then the partner and driver ids when non-empty |
| FormVehicle.BuildVehicleForm | components/forms/FormVehicle.tsx:140-157 | the built FormData holds exactly the submission's entries, in the handler's order |
| FormVehicle.ConducteurField | components/forms/FormVehicle.tsx:241-243 | the partner id is written exactly when not editing and the chosen conductor differs from the selected one; otherwise the driver id |
| FormVehicle.PreselectField | components/forms/FormVehicle.tsx:110-111 | a PARTENAIRE creator fills the partner id and a DRIVER the driver id, and no other role fills either |
| FormVehicle.DriverCaption | components/forms/FormVehicle.tsx:118 | a conductor option shows the name when non-empty, else the e-mail when non-empty, else "Utilisateur", and is never empty |
| FormVehicle.DriverOptions | components/forms/FormVehicle.tsx:116-119 | one option per driver in the service's order, with the driver's id and caption |
| FormVehicle.FindOption | components/forms/FormVehicle.tsx:96 | the option found is listed and has the id, and none is found exactly when no option has the id |
| FormVehicle.InitialStatusOption | components/forms/FormVehicle.tsx:79-81 | a status option is preselected exactly when an initial status is given, and it is that status's listed option |
| FormVehicle.Form.constructor | components/forms/FormVehicle.tsx:42-84 | the form starts with the default values, the initial slots, the initial status option and no option lists; edit mode is a non-empty initial id |
| FormVehicle.Form.TypesLoaded | components/forms/FormVehicle.tsx:90-98 | the type options are replaced and the initial type is preselected when it is listed |
| FormVehicle.Form.CreatorLoaded | components/forms/FormVehicle.tsx:104-111 | in creation mode the signed-in user is the only, selected conductor, and fills the partner or driver id by role |
| FormVehicle.Form.DriversLoaded | components/forms/FormVehicle.tsx:113-126 | in edit mode the partner's drivers become the options and the initial driver is preselected when listed |
| FormVehicle.Form.ChooseConducteur | components/forms/FormVehicle.tsx:238-247 | the select is disabled in creation mode; in edit mode the choice is selected and written to the driver id |
| FormVehicle.Form.ChooseStatus | components/forms/FormVehicle.tsx:256-260 | the chosen status is selected and becomes the status value |
| FormVehicle.Form.ChooseType | components/forms/FormVehicle.tsx:186-190 | the chosen type is selected and its id, as text, becomes the type value |
| FormVehicle.Form.Edit | components/forms/FormVehicle.tsx:176-231 | typing into the registered inputs replaces registration, brand, model, year, colour, mileage and seats, and nothing else |
| FormVehicle.Form.ChangeImage | components/forms/FormVehicle.tsx:65-72 | only one of the three rendered slots can be chosen; only that slot changes and the form's images follow the slots |
| FormVehicle.Form.Submit | components/forms/FormVehicle.tsx:140-159 | nothing is sent exactly when a rule fails; otherwise the FormData of the current values is sent |
| FormVehicle.Fails | components/forms/FormVehicle.tsx:18-32 | a field's rule: registration and brand at least 2 UTF-16 units, type and model non-empty, year in [1990, current year], mileage non-negative, seats positive, at most 4 images |
| FormTrajet.SpeedConstants | components/forms/FormTrajet.tsx:22-23 | 120 km/h is 30000 ms per kilometre, that is 30 ms per metre |
| FormTrajet.ToInputDatetimeLocal | components/forms/FormTrajet.tsx:25-31 | the text is empty exactly for a missing or invalid date; otherwise year, month from 1, day, hour and minute in the input's layout |
| FormTrajet.FieldPositions | components/forms/FormTrajet.tsx:25-31 | in the "YYYY-MM-DDTHH:mm" layout the separators sit at positions 4, 7, 10 and 13 and each field reads back from its own positions |
| FormTrajet.DatetimeLocalLayout | components/forms/FormTrajet.tsx:29-30 | for a four-digit year the text is 16 characters with the separators at fixed positions, and each field reads back as its value |
| FormTrajet.TrajetErrors | components/forms/FormTrajet.tsx:34-59 | each field is flagged exactly when its rule fails: empty vehicle, departure or destination, a missing coordinate or departure time, a blank estimated arrival, and per stop an empty place, a missing coordinate or a blank arrival time; an estimated arrival or stop arrival never set passes |
| FormTrajet.StopErrors | components/forms/FormTrajet.tsx:34-40 | the stop fields flagged are exactly the failing rules of existing stops |
| FormTrajet.StopRules | components/forms/FormTrajet.tsx:34-40 | stop k is flagged on its place, a coordinate or its arrival time exactly when it exists and that value is empty, null or blank |
| FormTrajet.ClearedArrivalRefused | components/forms/FormTrajet.tsx:339-351 | clearing the estimated arrival of an accepted form makes it refused on that field alone, while leaving it unset keeps it accepted |
| FormTrajet.ClearedStopArrivalRefused | components/forms/FormTrajet.tsx:404-414 | clearing one stop's arrival time of an accepted form makes it refused on that stop's arrival time alone |
| FormTrajet.Defaults | components/forms/FormTrajet.tsx:75-82 | without an initial value: empty driver id, vehicle, departure and destination, no stop and every other field unset; an initial value sets every field |
| FormTrajet.BlankFormErrors | components/forms/FormTrajet.tsx:43-82 | a new trip's blank form is refused on the vehicle, both places, the four coordinates and the departure time, and on nothing else |
| FormTrajet.NewStopNeedsPlace | components/forms/FormTrajet.tsx:370 | a stop added with the button is refused on its place alone |
| FormTrajet.Walk | components/forms/FormTrajet.tsx:123-133 | the stop legs: at most one per stop, skipping stops with a null coordinate, and the point where the walk ends |
| FormTrajet.WalkChained | components/forms/FormTrajet.tsx:123-133 | each leg starts where the previous one ended, the first at the start point, and the walk ends where its last leg ends |
| FormTrajet.WalkCount | components/forms/FormTrajet.tsx:123-133 | there is exactly one leg per stop that has both coordinates |
| FormTrajet.WalkLegsTargetStops | components/forms/FormTrajet.tsx:124-129 | every leg names a stop with coordinates and arrives at that stop's position |
| FormTrajet.SegmentsShape | components/forms/FormTrajet.tsx:122-140 | the legs form a chain from the departure: one per stop with coordinates, plus a final leg to the destination exactly when both arrival coordinates are truthy |
| FormTrajet.ZeroArrivalSkipped | components/forms/FormTrajet.tsx:135 | a destination with latitude 0 gets no final leg |
| FormTrajet.BuildSegments | components/forms/FormTrajet.tsx:116-140 | the loop builds exactly the chain of legs |
| FormTrajet.Step | components/forms/FormTrajet.tsx:156-170 | a failed leg changes nothing; an answered one adds its distance, advances the time by 30 ms per metre, and writes that time on its stop or as the estimated arrival |
| FormTrajet.ProcessTotals | components/forms/FormTrajet.tsx:143-170 | the total distance is the sum over answered legs, and the time advances by 30 ms per metre of it |
| FormTrajet.ProcessTimesAfterStart | components/forms/FormTrajet.tsx:143-170 | every time written is at or after the starting time |
| FormTrajet.AllLegsFail | components/forms/FormTrajet.tsx:157-170 | when no leg is answered, nothing is written |
| FormTrajet.StopLegsKeepArrival | components/forms/FormTrajet.tsx:164-168 | only the destination leg writes the estimated arrival |
| FormTrajet.EquatorDepartureIgnored | components/forms/FormTrajet.tsx:107 | a departure latitude of 0 never starts the computation |
| FormTrajet.WithStopTimes | components/forms/FormTrajet.tsx:165 | each stop with a computed time gets it as its arrival, and the others are unchanged |
| FormTrajet.Payload | components/forms/FormTrajet.tsx:227-244 | the payload's driver is the signed-in user and the total distance is 0 when none was computed; every other field is the form's value unchanged |
| FormTrajet.PayloadIgnoresTypedDriver | components/forms/FormTrajet.tsx:230 | the driver id typed in the form never changes the payload |
| FormTrajet.Form.constructor | components/forms/FormTrajet.tsx:72-83 | the form starts on the defaults under the initial value |
| FormTrajet.Form.AddStop | components/forms/FormTrajet.tsx:370 | one stop with an empty place at coordinates 0 is appended |
| FormTrajet.Form.RemoveStop | components/forms/FormTrajet.tsx:381 | the stop at the index is removed and the others keep their order; an index past the end removes nothing |
| FormTrajet.Form.EstimatedArrivalInput | components/forms/FormTrajet.tsx:339-351 | a typed date becomes the estimated arrival, and a cleared input makes it blank; nothing else changes |
| FormTrajet.Form.StopArrivalInput | components/forms/FormTrajet.tsx:404-414 | a typed date becomes that stop's arrival time, and a cleared input makes it blank; nothing else changes |
| FormTrajet.Form.Recompute | components/forms/FormTrajet.tsx:106-184 | when the guard fails nothing changes; otherwise the legs are processed in order from the departure time and the total, the stop times and an answered estimated arrival are written |
| FormTrajet.Form.Submit | components/forms/FormTrajet.tsx:219-252 | nothing is sent when a rule fails or no user is signed in; otherwise the payload is |
| FormTrajet.Segments | components/forms/FormTrajet.tsx:116-140 | the legs: the stop walk from the departure, then a leg to the destination when both arrival coordinates are truthy |
| FormTrajet.Process | components/forms/FormTrajet.tsx:143-170 | the legs are processed in order, each by the distance service's callback for it |
| FormTrajet.ShouldCompute | components/forms/FormTrajet.tsx:107-108 | the effect runs only when the map is loaded, the departure coordinates are truthy, a departure time is set, and there is a truthy arrival latitude or a stop |
| FormTrajet.Fails | components/forms/FormTrajet.tsx:34-59 | a field's rule: a top-level rule, or the place, a coordinate or a blank arrival time of an existing stop |
| FormVehicleType.Defaults | components/forms/FormVehicleType.tsx:33-43 | without an initial value the form is blank with price 0; with one, its id, name ("" when absent), description and price (0 when absent) are the values |
| FormVehicleType.TypeErrors | components/forms/FormVehicleType.tsx:11-16 | the name is flagged exactly when under two UTF-16 units, the price exactly when negative |
| FormVehicleType.BlankFormNeedsName | components/forms/FormVehicleType.tsx:11-39 | the blank form is refused on the name alone |
| FormVehicleType.PriceRule | components/forms/FormVehicleType.tsx:15 | a price passes exactly when it is 0 or more |
| FormVehicleType.Title | components/forms/FormVehicleType.tsx:61-63 | the heading says "Modifier" exactly when the initial value has a non-empty id |
| FormVehicleType.ButtonCaption | components/forms/FormVehicleType.tsx:103-105 | the button reads "Enregistrement..." exactly while submitting, otherwise "Mettre à jour" in edit mode and "Créer" outside it |
| FormVehicleType.Form.constructor | components/forms/FormVehicleType.tsx:31-43 | the form starts on the defaults merged with the initial value |
| FormVehicleType.Form.Edit | components/forms/FormVehicleType.tsx:65-100 | the typed values become the form's values |
| FormVehicleType.Form.Submit | components/forms/FormVehicleType.tsx:46-55 | refused values are not sent; accepted ones are sent, then the form resets to its defaults unless the handler throws |
| FormVehicleType.ResentBlankRefused | components/forms/FormVehicleType.tsx:46-55 | a creation form reset after sending is refused if sent again unchanged |
| FormVehicleType.EditMode | components/forms/FormVehicleType.tsx:62 | edit mode: the initial value carries a truthy id |
| RechargeWallet.RechargeErrors | components/dashboard/RechargeWalletModal.tsx:17-20 | the phone is flagged exactly when missing or under 8 UTF-16 units, the amount exactly when missing (NaN) or under 1 |
| RechargeWallet.BalanceText | components/dashboard/RechargeWalletModal.tsx:82 | an unknown balance reads "0 F"; a known one reads its digits followed by " F" |
| RechargeWallet.ZeroAndUnknownLookAlike | components/dashboard/RechargeWalletModal.tsx:82 | a zero balance and an unknown one are shown the same |
| RechargeWallet.Modal.constructor | components/dashboard/RechargeWalletModal.tsx:25-28 | the dialog starts closed, with no method, no network, no balance and empty fields |
| RechargeWallet.Modal.BalanceLoaded | components/dashboard/RechargeWalletModal.tsx:32-46 | only a 200 answer carrying data sets the balance |
| RechargeWallet.Modal.MethodsLoaded | components/dashboard/RechargeWalletModal.tsx:48-50 | the payment methods become the listed ones |
| RechargeWallet.Modal.ClickNetwork | components/dashboard/RechargeWalletModal.tsx:101-109 | clicking selects the network exactly when it is ACTIVE, and otherwise leaves the selection |
| RechargeWallet.Modal.SetOpen | components/dashboard/RechargeWalletModal.tsx:83 | the dialog's open state follows its change handler |
| RechargeWallet.Modal.Edit | components/dashboard/RechargeWalletModal.tsx:126-130 | the typed phone and amount become the fields |
| RechargeWallet.Modal.Cancel | components/dashboard/RechargeWalletModal.tsx:133 | cancelling clears the network and closes the dialog, keeping the fields |
| RechargeWallet.Modal.Submit | components/dashboard/RechargeWalletModal.tsx:54-75 | refused fields or no network send nothing; otherwise phone and amount are sent, and a 200 answer resets the fields, clears the network and closes the dialog |
| RechargeWallet.SentValuesAreValid | components/dashboard/RechargeWalletModal.tsx:17-20 | a sent request always has a phone of at least 8 characters and an amount of at least 1 |
| RechargeWallet.ResetFormIsRefused | components/dashboard/RechargeWalletModal.tsx:69 | after a reset both fields are refused |
| RechargeWallet.Selectable | components/dashboard/RechargeWalletModal.tsx:106 | a network button is enabled only for an ACTIVE method |
| RechargeWallet.Modal.Highlighted | components/dashboard/RechargeWalletModal.tsx:108 | a network is drawn as picked only when it is the selected id and ACTIVE |
| TableColumns.RowImage | components/table/columns/tableColumns.tsx:52-53 | an array shows its first element, a lone truthy image is shown itself, and a missing array, an empty array or a lone empty string shows the fallback |
| TableColumns.UserImage | components/table/columns/tableColumns.tsx:78-79 | a user row shows its first image and falls back to the avatar |
| TableColumns.VehicleImage | components/table/columns/tableColumns.tsx:99-101 | a vehicle row shows its first image and falls back to the car picture |
| TableColumns.EmptyFirstUrlKept | components/table/columns/tableColumns.tsx:52-53 | an array whose first URL is empty shows that empty URL, while a lone empty URL falls back |
| TableColumns.AssignedDriverImage | components/table/columns/tableColumns.tsx:215 | only a missing image falls back to the avatar |
| TableColumns.Availability | components/table/columns/tableColumns.tsx:89 | a driver reads "Disponible" exactly when ACTIVE, otherwise "Indisponible" |
| TableColumns.PartnerName | components/table/columns/tableColumns.tsx:63 | the partner's name, or "-" without a partner |
| TableColumns.DriverNames | components/table/columns/tableColumns.tsx:116 | one name per driver in order, a missing name as "" |
| TableColumns.DriversCell | components/table/columns/tableColumns.tsx:115-116 | "-" without drivers, otherwise their names joined by ", " |
| TableColumns.DriversCellOrder | components/table/columns/tableColumns.tsx:115-116 | one driver shows their name, and each added driver appends ", " and their name |
| TableColumns.VehicleEntry | components/table/columns/tableColumns.tsx:224 | one vehicle reads its registration then its type name, or "-", in parentheses |
| TableColumns.VehicleEntries | components/table/columns/tableColumns.tsx:224 | one entry per assigned vehicle, in order |
| TableColumns.AssignedVehiclesCell | components/table/columns/tableColumns.tsx:224 | "-" without vehicles, otherwise the entries joined by ", " |
| TableColumns.OneVehicleOfUnknownType | components/table/columns/tableColumns.tsx:224 | a lone vehicle of unknown type reads "registration (-)" |
| TableColumns.AssignedVehiclesCellNonEmpty | components/table/columns/tableColumns.tsx:224 | the vehicles cell is never empty |
| TableColumns.JoinNonEmpty | components/table/columns/tableColumns.tsx:224 | joining a non-empty list whose first part is non-empty gives a non-empty text |
| TableColumns.PartnerCounts | components/table/columns/tableColumns.tsx:127-128 | the user and fleet counts are the list lengths, 0 when a list is missing |
| TableColumns.StatusSwitch.constructor | components/table/columns/tableColumns.tsx:17 | the switch starts on exactly when the user is ACTIVE |
| TableColumns.StatusSwitch.Caption | components/table/columns/tableColumns.tsx:39 | the label reads "Actif" exactly when the switch is on, else "Inactif" |
| TableColumns.StatusSwitch.Toggle | components/table/columns/tableColumns.tsx:19-33 | the switch takes the new position before the request, which sends ACTIVE exactly when on and INACTIVE otherwise, for this user |
| TableColumns.FailedUpdateKeepsSwitch | components/table/columns/tableColumns.tsx:19-33 | a BLOCKED user's switch turned on reads "Actif" even when the update fails |
| TableColumns.TruthyImage | components/table/columns/tableColumns.tsx:52 | an image URL is truthy unless it is the empty text; an image object always is |
| TrajetsPage.NormalizeStops | app/dashboard/trajets/page.tsx:81-88 | one form stop per trip stop, in order: the name as the place ("" when missing), missing coordinates as 0, the trip's departure time as every arrival; none without a stop list |
| TrajetsPage.NormalizedStopsAllLegs | app/dashboard/trajets/page.tsx:81-88 | every normalized stop has both coordinates, so each one becomes a leg of the route computation |
| TrajetsPage.NormalizedStopsRules | app/dashboard/trajets/page.tsx:81-88 | the form never flags the coordinates of a normalized stop, flags its place exactly when the trip stop has no name, and its arrival time exactly when the shared arrival is blank |
| TrajetsPage.DateOr | app/dashboard/trajets/page.tsx:101-102 | a non-empty date string gives its date, a missing or empty one the current time |
| TrajetsPage.StopArrival | app/dashboard/trajets/page.tsx:85 | a stop's arrival is unset exactly when the trip has no departure time, blank exactly when it is "", and otherwise that date |
| TrajetsPage.EditValue | app/dashboard/trajets/page.tsx:77-108 | the edit value copies the trip's ids, places, coordinates, price and seats, dates with the current-time fallback, "" for a missing disposition and the normalized stops; a trip without a departure or destination position throws |
| TrajetsPage.MissingDepartureTime | app/dashboard/trajets/page.tsx:85-101 | without a departure time the trip is edited with the current time as departure, while its stops get no arrival time |
| TrajetsPage.EditValueTopRules | app/dashboard/trajets/page.tsx:92-108 | an edit value always has its departure coordinates, arrival coordinates, departure time and a dated estimated arrival, so those rules pass |
| TrajetsPage.EmptyDepartureTimeBlocksStops | app/dashboard/trajets/page.tsx:85-101 | a trip stored with an empty departure time is edited with the current time as its departure, but every stop gets a blank arrival time, so the form refuses to save it |
| TrajetsPage.SaveRequestFor | app/dashboard/trajets/page.tsx:126-134 | an update of the id exactly when the id is non-empty, otherwise a creation, carrying the submitted values |
| TrajetsPage.EditedTripIsUpdated | app/dashboard/trajets/page.tsx:105-128 | an edited trip with an id is saved as an update of that trip |
| TrajetsPage.Page.constructor | app/dashboard/trajets/page.tsx:14-22 | the page starts with no trip, the drawer closed, no edit value, role USER and page 1 of nothing |
| TrajetsPage.Page.RolesLoaded | app/dashboard/trajets/page.tsx:25-30 | a role answer replaces the role, no answer keeps it |
| TrajetsPage.Page.Loaded | app/dashboard/trajets/page.tsx:38-50 | only a 200 answer carrying data replaces the rows, the total and the page |
| TrajetsPage.Page.NextPage | app/dashboard/trajets/page.tsx:58-60 | the page advances exactly when more items follow it |
| TrajetsPage.Page.PreviousPage | app/dashboard/trajets/page.tsx:62-64 | the page goes back exactly when it is past the first |
| TrajetsPage.Page.Rows | app/dashboard/trajets/page.tsx:169 | the rows are the loaded trips from (page - 1) * 5, at most 5 of them |
| TrajetsPage.Page.OpenAdd | app/dashboard/trajets/page.tsx:160 | the drawer opens on an empty form |
| TrajetsPage.Page.CloseDrawer | app/dashboard/trajets/page.tsx:188-195 | the drawer closes and the edit value stays |
| TrajetsPage.Page.Edit | app/dashboard/trajets/page.tsx:77-113 | the drawer opens on the trip's edit value; when building it throws, nothing changes |
| TrajetsPage.Page.Submit | app/dashboard/trajets/page.tsx:121-153 | the save request is sent, and exactly on 201 or 200 the drawer closes, the edit value clears and the list reloads; otherwise nothing changes |
| TrajetsPage.Page.Delete | app/dashboard/trajets/page.tsx:66-75 | the trip's id is sent and the list reloads exactly on 200 |
| TrajetsPage.Saved | app/dashboard/trajets/page.tsx:137-141 | a save succeeds on 201 or 200 |
| VehiculesPage.ParseVehicleStatus | app/dashboard/vehicules/page.tsx:62 | a status text is read as the VehicleStatus of that name, and as none exactly when no status has that name |
| VehiculesPage.EditValue | app/dashboard/vehicules/page.tsx:46-66 | every key is present: the vehicle's fields with "" for missing texts, the current year for a missing year, 0 for missing mileage and seats, AVAILABLE for a missing status, and the normalised images |
| VehiculesPage.EditValueReachesForm | app/dashboard/vehicules/page.tsx:52-69 | the form opened on an edit value holds the vehicle's registration, year, seats, mileage and images, not the form's defaults |
| VehiculesPage.MissingSeatsRefused | app/dashboard/vehicules/page.tsx:61 | a vehicle without a seat count is edited with 0 seats, which the form's seat rule refuses, whereas a new vehicle starts with 4 |
| VehiculesPage.TooManyImages | app/dashboard/vehicules/page.tsx:50 | a vehicle with more than four images cannot be edited: the form's slot initialiser throws |
| VehiculesPage.EditedVehicleSendsId | app/dashboard/vehicules/page.tsx:53 | a form edited from a vehicle with an id sends that id, and one from a vehicle without an id sends none |
| VehiculesPage.FirstText | app/dashboard/vehicules/page.tsx:125 | the id entry read as a string exactly when it is a non-empty text |
| VehiculesPage.Page.constructor | app/dashboard/vehicules/page.tsx:20-32 | the page starts with no vehicle, every drawer closed, role USER, no vehicle id and page 1 of nothing |
| VehiculesPage.Page.RolesLoaded | app/dashboard/vehicules/page.tsx:88-93 | a role answer replaces the role, no answer keeps it |
| VehiculesPage.Page.Loaded | app/dashboard/vehicules/page.tsx:101-113 | only a 200 answer carrying data replaces the rows, the total and the page |
| VehiculesPage.Page.NextPage | app/dashboard/vehicules/page.tsx:34-36 | the page advances exactly when more items follow it |
| VehiculesPage.Page.PreviousPage | app/dashboard/vehicules/page.tsx:38-40 | the page goes back exactly when it is past the first |
| VehiculesPage.Page.Rows | app/dashboard/vehicules/page.tsx:189 | the rows are the loaded vehicles from (page - 1) * 10, at most 10 of them |
| VehiculesPage.Page.OpenAdd | app/dashboard/vehicules/page.tsx:167 | the drawer opens on an empty form |
| VehiculesPage.Page.Edit | app/dashboard/vehicules/page.tsx:46-71 | the drawer opens on the vehicle's edit value |
| VehiculesPage.Page.CloseDrawer | app/dashboard/vehicules/page.tsx:208-214 | the overlay and "Fermer" close the drawer; the edit value stays |
| VehiculesPage.Page.CloseAffecte | app/dashboard/vehicules/page.tsx:229-239 | the overlay and "Fermer" close the assignment dialog |
| VehiculesPage.Page.CloseDriversListe | app/dashboard/vehicules/page.tsx:255-265 | the overlay and "Fermer" close the driver list |
| VehiculesPage.Page.Affecte | app/dashboard/vehicules/page.tsx:73-77 | the assignment drawer opens for that vehicle's id |
| VehiculesPage.Page.OpenDriversListe | app/dashboard/vehicules/page.tsx:80-82 | the driver list opens |
| VehiculesPage.Page.Submit | app/dashboard/vehicules/page.tsx:122-155 | a non-empty id entry is removed and the other entries are sent unchanged as an update of that id, otherwise everything is sent as a creation; exactly on 201 or 200 the drawer closes, the edit value clears and the list reloads |
| VehiculesPage.IdTruthy | app/dashboard/vehicules/page.tsx:127 | `if (id)`: a present id entry other than the empty text |
| VehiculesPage.Saved | app/dashboard/vehicules/page.tsx:138-143 | a save succeeds on 201 or 200 |
| VehicleTypesPage.EditValue | app/dashboard/vehicleTypes/page.tsx:57-63 | the edit value carries the type's id, name and price, and its description or "" when it is missing or empty |
| VehicleTypesPage.EditValueReachesForm | app/dashboard/vehicleTypes/page.tsx:57-66 | the form opened on a type's edit value holds exactly the type's values, in edit mode exactly when its id is non-empty |
| VehicleTypesPage.SaveRequestFor | app/dashboard/vehicleTypes/page.tsx:76-83 | an update of the id exactly when the id is non-empty, otherwise a creation, carrying the submitted values |
| VehicleTypesPage.EditedTypeIsUpdated | app/dashboard/vehicleTypes/page.tsx:57-83 | resubmitting an edited type with an id unchanged is an update of that type |
| VehicleTypesPage.Page.TotalItems | app/dashboard/vehicleTypes/page.tsx:20 | the total is the number of loaded types |
| VehicleTypesPage.Page.constructor | app/dashboard/vehicleTypes/page.tsx:14-19 | the page starts with no type, the drawer closed, no edit value and page 1 |
| VehicleTypesPage.Page.Loaded | app/dashboard/vehicleTypes/page.tsx:31-40 | an answer with data replaces the whole list; one without throws and keeps it |
| VehicleTypesPage.Page.NextPage | app/dashboard/vehicleTypes/page.tsx:22-24 | the page advances exactly when more loaded types follow it |
| VehicleTypesPage.Page.PreviousPage | app/dashboard/vehicleTypes/page.tsx:26-28 | the page goes back exactly when it is past the first |
| VehicleTypesPage.Page.Rows | app/dashboard/vehicleTypes/page.tsx:119 | the rows are the loaded types from (page - 1) * 5, at most 5 of them |
| VehicleTypesPage.Page.OpenAdd | app/dashboard/vehicleTypes/page.tsx:111 | the drawer opens on an empty form |
| VehicleTypesPage.Page.Edit | app/dashboard/vehicleTypes/page.tsx:57-66 | the drawer opens on the type's edit value |
| VehicleTypesPage.Page.CloseDrawer | app/dashboard/vehicleTypes/page.tsx:138-143 | the overlay and "Fermer" close the drawer; the edit value stays |
| VehicleTypesPage.Page.Delete | app/dashboard/vehicleTypes/page.tsx:46-55 | the type's id is sent and the list reloads exactly when the service does not throw |
| VehicleTypesPage.Page.Submit | app/dashboard/vehicleTypes/page.tsx:73-103 | the save request is sent, and exactly on 201 or 200 the drawer closes, the edit value clears and the list reloads; otherwise nothing changes |
| VehicleTypesPage.EveryTypeShown | app/dashboard/vehicleTypes/page.tsx:19-24 | since the whole list is paged locally, type i is row i mod 5 of page i / 5 + 1, a page within the bound Next keeps to |
| VehicleTypesPage.Saved | app/dashboard/vehicleTypes/page.tsx:85-90 | a save succeeds on 201 or 200 |
| UtilisateursPage.EditValue | app/dashboard/utilisateurs/page.tsx:89-101 | name, e-mail and phone with "" when missing, an empty password and confirmation, and the user's images as slots |
| UtilisateursPage.EditNeedsNewPassword | app/dashboard/utilisateurs/page.tsx:94-101 | an edit value is refused on its empty password, while its matching empty confirmation raises no mismatch |
| UtilisateursPage.EditImagesFitSlots | app/dashboard/utilisateurs/page.tsx:91-157 | the sign-up form's slot initialiser throws exactly when the user has more images than the role's slot count, so on an ADMIN's page a user with two images cannot be edited |
| UtilisateursPage.Page.constructor | app/dashboard/utilisateurs/page.tsx:16-23 | the page starts with the drawer closed, page 1 of nothing, no edit value, role DRIVER, not ready |
| UtilisateursPage.Page.Mount | app/dashboard/utilisateurs/page.tsx:25-31 | a stored role replaces DRIVER only when it is a Role value, and the page becomes ready |
| UtilisateursPage.Page.Loaded | app/dashboard/utilisateurs/page.tsx:34-46 | only a 200 answer carrying data replaces the rows, the total and the page |
| UtilisateursPage.Page.NextPage | app/dashboard/utilisateurs/page.tsx:70-72 | the page advances exactly when more items follow it |
| UtilisateursPage.Page.PreviousPage | app/dashboard/utilisateurs/page.tsx:74-76 | the page goes back exactly when it is past the first |
| UtilisateursPage.Page.Rows | app/dashboard/utilisateurs/page.tsx:129 | the rows are the loaded users from (page - 1) * 10, at most 10 of them |
| UtilisateursPage.Page.OpenAdd | app/dashboard/utilisateurs/page.tsx:122 | the drawer opens on an empty form |
| UtilisateursPage.Page.Edit | app/dashboard/utilisateurs/page.tsx:89-106 | the drawer opens on the user's edit value |
| UtilisateursPage.Page.CloseDrawer | app/dashboard/utilisateurs/page.tsx:148-154 | the overlay and "Fermer" close the drawer; the edit value stays |
| UtilisateursPage.Page.Delete | app/dashboard/utilisateurs/page.tsx:78-87 | the user's id is sent and the list reloads exactly on 200 |
| UtilisateursPage.Page.Signup | app/dashboard/utilisateurs/page.tsx:52-68 | the form's entries are posted unchanged and the page state does not change, whatever the answer |
| UtilisateursPage.Page.Renders | app/dashboard/utilisateurs/page.tsx:112 | the page renders nothing until the role has been read |
| DriversListe.EditValue | components/dashboard/DriversListe.tsx:108-121 | the driver's id, name, e-mail and phone ("" when missing), an empty confirmation and the images as slots, none of them a picked file |
| DriversListe.SuccessCodeDependsOnKind | components/dashboard/DriversListe.tsx:65-79 | an update succeeds on 200 and not on 201, a creation on 201 and not on 200 |
| DriversListe.Liste.constructor | components/dashboard/DriversListe.tsx:19-26 | the list starts with the drawer closed, page 1 of nothing, no edit value, role DRIVER, not ready |
| DriversListe.Liste.Mount | components/dashboard/DriversListe.tsx:29-35 | a stored role replaces DRIVER only when it is a Role value, and the list becomes ready |
| DriversListe.Liste.Loaded | components/dashboard/DriversListe.tsx:39-51 | only a 200 answer carrying data replaces the rows, the total and the page |
| DriversListe.Liste.NextPage | components/dashboard/DriversListe.tsx:89-91 | the page advances exactly when more items follow it |
| DriversListe.Liste.PreviousPage | components/dashboard/DriversListe.tsx:93-95 | the page goes back exactly when it is past the first |
| DriversListe.Liste.Rows | components/dashboard/DriversListe.tsx:144 | the rows are the loaded drivers from (page - 1) * 5, at most 5 of them |
| DriversListe.Liste.OpenAdd | components/dashboard/DriversListe.tsx:137 | the drawer opens on an empty form |
| DriversListe.Liste.Edit | components/dashboard/DriversListe.tsx:108-126 | the drawer opens on the driver's edit value |
| DriversListe.Liste.CloseDrawer | components/dashboard/DriversListe.tsx:167-173 | the overlay and "Fermer" close the drawer; the edit value stays |
| DriversListe.Liste.Delete | components/dashboard/DriversListe.tsx:97-106 | the driver's id is sent and the list reloads exactly on 200 |
| DriversListe.Liste.Submit | components/dashboard/DriversListe.tsx:58-85 | a non-empty id entry is removed and the rest sent as an update of that id, otherwise everything is sent as a creation; success closes the drawer and reloads, a thrown error only reloads, any other answer changes nothing |
| DriversListe.IdTruthy | components/dashboard/DriversListe.tsx:65 | `if (id)`: a present id entry other than the empty text |
| DriversListe.Succeeded | components/dashboard/DriversListe.tsx:68-77 | an update succeeds only on 200, a creation only on 201 |
| DriversListe.Liste.Renders | components/dashboard/DriversListe.tsx:87 | the list renders nothing until the role has been read |
| AssignDriver.KeyString | components/dashboard/AssignDriverToVehicle.tsx:136 | a string id is kept and a numeric id becomes its decimal text |
| AssignDriver.TemplateText | components/dashboard/AssignDriverToVehicle.tsx:59 | an absent name part reads "undefined" inside the template, a null one "null", and a present one reads as itself |
| AssignDriver.DriverLabel | components/dashboard/AssignDriverToVehicle.tsx:59 | the name when it is non-empty, otherwise the first and last names joined by a space |
| AssignDriver.LabelNeverEmpty | components/dashboard/AssignDriverToVehicle.tsx:59 | the label is never empty, so the "Conducteur" fallback is never reached; a driver without any name part reads "undefined undefined", and one whose name parts are null reads "null null" |
| AssignDriver.DriverOptions | components/dashboard/AssignDriverToVehicle.tsx:58-59 | one option per driver, in order, with the driver's id and label |
| AssignDriver.SelectedIds | components/dashboard/AssignDriverToVehicle.tsx:112 | one string id per selected option, in selection order |
| AssignDriver.AssignPayload | components/dashboard/AssignDriverToVehicle.tsx:111-114 | an assignment carries the action "assign" and the list of selected ids |
| AssignDriver.RemovePayload | components/dashboard/AssignDriverToVehicle.tsx:135-138 | a removal carries the action "remove" and the one id as a string |
| AssignDriver.AssignCarriesSelection | components/dashboard/AssignDriverToVehicle.tsx:109-112 | the ids of a selection split around one option are the ids of each part with that option's id between them, so the request follows the selection exactly |
| AssignDriver.Dialog.constructor | components/dashboard/AssignDriverToVehicle.tsx:17-25 | the dialog starts for its vehicle with no option, nothing selected or assigned, page 1 of nothing, not loading |
| AssignDriver.Dialog.DriversLoaded | components/dashboard/AssignDriverToVehicle.tsx:48-64 | on 200 the options become the drivers' (none without data); any other answer keeps them |
| AssignDriver.Dialog.FetchAssigned | components/dashboard/AssignDriverToVehicle.tsx:28-30 | loading the assigned drivers sets the loading flag, so the button reads "Assignation..." and is disabled until the answer |
| AssignDriver.Dialog.AssignedLoaded | components/dashboard/AssignDriverToVehicle.tsx:28-45 | only a 200 answer carrying data replaces the rows, the page and the total, and loading ends in every case |
| AssignDriver.Dialog.SelectionChanged | components/dashboard/AssignDriverToVehicle.tsx:159-166 | the single-mode selector's emission replaces the selection: one option becomes a one-driver list, a list is taken as it is, and the selection never holds more than one driver |
| AssignDriver.Dialog.AssignCaption | components/dashboard/AssignDriverToVehicle.tsx:168 | the button reads "Assignation..." exactly while loading, otherwise "Affecter" |
| AssignDriver.Dialog.Assign | components/dashboard/AssignDriverToVehicle.tsx:99-130 | an empty selection sends nothing; otherwise the selected driver's id is sent, and exactly on 200 the selection clears and the list reloads |
| AssignDriver.Dialog.Delete | components/dashboard/AssignDriverToVehicle.tsx:73-96 | the row's driver id is sent for removal, and exactly on 200 the selection clears and the list reloads |
| AssignDriver.Dialog.Remove | components/dashboard/AssignDriverToVehicle.tsx:133-150 | the id is sent as a string for removal, and the list reloads exactly on 200 with the selection kept |
| AssignDriver.Dialog.NextPage | components/dashboard/AssignDriverToVehicle.tsx:152-154 | the page advances exactly when more items follow it |
| AssignDriver.Dialog.PreviousPage | components/dashboard/AssignDriverToVehicle.tsx:156-158 | the page goes back exactly when it is past the first |
| AssignDriver.Dialog.Rows | components/dashboard/AssignDriverToVehicle.tsx:175 | the rows are the loaded assigned drivers from (page - 1) * 5, at most 5 of them |
| AssignDriver.Dialog.AssignDisabled | components/dashboard/AssignDriverToVehicle.tsx:167 | "Affecter" is disabled while loading or with nothing selected |
| UsersTable.Table.TotalItems | components/dashboard/UsersTable.tsx:13 | the total is the length of the fixed list |
| UsersTable.Table.constructor | components/dashboard/UsersTable.tsx:11-13 | the table starts on page 1 of the given list |
| UsersTable.Table.NextPage | components/dashboard/UsersTable.tsx:15-17 | the page advances exactly when more users follow it, and never past the last page |
| UsersTable.Table.PreviousPage | components/dashboard/UsersTable.tsx:19-21 | the page goes back exactly when it is past the first |
| UsersTable.Table.Rows | components/dashboard/UsersTable.tsx:38 | the rows are the users from (page - 1) * 5, at most 5 of them |
| UsersTable.Table.RowsNeverEmpty | components/dashboard/UsersTable.tsx:15-38 | since the page never passes the last one, a non-empty list never shows an empty page |
| UsersTable.EveryUserShown | components/dashboard/UsersTable.tsx:12-38 | user i is row i mod 5 of page i / 5 + 1, a page within the bound |
| RapRead.DateOf | app/rap-read/page.tsx:25-28 | `new Date(v)`: a date string gives its time, an unreadable string or an absent key Invalid Date, and a stored null the epoch |
| RapRead.ReadStopOf | app/rap-read/page.tsx:29-32 | a stop is kept with an arrival date exactly when its arrival time is a non-empty string |
| RapRead.ReadStops | app/rap-read/page.tsx:29-32 | one read stop per stored stop, in order, and none without a stop list |
| RapRead.ParseWithDates | app/rap-read/page.tsx:22-49 | the shown trip keeps the id, places and the remaining spread fields, turns its four dates (departure, arrival, creation, update) into dates, gives the nested driver, vehicle and partner their creation and update dates, and reads every stop |
| RapRead.ShownStopsAreStored | app/rap-read/page.tsx:29-32 | the k-th shown stop is the k-th stored stop, without an arrival exactly when it had no arrival time |
| RapRead.StoredData | app/rap-read/page.tsx:55 | the stored value under "data", present exactly when the key is |
| RapRead.LoadOutcome | app/rap-read/page.tsx:53-79 | nothing stored fails with "not found", a parse failure with "loading error", a record without id, departure or destination with "invalid", and exactly the remaining cases show the parsed trip |
| RapRead.FailureMessages | app/rap-read/page.tsx:57-75 | every failure carries one of the three non-empty messages |
| RapRead.Redirect | app/rap-read/page.tsx:85-94 | a redirect to "/dashboard/driver" after 3000 ms is scheduled exactly when there is an error |
| RapRead.Page.constructor | app/rap-read/page.tsx:10-12 | the page starts loading, with no trip and no error |
| RapRead.Page.Load | app/rap-read/page.tsx:52-82 | a failure sets the error and a success sets the trip, and loading ends in every case, the early returns included |
| RapRead.Page.Render | app/rap-read/page.tsx:96-120 | a spinner while loading, then the map exactly when there is a trip, otherwise nothing |
| RapRead.Page.Finish | app/rap-read/page.tsx:15-19 | the alert "Course terminée !" is shown and only the stored trip is removed |
| RapRead.FinishedRideIsGone | app/rap-read/page.tsx:15-60 | once the ride is finished, opening the page again fails with "not found" and redirects |
| RapRead.LoadedPageShowsMap | app/rap-read/page.tsx:52-118 | the page shows a trip exactly when a non-empty stored value parses to a record with id, departure and destination |
| RapRead.DatedOf | app/rap-read/page.tsx:32-46 | a nested driver, vehicle or partner is kept with its record, and its creation and update dates are read as DateOf reads them (null giving the epoch); a missing one stays missing |
| RapRead.ParsedRecordsAreStored | app/rap-read/page.tsx:22-49 | the shown nested records are the stored ones; a trip whose four date keys are absent shows Invalid Date in all four places, and one whose four dates are null shows the epoch in all four |
| RapRead.NullDateIsEpoch | app/rap-read/page.tsx:26 | a stored `"estimatedArrival": null` is shown as the epoch, while the absent departure time is shown as Invalid Date |

## Left out

- VehiculesPage.EditValue: a status string that is none of AVAILABLE, MAINTENANCE and OUT_OF_SERVICE becomes `None`, so the form falls back to AVAILABLE. The source passes the string through, and the vehicle schema would then reject it.
- FormTrajet.Step: each leg adds whole metres to the total. The source adds `meters / 1000` as a fractional number of kilometres, so the model's total is 1000 times the source's and no rounding is modelled. This keeps reals out of the model.
- FormTrajet.ProcessTotals: states the total in metres, for the same reason as FormTrajet.Step.
- FormTrajet.Form.Recompute: stores the total in metres, for the same reason as FormTrajet.Step.
- RechargeWallet.BalanceText: the balance is shown as plain digits. The grouping that `toLocaleString` adds is locale-dependent and is not modelled.
- VehiculesPage.Page.Affecte: a vehicle without an id opens the assignment dialog with the id `""`, where the source passes `undefined`.
- The trip form's vehicle option list, its preselection and the vehicle select (components/forms/FormTrajet.tsx:186-212, 266-270) are not modelled.
- The place-search inputs that fill the coordinates are not modelled; coordinates enter as form values.
- The form `SignupUsers` that the driver list opens is not part of this model. Its input is the driver edit value, which is modelled.
- The map component and its container are not part of this model. The trip viewer ends at the trip it hands to the map.
- The demonstration data files for users and payment methods are not part of this model. The tables take their lists as parameters.
- The vehicle page's multiple delete, the vehicle page's delete handler (app/dashboard/vehicules/page.tsx:42-44) and the demonstration table's action handlers (components/dashboard/UsersTable.tsx:23-33) are not modelled, because they only write to the console.
- Console output, toasts, alerts, navigation timers and the order in which asynchronous effects finish are not modelled. A redirection is returned as its path and delay.
- A thrown service error is modelled only where a page's outcome depends on it. The `catch` paths of TrajetsPage.Page.Submit and VehiculesPage.Page.Submit only report the error and leave the page as an unsuccessful answer does, so they are not modelled separately.
- The vehicle types page reloads its list after a delete, and the order page after a status change answered 200. The reload is returned as a flag; the reloaded list is not modelled.
- Where the stored role comes from (the login flow) is not part of this model. The role enters as the stored string.
- Date parsing and formatting of the current time (`new Date`, `Date.now`, the current year), `JSON.parse`, the e-mail check of the schema library and the distance service are parameters. Their own behaviour is not modelled.
- RapRead.ParseWithDates: the fields that the spread copies unchanged are kept together as one map from field name to stored text. Their own types are not modelled.
- Text.ToLower: only A to Z, Latin-1 and Latin Extended-A are mapped. Capitals of other scripts (Latin Extended-B, Greek, Cyrillic and the rest) are kept, where `toLowerCase` lowers them.
- Text.ToUpper: only A to Z, Latin-1 and Latin Extended-A are mapped, with the expansions of ß and ŉ. Small letters of other scripts are kept, and the other one-to-many expansions (ligatures such as ﬀ, Greek and Armenian letters) are not modelled.
- MultiSelect.FilteredData: lower-cases as Text.ToLower does, so it shares that limit on scripts.
- Sidebar.RoleLabel: `roleLabels[role]` (components/dashboard/Sidebar.tsx:127) looks the role up on an object literal, so a role string such as "constructor", "toString" or "__proto__" finds a member of `Object.prototype`, which is truthy and skips the "Utilisateur" fallback. The model returns "Utilisateur" for these strings too, because it has no object prototype.
- SettingsPage.VehicleStatusInfo: `statusMap[status]` (app/dashboard/parametres/page.tsx:208) has the same prototype lookup, so for such a status the source shows no label rather than the raw value in grey. The model shows the raw value in grey.
- SettingsPage.UserImage: for a lone URL string, `images[0]` (app/dashboard/parametres/page.tsx:215) is one UTF-16 unit, so for a URL starting with a character above U+FFFF the source takes half of a surrogate pair. The model takes the whole first character, because a lone surrogate is not a Dafny `char`.
- Sidebar.Initials: upper-cases as Text.ToUpper does, so it shares that limit on scripts. `word[0]` takes one UTF-16 unit, so for a word starting with a character above U+FFFF the source takes half of a surrogate pair; the model takes the whole character, because a lone surrogate is not a Dafny `char`.
- Sidebar.InitialsOneWord: the same limits as Sidebar.Initials.
- Sidebar.InitialsTwoWords: the same limits as Sidebar.Initials.
- RidePage.Page.Geolocated: the one-second delay before the simulated destination is set, the map-loaded flag and the saved permission preference are not modelled. The offset of 0.01 degrees is a parameter, because coordinates are integers in an abstract unit.
- Pagination assumes that the backend's list endpoints return the requested page of at most the requested size. This is stated as Pagination.ServerPage.
- `valueAsNumber` fields that are empty produce NaN, and NaN is not modelled. A number field is an optional integer, and None stands both for a missing number and for NaN.
- FormTrajet.TrajetErrors: does not refuse an empty price, seat count or total distance. In the source these inputs are registered with `valueAsNumber` (components/forms/FormTrajet.tsx:307, 311, 321), an empty one reads as NaN, and `z.number()` refuses NaN. So an emptied price or seat count blocks the trip form there, and so does a hidden total distance that the route computation never set. The model accepts these values as None.
- FormTrajet.Payload: its `totalDistance ?? 0` branch is reachable in the model but not in the source, because a form without a computed total distance is refused there (see the line above).
- Floating-point arithmetic is not modelled. Coordinates are integers in an abstract fixed-point unit, and prices are integers (Fcfa).
- The driver label's final fallback "Conducteur" is unreachable. The model leaves it out, and AssignDriver.LabelNeverEmpty proves it unreachable.
- VehicleTypeName.GetVehicleTypeName: ids are strings only. The source's signature also admits numbers, but its one caller (app/ride/page.tsx:471) passes the selected type's string id together with vehicle types whose `id` is a string (types/interfaces.tsx:99).
- HTTP, bearer tokens and the service wrappers are not modelled. Each page's service call enters as its status code and answer.

## Findings

The management pages slice a list that the backend has already paged. Each page's `Rows` keeps that slice exactly as written, so each page model stays faithful to its source. The lemmas below show what the slice does, and `Pagination.ServerPage` with `Pagination.ServerPageCoversAll` states the listing that was evidently intended.

| source | as written | input that shows it | evidently intended | confidence | as-written member | corrected member |
|---|---|---|---|---|---|---|
| app/dashboard/vehicules/page.tsx:189 | the table shows `vehicles.slice((currentPage - 1) * limit, currentPage * limit)`, but `vehicles` is already the server's page `currentPage` of `limit` rows. The same slice appears at app/dashboard/utilisateurs/page.tsx:129, components/dashboard/DriversListe.tsx:144 and components/dashboard/AssignDriverToVehicle.tsx:175 | any list longer than one page: after Next to page 2 with a server page of 10 rows, the table is empty | show the server's page as it comes, so row i appears on page i / limit + 1 | not executed; medium, because it depends on the backend honouring `page` and `limit` | Pagination.SlicedServerPageEmptyAfterFirst | Pagination.ServerPageCoversAll |
| app/dashboard/trajets/page.tsx:169 | the server page has 10 rows (the default of `getTrajetsByDriver`) and the table slices it again by 5 | trips with ids 0 to 19: page 1 shows ids 0 to 4, page 2 ids 15 to 19 and every later page nothing, so ids 5 to 14 appear on no page | show the server's page as it comes, with the same page size on both sides | not executed; medium, because it depends on the backend honouring `page` and `limit` | Pagination.SlicedServerPageSkipsRows | Pagination.ServerPageCoversAll |
