# StayEase hotel administration dashboard, modelled in Dafny

StayEase is a single-page administration dashboard for a chain of hotels.
Its pages read in-memory collections of branches, guests, rooms,
reservations and admin accounts. Most of their behaviour is a small
computation over those collections, written inline in the page:

- scoping every list to the signed-in admin's branch;
- searching and filtering lists;
- counting by status;
- computing nights and totals;
- laying out a month calendar of room occupancy;
- editing forms one field at a time;
- gating the settings pages by role.

This project states each of those computations once, in Dafny, and proves
what the pages rely on.

The signed-in user is an explicit parameter: a role (super-admin or
branch-admin) plus an optional branch id. A super-admin sees every record.
A branch-admin sees the records of their own branch, in their original
order (`Scoping.Scope`).

Dates that pages calculate with are integer day numbers, counted from
1970-01-01 (`Dates.DayNumber`). The fixture reservations carry those
numbers. `MockData.StayDatesAsCalendarDates` proves that they are the day
numbers of the ISO dates in the source. Form dates stay `YYYY-MM-DD`
strings, and `Dates.ParseIsoDate` reads them.

## Files and modules

- **Shared helpers**
  - `seqs.dfy` (`Seqs`): the JavaScript `filter`, `find` and `slice` idioms, with their meaning.
  - `text.dfy` (`Text`): `toLowerCase`, `includes`, `trim` and `slice(-n)`.
  - `dates.dfy` (`Dates`): the calendar, day numbers, and ISO date strings.
  - `arith.dfy` (`Arith`): `Math.round` on integer quotients.
  - `counts.dfy` (`Counts`): counting by status.
  - `status_badges.dfy` (`StatusBadges`): the status badge colour maps.
- **Data and users**
  - `mock_data.dfy` (`MockData`): the entities, their closed enumerations and the fixture collections.
  - `fixture_facts.dfy` (`FixtureFacts`): data-integrity facts about those fixtures.
  - `scoping.dfy` (`Scoping`): the user and the branch scoping rule.
- **One module per page**
  - `dashboard.dfy`
  - `calendar.dfy`
  - `create_reservation.dfy`
  - `reservation_details.dfy`
  - `reservations_list.dfy`
  - `rooms_list.dfy`
  - `add_room.dfy`
  - `guests_list.dfy`
  - `guest_details.dfy`
  - `sidebar.dfy`
  - `notification_settings.dfy`
  - `user_access.dfy`
  - `system_settings.dfy`
  - `profile_settings.dfy`

## How each page is modelled

- **Pure page logic** is a function whose `ensures` says what the page
  shows. This covers:
  - lists, counts and key figures;
  - lookups;
  - the details pages;
  - access gates.
- **State a page changes step by step** is a class. Its fields are the
  page's state, and its methods are the page's handlers. Each method's
  `ensures` ties the new state to a function of the old one, and a
  `Valid()` invariant is kept. This covers:
  - the amenity editor and the forms;
  - the notification switches;
  - the calendar's month;
  - the sidebar's collapse and expansion;
  - the rooms list's filters.
- **Month days** come from `Calendar.GetDaysInMonth`, a method with a loop,
  as in the source.
- **Search and filter inputs that a page only stores**, on the reservation
  and guest lists, are parameters of the list functions.

## Code over documented behaviour

Where the documented behaviour and the code disagree, the model follows the code:

- **Branch-admin without a branch.** The code compares the branch id with
  `undefined`, so such an admin sees no rooms or reservations; it is not an
  error (`Scoping.ScopeEmpty`).
- **Details pages are not scoped.** They look the id up in every branch.
- **The selected room** in the new-reservation form is looked up among all
  rooms, not only the offered ones.
- **System settings handlers** change the form whatever the role. Only the
  view is gated.
- **The default signed-in user** has id `"1"`, which no admin account has.
  So the user access table offers Delete on every row, Sarah Johnson's own
  included (`UserAccess.DefaultUserMayDeleteEveryAccount`).

## Model

| member | source | states |
|---|---|---|
| `MockData.EnumerationNamesDistinct` | src/data/mockData.ts:26-49 | Distinct room types, reservation statuses and payment statuses have distinct source strings, so the pages' string comparisons compare the enumeration values |
| `MockData.ActiveGuests` | src/pages/Dashboard.tsx:50 | The result holds exactly the guests whose status is active, each as many times as it occurs in the input |
| `MockData.StayDatesAsCalendarDates` | src/data/mockData.ts:253-317 | Every fixture reservation's check-in, check-out and booking day number is the day number of its ISO date |
| `FixtureFacts.BranchIdsUnique` | src/data/mockData.ts:54-100 | No two branches share an id |
| `FixtureFacts.GuestIdsUnique` | src/data/mockData.ts:102-173 | No two guests share an id |
| `FixtureFacts.RoomIdsUnique` | src/data/mockData.ts:175-251 | No two rooms share an id |
| `FixtureFacts.ReservationIdsUnique` | src/data/mockData.ts:253-317 | No two reservations share an id |
| `FixtureFacts.AdminIdsUnique` | src/data/mockData.ts:330-370 | No two admin accounts share an id |
| `FixtureFacts.FindRoomByUniqueId` | src/data/mockData.ts:175-251 | In a room list with unique ids, looking up an entry's id finds that entry |
| `FixtureFacts.FindGuestByUniqueId` | src/data/mockData.ts:102-173 | In a guest list with unique ids, looking up an entry's id finds that entry |
| `FixtureFacts.FindsReservationRoom` | src/data/mockData.ts:253-317 | Each fixture reservation's room id resolves to its room |
| `FixtureFacts.ReservationsConsistent` | src/data/mockData.ts:253-317 | For each fixture reservation: its room exists; the room belongs to the reservation's own branch; check-in is strictly before check-out; total = nights × the room's price |
| `FixtureFacts.ReservationReferencesResolve` | src/data/mockData.ts:253-317 | Each fixture reservation's branch exists, and looking up its guest finds the guest at the same position (res-n belongs to guest-n) |
| `FixtureFacts.RoomBranchesResolve` | src/data/mockData.ts:175-251 | Each fixture room's branch exists |
| `FixtureFacts.AdminBranchesResolve` | src/data/mockData.ts:319-370 | The super-admin alone has no branch id; every branch-admin's branch exists |
| `FixtureFacts.NoDoubleBooking` | src/data/mockData.ts:281-316 | Two fixture reservations of the same room never share a day, ends included |
| `Scoping.Scope` | src/pages/Dashboard.tsx:41-47 | A super-admin gets the list itself. For any user the result contains exactly the records of a branch the user sees, each as often as in the input, as an order-preserving subsequence |
| `Scoping.ScopeEmpty` | src/pages/reservations/ReservationsList.tsx:14-16 | A branch-admin's scoped list is empty iff no record has their branch, and always empty without a branch |
| `Scoping.ScopeIdempotent` | src/pages/rooms/RoomsList.tsx:15-17 | Scoping an already scoped list changes nothing |
| `Scoping.RoleLabel` | src/pages/settings/UserAccessManagement.tsx:69 | The label is "Super Admin" iff the role is super-admin, and "Branch Admin" iff it is branch-admin |
| `Text.ContainsAt` | src/pages/guests/GuestsList.tsx:12-14 | `includes` holds iff the needle occurs at some offset |
| `Text.Trim` | src/pages/rooms/AddRoom.tsx:38-39 | The result has no white space at either end, and it is a slice of the input with only white space around it |
| `Text.LastChars` | src/pages/reservations/ReservationsList.tsx:135 | `slice(-n)` is the last min(n, length) characters |
| `Arith.RoundDiv` | src/pages/guests/GuestDetails.tsx:155 | The result is the nearest integer to n / d, halves up |
| `Arith.RoundDivExact` | src/pages/Dashboard.tsx:55 | Rounding a whole quotient returns it unchanged |
| `Arith.RoundDivMonotone` | src/pages/Dashboard.tsx:55 | Rounding is monotone in the numerator |
| `Arith.Percentage` | src/pages/Dashboard.tsx:55 | The rate is 0 without rooms and otherwise part × 100 / whole rounded half up. It lies in 0..100, is 100 when all rooms count and 0 when none do |
| `Counts.RoomsWithStatus` | src/pages/rooms/RoomsList.tsx:109-117 | The result holds exactly the rooms with the status, each as many times as it occurs in the input |
| `Counts.ReservationsWithStatus` | src/pages/reservations/ReservationsList.tsx:97-105 | The result holds exactly the reservations with the status, each as many times as it occurs in the input |
| `Counts.RoomStatusCountsSum` | src/pages/rooms/RoomsList.tsx:105-117 | The four room-status counts add up to the number of rooms |
| `Counts.ReservationStatusCountsSum` | src/pages/reservations/ReservationsList.tsx:93-105 | The four reservation-status counts add up to the number of reservations |
| `StatusBadges.StatusColor` | src/pages/Dashboard.tsx:62-75 | Green iff confirmed, yellow iff pending, red iff cancelled, blue iff completed, grey iff any other string |
| `StatusBadges.ReservationBadgesDistinct` | src/pages/reservations/ReservationDetails.tsx:27-40 | The four reservation statuses get four distinct badges, none of them the grey default |
| `StatusBadges.PaymentBadges` | src/pages/reservations/ReservationDetails.tsx:67 | A payment badge is yellow while pending and the grey default once paid or refunded |
| `StatusBadges.GuestStatusColor` | src/pages/guests/GuestsList.tsx:19-21 | Green iff active, red iff blocked |
| `Dashboard.DashboardKpis` | src/pages/Dashboard.tsx:49-55 | Guests are the active guests of all branches, whoever the user is. Reservations and rooms are counted over the user's scope. Occupied + available ≤ total rooms, and the rate is the rounded percentage (0 without rooms, never above 100) |
| `Dashboard.InsertNewest` | src/pages/Dashboard.tsx:59 | Inserting adds one element: the multiset is the old one plus it |
| `Dashboard.InsertKeepsNewestFirst` | src/pages/Dashboard.tsx:59 | Inserting into a newest-first list keeps it newest-first |
| `Dashboard.SortNewestFirst` | src/pages/Dashboard.tsx:58-59 | The sorted copy is a permutation of the input, ordered by booking date non-increasing |
| `Dashboard.InsertBeforeTies` | src/pages/Dashboard.tsx:59 | Among the reservations booked at any one instant, the inserted one lands first, ahead of those already in the list |
| `Dashboard.SortKeepsTies` | src/pages/Dashboard.tsx:59 | The sort is stable: the reservations booked at any one instant come out in their input order |
| `Dashboard.TakeNewest` | src/pages/Dashboard.tsx:60 | The first n of a newest-first list are newest-first, drawn from the list, and no left-out element was booked later than the last one kept |
| `Dashboard.RecentReservations` | src/pages/Dashboard.tsx:58-60 | The table shows min(5, scoped) reservations drawn from the scoped ones, newest first. Every scoped reservation left out was booked no later than the fifth |
| `Dates.DaysInMonth` | src/pages/reservations/ReservationsCalendar.tsx:25 | A month has 28 to 31 days. February has 29 days in Gregorian leap years and 28 otherwise. Of the other months, April, June, September and November have 30 and the rest 31 |
| `Dates.DaysBetween` | src/pages/reservations/ReservationDetails.tsx:43-45 | The nights of a stay: adding them to the check-in day gives the check-out day, and they are positive iff check-out is later |
| `Dates.SameMonthDistance` | src/pages/reservations/ReservationDetails.tsx:43-45 | Within a month, day numbers differ by the difference of the days |
| `Dates.FormatIsoDate` | src/pages/reservations/CreateReservation.tsx:29-30 | A date is written as ten characters, with dashes at positions 4 and 7 |
| `Dates.ParseIsoDate` | src/pages/reservations/CreateReservation.tsx:29-30 | Only a ten-character string can parse, and the empty string never does |
| `Dates.ParsesFormatted` | src/pages/reservations/CreateReservation.tsx:29-30 | Parsing the ISO string of a valid date gives back that date's day number |
| `Dates.ParsedIsFormatted` | src/pages/reservations/CreateReservation.tsx:29-30 | Conversely, a string that parses is the ISO string of a valid date of years 0..9999, and it parses to that date's day number |
| `Dates.FormatsFields` | src/pages/reservations/CreateReservation.tsx:29-30 | A well-shaped string whose fields spell a valid date is that date's ISO string |
| `Dates.NonDatesExample` | src/pages/reservations/CreateReservation.tsx:29-30 | "2024-13-01", "2023-02-29" and "2024-1-01" do not parse |
| `Calendar.NextMonth` | src/pages/reservations/ReservationsCalendar.tsx:41-43 | The next month is again a month 1..12. December goes to January of the next year, any other month to the following month of the same year. `NextMonthFollows` ties this to the day numbers |
| `Calendar.PrevMonth` | src/pages/reservations/ReservationsCalendar.tsx:37-39 | The previous month is again a month 1..12. January goes to December of the previous year, any other month to the preceding month of the same year. `MonthNavigationInverse` makes it the inverse of `NextMonth` |
| `Calendar.MonthNavigationInverse` | src/pages/reservations/ReservationsCalendar.tsx:37-43 | Next then previous, and previous then next, return to the same month |
| `Calendar.NextMonthFollows` | src/pages/reservations/ReservationsCalendar.tsx:21-43 | Day 1 of the next month is the day after the last day of this month, so month views tile the calendar |
| `Calendar.GetDaysInMonth` | src/pages/reservations/ReservationsCalendar.tsx:21-33 | The loop yields days 1..N of the month in order, N its length, consecutive day numbers |
| `Calendar.CalendarView.constructor` | src/pages/reservations/ReservationsCalendar.tsx:10 | The calendar opens on November 2024 |
| `Calendar.CalendarView.GoToPreviousMonth` | src/pages/reservations/ReservationsCalendar.tsx:37-39 | The shown month becomes the previous month |
| `Calendar.CalendarView.GoToNextMonth` | src/pages/reservations/ReservationsCalendar.tsx:41-43 | The shown month becomes the next month |
| `Calendar.CalendarView.Days` | src/pages/reservations/ReservationsCalendar.tsx:35 | The column headers are the shown month's days in order |
| `Calendar.ReservationOn` | src/pages/reservations/ReservationsCalendar.tsx:46-55 | The result is none iff no scoped reservation of the room covers the day, ends inclusive. Otherwise it is the first scoped reservation that does, whatever its status |
| `Calendar.ReservationOnAsWritten` | src/pages/reservations/ReservationsCalendar.tsx:46-55 | As written, the stay found covers the examined day (the day before the cell's when local time is ahead of UTC), and there is none iff no scoped stay of the room covers that day |
| `Calendar.ExaminedDay` | src/pages/reservations/ReservationsCalendar.tsx:29-46 | The UTC day of the cell's local midnight, in a zone from UTC-12:00 to UTC+14:00, is the day before when local time is ahead of UTC, else the day itself |
| `Calendar.UtcDayOfLocalMidnight` | src/pages/reservations/ReservationsCalendar.tsx:29-46 | Local midnight minus the offset, divided into whole UTC days, is the previous day for a positive offset and the same day otherwise |
| `Calendar.AheadOfUtcShiftsGrid` | src/pages/reservations/ReservationsCalendar.tsx:46-55 | As written, for any offset east of UTC each cell shows the lookup for the previous day. At UTC and west of it, each cell shows the lookup for its own day |
| `Calendar.RoomTwoOn` | src/data/mockData.ts:253-265 | On the fixtures, room-2 is booked exactly on res-1's inclusive stay |
| `Calendar.LateNovemberDays` | src/data/mockData.ts:259-260 | The day numbers of the late-November days around res-1's stay |
| `Calendar.AheadOfUtcExample` | src/pages/reservations/ReservationsCalendar.tsx:46-55 | Room 205 is booked on 2024-11-25. The grid as written shows it free at UTC+1 and booked at UTC-5 |
| `Calendar.AheadOfUtcDayAfterExample` | src/pages/reservations/ReservationsCalendar.tsx:46-55 | Room 205 is free on 2024-11-29, but the grid as written shows it booked at UTC+1 |
| `Calendar.ReservationColor` | src/pages/reservations/ReservationsCalendar.tsx:57-68 | Green iff confirmed, yellow iff pending, red iff cancelled, grey iff completed (the default branch); never the free-cell grey |
| `Calendar.CalendarRooms` | src/pages/reservations/ReservationsCalendar.tsx:138 | The rows are the first min(10, scoped) of the user's rooms, in scoped order |
| `Calendar.CalendarCell` | src/pages/reservations/ReservationsCalendar.tsx:146-161 | Built on the corrected lookup `Calendar.ReservationOn`, not on the as-written `hasReservation`. A cell is the free grey iff nothing occupies it, otherwise the stay's status colour. It is titled with guest and status when the guest exists, else "Available" |
| `CreateReservation.Set` | src/pages/reservations/CreateReservation.tsx:42-47 | The named field takes the value and every other field is unchanged |
| `CreateReservation.InitialForm` | src/pages/reservations/CreateReservation.tsx:10-17 | The branch is the user's branch, or empty when the user has none; every other field is empty |
| `CreateReservation.AvailableRooms` | src/pages/reservations/CreateReservation.tsx:20-22 | There are no choices before a branch is chosen. Afterwards the choices are exactly the chosen branch's available rooms, with their multiplicities, as a subsequence |
| `CreateReservation.GuestChoices` | src/pages/reservations/CreateReservation.tsx:100 | The choices are exactly the active guests, with their multiplicities, in list order |
| `CreateReservation.Duration` | src/pages/reservations/CreateReservation.tsx:224-227 | The duration exists iff both dates parse, and it is the unclamped day difference |
| `CreateReservation.CalculateTotal` | src/pages/reservations/CreateReservation.tsx:27-33 | The total is 0 when a date is missing or unparsable, when the room (looked up among all rooms) is missing, or when the stay is not positive. Otherwise it is nights × price, never negative |
| `CreateReservation.BookingSummary` | src/pages/reservations/CreateReservation.tsx:212-240 | The summary is shown iff a room is selected. Duration and total are shown iff both dates are filled in |
| `CreateReservation.CreateReservationPage.constructor` | src/pages/reservations/CreateReservation.tsx:10-17 | The form starts as the initial form for the user |
| `CreateReservation.CreateReservationPage.HandleChange` | src/pages/reservations/CreateReservation.tsx:42-47 | The form becomes the old form with the one field set; a branch-admin's branch never changes |
| `CreateReservation.CreateReservationPage.HandleSubmit` | src/pages/reservations/CreateReservation.tsx:35-40 | The logged payload is the form with its computed total |
| `CreateReservation.FourNightsExample` | src/pages/reservations/CreateReservation.tsx:27-33 | 2024-12-01 to 2024-12-05 in room-2 is 4 nights and 720 |
| `CreateReservation.ParsesEarlyDecember` | src/pages/reservations/CreateReservation.tsx:29-30 | "2024-12-01" and "2024-12-05" parse to their day numbers |
| `ReservationDetails.NightsLabel` | src/pages/reservations/ReservationDetails.tsx:193 | The label is "night" iff there is one night |
| `ReservationDetails.DisplayId` | src/pages/reservations/ReservationDetails.tsx:62 | The heading id is the last min(8, length) characters, upper-cased |
| `ReservationDetails.DetailsPage` | src/pages/reservations/ReservationDetails.tsx:8-151 | The page is not found iff no reservation has the id. Otherwise it shows the first match and its guest and room when they exist. The hotel's name sits inside the room panel, so it is shown only when the room exists too (lines 137-151). Actions are offered iff the reservation is pending. Nights are the day difference, the rate line is price × nights (0 without a room), and the total is the stored amount |
| `ReservationDetails.DisplayIdExample` | src/pages/reservations/ReservationDetails.tsx:62 | "res-2" is shown as "RES-2" |
| `ReservationsList.ListedReservations` | src/pages/reservations/ReservationsList.tsx:18-24 | A reservation is listed iff it is in scope, its guest exists with a name or e-mail matching the query, and the status filter admits it. It is listed as many times as it occurs in scope, and the list is a subsequence of the scoped list |
| `ReservationsList.EmptySearchListsAllWithGuests` | src/pages/reservations/ReservationsList.tsx:19-21 | With no search and no filter, exactly the scoped reservations whose guest exists are listed |
| `ReservationsList.Stats` | src/pages/reservations/ReservationsList.tsx:93-105 | The cards count over the scoped list and not the filtered one: total, confirmed, pending, cancelled. The three status counts sum to at most the total |
| `ReservationsList.ShortId` | src/pages/reservations/ReservationsList.tsx:135 | The id column is "#" followed by the last min(6, length) characters |
| `RoomsList.ListedRooms` | src/pages/rooms/RoomsList.tsx:19-25 | A room is listed iff it is in scope, its number or type matches the query, and both the status and hotel filters admit it. It is listed as many times as it occurs in scope, and the list is a subsequence of the scoped list |
| `RoomsList.HotelFilterIsBranchScope` | src/pages/rooms/RoomsList.tsx:15-25 | A super-admin filtering by hotel h sees exactly the list a branch-admin of h sees unfiltered |
| `RoomsList.NoFilterListsAll` | src/pages/rooms/RoomsList.tsx:19-25 | With no search and no filters every scoped room is listed, in order |
| `RoomsList.ShowsNoRoomsMessage` | src/pages/rooms/RoomsList.tsx:186 | "No rooms found" shows iff no scoped room matches |
| `RoomsList.Stats` | src/pages/rooms/RoomsList.tsx:105-117 | The cards count over the scoped list: total, available, occupied, maintenance. The three status counts sum to at most the total |
| `RoomsList.RoomsListPage.constructor` | src/pages/rooms/RoomsList.tsx:10-12 | The page starts with an empty search and both filters on "all" |
| `RoomsList.RoomsListPage.SetSearchQuery` | src/pages/rooms/RoomsList.tsx:10 | Only the search changes |
| `RoomsList.RoomsListPage.SetStatusFilter` | src/pages/rooms/RoomsList.tsx:11 | Only the status filter changes |
| `RoomsList.RoomsListPage.SetHotelFilter` | src/pages/rooms/RoomsList.tsx:75-88 | Only a super-admin has the hotel select, so a branch-admin's hotel filter stays "all" |
| `AddRoom.Set` | src/pages/rooms/AddRoom.tsx:30-35 | The named field takes the value and every other field is unchanged |
| `AddRoom.InitialRoomForm` | src/pages/rooms/AddRoom.tsx:10-19 | The branch is the user's branch, or empty. The form starts as a single available room on floor 1 for one guest |
| `AddRoom.InitialAmenitiesValid` | src/pages/rooms/AddRoom.tsx:21 | WiFi, TV, AC are distinct, non-empty and trimmed |
| `AddRoom.WithAmenity` | src/pages/rooms/AddRoom.tsx:37-42 | The trimmed input is appended iff it is non-empty and not listed; otherwise nothing changes. A valid list stays valid |
| `AddRoom.AppendKeepsValid` | src/pages/rooms/AddRoom.tsx:38-39 | Appending a new non-empty trimmed entry keeps the list duplicate-free and trimmed |
| `AddRoom.WithoutAmenity` | src/pages/rooms/AddRoom.tsx:44-46 | Every occurrence of the amenity is removed, the others are kept in order, and validity is kept |
| `AddRoom.FilterKeepsValid` | src/pages/rooms/AddRoom.tsx:45 | Filtering a valid list keeps it valid |
| `AddRoom.RemoveAbsent` | src/pages/rooms/AddRoom.tsx:44-46 | Removing an absent amenity changes nothing |
| `AddRoom.AddThenRemove` | src/pages/rooms/AddRoom.tsx:37-46 | Adding a fresh amenity and removing it restores the list |
| `AddRoom.AddTwice` | src/pages/rooms/AddRoom.tsx:37-42 | Adding the same input twice is adding it once |
| `AddRoom.AddRoomPage.constructor` | src/pages/rooms/AddRoom.tsx:10-22 | The page starts with the initial form, WiFi, TV and AC, and an empty input |
| `AddRoom.AddRoomPage.HandleChange` | src/pages/rooms/AddRoom.tsx:30-35 | Only the named form field changes; a branch-admin's branch stays |
| `AddRoom.AddRoomPage.SetNewAmenity` | src/pages/rooms/AddRoom.tsx:22 | Only the amenity input changes |
| `AddRoom.AddRoomPage.AddAmenity` | src/pages/rooms/AddRoom.tsx:37-42 | Amenities become `WithAmenity` of the old list and input. The input is cleared iff something was added, and the list stays valid |
| `AddRoom.AddRoomPage.RemoveAmenity` | src/pages/rooms/AddRoom.tsx:44-46 | Amenities become `WithoutAmenity` of the old list; nothing else changes |
| `AddRoom.AddRoomPage.HandleSubmit` | src/pages/rooms/AddRoom.tsx:24-28 | The logged payload is the form and the amenities |
| `GuestsList.ListedGuests` | src/pages/guests/GuestsList.tsx:11-17 | A guest is listed iff their name or e-mail matches the query and the status filter admits them. Each is listed as many times as it occurs, and the list is a subsequence of all guests, with no user scoping |
| `GuestsList.NoFilterListsAll` | src/pages/guests/GuestsList.tsx:12-15 | With no search and no filter every guest is listed, in order |
| `GuestsList.StatusSplit` | src/pages/guests/GuestsList.tsx:15 | For any query, the active and the blocked matches together are all the matches |
| `GuestDetails.AveragePerBooking` | src/pages/guests/GuestDetails.tsx:155 | The average is the total spent over the bookings rounded half up, and 0 without bookings |
| `GuestDetails.GuestReservations` | src/pages/guests/GuestDetails.tsx:24 | The history is exactly the guest's reservations from every branch, in order. It is empty iff no reservation is the guest's |
| `GuestDetails.GuestReservationsCount` | src/pages/guests/GuestDetails.tsx:24 | Each of the guest's reservations is in the history as many times as it occurs |
| `GuestDetails.GuestDetailsPage` | src/pages/guests/GuestDetails.tsx:8-24 | The page is not found iff no guest has the id. Otherwise it shows the first match, the average, and one row per reservation of theirs with the hotel and room when they exist. "No reservations found" shows iff there is none |
| `GuestDetails.AverageExample` | src/pages/guests/GuestDetails.tsx:155 | 8450 over 12 bookings shows 704 |
| `Sidebar.IsActive` | src/components/layout/Sidebar.tsx:69 | An entry is active iff its path is a prefix of the location that is either all of it or followed by "/" |
| `Sidebar.SlashPrefix` | src/components/layout/Sidebar.tsx:69 | The location starts with the path plus "/" iff the path is a prefix followed by a slash |
| `Sidebar.IsSubActive` | src/components/layout/Sidebar.tsx:92 | A settings entry is active iff the top-level rule holds and the location is exactly its path, so it is not active below its path where a top-level entry would be |
| `Sidebar.RootActive` | src/components/layout/Sidebar.tsx:69 | The dashboard entry "/" is active iff the location is "/" or starts with "//" |
| `Sidebar.OneActiveEntry` | src/components/layout/Sidebar.tsx:15-30 | No location activates two top-level entries |
| `Sidebar.VisibleSubItems` | src/components/layout/Sidebar.tsx:94-95 | A super-admin sees every settings entry. Otherwise the restricted ones are hidden and the rest shown in order |
| `Sidebar.BranchAdminSettingsMenu` | src/components/layout/Sidebar.tsx:91-95 | A branch-admin's settings menu is Profile and Notifications |
| `Sidebar.OnlySettingsExpands` | src/components/layout/Sidebar.tsx:70 | Only "/settings" has an expand button |
| `Sidebar.ToggledExpansion` | src/components/layout/Sidebar.tsx:78 | The expanded entry closes iff it was the one pressed; otherwise the pressed entry becomes the only one expanded |
| `Sidebar.ToggleTwice` | src/components/layout/Sidebar.tsx:78 | Pressing the same button twice restores the state, when no other entry was expanded |
| `Sidebar.SidebarState.constructor` | src/components/layout/Sidebar.tsx:35-36 | The sidebar starts wide with Settings expanded |
| `Sidebar.SidebarState.ToggleCollapsed` | src/components/layout/Sidebar.tsx:57 | Collapsing negates the flag and leaves the expansion alone |
| `Sidebar.SidebarState.ToggleExpanded` | src/components/layout/Sidebar.tsx:78 | The expansion becomes `ToggledExpansion` of the old one; the collapse flag is unchanged |
| `NotificationSettings.Toggled` | src/pages/settings/NotificationSettings.tsx:20-25 | The key is negated, every other key is unchanged, and the record stays complete |
| `NotificationSettings.ToggleTwice` | src/pages/settings/NotificationSettings.tsx:20-25 | Toggling a key twice restores the record |
| `NotificationSettings.ToggleCommute` | src/pages/settings/NotificationSettings.tsx:20-25 | Toggles of two keys commute |
| `NotificationSettings.InitialSettingsValues` | src/pages/settings/NotificationSettings.tsx:6-18 | The initial record holds all eleven keys, exactly the six listed ones on |
| `NotificationSettings.NotificationSettingsPage.constructor` | src/pages/settings/NotificationSettings.tsx:6-18 | The page starts with the initial record |
| `NotificationSettings.NotificationSettingsPage.HandleToggle` | src/pages/settings/NotificationSettings.tsx:20-25 | The record becomes the old record with that key toggled |
| `NotificationSettings.NotificationSettingsPage.HandleSubmit` | src/pages/settings/NotificationSettings.tsx:27-31 | Saving hands on the record as it is and changes nothing |
| `UserAccess.BranchCell` | src/pages/settings/UserAccessManagement.tsx:53-55 | The cell shows the branch name when the admin's branch id resolves. Otherwise it shows "All Hotels" for a super-admin and "-" for anyone else |
| `UserAccess.RowOf` | src/pages/settings/UserAccessManagement.tsx:59-96 | A row copies name, e-mail and last login, and labels the role. Edit is always offered, and Delete iff the account is not the signed-in user's |
| `UserAccess.UserAccessPage` | src/pages/settings/UserAccessManagement.tsx:10-20 | Access is denied iff the user is not a super-admin. A super-admin gets one row per account, in order |
| `UserAccess.BranchColumnExamples` | src/pages/settings/UserAccessManagement.tsx:73 | Sarah Johnson's row shows "All Hotels" and James Martinez's "StayEase Downtown" |
| `UserAccess.DefaultUserMayDeleteEveryAccount` | src/pages/settings/UserAccessManagement.tsx:92 | The default user is offered Delete on every account |
| `SystemSettings.Set` | src/pages/settings/SystemSettings.tsx:27-32 | The named field takes the value and every other field is unchanged |
| `SystemSettings.SystemSettingsView` | src/pages/settings/SystemSettings.tsx:35-68 | Access is denied iff the user is not a super-admin. A super-admin gets one entry per branch, in order, and the form |
| `SystemSettings.SystemSettingsPage.constructor` | src/pages/settings/SystemSettings.tsx:9-19 | The form starts with the listed defaults |
| `SystemSettings.SystemSettingsPage.HandleChange` | src/pages/settings/SystemSettings.tsx:27-32 | The form becomes the old form with the one field set |
| `SystemSettings.SystemSettingsPage.HandleSubmit` | src/pages/settings/SystemSettings.tsx:21-25 | Saving hands on the form as it is and changes nothing |
| `ProfileSettings.Set` | src/pages/settings/ProfileSettings.tsx:24-29 | The named field takes the value and every other field is unchanged |
| `ProfileSettings.InitialProfileForm` | src/pages/settings/ProfileSettings.tsx:9-15 | The form starts with the user's name and e-mail and empty password fields |
| `ProfileSettings.Submitted` | src/pages/settings/ProfileSettings.tsx:20 | The saved user takes the form's name and e-mail and keeps id, role, branch and avatar |
| `ProfileSettings.PasswordsIgnored` | src/pages/settings/ProfileSettings.tsx:17-22 | Editing a password field never changes what saving does |
| `ProfileSettings.SubmitUnchanged` | src/pages/settings/ProfileSettings.tsx:17-22 | Saving the unedited form gives back the same user |
| `ProfileSettings.UserBranch` | src/pages/settings/ProfileSettings.tsx:31-33 | The branch is none without a branch id, and otherwise the lookup of the id, a listed branch with that id |
| `ProfileSettings.BranchField` | src/pages/settings/ProfileSettings.tsx:95-105 | The branch field is shown iff the user is a branch-admin whose branch resolves, and it shows that branch's name |
| `ProfileSettings.DefaultUserHasNoBranchField` | src/context/AuthContext.tsx:23-29 | The default user, a super-admin, gets no branch field |
| `ProfileSettings.ProfileSettingsPage.constructor` | src/pages/settings/ProfileSettings.tsx:9-15 | The page starts with the initial form for the user |
| `ProfileSettings.ProfileSettingsPage.HandleChange` | src/pages/settings/ProfileSettings.tsx:24-29 | Only the named form field changes; the user stays |
| `ProfileSettings.ProfileSettingsPage.HandleSubmit` | src/pages/settings/ProfileSettings.tsx:17-22 | The user becomes the submitted user, and the form stays |

## Left out

- **Rendering.** JSX layout, icons and Tailwind classes are not modelled, except the status badge maps.
- **Simplified components.**
  - `src/components/dashboard/KPICard.tsx` is pure presentation.
  - `src/components/layout/Header.tsx` is pure presentation. Its branch lookup is the profile page's.
  - The room status colour map of `src/pages/rooms/RoomsList.tsx` is presentation only.
- **View-glue pages.**
  - `src/pages/guests/AddGuest.tsx` holds a field update plus a log and an alert.
  - `src/pages/rooms/RoomDetails.tsx` holds a find-by-id, a colour switch and an image index.
- **Routing.** `src/App.tsx` resolves routes through a library that is not part of this model. Page ids are parameters.
- **Authentication context.** `src/context/AuthContext.tsx` is a React context provider. The user is a parameter, and only its initial user is modelled (`Scoping.defaultUser`).
- **I/O.** `console.log`, `alert`, the charts and the Dashboard's hard-coded chart series produce nothing the model can observe. Submit handlers return what they would log.
- **Floating point.** Prices and amounts are integers, as in every fixture. `Math.round` is integer rounding, halves up. `Math.ceil` of a whole-day difference is that difference.
- **JavaScript `Date`.**
  - Dates are day numbers.
  - Only `YYYY-MM-DD` strings parse (`Dates.ParseIsoDate`); any other string counts as an invalid date.
  - Months are numbered 1..12, where the source's `getMonth()` gives 0..11.
  - The `min` date of today on the date inputs is not modelled.
  - Time zones are modelled only where they change a result: the calendar finding below. There a zone is the UTC offset in minutes in force at the cell's local midnight, from UTC-12:00 to UTC+14:00.
- **Locale behaviour.** `toLocaleString`/`toLocaleDateString` formatting is left out. Case folding and `trim` white space are the ASCII ones.
- **The Update Password button** has no handler in the source, so it has no operation here. `ProfileSettings.PasswordsIgnored` states that the password fields never reach the user.
- **Notification settings record.** It is a map from the eleven switch names to booleans that holds every name, not a record of eleven fields. Toggling one entry of a map is the same update, but is far cheaper to prove.
- **Stored search inputs.** The search and filter inputs of the reservation and guest lists only store what is typed, so they are parameters of the list functions.
- **`CreateReservation.CreateReservationPage.HandleChange`** requires something of the control, because disabled controls send no change event:
  - the branch control may change only when the user is not a branch-admin;
  - the room control may change only once a branch is chosen.
- **`AddRoom.AddRoomPage.HandleChange`** requires that the branch control changes only when the user is not a branch-admin, for the same reason.
- **Dashboard sort on a copy.** Building the recent reservations does not reorder the scoped list. The model has no shared arrays, so this holds by construction.
- **Double bookings** are not prevented by the source, so the model adds no check. `FixtureFacts.NoDoubleBooking` is a fact about the fixtures only.

## Findings

| source | as written | input that shows it | evidently intended | confidence | as-written member | corrected member |
|---|---|---|---|---|---|---|
| src/pages/reservations/ReservationsCalendar.tsx:46-55 | `hasReservation` takes `toISOString()` of the cell's local midnight. Wherever local time is ahead of UTC, that is the previous day, so every cell shows the previous day's booking state | Room 205 (room-2), res-1 from 2024-11-25 to 2024-11-28, at UTC+1 (offset 60 minutes): 2024-11-25 shows free and 2024-11-29 shows booked | Each cell shows whether a stay covers its own calendar day, ends inclusive | not executed | `Calendar.AheadOfUtcExample` | `Calendar.ReservationOn` |
