# LegalFlow, modelled in Dafny

LegalFlow is a small practice-management web application for lawyers. It has
clients, cases, a hearing calendar, a dashboard with statistics and a settings
page. This project models its core and proves properties of the model:

- the document store behind the route handlers (users, clients and cases, with
  the validation and defaults the schemas declare at creation);
- the route handlers `/api/clients`, `/api/cases`, `/api/stats`,
  `/api/register`, `/api/user` and `/api/user/password`, each as a method on
  the store that takes the session's user (or none) and answers with a status;
- the client-side logic of the cases, clients, calendar and settings pages (search and
  status filters, the form guards and resets, the action menu, the hearing
  notifications, the password checks, the month grid and the month buttons);
- the navigation frame: which link is highlighted, and the avatar initial.

The store is a class `Store.Db` with one sequence per table, in insertion
order (the order in which `find` and `findOne` visit documents here). It also
has an identifier counter. Its `Valid()` invariant says:

- identifiers are distinct and below the counter;
- emails are unique, as the schema's unique index demands.

Every handler preserves `Valid()` and states its whole new state. Page state
lives in classes (`CasesPage.PageState`, `ClientsPage.PageState`,
`CalendarPage.CalendarState`, `SettingsPage.SettingsState`) whose methods are
the page's event handlers. What those handlers get from the network arrives as
parameters: a fetched list, or a failure with its message.

Dates are integers:

- a `CivilDate` is the local (year, 0-based month, day);
- a `Moment` is an instant (milliseconds) together with the local date it falls on;
- the Date constructor's month carrying, `setMonth` (including its day
  overflow), `getDay` and `new Date(y, m + 1, 0)` are written out in `Dates`.

Password hashing is the small model in `Bcrypt`. A digest keeps its salt and
the first 72 characters of the password. `compare` succeeds exactly when the
candidate agrees on those.

Inputs the source takes from the environment are parameters of the modelled
operation instead:

- the clock (`now`, `today`, the current year);
- the random draw of the case number;
- the bcrypt salt;
- the session;
- the outcome of a store insert;
- the answer of `confirm()`.

The model follows the code in its error paths too. For example, the password
route answers 500, not 400, when the body has no `current` field, because
`bcrypt.compare` throws on `undefined` (app/api/user/password/route.ts:20).

## Model

| member | source | states |
|---|---|---|
| Schemas.BuildUser | models/Schemas.ts:3-9 | a user is created iff name and email are non-empty, a password hash is given and the role is admin, lawyer or staff; name, email and hash are stored as given, a supplied role is stored, an absent one becomes lawyer, and createdAt is now |
| Schemas.BuildClient | models/Schemas.ts:13-21 | a client is created iff the owner is given, name, email and phone are non-empty and the status is Active, Inactive or Lead; status defaults to Active, lastContact to now, caseCount to 0 |
| Schemas.BuildNote | models/Schemas.ts:25-30 | a note is created iff caseId is given and content and createdBy are non-empty; createdAt is now |
| Schemas.BuildDocument | models/Schemas.ts:34-43 | a document is created iff caseId is given, name, size and createdBy are non-empty and the type is UPLOAD or INVOICE; id, caseId, name, size and createdBy are stored as given, a supplied type is stored and an absent one becomes UPLOAD, url and publicId are copied whether present or not, and createdAt is now |
| Schemas.BuildCase | models/Schemas.ts:47-59 | a case is created iff the owner is given, caseNumber, title and clientName are non-empty and status, type and priority are in their enums; a supplied status, type or priority is stored, an absent one becomes Open, Civil or Medium; start date defaults to now and value to 0; clientId and nextHearing are copied as given |
| Store.Db.constructor | models/Schemas.ts:1-61 | the empty store satisfies the invariant: distinct, bounded identifiers and unique emails |
| Store.ClientsOf | app/api/clients/route.ts:12 | `Client.find({ userId })` returns only that user's clients, all of them |
| Store.CasesOf | app/api/cases/route.ts:12 | `Case.find({ userId })` returns only that user's cases, all of them |
| Store.UserIndex | app/api/user/password/route.ts:16 | `findById` finds a user with that id, or reports that there is none |
| Store.EmailIndex | app/api/register/route.ts:16 | `findOne({ email })` finds a user with that email, or reports that there is none |
| Store.OwnedClientIndex | app/api/clients/route.ts:62-63 | the filter `{ _id: id, userId }` finds a client of that user with that id, or reports that there is none |
| Store.NamedClientIndex | app/api/cases/route.ts:43-44 | the filter `{ name, userId }` finds the first client of that user with that name, or reports that there is none |
| Store.ClientsOfAppend | app/api/clients/route.ts:33-36 | an inserted client joins the end of its owner's list and no other list |
| Store.CasesOfAppend | app/api/cases/route.ts:36-40 | an inserted case joins the end of its owner's list and no other list |
| Store.ClientsOfRemoveOther | app/api/clients/route.ts:86 | removing another user's client leaves a user's list unchanged |
| Store.ClientsOfReplaceOther | app/api/clients/route.ts:62-66 | replacing another user's client by one of theirs leaves a user's list unchanged |
| Store.ClientsOfRemove | app/api/clients/route.ts:86 | removing one row shortens its owner's list by one and no other list |
| Store.SameClientIds | app/api/cases/route.ts:43-46 | rewriting clients without touching identifiers keeps them distinct and bounded |
| Store.InsertCaseValid | app/api/cases/route.ts:36-46 | inserting a case under the next identifier, with the clients' identifiers untouched, keeps the store invariant |
| Common.Filter | app/cases/page.tsx:67 | `Array.prototype.filter`: the result is an order-preserving subsequence and contains exactly the elements that satisfy the predicate |
| Common.Count | app/api/stats/route.ts:20-22 | `countDocuments`: at most the length, and zero exactly when no element satisfies the predicate |
| Common.FilterLengthIsCount | app/api/stats/route.ts:46-49 | `.filter(p).length` equals the count of p |
| Common.FirstIndex | app/api/cases/route.ts:43 | the first match: it satisfies the predicate and no earlier element does; none means no element does |
| Common.InsertDesc | app/api/cases/route.ts:12 | inserting adds exactly the one element (a multiset) and puts it at the head or behind the old head |
| Common.InsertDescSorted | app/api/cases/route.ts:12 | inserting into a sequence sorted by descending key keeps it sorted |
| Common.SortDesc | app/api/cases/route.ts:12 | `.sort({ key: -1 })`: the result is a permutation of the input in descending key order |
| Common.Lower | app/cases/page.tsx:68-70 | `toLowerCase` on ASCII: same length, each letter lower-cased, no upper-case letter left |
| Common.LowerIdempotent | app/cases/page.tsx:68-70 | lower-casing twice is lower-casing once |
| Common.SearchTermCaseIrrelevant | app/cases/page.tsx:68-70 | searching a lower-cased field for a term or for its lower-cased form gives the same answer; both pages' searches rest on it |
| Common.ContainsAtOffset | app/cases/page.tsx:68 | `includes` holds iff the needle occurs at some offset |
| Common.ContainsEmpty | app/cases/page.tsx:68 | every string includes the empty string |
| Common.Decimal | app/api/cases/route.ts:35 | `toString()` of a natural: a non-empty string of digits, one digit exactly below 10 |
| Common.DecimalRoundTrip | app/api/cases/route.ts:35 | reading back the numeral of n gives n |
| Common.PadZeros | app/api/cases/route.ts:35 | `padStart(width, '0')`: the result is at least the width long and unchanged when already that long |
| Common.PadZerosValue | app/api/cases/route.ts:35 | zero padding keeps a numeral of the same value |
| Bcrypt.Truncated | app/api/register/route.ts:21 | bcrypt reads at most 72 characters of a password, all of a shorter one |
| Bcrypt.Hash | app/api/register/route.ts:21 | a digest keeps the salt it was made with and at most 72 characters of the password, however long the password |
| Bcrypt.Compare | app/api/user/password/route.ts:20 | a candidate of at most 72 characters verifies iff it is the hashed key itself; a digest with a longer key accepts nothing |
| Bcrypt.HashThenCompare | app/api/register/route.ts:21 | a password verifies against its own hash, whatever the salt |
| Bcrypt.CompareHashIff | app/api/user/password/route.ts:20 | a candidate verifies against a hash iff it agrees with the hashed password on the first 72 characters |
| Bcrypt.ShortPasswordsDistinguished | app/api/user/password/route.ts:20 | different passwords of at most 72 characters never verify against each other's hash |
| ClientsApi.Summaries | app/api/clients/route.ts:14-22 | one entry per client, in order, whose id, name, email, phone, status, lastContact and caseCount are the client's own; the owner is not part of an entry |
| ClientsApi.DuplicateField | app/api/clients/route.ts:41 | the field named in the message is the first key of the key pattern, or "field" without a pattern |
| ClientsApi.InsertFailure | app/api/clients/route.ts:39-47 | a duplicate key answers 400, any other failure 500 |
| ClientsApi.ListClients | app/api/clients/route.ts:7-23 | no session gives 401; otherwise 200 with exactly the user's clients (a multiset), projected, most recently contacted first |
| ClientsApi.CreateClient | app/api/clients/route.ts:25-49 | 401 without a session; a body failing validation or an insert failure answers its error and changes nothing; otherwise one client, owned by the caller whatever the body says, is appended and returned; other users' lists are unchanged |
| ClientsApi.ApplyPatch | app/api/clients/route.ts:57-64 | `$set` changes exactly the paths the body names and keeps every other path and the id |
| ClientsApi.ApplyPatchIdempotent | app/api/clients/route.ts:64 | applying the same update twice is applying it once |
| ClientsApi.UpdateCanLeaveEnum | app/api/clients/route.ts:64 | an update runs no enum validator, so a stored status can leave the schema's list |
| ClientsApi.UpdateCanMoveClient | app/api/clients/route.ts:57-64 | a body naming userId moves the client to another user's list |
| ClientsApi.UpdateClient | app/api/clients/route.ts:51-74 | 401 without a session, 400 without an id, 500 on a malformed id, 404 when the caller owns no client with that id; otherwise exactly that client is patched and returned; other users' lists are unchanged unless the body reassigns the owner |
| ClientsApi.DeleteOwned | app/api/clients/route.ts:86 | `findOneAndDelete` removes at most one client and adds none |
| ClientsApi.DeleteOwnedRemoves | app/api/clients/route.ts:86 | with distinct ids, afterwards the caller has no client with that id, and their list is one shorter exactly when there was one |
| ClientsApi.DeleteOwnedIdempotent | app/api/clients/route.ts:83-88 | deleting twice is deleting once |
| ClientsApi.DeleteOwnedKeepsOthers | app/api/clients/route.ts:86 | other users' clients are untouched by a delete |
| ClientsApi.DeleteClient | app/api/clients/route.ts:76-89 | 401 without a session, 400 without an id, 500 on a malformed id; otherwise "Deleted successfully" whether or not anything matched, with the table as the delete leaves it |
| CasesApi.Summaries | app/api/cases/route.ts:14-25 | one entry per case, in order, whose ten listed fields (id, case number, title, client name, status, type, start date, priority, next hearing, value) are the case's own; owner, notes and documents are not part of an entry |
| CasesApi.ListCases | app/api/cases/route.ts:7-26 | no session gives 401; otherwise 200 with exactly the user's cases (a multiset), projected, latest start date first |
| CasesApi.DecimalBelowThousand | app/api/cases/route.ts:35 | a draw below 1000 has at most three digits |
| CasesApi.DrawDigits | app/api/cases/route.ts:35 | the padded draw is three digits that denote the draw |
| CasesApi.CaseNumber | app/api/cases/route.ts:39 | the case number starts with "CS-" and is seven characters longer than the year's numeral |
| CasesApi.ParseCaseNumber | app/api/cases/route.ts:39 | a case number reads back to a year and a draw below 1000 |
| CasesApi.DecimalValueBound | app/api/cases/route.ts:35 | three digits denote a number below 1000 |
| CasesApi.CaseNumberRoundTrip | app/api/cases/route.ts:35-39 | a case number reads back to the year and draw it was made from |
| CasesApi.CaseNumberInjective | app/api/cases/route.ts:35-40 | two case numbers are equal iff they come from the same year and draw, so two cases can share one |
| CasesApi.BumpClient | app/api/cases/route.ts:43-46 | the first client of the user with that name gets caseCount + 1 and status Active, every other client is unchanged; with no such client nothing changes |
| CasesApi.SecondNamesakeUntouched | app/api/cases/route.ts:43-46 | of two same-named clients of a user only the first is bumped |
| CasesApi.BumpKeepsOthers | app/api/cases/route.ts:43-46 | bumping never changes another user's clients |
| CasesApi.CreateCase | app/api/cases/route.ts:28-49 | 401 without a session; a body failing validation ends in 500 with nothing changed; otherwise the case, owned by the caller and numbered from the current year (of `now`) and the draw whatever the body says, is appended and returned, and the named client is bumped |
| StatsApi.IsActiveCase | app/api/stats/route.ts:20 | a case is active iff its status is one of the schema's statuses other than Closed and On Hold |
| StatsApi.IsPendingCase | app/api/stats/route.ts:22 | a case is pending iff its priority is High and it is active, On Hold, or of a status outside the schema: every non-Closed status counts |
| StatsApi.Revenue | app/api/stats/route.ts:25-27 | the reduce over the values: never negative when no value is, and 0 when every value is 0 |
| StatsApi.RevenueAppend | app/api/stats/route.ts:27 | the value sum of two lists is the sum of their sums |
| StatsApi.Slot | app/api/stats/route.ts:35-41 | each entry's month is in 0..11 and its label is that month's name |
| StatsApi.Window | app/api/stats/route.ts:33-42 | the window has six entries; entry k is today with its month set to the current month minus 5 - k |
| StatsApi.SlotPushed | app/api/stats/route.ts:35-41 | the entry pushed when the counter is i is window entry 5 - i |
| StatsApi.LastSixMonths | app/api/stats/route.ts:33-42 | the loop builds exactly the window; its last entry is the current month and year, and the entries never go back in time |
| StatsApi.WindowEndsToday | app/api/stats/route.ts:34-41 | the last entry is the current month and year |
| StatsApi.WindowNonDecreasing | app/api/stats/route.ts:34-41 | the entries are in chronological order (non-decreasing) |
| StatsApi.SlotStep | app/api/stats/route.ts:36 | consecutive entries never go back in time |
| StatsApi.WindowEarlyInMonth | app/api/stats/route.ts:33-42 | on days 1 to 28 the entries are exactly the current month and the five before it, across the year boundary |
| StatsApi.SetMonthsOnOctoberThirtyFirstA | app/api/stats/route.ts:35-36 | on 31 October setMonth to May and to July keeps the 31st, and setMonth to June runs on to 1 July |
| StatsApi.SetMonthsOnOctoberThirtyFirstB | app/api/stats/route.ts:35-36 | on 31 October setMonth to August keeps the 31st, and setMonth to September runs on to 1 October |
| StatsApi.WindowOnOctoberThirtyFirst | app/api/stats/route.ts:33-42 | on 31 October the window is May, Jul, Jul, Aug, Oct, Oct: June and September are missing |
| StatsApi.InSlot | app/api/stats/route.ts:46-49 | the cases a bar covers: in order, exactly the cases whose start date lies in the entry's month and year |
| StatsApi.MonthlyData | app/api/stats/route.ts:45-52 | one bar per window entry, labelled with that entry's month name |
| StatsApi.RevenueData | app/api/stats/route.ts:55-64 | one bar per window entry, labelled with that entry's month name, so both charts carry identical labels in identical order |
| StatsApi.ChartBucket | app/api/stats/route.ts:45-64 | bar k of the case chart has entry k's label and counts the cases started in that month and year; bar k of the revenue chart has the same label and is the value sum of those same cases |
| StatsApi.NoCasesNoFigures | app/api/stats/route.ts:20-64 | with no cases all counts, the revenue and every bar are 0 |
| StatsApi.TotalHitsSplit | app/api/stats/route.ts:45-52 | the case-slot matches split into the first bar and the rest |
| StatsApi.ChartTotal | app/api/stats/route.ts:45-52 | the bars of the case chart add up to the number of (case, entry) matches |
| StatsApi.TotalHitsZero | app/api/stats/route.ts:45-52 | an empty window has no matches |
| StatsApi.HitsNone | app/api/stats/route.ts:48 | a case outside every entry's month is counted nowhere |
| StatsApi.HitsAtMostOne | app/api/stats/route.ts:48 | with distinct entries each case is counted at most once |
| StatsApi.TotalHitsBound | app/api/stats/route.ts:45-52 | with distinct entries the matches are at most the number of cases |
| StatsApi.ChartCountsBounded | app/api/stats/route.ts:33-52 | on days 1 to 28 the case chart sums to at most the number of cases |
| StatsApi.WindowSlotsDistinct | app/api/stats/route.ts:33-42 | on days 1 to 28 no two window entries name the same month of the same year |
| StatsApi.InWindowCases | app/api/stats/route.ts:45-64 | in order, exactly the cases whose start date lies in some month of the window |
| StatsApi.ValueHitsZero | app/api/stats/route.ts:55-64 | an empty window adds no value |
| StatsApi.ValueHitsSplit | app/api/stats/route.ts:55-64 | the value a window adds splits into the first bar's value sum and the rest |
| StatsApi.RevenueChartTotal | app/api/stats/route.ts:55-64 | the revenue bars add up to each case's value counted once per entry it starts in |
| StatsApi.CaseValueHitsNone | app/api/stats/route.ts:58-61 | a case started outside every entry adds no revenue to the chart |
| StatsApi.CaseValueHitsDistinct | app/api/stats/route.ts:58-61 | with distinct entries a case adds its value once when it started in the window and nothing otherwise |
| StatsApi.ValueHitsInWindow | app/api/stats/route.ts:55-64 | with distinct entries the value the window adds is the value sum of the cases started in it |
| StatsApi.RevenueChartWindow | app/api/stats/route.ts:33-64 | on days 1 to 28 the revenue bars add up to the value sum of exactly the cases started in the six months of the window |
| StatsApi.HitsUnfold | app/api/stats/route.ts:48 | the matches of a window suffix are the first entry's plus the rest |
| StatsApi.ChartOfOne | app/api/stats/route.ts:45-52 | the chart of a single case sums to the number of entries it matches |
| StatsApi.HitsOfJulyCase | app/api/stats/route.ts:48 | a July case matches the window May, Jul, Jul, Aug, Oct, Oct of its year twice |
| StatsApi.JulyCaseCountedTwice | app/api/stats/route.ts:33-52 | on 31 October one case opened in July adds 2 to the case chart |
| StatsApi.NewCaseCounted | app/api/stats/route.ts:20-27 | a new Open case raises the active count by one and the revenue by its value |
| StatsApi.GetStats | app/api/stats/route.ts:9-79 | 401 without a session; otherwise the counts of the caller's active and pending cases and of their clients, the value sum of all their cases, and both charts over the window; the counts are bounded by the case count and the last bar is the current month |
| RegisterApi.Account | app/api/register/route.ts:21-27 | the stored account has the given id, name, email and creation time, the lawyer role, and a digest of the password under the drawn salt that the password verifies against |
| RegisterApi.AccountPassesValidation | app/api/register/route.ts:21-27 | the stored account is what the user schema builds from the handler's fields, so creation cannot fail validation |
| RegisterApi.RegisteredEmailTaken | app/api/register/route.ts:16-19 | once an email is registered, a second registration with it finds an account |
| RegisterApi.Register | app/api/register/route.ts:6-38 | a missing or empty field gives 400, a taken email 400, both with nothing changed; otherwise one lawyer account holding the password's hash is appended, the answer is 201 with id, name and email only, and emails stay unique |
| UserApi.Rename | app/api/user/route.ts:15 | only the caller's name changes; ids, emails, hashes, roles and other users are unchanged; a missing name or account changes nothing |
| UserApi.RenameSameName | app/api/user/route.ts:15 | renaming to the current name changes nothing |
| UserApi.RenameTwice | app/api/user/route.ts:15 | renaming twice keeps the second name only |
| UserApi.FirstIndexSameIds | app/api/user/route.ts:15 | `findById` depends only on the identifiers |
| UserApi.UpdateProfile | app/api/user/route.ts:7-21 | 401 without a session; otherwise "Profile updated", even without an account, and the rename applied |
| PasswordApi.SaveValid | app/api/user/password/route.ts:27 | `save()` accepts the loaded account iff the user schema would build exactly that account from its fields |
| PasswordApi.ChangeOutcome | app/api/user/password/route.ts:8-33 | 404 iff the account is missing; 400 iff the current password is given and fails; 200 iff it verifies, a new password is given and the account re-validates on save; only then the account's hash becomes the new password's, which verifies, and no other record changes |
| PasswordApi.OldPasswordRejected | app/api/user/password/route.ts:25-27 | after a change to a different short password the old one no longer verifies |
| PasswordApi.EmptyNameBlocksPasswordChange | app/api/user/password/route.ts:27 | an account whose name was emptied by the profile route can no longer change its password |
| PasswordApi.ChangePassword | app/api/user/password/route.ts:8-33 | 401 without a session; otherwise the answer and the users table are ChangeOutcome's, and clients and cases are unchanged |
| Dates.DaysInMonth | app/calendar/page.tsx:31 | month lengths are 28 to 31, February 29 exactly in Gregorian leap years |
| Dates.AddMonths | app/calendar/page.tsx:34-40 | the Date constructor's carrying gives a valid month the requested number of months away |
| Dates.MonthNumberInjective | app/calendar/page.tsx:34-40 | a valid month is determined by its month number |
| Dates.AddMonthsInverse | app/calendar/page.tsx:34-40 | moving forward and back the same number of months returns to the start |
| Dates.SetMonth | app/api/stats/route.ts:36 | setMonth always yields a valid date |
| Dates.SetMonthLands | app/api/stats/route.ts:36 | setMonth lands in the requested month or the one after, and in the requested one on days 1 to 28 |
| Dates.SetMonthSame | app/api/stats/route.ts:36 | setting the month a date already has changes nothing |
| Dates.FirstOfMonth | app/calendar/page.tsx:32-35 | `new Date(y, m, 1)` is a valid date |
| Dates.DayZero | app/calendar/page.tsx:31 | `new Date(y, m, 0)` is the last day of the month before |
| Dates.YearStartStep | app/calendar/page.tsx:32 | a year starts one year length after the previous one |
| Dates.DaysBeforeNextMonth | app/calendar/page.tsx:32 | the days before month m + 1 are those before month m plus month m's length |
| Dates.YearIsTwelveMonths | app/calendar/page.tsx:32 | the twelve months add up to the year length |
| Dates.Weekday | app/calendar/page.tsx:32 | `getDay` is in 0..6 |
| Dates.FirstOfValid | app/calendar/page.tsx:32 | on a carried month the constructor changes nothing |
| Dates.NextFirstDayNumber | app/calendar/page.tsx:31-32 | the first of the next month is this month's length after this month's first, December included |
| Dates.WeekdayOfShift | app/calendar/page.tsx:32 | k days later the weekday is advanced by k modulo 7 |
| Dates.FirstWeekdayStep | app/calendar/page.tsx:31-32 | the weekday of the next month's first is this month's first advanced by this month's length |
| CalendarPage.DaysInMonthOf | app/calendar/page.tsx:31 | `daysInMonth` is the Gregorian month length: 28 to 31, February 29 exactly in leap years |
| CalendarPage.FirstDayOfMonth | app/calendar/page.tsx:32 | `firstDayOfMonth` is a weekday in 0..6 |
| CalendarPage.FirstDayOfNextMonth | app/calendar/page.tsx:31-32 | each month starts on the weekday after the previous month's last day |
| CalendarPage.PrevMonthOf | app/calendar/page.tsx:34-36 | the previous-month button shows the first of the month before |
| CalendarPage.NextMonthOf | app/calendar/page.tsx:38-40 | the next-month button shows the first of the month after |
| CalendarPage.PrevAfterNext | app/calendar/page.tsx:34-40 | next then previous returns to the first of the shown month |
| CalendarPage.NextAfterPrev | app/calendar/page.tsx:34-40 | previous then next returns to the first of the shown month |
| CalendarPage.YearWrap | app/calendar/page.tsx:34-40 | December advances to January of the next year, January goes back to December of the year before |
| CalendarPage.DayEvents | app/calendar/page.tsx:60-64 | a day's events are, in order, exactly the events whose hearing falls on that day of the shown month and year |
| CalendarPage.EventInItsDayOnly | app/calendar/page.tsx:60-64 | a hearing in the shown month is listed in the cell of its day and no other |
| CalendarPage.CalendarState.constructor | app/calendar/page.tsx:11-13 | the page opens on today with no events and the spinner on |
| CalendarPage.CalendarState.FetchEvents | app/calendar/page.tsx:19-29 | a fetch keeps the cases with a hearing date as events; a failure keeps the old events; the spinner stops |
| CalendarPage.CalendarState.PrevMonth | app/calendar/page.tsx:34-36 | the shown date becomes the first of the previous month; nothing else changes |
| CalendarPage.CalendarState.NextMonth | app/calendar/page.tsx:38-40 | the shown date becomes the first of the next month; nothing else changes |
| CalendarPage.CalendarState.RenderCalendar | app/calendar/page.tsx:42-90 | the grid is as many blank cells as the weekday of the first, then the cells of days 1 to the month's length in order, each with its events and today's mark; 28 to 37 cells |
| CasesPage.EmptyForm | app/cases/page.tsx:19-27 | the new-case form starts empty, with Open, Civil, Medium, today's date and value 0 |
| CasesPage.MatchesSearch | app/cases/page.tsx:68-70 | an empty search term matches every case |
| CasesPage.FilterCases | app/cases/page.tsx:67-73 | the shown cases are an order-preserving subsequence: exactly the cases matching both the search and the status filter |
| CasesPage.FilterCasesKeepsAll | app/cases/page.tsx:67-73 | an empty search with the filter on All shows every case |
| CasesPage.FilterCasesByStatus | app/cases/page.tsx:71 | with a specific status chosen, every shown case has it |
| CasesPage.SearchIgnoresCase | app/cases/page.tsx:68-70 | the search ignores the case of the term |
| CasesPage.PriorityColor | app/cases/page.tsx:75-82 | a priority gets the slate default iff it is not High, Medium or Low |
| CasesPage.PriorityColorsDistinct | app/cases/page.tsx:75-82 | the three priorities have three different colours |
| CasesPage.StatusColor | app/cases/page.tsx:84-92 | a status gets the slate default iff it is Closed or not one of the schema's statuses |
| CasesPage.StatusColorsDistinct | app/cases/page.tsx:84-92 | Open, In Progress and On Hold have three different colours |
| CasesPage.PageState.constructor | app/cases/page.tsx:12-27 | the page opens with no cases, the spinner on, an empty search, the filter on All, the modal closed and the empty form |
| CasesPage.PageState.Visible | app/cases/page.tsx:67-73 | the list shown is a subsequence of the fetched cases |
| CasesPage.PageState.FetchCases | app/cases/page.tsx:33-43 | a fetch replaces the list, a failure keeps it; the spinner ends off |
| CasesPage.PageState.HandleAddCase | app/cases/page.tsx:45-65 | nothing is sent iff the title or client name is empty; otherwise the form is sent; a successful add closes the modal, resets the form and refetches; a failed one changes nothing |
| ClientsPage.BlankForm | app/clients/page.tsx:21-26 | the client form starts empty with status Active |
| ClientsPage.MatchesSearch | app/clients/page.tsx:120-123 | an empty search term matches every client |
| ClientsPage.FilterClients | app/clients/page.tsx:120-123 | the shown clients are an order-preserving subsequence: exactly those whose lower-cased name or email contains the lower-cased term |
| ClientsPage.FilterClientsKeepsAll | app/clients/page.tsx:120-123 | an empty search shows every client |
| ClientsPage.SearchIgnoresCase | app/clients/page.tsx:120-123 | the search ignores the case of the term |
| ClientsPage.Toggled | app/clients/page.tsx:224 | the button's `onClick` update on its own closes that row's open menu and otherwise opens it |
| ClientsPage.ToggleTwice | app/clients/page.tsx:224 | the `onClick` update applied twice restores a closed or own open menu and closes another row's |
| ClientsPage.Pressed | app/clients/page.tsx:34-233 | a whole press on a row's button (the document `mousedown` listener closing the open menu, since the button is outside the menu, then `onClick`) always leaves that row's menu open; on its own open menu this differs from the `onClick` update alone |
| ClientsPage.PageState.constructor | app/clients/page.tsx:11-26 | the page opens with no clients, the spinner on, no error, no client edited, no menu open and the blank form |
| ClientsPage.PageState.Visible | app/clients/page.tsx:120-123 | the list shown is a subsequence of the fetched clients |
| ClientsPage.PageState.FetchClients | app/clients/page.tsx:46-56 | a fetch replaces the list, a failure keeps it; the spinner ends off |
| ClientsPage.PageState.OpenAddModal | app/clients/page.tsx:58-63 | no client is edited, the form is blank, the error cleared and the modal open |
| ClientsPage.PageState.OpenEditModal | app/clients/page.tsx:65-76 | the client's id is remembered, its four fields fill the form, the error is cleared, the menu closes and the modal opens |
| ClientsPage.PageState.HandleSubmit | app/clients/page.tsx:78-106 | an edited client is sent as an update, otherwise an add with today's date; success closes the modal, resets the form and refetches; failure keeps the modal and shows the error's message or the fallback |
| ClientsPage.PageState.HandleDelete | app/clients/page.tsx:108-118 | nothing happens without confirmation; a delete that succeeds closes the menu and refetches; a failed one raises the alert |
| ClientsPage.PageState.ToggleMenu | app/clients/page.tsx:224 | the open menu becomes the toggled one; nothing else changes |
| ClientsPage.PageState.PressMenuButton | app/clients/page.tsx:34-233 | after a press on a row's button that row's menu is open, whatever was open before; nothing else changes |
| ClientsPage.PageState.CloseMenu | app/clients/page.tsx:34-44 | a click outside closes the menu; nothing else changes |
| SettingsPage.HearsToday | app/settings/page.tsx:43 | a case hears today only if it has a hearing whose local year, month and day are today's |
| SettingsPage.HearsWithinWeek | app/settings/page.tsx:44-48 | an upcoming hearing exists and lies neither exactly now nor exactly seven days ahead: both bounds are strict |
| SettingsPage.TodayHearings | app/settings/page.tsx:43 | today's list holds, in order, exactly the cases with a hearing on today's local date |
| SettingsPage.UpcomingHearings | app/settings/page.tsx:44-48 | the upcoming list holds, in order, exactly the cases with a hearing strictly between now and seven days from now |
| SettingsPage.NoHearingNoNotice | app/settings/page.tsx:43-48 | a case without a hearing date is in neither list |
| SettingsPage.TodayAndUpcoming | app/settings/page.tsx:43-48 | a hearing later today is in both lists; one earlier today or exactly now only in today's |
| SettingsPage.WeekBoundExcluded | app/settings/page.tsx:47 | a hearing exactly seven days ahead is not upcoming |
| SettingsPage.CheckPasswords | app/settings/page.tsx:70-77 | no alert iff all three fields are filled and the new password equals the confirmation; an empty field raises the fill-all alert |
| SettingsPage.SettingsState.constructor | app/settings/page.tsx:15-23 | the page opens with empty lists, empty password fields and no save running |
| SettingsPage.SettingsState.FetchNotifications | app/settings/page.tsx:37-55 | a fetch fills both lists from the fetched cases and now; a failure keeps them |
| SettingsPage.SettingsState.HandleUpdatePassword | app/settings/page.tsx:69-89 | a form failing the checks sends nothing and raises its alert; otherwise the current and new passwords are sent, success clears the fields, failure shows the message or the fallback |
| Layout.IsActive | components/Layout.tsx:42 | a highlighted link's path is a prefix of the current path |
| Layout.ActivePrefix | components/Layout.tsx:42 | an active link's path is a prefix of the current path |
| Layout.CasesSubpathActive | components/Layout.tsx:42 | "/cases/123" highlights Cases, "/casesX" does not |
| Layout.DashboardActiveIff | components/Layout.tsx:25-42 | the dashboard link is highlighted iff the path is "/" or begins with "//" |
| Layout.AtMostOneActive | components/Layout.tsx:24-42 | on any path at most one of the five links is highlighted |
| Layout.AvatarInitial | components/Layout.tsx:63 | the avatar shows the first character of the name, or "U" when there is no name or it is empty |

## Left out

- Database and session plumbing. `connectDB` and `getServerSession` are not modelled: the session is an optional user id, and the store is the in-memory class `Store.Db`.
- Failures of `connectDB` or of a query are not modelled. The only store failures modelled are an insert failure in the client POST and validation failures.
- Concurrency between requests is not modelled. Each handler runs to completion on its own, so the race between the duplicate-email check and the insert is not captured.
- bcrypt is a model. Its cost factor is not modelled, and the salt is a parameter (the real function draws it at random).
- Bcrypt.Compare: collision resistance is assumed, not proved. A digest keeps the first 72 characters of the password, so two different keys never verify against each other here; Bcrypt.ShortPasswordsDistinguished and PasswordApi.OldPasswordRejected hold only under this assumption.
- Bcrypt.Truncated counts characters, not UTF-8 bytes, so passwords with non-ASCII characters are cut at a different point.
- `Math.random` in the case number is a parameter below 1000. `new Date()` is a parameter everywhere: the current year, `now` and `today`.
- Time zones are not modelled. A `Moment` carries its local calendar date, so the conversion from instants to local dates, `toDateString`, `toISOString().split('T')[0]` and `toLocaleDateString` are not modelled.
- Dates.SetMonth: a date outside the range JavaScript can represent is not modelled.
- JavaScript numbers are unbounded integers here. Floating-point case values and `curr.value || 0` on a missing value are not modelled; a stored value always exists, since the schema defaults it to 0.
- `toLowerCase` is ASCII lower-casing only.
- A request body's `_id`, values of the wrong JSON type, and cast errors other than a malformed id in the client routes are not modelled.
- The `.toObject()` spread in the POST answers is not modelled: the answer is the stored record itself.
- CasesPage.PageState.HandleAddCase: the fetches a handler starts without waiting for them are modelled as finishing before it returns.
- ClientsPage.PageState.HandleDelete: likewise, the refetch it starts without waiting is modelled as finishing before it returns.
- The unused `dateStr` in `renderCalendar` is not modelled. The calendar's markup is not modelled either; only the cell contents are.
- The settings page's profile tab (`handleUpdateProfile`, `profileName`) and its tab switching are not modelled. The route it calls is `UserApi.UpdateProfile`.
- The clients page's avatar letter and status badge colours are not modelled, and neither are the mobile menu state (`isMobileMenuOpen`) and sign-out in the frame. All of these are presentational.
- The notes, documents and case-by-id routes are not modelled. Only their record shapes are, in `Schemas`.
- The login and register pages, the dashboard page, the `fetch` service wrappers, the card component, the type declarations and the middleware are not modelled. They are UI, transport or configuration.
- StatsApi.GetStats: `revenueYTD` sums the values of all the caller's cases, whatever their start year, as the code does. The name suggests the current year only.
- StatsApi.LastSixMonths: on the 29th to the 31st the window follows setMonth's day overflow, so a month can appear twice and another not at all. WindowOnOctoberThirtyFirst and JulyCaseCountedTwice exhibit such a day. The chronological-order and at-most-once properties are stated for all days and for days 1 to 28 respectively.
