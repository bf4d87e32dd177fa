# EnviroVision core, modelled in Dafny

EnviroVision is an Android app for reporting waste incidents. A citizen reports an
incident. An administrator works through the reports on a dashboard, changing their
status and attaching an "after" photo. The app also shows statistics, a smart-bin map,
tree-plantation drives and a cached list of incident categories.

This project models the app's logic and proves properties of that model:

- the `Incident` record and the incident store it is saved in;
- the filter, sort, count and group pipelines of the view models;
- the three admin paths that rewrite an incident's status;
- report submission;
- the sign-in state machine and the router's choice of first screen;
- the comma-list Room converter;
- the category mappers, and the remote-first category repository over its Room cache.

Pure code is modelled as functions and lemmas. A view model that reassigns its fields is
a class with those fields.

Everything outside the app is a parameter of the operations that use it:

- Firebase Auth, Firestore and Storage calls enter as their outcome: a `Result` carrying
  the value or the exception's message.
- The Gemini call enters as its parsed answer or its error.
- So do the clock, `UUID.randomUUID()`, Gson, and date parsing and formatting.

## What the code does not do

Three rules one might expect of such an app are absent from the code, and the model
follows the code.

- **Status changes.** There is no status transition table and no final status. Every
  admin path accepts any new status from any current one.
- **The after-image rule.** Only the dashboard path asks for an after-image, and only
  for the exact string "Resolved". That check is case-sensitive, while the dashboard
  buckets ignore case.
- **Severity sort.** It is a stable sort on rank alone: equal ranks keep their input
  order. Ties are not broken newest-first.

Modules:

| module | role |
|---|---|
| `Wrappers` | `Option` (Kotlin `T?`), `Result` (a value or a thrown exception), `MapAll` (`map` with a throwing lambda) |
| `Text` | JVM `isBlank`, ASCII `lowercase`, `equals`/`contains` with `ignoreCase`, `startsWith` |
| `Seqs` | `filter`, `count`, stable `sortedBy`, `groupBy` on an insertion-ordered map kept as `(key, group)` pairs, `mapValues { size }`, `minus(element)` |

The remaining modules follow the source files one by one: `Incidents`, `AdminDashboard`,
`MyReports`, `Statistics`, `HomeScreen`, `SmartBins`, `Users`, `AdminIncidentDetail`,
`ReportIncident`, `AdminConsole`, `IncidentAdmin`, `Plantation`, `Auth`, `AuthRouting`,
`RoomConverters`, `CategoryDomain`, `LocalCategoryMappers`, `NetworkCategoryMappers` and
`CategoryRepository`.

## Model

| member | source | states |
|---|---|---|
| Incidents.NewIncident | app/src/main/java/com/example/wastemanagement/data/Incident.kt:7-24 | A new incident has status "Reported" and severity "Medium", and its timestamp is the construction time. afterImageUri, resolvedComment, assignedTo and masterIncidentId are null; imageUris and mergedIds are empty; the strings are empty. |
| Incidents.Put | app/src/main/java/com/example/wastemanagement/data/IncidentDao.kt:13-14 | A REPLACE insert keyed by `id`: the record becomes the one stored under its id, every other key is untouched, and "every record is stored under its own id" is preserved. |
| Incidents.Remove | app/src/main/java/com/example/wastemanagement/data/IncidentDao.kt:25-26 | A delete by primary key: the id is gone, every other key is untouched, and keying by id is preserved. |
| Incidents.PutOverwrites | app/src/main/java/com/example/wastemanagement/data/Incident.kt:8-9 | Re-inserting under the same id keeps only the second record. |
| AdminDashboard.InBucket | app/src/main/java/com/example/wastemanagement/screens/feature/AdminDashboardViewModel.kt:42-46 | "Pending" keeps "Reported" and "In Progress", "Resolved" keeps "Resolved" (both ignoring case), and any other value keeps everything. |
| AdminDashboard.SelectedMembers | app/src/main/java/com/example/wastemanagement/screens/feature/AdminDashboardViewModel.kt:42-63 | An incident survives the three filters iff it passes the bucket, lies in the date range with both ends included (no range keeps all), and matches the query, which is always true for a blank query. |
| AdminDashboard.RejectedOnlyUnderAll | app/src/main/java/com/example/wastemanagement/screens/feature/AdminDashboardViewModel.kt:42-46 | A "Rejected" incident is in neither the Pending nor the Resolved bucket, so only "All" shows it. |
| AdminDashboard.SelectedIsSubsequence | app/src/main/java/com/example/wastemanagement/screens/feature/AdminDashboardViewModel.kt:42-63 | Before sorting, the result is a subsequence of the input, in input order. |
| AdminDashboard.SeverityRank | app/src/main/java/com/example/wastemanagement/screens/feature/AdminDashboardViewModel.kt:67-74 | The rank is in 0..3. It is 3, 2 or 1 exactly when the lower-cased severity is "high", "medium" or "low". |
| AdminDashboard.SortStepPermutes | app/src/main/java/com/example/wastemanagement/screens/feature/AdminDashboardViewModel.kt:65-76 | The sort step is a permutation. Any name other than "Oldest" and "Severity" (including "Newest") leaves the list unchanged. |
| AdminDashboard.OldestOrder | app/src/main/java/com/example/wastemanagement/screens/feature/AdminDashboardViewModel.kt:66 | "Oldest" gives non-decreasing timestamps. Incidents with equal timestamps keep their input order (stable). |
| AdminDashboard.SeverityStable | app/src/main/java/com/example/wastemanagement/screens/feature/AdminDashboardViewModel.kt:67-74 | The descending severity sort, done as the stable ascending sort on the negated rank, keeps incidents of equal rank in their input order. |
| AdminDashboard.SeverityDescends | app/src/main/java/com/example/wastemanagement/screens/feature/AdminDashboardViewModel.kt:67-74 | The severity sort yields non-increasing rank. |
| AdminDashboard.SeverityOrder | app/src/main/java/com/example/wastemanagement/screens/feature/AdminDashboardViewModel.kt:67-74 | "Severity" gives non-increasing rank. Incidents of equal rank keep their input order. |
| AdminDashboard.NewestKeepsFetchOrder | app/src/main/java/com/example/wastemanagement/screens/feature/AdminDashboardViewModel.kt:127-132 | "Newest" does not sort. When the fetched list is newest-first (as the query asks), so is the displayed list. |
| AdminDashboard.Stats | app/src/main/java/com/example/wastemanagement/screens/feature/AdminDashboardViewModel.kt:135-140 | totalIncidents is the list size and totalUsers is the user count. |
| AdminDashboard.BucketsDisjoint | app/src/main/java/com/example/wastemanagement/screens/feature/AdminDashboardViewModel.kt:137-138 | No status counts as both pending and resolved. |
| AdminDashboard.StatsAgreeWithBuckets | app/src/main/java/com/example/wastemanagement/screens/feature/AdminDashboardViewModel.kt:135-139 | pending + resolved is at most the total. With no date range and no search, each count equals the size of its bucket, whatever the sort. |
| AdminDashboard.StatusUpdate | app/src/main/java/com/example/wastemanagement/screens/feature/AdminDashboardViewModel.kt:88-116 | Exactly "Resolved" with no image returns before any upload or write. The document is updated iff it exists and (the status is not "Resolved", or the image was given and uploaded). Only that document changes: status alone, or status, URL and comment for "Resolved". |
| AdminDashboard.LowercaseResolvedSkipsImageRule | app/src/main/java/com/example/wastemanagement/screens/feature/AdminDashboardViewModel.kt:93 | "resolved" bypasses the image rule: it is written with no image and then counts in the Resolved bucket. |
| AdminDashboard.DashboardViewModel.constructor | app/src/main/java/com/example/wastemanagement/screens/feature/AdminDashboardViewModel.kt:29-37 | The initial fields: no stats, no incidents, query "", status "All", sort "Newest", no date range. |
| AdminDashboard.DashboardViewModel.OnSearchQueryChanged | app/src/main/java/com/example/wastemanagement/screens/feature/AdminDashboardViewModel.kt:83 | Sets only the query. |
| AdminDashboard.DashboardViewModel.OnStatusFilterChanged | app/src/main/java/com/example/wastemanagement/screens/feature/AdminDashboardViewModel.kt:84 | Sets only the status filter. |
| AdminDashboard.DashboardViewModel.OnSortChanged | app/src/main/java/com/example/wastemanagement/screens/feature/AdminDashboardViewModel.kt:85 | Sets only the sort. |
| AdminDashboard.DashboardViewModel.OnDateRangeSelected | app/src/main/java/com/example/wastemanagement/screens/feature/AdminDashboardViewModel.kt:86 | Sets only the date range. |
| AdminDashboard.DashboardViewModel.FetchDashboardData | app/src/main/java/com/example/wastemanagement/screens/feature/AdminDashboardViewModel.kt:124-146 | A failed incident query changes nothing. A successful one publishes the list first. The stats follow only if the user query also succeeds. |
| AdminDashboard.DashboardViewModel.UpdateIncidentStatus | app/src/main/java/com/example/wastemanagement/screens/feature/AdminDashboardViewModel.kt:88-122 | Performs `StatusUpdate`. Only a completed update refetches; every early return leaves the dashboard as it was. After a completed update the refetch publishes the new list and, when the user count also loads, the new stats; a failed incident query keeps both, and a failed user count keeps the stats. |
| MyReports.RelativeDate | app/src/main/java/com/example/wastemanagement/screens/myreports/MyReportsViewModel.kt:83-103 | An unparsable string is returned unchanged. Same year and day gives "Today". Same year and the previous day gives "Yesterday". Anything else gives the formatted date. |
| MyReports.NewYearIsNotYesterday | app/src/main/java/com/example/wastemanagement/screens/myreports/MyReportsViewModel.kt:98-101 | The last day of a year, seen on 1 January, is a formatted date and not "Yesterday". |
| MyReports.ByStatusMembers | app/src/main/java/com/example/wastemanagement/screens/myreports/MyReportsViewModel.kt:38-44 | "All" keeps everything. Any other value keeps exactly the incidents whose status equals it, case-sensitive, in input order. |
| MyReports.GroupedCorrect | app/src/main/java/com/example/wastemanagement/screens/myreports/MyReportsViewModel.kt:46-50 | Group keys are the distinct headings in order of first occurrence. Every group is non-empty and holds exactly the incidents with its heading, in order. The groups together are a permutation of the filtered list. |
| MyReports.UndoDeleteReinserts | app/src/main/java/com/example/wastemanagement/screens/myreports/MyReportsViewModel.kt:61-71 | Delete then undo leaves the store with the card's record under its id and every other record unchanged, whatever was stored under that id before. |
| MyReports.UndoDeleteRestores | app/src/main/java/com/example/wastemanagement/screens/myreports/MyReportsViewModel.kt:61-71 | When the card shows the stored record, undoing its delete restores the store exactly. |
| MyReports.MyReportsViewModel.constructor | app/src/main/java/com/example/wastemanagement/screens/myreports/MyReportsViewModel.kt:30-36 | No incidents, status "All", not refreshing. |
| MyReports.MyReportsViewModel.LoadUserIncidents | app/src/main/java/com/example/wastemanagement/screens/myreports/MyReportsViewModel.kt:105-114 | With a signed-in user the list becomes what the user's incident query emits. Signed out, nothing changes. |
| MyReports.MyReportsViewModel.OnFilterSelected | app/src/main/java/com/example/wastemanagement/screens/myreports/MyReportsViewModel.kt:57-59 | Changes only selectedStatus. |
| Statistics.ByTypeMembers | app/src/main/java/com/example/wastemanagement/screens/statistics/StatisticsViewModel.kt:31-38 | "All" keeps everything. Otherwise the type must equal the selection ignoring case. The result is an order-preserving subsequence. |
| Statistics.TypeFilterIsEquality | app/src/main/java/com/example/wastemanagement/screens/statistics/StatisticsViewModel.kt:36 | The type filter is equality, not containment: "Dumping" does not select "Illegal Dumping", while "illegal dumping" does. |
| Statistics.CountsCorrect | app/src/main/java/com/example/wastemanagement/screens/statistics/StatisticsViewModel.kt:41-56 | For type, status and severity: one key per distinct value, in first-occurrence order. Each count is the number of incidents with that value and is at least 1. The counts sum to the list size. |
| Statistics.StatusKeysAreCaseSensitive | app/src/main/java/com/example/wastemanagement/screens/statistics/StatisticsViewModel.kt:47-50 | "resolved" and "Resolved" are separate keys. |
| Statistics.WeeklyCorrect | app/src/main/java/com/example/wastemanagement/screens/statistics/StatisticsViewModel.kt:59-75 | One unparsable date anywhere empties the map. Otherwise the window is today−7..today, both ends included. Entries are keyed by the raw date string, with counts summing to the window's size. |
| Statistics.StatisticsViewModel.constructor | app/src/main/java/com/example/wastemanagement/screens/statistics/StatisticsViewModel.kt:23-28 | No incidents yet; the type selection is "All". |
| Statistics.StatisticsViewModel.OnIncidentTypeSelected | app/src/main/java/com/example/wastemanagement/screens/statistics/StatisticsViewModel.kt:77-79 | Sets only the selection. The count maps, computed from all incidents, do not change. |
| HomeScreen.Counts | app/src/main/java/com/example/wastemanagement/screens/viewmodel/HomeScreenViewModel.kt:33-43 | totalIncidents is the incident count and totalBins is the bin count (the exact status counts are in CountsExact). |
| HomeScreen.CountsBounded | app/src/main/java/com/example/wastemanagement/screens/viewmodel/HomeScreenViewModel.kt:36-40 | open + resolved is at most the total. The exact "Reported" and "Resolved" counts are at most the dashboard's case-insensitive pending and resolved counts. |
| HomeScreen.CountsExact | app/src/main/java/com/example/wastemanagement/screens/viewmodel/HomeScreenViewModel.kt:36-40 | openIssues is the number of incidents whose status is exactly "Reported", and resolvedIncidents the number whose status is exactly "Resolved". |
| HomeScreen.OpenIssuesAreCaseSensitive | app/src/main/java/com/example/wastemanagement/screens/viewmodel/HomeScreenViewModel.kt:38 | An incident "In Progress" or "reported" adds nothing to openIssues, while the dashboard counts it as pending. |
| HomeScreen.ByCategoryMembers | app/src/main/java/com/example/wastemanagement/screens/viewmodel/HomeScreenViewModel.kt:48-54 | "All" or null keeps everything. Otherwise the type must equal the category ignoring case. The result keeps input order. |
| HomeScreen.SearchResultsCorrect | app/src/main/java/com/example/wastemanagement/screens/viewmodel/HomeScreenViewModel.kt:56-70 | Blank text gives two empty lists. Otherwise an incident is found iff its description or type contains the text, and a bin iff its name does, ignoring case. Both results are subsequences of their inputs. |
| HomeScreen.HomeScreenViewModel.constructor | app/src/main/java/com/example/wastemanagement/screens/viewmodel/HomeScreenViewModel.kt:24-45 | Search text "", category "All". |
| HomeScreen.HomeScreenViewModel.OnSearchTextChange | app/src/main/java/com/example/wastemanagement/screens/viewmodel/HomeScreenViewModel.kt:72-74 | Sets only the search text. |
| HomeScreen.HomeScreenViewModel.OnCategorySelected | app/src/main/java/com/example/wastemanagement/screens/viewmodel/HomeScreenViewModel.kt:76-78 | Sets only the category. |
| SmartBins.BinColor | app/src/main/java/com/example/wastemanagement/screens/map/SmartBinMapScreen.kt:66-72 | Below 50 is green, 50 to 84 yellow, 85 and above red (including values over 100). Every integer, negatives included, gets exactly one colour. |
| SmartBins.BinColorMonotone | app/src/main/java/com/example/wastemanagement/screens/map/SmartBinMapScreen.kt:66-72 | A fuller bin never gets a less severe colour. |
| Users.FilteredUsersCorrect | app/src/main/java/com/example/wastemanagement/screens/users/UsersViewModel.kt:42-50 | A blank query returns the list unchanged. Otherwise a user is kept iff the display name or the e-mail contains the query, ignoring case. The result is an order-preserving subsequence. |
| Users.AnonymousNeverMatches | app/src/main/java/com/example/wastemanagement/screens/users/UsersViewModel.kt:47-48 | A user with no display name and no e-mail never matches a non-blank query. |
| Users.UsersViewModel.constructor | app/src/main/java/com/example/wastemanagement/screens/users/UsersViewModel.kt:23-24 | No users; the query is "". |
| Users.UsersViewModel.FetchAllUsers | app/src/main/java/com/example/wastemanagement/screens/users/UsersViewModel.kt:31-40 | A successful fetch replaces the list. A failure keeps it. |
| Users.UsersViewModel.OnSearchQueryChange | app/src/main/java/com/example/wastemanagement/screens/users/UsersViewModel.kt:57-59 | Changes only the query. |
| AdminIncidentDetail.AdminIncidentDetailViewModel.constructor | app/src/main/java/com/example/wastemanagement/screens/admindetail/AdminIncidentDetailViewModel.kt:30-40 | No incident, status "", no photos. |
| AdminIncidentDetail.AdminIncidentDetailViewModel.OnIncidentLoaded | app/src/main/java/com/example/wastemanagement/screens/admindetail/AdminIncidentDetailViewModel.kt:48-50 | selectedStatus mirrors the loaded incident's status, or "" when it is missing. |
| AdminIncidentDetail.AdminIncidentDetailViewModel.OnStatusSelected | app/src/main/java/com/example/wastemanagement/screens/admindetail/AdminIncidentDetailViewModel.kt:69-71 | Any string is accepted. Only the status changes. |
| AdminIncidentDetail.AdminIncidentDetailViewModel.OnAfterPhotosSelected | app/src/main/java/com/example/wastemanagement/screens/admindetail/AdminIncidentDetailViewModel.kt:73-75 | The new URIs are appended after the existing ones, in order. |
| AdminIncidentDetail.AdminIncidentDetailViewModel.OnAfterPhotoRemoved | app/src/main/java/com/example/wastemanagement/screens/admindetail/AdminIncidentDetailViewModel.kt:77-79 | Only the first occurrence of the URI is removed; the rest is unchanged. |
| AdminIncidentDetail.AdminIncidentDetailViewModel.UpdateIncidentStatus | app/src/main/java/com/example/wastemanagement/screens/admindetail/AdminIncidentDetailViewModel.kt:81-106 | Nothing happens without an incident. Only the first photo is uploaded, and only when it does not start with "http". The saved record has the selected status and the uploaded URL (or the old afterImageUri); every other field is unchanged. With no photos, "Resolved" is saved too. A failed upload writes nothing. Each outcome shows its own toast. |
| ReportIncident.BuildReport | app/src/main/java/com/example/wastemanagement/screens/report/ReportIncidentViewModel.kt:203-214 | The id is incidentId whenever it is non-null (blank included), else the fresh UUID. The status is the loaded status when editing, else "Reported". timestamp and reportedBy are stamped anew. The resolution and merge fields take their defaults. |
| ReportIncident.EditDropsResolution | app/src/main/java/com/example/wastemanagement/screens/report/ReportIncidentViewModel.kt:203-214 | Editing a resolved incident keeps its id and status and drops its after-image. |
| ReportIncident.ReportIncidentViewModel.constructor | app/src/main/java/com/example/wastemanagement/screens/report/ReportIncidentViewModel.kt:41-70 | Editing mode holds iff incidentId is non-null and not blank. The form fields take their defaults. |
| ReportIncident.ReportIncidentViewModel.OnIncidentLoaded | app/src/main/java/com/example/wastemanagement/screens/report/ReportIncidentViewModel.kt:107-128 | The form takes the loaded incident's type, description, severity and images. A missing incident leaves the form as it was. |
| ReportIncident.ReportIncidentViewModel.OnImagesSelected | app/src/main/java/com/example/wastemanagement/screens/report/ReportIncidentViewModel.kt:156-158 | The images are appended. |
| ReportIncident.ReportIncidentViewModel.OnImageRemoved | app/src/main/java/com/example/wastemanagement/screens/report/ReportIncidentViewModel.kt:160-162 | Only the first occurrence is removed. |
| ReportIncident.ReportIncidentViewModel.GenerateWithAi | app/src/main/java/com/example/wastemanagement/screens/report/ReportIncidentViewModel.kt:72-105 | A blank description emits a message and never calls the model. Otherwise the answer sets type and severity, or "AI failed: …" is emitted. isAiLoading ends false. |
| ReportIncident.ReportIncidentViewModel.DeleteReport | app/src/main/java/com/example/wastemanagement/screens/report/ReportIncidentViewModel.kt:233-241 | Deletes by the id given to the form, whether or not it is blank. "Report deleted successfully!" is emitted only when the delete does not throw. Without an id it does nothing. The form fields never change. |
| ReportIncident.ReportIncidentViewModel.SubmitOrUpdateReport | app/src/main/java/com/example/wastemanagement/screens/report/ReportIncidentViewModel.kt:181-231 | Signed out: an error event and no write. A blank type or description: an error event, no write, and isLoading untouched. Otherwise an edit calls updateIncident and a new report insertIncident, with the built record. Success or failure emits one message, and isLoading ends false. |
| AdminConsole.UpdateIncidentStatus | app/src/main/java/com/example/wastemanagement/screens/admin/AdminViewModel.kt:50-55 | The copy differs from the incident only in its status, which is the given string. The id is kept. |
| AdminConsole.UploadAfterPhoto | app/src/main/java/com/example/wastemanagement/screens/admin/AdminViewModel.kt:57-62 | Only afterImageUri changes. Status and id are kept, so a photo alone does not resolve an incident. |
| AdminConsole.StatusRewriteIdempotentAndUndoable | app/src/main/java/com/example/wastemanagement/screens/admin/AdminViewModel.kt:50-55 | Writing the same status twice equals writing it once, and writing the old status back restores the record, so no status is final. |
| AdminConsole.PhotoAndStatusIndependent | app/src/main/java/com/example/wastemanagement/screens/admin/AdminViewModel.kt:50-62 | The photo and status updates touch different fields and commute. |
| AdminConsole.PathsDisagreeOnResolve | app/src/main/java/com/example/wastemanagement/screens/admin/AdminViewModel.kt:50-55 | The dashboard refuses "Resolved" without an image, while this path writes it and leaves the after-image empty. |
| IncidentAdmin.UpdateIncidentStatus | app/src/main/java/com/example/wastemanagement/screens/viewmodel/AdminViewModel.kt:26-31 | Only the status changes, to any given string from any current one. |
| IncidentAdmin.AddAfterImage | app/src/main/java/com/example/wastemanagement/screens/viewmodel/AdminViewModel.kt:33-38 | Only afterImageUri changes; the status is kept. |
| IncidentAdmin.AgreesWithConsole | app/src/main/java/com/example/wastemanagement/screens/viewmodel/AdminViewModel.kt:26-38 | Both admin view models write the same records. |
| IncidentAdmin.StatusUpdateIdempotent | app/src/main/java/com/example/wastemanagement/screens/viewmodel/AdminViewModel.kt:28 | Applying the same status twice equals applying it once. |
| Plantation.DrivesSplit | app/src/main/java/com/example/wastemanagement/screens/plantation/PlantationViewModel.kt:27-33 | Upcoming means dated strictly after now (never undated). Past means strictly before now, or undated. For one shared instant the two are disjoint, a drive dated exactly now is in neither, and both keep the drives' order. |
| Plantation.DrivesAtTwoInstants | app/src/main/java/com/example/wastemanagement/screens/plantation/PlantationViewModel.kt:27-33 | With upcoming filtered at t1 and past at t2, a drive is in both lists iff it is dated strictly between t1 and t2, and in neither iff it is dated in [t2, t1]. |
| Plantation.CreateDrive | app/src/main/java/com/example/wastemanagement/screens/plantation/PlantationViewModel.kt:35-49 | Signed out, nothing is created. Otherwise the event carries the given fields, createdBy is the user, and it has no volunteers. |
| Plantation.RsvpToDrive | app/src/main/java/com/example/wastemanagement/screens/plantation/PlantationViewModel.kt:51-56 | Signed out, nothing is sent. Otherwise the repository gets exactly (event, user). |
| Auth.StoredRole | app/src/main/java/com/example/wastemanagement/screens/login/AuthViewModel.kt:71 | The stored role, or "citizen" when the field is missing. |
| Auth.GoogleRole | app/src/main/java/com/example/wastemanagement/screens/login/AuthViewModel.kt:157-163 | A missing user document gives "citizen"; an existing one gives its stored role. |
| Auth.AuthViewModel.constructor | app/src/main/java/com/example/wastemanagement/screens/login/AuthViewModel.kt:43-56 | authState starts as Loading, user as the current Firebase user, and there is no error and no loading. |
| Auth.AuthViewModel.SignOut | app/src/main/java/com/example/wastemanagement/screens/login/AuthViewModel.kt:182-199 | user is null, both credentials are "", error is null, the state is Unauthenticated, and the Firebase session is closed. |
| Auth.AuthViewModel.CheckCurrentUser | app/src/main/java/com/example/wastemanagement/screens/login/AuthViewModel.kt:63-80 | No user gives Unauthenticated. A user gives Authenticated(role, or "citizen"). A failed role check ends signed out, Unauthenticated, with the error and the admin e-mail and password cleared. The other two branches keep the error, the session and the credentials. |
| Auth.AuthViewModel.SignInAsAdmin | app/src/main/java/com/example/wastemanagement/screens/login/AuthViewModel.kt:85-122 | Blank credentials set an error and leave isLoading and authState alone. Authenticated("admin") needs an existing document with role exactly "admin"; that success opens the session and keeps any earlier error message. A missing document or another role sets its error and signs out of Firebase. A thrown sign-in or lookup sets "Admin login failed: …"; after a failed lookup the user stays signed in to Firebase. A null user changes nothing. Every non-admin outcome keeps authState and user. isLoading ends false. |
| Auth.AuthViewModel.SignInWithGoogle | app/src/main/java/com/example/wastemanagement/screens/login/AuthViewModel.kt:124-180 | The credential, credential-type and token failures each set their own message, keep authState, user and session, and create no record. A failing Firebase sign-in, a null user and a failing lookup change nothing but isLoading; after a failed lookup the Firebase session is open. A missing document creates a citizen record and gives Authenticated("citizen"); an existing one gives its role or "citizen". Both open the session and keep the error. isLoading ends false. |
| AuthRouting.Route | app/src/main/java/com/example/wastemanagement/screens/auth/AuthRouter.kt:15-28 | Exactly Authenticated("admin") goes to admin_dashboard, any other role to citizen_dashboard, and Loading and Unauthenticated to role_selection. Every branch pops auth_router inclusive. |
| AuthRouting.RouteIsCaseSensitive | app/src/main/java/com/example/wastemanagement/screens/auth/AuthRouter.kt:17 | The role "Admin" goes to the citizen dashboard. |
| AuthRouting.NewGoogleUserIsCitizen | app/src/main/java/com/example/wastemanagement/screens/login/AuthViewModel.kt:157-165 | A first-time Google user is routed to the citizen dashboard. |
| RoomConverters.FromString | app/src/main/java/com/example/wastemanagement/data/database/TypeConverters.kt:7-9 | null gives []; otherwise the split on ",". |
| RoomConverters.FromList | app/src/main/java/com/example/wastemanagement/data/database/TypeConverters.kt:12-14 | null gives ""; otherwise the comma join. |
| RoomConverters.SplitShape | app/src/main/java/com/example/wastemanagement/data/database/TypeConverters.kt:8 | fromString(s) has one element more than s has commas, and no element contains a comma. |
| RoomConverters.StringRoundTrip | app/src/main/java/com/example/wastemanagement/data/database/TypeConverters.kt:7-14 | fromList(fromString(s)) == s for every non-null s. |
| RoomConverters.ListRoundTrip | app/src/main/java/com/example/wastemanagement/data/database/TypeConverters.kt:7-14 | fromString(fromList(xs)) == xs for every non-empty xs whose elements have no comma. |
| RoomConverters.EmptyListReadsBackAsOneBlank | app/src/main/java/com/example/wastemanagement/data/database/TypeConverters.kt:8-13 | [] is stored as "" and read back as [""], so the empty list does not round-trip. |
| RoomConverters.CommaSplitsElement | app/src/main/java/com/example/wastemanagement/data/database/TypeConverters.kt:8-13 | An element containing a comma comes back as two elements. |
| CategoryDomain.ParseSeverity | core/local/src/main/java/com/example/wastemanagement/core/local/mappers/CategoryMappers.kt:15-22 | Exactly "Low", "Medium" and "High" are known, case-sensitive. Anything else fails with "Unknown severity level: " followed by the name. |
| CategoryDomain.LowercaseSeverityRejected | core/local/src/main/java/com/example/wastemanagement/core/local/mappers/CategoryMappers.kt:20 | "low" is rejected. |
| CategoryDomain.ParseSeverities | core/network/src/main/java/com/example/wastemanagement/core/network/mappers/CategoryMappers.kt:13-20 | The list maps iff every name is known. The result keeps length and order. Otherwise the first unknown name's error is raised. |
| CategoryDomain.SeverityListRoundTrip | core/local/src/main/java/com/example/wastemanagement/core/local/mappers/CategoryMappers.kt:32-38 | Severities written as names read back unchanged. |
| CategoryDomain.SeverityNameRoundTrip | core/local/src/main/java/com/example/wastemanagement/core/local/mappers/CategoryMappers.kt:15-38 | Every severity written as its name parses back to itself. |
| CategoryDomain.NameListRoundTrip | core/local/src/main/java/com/example/wastemanagement/core/local/mappers/CategoryMappers.kt:15-38 | A list of names that parses is written back as the same names. |
| LocalCategoryMappers.ToDomain | core/local/src/main/java/com/example/wastemanagement/core/local/mappers/CategoryMappers.kt:9-25 | It succeeds iff the JSON decodes and every severity is known. id, type and sub-types are copied. The severities keep their names, length and order. The rules come from the JSON. |
| LocalCategoryMappers.ToEntity | core/local/src/main/java/com/example/wastemanagement/core/local/mappers/CategoryMappers.kt:27-41 | id, type and sub-types are copied. The severity names have the same length and read back to the same severities. The rules column is their JSON. |
| LocalCategoryMappers.DomainRoundTrip | core/local/src/main/java/com/example/wastemanagement/core/local/mappers/CategoryMappers.kt:9-41 | toDomain(toEntity(c)) == c when Gson reads back its own JSON, so the severities round-trip. |
| LocalCategoryMappers.EntityRoundTrip | core/local/src/main/java/com/example/wastemanagement/core/local/mappers/CategoryMappers.kt:9-41 | A row that maps is written back with the same id, type, sub-types and severity names. |
| NetworkCategoryMappers.ToDomain | core/network/src/main/java/com/example/wastemanagement/core/network/mappers/CategoryMappers.kt:8-26 | It succeeds iff every severity is known; an unknown one gives its error and no partial category. Fields are copied. The severities keep length and order. Channels and thresholds are copied verbatim. |
| NetworkCategoryMappers.AgreesWithLocalMapper | core/network/src/main/java/com/example/wastemanagement/core/network/mappers/CategoryMappers.kt:13-20 | The API mapper and the cache mapper give the same category, or the same error, for the same fields. |
| NetworkCategoryMappers.UnknownSeverityRejects | core/network/src/main/java/com/example/wastemanagement/core/network/mappers/CategoryMappers.kt:18 | One unknown severity anywhere rejects the whole category. |
| CategoryRepository.RemoteCategories | core/network/src/main/java/com/example/wastemanagement/core/network/CategoryRemoteDataSourceImpl.kt:14-16 | The API's failure, or its list with every entry mapped. |
| CategoryRepository.UpsertKeepsOthers | core/local/src/main/java/com/example/wastemanagement/core/local/dao/CategoryDao.kt:15-16 | Saving adds exactly the saved ids. Rows whose id is not saved are kept unchanged. Keying by id is preserved. |
| CategoryRepository.UpsertLastWins | core/local/src/main/java/com/example/wastemanagement/core/local/dao/CategoryDao.kt:15-16 | Each saved id holds the row of the last category saved under it. |
| CategoryRepository.SavedCategoriesReadBack | core/local/src/main/java/com/example/wastemanagement/core/local/CategoryLocalDataSourceImpl.kt:15-21 | After saving a list with distinct ids, each category reads back from the cache as itself (given Gson round-trips). |
| CategoryRepository.ReadRows | core/local/src/main/java/com/example/wastemanagement/core/local/CategoryLocalDataSourceImpl.kt:15-17 | Reading the table succeeds iff every row maps. It then lists the rows' categories along some scan that visits each row once; otherwise it fails with some row's error. |
| CategoryRepository.CategoryRepositoryImpl.SaveCategories | core/local/src/main/java/com/example/wastemanagement/core/local/CategoryLocalDataSourceImpl.kt:19-21 | The table becomes the REPLACE-upsert of the mapped rows, in order. |
| CategoryRepository.CategoryRepositoryImpl.LocalCategories | core/local/src/main/java/com/example/wastemanagement/core/local/CategoryLocalDataSourceImpl.kt:15-17 | A reading of the current table. |
| CategoryRepository.CategoryRepositoryImpl.GetCategories | core/data/src/main/java/com/example/wastemanagement/core/data/repository/CategoryRepositoryImpl.kt:16-24 | On remote success the list is saved first and then emitted exactly. A failed fetch or save leaves the table as it was and emits a reading of it. Each collection yields exactly one emission, or the local read's error. |

## Left out

- Compose UI, navigation, dialogs and toasts are left out, except where a toast or event message is the observable result of an operation.
- Coroutines, `stateIn`/`WhileSubscribed` sharing, snapshot listeners and flow timing are left out. Each operation is one sequential step that sees its remote outcomes as parameters. `refresh`'s 1.5 s delay is not modelled.
- Plantation.DrivesSplit: the model reads the clock once per list, as one instant for the whole filter. The source calls `Date()` again for every drive, and the two lists are computed in separately collected flows. Plantation.DrivesAtTwoInstants covers two different instants for the two lists. A clock that moves between drives inside one filter is not modelled.
- Text.Lower: folds only ASCII letters. Kotlin's `lowercase` and `ignoreCase` also fold non-ASCII letters, so non-ASCII text may compare differently.
- Text.IsBlank: uses the JVM's whitespace characters as listed in `Text.IsWhitespace`, not the whole Unicode set.
- Location strings, `LatLng`, `toDouble`/`toDoubleOrNull`, bin coordinates and geocoding involve floating point and are left out. A location is an opaque string.
- Date parsing and formatting (`SimpleDateFormat`, `Calendar`, `LocalDate`) are function parameters. A parsed date is a day number or a (year, day-of-year) pair.
- Statistics.Weekly: takes the date parser as a parameter, so it does not fix which strings parse. A submitted report is stamped `yyyy-MM-dd HH:mm:ss` (ReportIncidentViewModel.kt:201), while the trend parses `yyyy-MM-dd` (StatisticsViewModel.kt:62-66). Such a parser rejects the time part, so by WeeklyCorrect's first clause one app-created incident would empty the map. This follows from the formats alone.
- MyReports.DeleteIncident and MyReports.UndoDelete: model the store change only. The source has no `try` around either call. A failing Firestore write after the local Room change escapes the coroutine uncaught; that failure is not modelled.
- The AI call, its prompt and the `JSONObject.optString` defaults are left out. `GenerateWithAi` takes the parsed answer or the error.
- Gson is opaque. `toJson` is total, and `fromJson` returns rules or an error. A Gson `fromJson` that returns null is not modelled.
- CategoryRepository.CategoryRepositoryImpl.LocalCategories: the order of `SELECT * FROM categories` is left open. The contract fixes which categories are listed, not their order.
- `updateUserRole` in the users screen is left out. It is one Firestore update followed by the same refetch as `fetchAllUsers`.
- The form setters (`onDescriptionChange`, `onSeverityChange`, `onIncidentTypeChange`, `onLocationUpdate`, `onAdminEmailChange`, `onAdminPasswordChange`) are left out. Each is a single field assignment.
- The reporter fetch of the admin detail screen is left out, because it only fills a display field.
- Firebase failures beyond the modelled outcomes are left out: a closed listener, network errors of reads that are not awaited, and a failing `set` of the new Google user record. Auth.AuthViewModel.SignInWithGoogle: the inner block has no `catch`. A failing sign-in or lookup runs its `finally`, which resets `isLoading`, and then the exception escapes the coroutine to the thread's uncaught-exception handler. The model keeps only the reset; the escaping exception is left out.
- Firestore's `update` fails on a missing document. This is the `NotFound` outcome of `AdminDashboard.StatusUpdate`; the exception is only logged.
- The `charts`, the smart-bin map screen apart from `getBinColor`, sample data, settings and the `UserRepository` role stub are left out.
- Merge relationships are left out. masterIncidentId and mergedIds are only carried and reset, never checked.
