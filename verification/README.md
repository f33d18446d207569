# Guidely client logic in Dafny

A Dafny model of the decision logic behind Guidely, a tour-booking web app
written in TypeScript (Next.js and React). The model covers:

- **the client session store** (`AuthProvider`). It holds the `(user, token)` pair, mirrors it into the browser's key/value storage under `"user"` and `"token"`, restores it once at start, and changes it through login, register, Google login and logout;
- **the gate and the dispatchers that read that session.** `AuthGate` shows the loader or the page. The dashboard page picks the admin, guide or tourist dashboard by role tag. The navbar picks its role links and holds the mobile menu's open flag;
- **the data types** of the client: roles, booking statuses, users, guides, tours, bookings and wishlist entries;
- **the three dashboards' list derivations.** These are status partitions, revenue sums, counters, the case-insensitive search filters, the "recent" excerpts, the upcoming/past split, wishlist removal, the distinct-cities count, the per-booking buttons, and the guide's activate/deactivate toggle;
- **the registration API route**, with its check order, role normalisation and response shapes;
- **the server-side authentication configuration**: credentials `authorize`, the optional Google provider and its profile mapping, and the `jwt` and `session` callbacks;
- **the Google sign-in button's callback**, with its accept and reject branches;
- **the profile edit form**: initial values, the change handler, the request with the list fields split on `","` and trimmed, and the save outcome.

Everything is pure functions over immutable datatypes.

- Network answers, the environment, the current time and the user store are parameters.
- `JSON.stringify`/`JSON.parse` for users are a pair of function values (`AuthContext.Json`). The round-trip properties assume `Faithful`: parse undoes stringify, a stringified user is never empty, "null" parses to `null`, and "undefined" makes parse throw.
- The `user` and `token` fields of an auth answer are each absent, `null` or present (`AuthContext.Field`), because the client reads them without a check.
- Strings are `seq<char>`. `toLowerCase`, `toUpperCase` and `trim` act on ASCII only.

Modules follow the source files:

| module | file |
|---|---|
| `Common`, `Seqs`, `Text` | shared helpers: optional values and JS truthiness, filtering and sums, ASCII case, substring search, trim, split and join |
| `Types` | types/index.type.ts |
| `AuthContext` | context/AuthContext.tsx |
| `AuthGate` | context/AuthGate.tsx |
| `DashboardClient` | components/module/dashboard/DashboardClient.tsx |
| `Navbar` | components/ui/Navbar.tsx |
| `MockData` | the shapes of the demonstration data that the admin and tourist dashboards read |
| `GuideDashboard`, `AdminDashboard`, `TouristDashboard` | components/module/dashboard/*.tsx |
| `RegisterRoute` | app/api/register/route.ts |
| `NextAuth` | auth.ts |
| `GoogleSignIn` | components/module/auth/GoogleSignInButton.tsx |
| `ProfileEditForm` | components/module/profile/ProfileEditForm.tsx |

Behaviours of the code that a reader might not expect; the model keeps each as written:

- **Restore can throw.** The restore effect does not guard `JSON.parse`. A stored user that is not valid JSON makes it throw, and then `authLoading` is never cleared (`AuthContext.Restore` returns `ParseThrew`). The model does not claim that restore never throws.
- **Incomplete answers are committed.** `login` and `register` read `result.data.user` and `result.data.token` without a check. An ok answer that lacks one of them still commits it, as `undefined`, and the next start-up then throws or restores half a session (`AuthContext.IncompleteAnswerCommitted`).
- **Fixed failure messages.** `login` and `register` fail with the fixed messages "Login failed" and "Registration failed". They do not pass on the server's message.
- **Empty tokens do not survive a restart.** A commit with an empty token is written to storage, but the restore effect's truthiness test treats it as no session (`AuthContext.CommitThenRestart`).
- **Status literals are kept as written.** The guide dashboard compares upper-case status strings. The admin and tourist dashboards compare lower-case ones. The model keeps each literal exactly as written.

## Model

| member | source | states |
|---|---|---|
| Common.OrElse | auth.ts:6-9 | `a \|\| b` on optional strings: the first operand when it is a non-empty string, otherwise the second |
| Common.TextOr | app/api/register/route.ts:65 | `s \|\| fallback`: the string when present and non-empty, otherwise the fallback |
| Seqs.Filter | components/module/dashboard/GuideDashboard.tsx:106-108 | `Array.filter`: an order-preserving subsequence holding exactly the kept elements of the input, each as often as in the input |
| Seqs.SumOfFilter | components/module/dashboard/GuideDashboard.tsx:113 | summing over a filtered list equals summing with the filter as a guard |
| Seqs.SumWhereBounds | components/module/dashboard/AdminDashboard.tsx:37-39 | with non-negative terms, a guarded sum lies between 0 and the full sum |
| Seqs.FilterKeepsAll | components/module/dashboard/AdminDashboard.tsx:98-101 | a filter whose predicate holds for every element returns its input |
| Seqs.FilterComplement | components/module/dashboard/TouristDashboard.tsx:56 | a filter and its complement split the list's length between them |
| Seqs.FilterWeaker | components/module/dashboard/TouristDashboard.tsx:33-38 | filtering by a stronger predicate keeps no more elements |
| Seqs.FilterSame | components/module/dashboard/AdminDashboard.tsx:98-111 | predicates that agree everywhere filter alike |
| Seqs.SubsequenceOfSameLength | components/module/dashboard/GuideDashboard.tsx:123 | a subsequence as long as its source is the source itself |
| Seqs.SubsequenceShorter | components/module/dashboard/GuideDashboard.tsx:106-108 | a subsequence is no longer than its source |
| Seqs.Take | components/module/dashboard/AdminDashboard.tsx:197 | `slice(0, n)`: the prefix of length min(n, length) |
| Seqs.Image | components/module/dashboard/TouristDashboard.tsx:188 | `new Set(list.map(f))`: exactly the values f takes on the list, never more than the list's length |
| Text.ToLower | components/module/dashboard/AdminDashboard.tsx:99 | `toLowerCase` on ASCII: same length, each upper-case letter lowered, every other character kept |
| Text.ToUpper | app/api/register/route.ts:32 | `toUpperCase` on ASCII: same length, each lower-case letter raised, every other character kept |
| Text.LowerForgetsCase | components/module/dashboard/AdminDashboard.tsx:98-111 | lowering an upper-cased string is lowering it, and lowering is idempotent |
| Text.UpperIdempotent | app/api/register/route.ts:32 | upper-casing twice is upper-casing once |
| Text.ContainsTrivial | components/module/dashboard/AdminDashboard.tsx:98-101 | `includes("")` holds for every string, and every string includes itself |
| Text.MatchIgnoresCase | components/module/dashboard/AdminDashboard.tsx:98-111 | the case-insensitive match does not depend on the case of the field or of the query |
| Text.EmptyQueryMatches | components/module/dashboard/AdminDashboard.tsx:98-101 | an empty search text matches every field |
| Text.TrimStart | components/module/profile/ProfileEditForm.tsx:45-46 | removes exactly the leading white space, leaving a suffix |
| Text.TrimEnd | components/module/profile/ProfileEditForm.tsx:45-46 | removes exactly the trailing white space, leaving a prefix |
| Text.Trim | components/module/profile/ProfileEditForm.tsx:45-46 | `trim`: an infix with no surrounding white space, with only white space cut from either side |
| Text.TrimmedFrom | components/module/profile/ProfileEditForm.tsx:45-46 | removing the leading and then the trailing white space leaves an infix with no surrounding white space, and only white space lies outside it |
| Text.TrimFixes | components/module/profile/ProfileEditForm.tsx:45-46 | `trim` leaves a string without surrounding white space alone, also after one leading blank |
| Text.Split | components/module/profile/ProfileEditForm.tsx:45-46 | `split` on one character: at least one piece, none containing the separator |
| Text.JoinSplit | components/module/profile/ProfileEditForm.tsx:22-23 | joining the pieces of a split with the separator gives back the original text |
| Text.Join | components/module/profile/ProfileEditForm.tsx:22-23 | `parts.join(sep)`; `Text.JoinSplit` states that it undoes `split` |
| Text.SplitWithoutSeparator | components/module/profile/ProfileEditForm.tsx:45-46 | a text without the separator splits into itself alone |
| Text.SplitCons | components/module/profile/ProfileEditForm.tsx:45-46 | one step of `split`: a leading separator ends an empty first piece, any other leading character joins the first piece |
| Text.SplitConsBoth | components/module/profile/ProfileEditForm.tsx:45-46 | a character put in front of both sides of a split identity keeps it |
| Text.SplitAtSeparator | components/module/profile/ProfileEditForm.tsx:45-46 | splitting `a + sep + b` gives the pieces of `a` followed by the pieces of `b` |
| Types.ParseRole | types/index.type.ts:5 | a role tag names one of exactly three roles, and each role's name is read back as that role |
| Types.RoleNamesParse | types/index.type.ts:5 | every role name parses back to its role, and exactly the three names parse |
| Types.ParseStatus | types/index.type.ts:7 | a status string names one of exactly four booking statuses |
| Types.StatusNamesParse | types/index.type.ts:7 | every status name parses back to its status, and exactly the four names parse |
| Types.GuideAsUser | types/index.type.ts:13-42 | a guide seen as a user has role GUIDE, carries its expertise and daily rate, and keeps every field it inherits from a user (name, email, image, profile picture, bio, languages, travel preferences, dates) |
| AuthContext.Init | context/AuthContext.tsx:32-34 | the first state has no user, no token and `authLoading` set; storage is untouched |
| AuthContext.IsAuthenticated | context/AuthContext.tsx:143 | `!!user`: signed in exactly when a user is held |
| AuthContext.Restore | context/AuthContext.tsx:41-54 | adopts the stored pair exactly when both stored values are truthy; otherwise memory is kept; `authLoading` is cleared in both cases; a stored user that does not parse makes the effect throw, and one that parses to `null` leaves a token without a user |
| AuthContext.Boot | context/AuthContext.tsx:41-54 | start-up throws exactly when a saved session's user text does not parse; otherwise it is settled and storage is untouched |
| AuthContext.BootOutcome | context/AuthContext.tsx:41-54 | start-up with a saved session adopts the stored token and is signed in exactly when the stored user parses to a user; without one it stays signed out; the result is settled, and paired exactly unless the stored user is the text of `null` |
| AuthContext.RestoreIdempotent | context/AuthContext.tsx:41-54 | restoring again over unchanged storage changes nothing |
| AuthContext.Commit | context/AuthContext.tsx:72-78 | sets user and token in memory (absent or `null` as no value) and writes both keys, an absent value as "undefined" and `null` as "null"; keeps every other key and `authLoading` |
| AuthContext.Exchange | context/AuthContext.tsx:59-79 | a non-ok answer rejects with the given message and changes nothing; a failed request or missing `data` crashes and changes nothing; only an ok answer with data commits |
| AuthContext.Login | context/AuthContext.tsx:59-79 | a non-ok answer rejects with "Login failed" and leaves memory and storage unchanged; an ok answer with data sets and stores whatever user and token it carries, keeping every other key |
| AuthContext.Register | context/AuthContext.tsx:84-109 | a non-ok answer rejects with "Registration failed" and leaves memory and storage unchanged; an ok answer with data sets and stores whatever user and token it carries, keeping every other key |
| AuthContext.LoginWithGoogle | context/AuthContext.tsx:114-122 | sets and stores the given pair directly, keeping other keys and `authLoading` |
| AuthContext.Logout | context/AuthContext.tsx:127-135 | clears user and token, removes both keys, keeps every other key; afterwards not authenticated |
| AuthContext.LogoutThenRestart | context/AuthContext.tsx:127-135 | after logout a restart restores no session |
| AuthContext.CommitThenRestart | context/AuthContext.tsx:45-49 | after a commit a restart restores the same pair when the token is non-empty, and no session when it is empty |
| AuthContext.OperationsKeepPaired | context/AuthContext.tsx:41-135 | login and register keep user and token set or cleared together, in memory and in storage, for an answer that carries both; Google login and logout always do; a restore result is paired exactly unless the stored user is the text of `null` |
| AuthContext.IncompleteAnswerCommitted | context/AuthContext.tsx:66-78 | an ok answer lacking the user or the token still commits, and memory is unpaired exactly when one of them is absent or `null`; with no user the next start-up throws and never settles; with a `null` user it restores a token alone; with no token it restores the user with the token "undefined" |
| AuthContext.PhaseTransitions | context/AuthContext.tsx:143 | start-up leaves the unknown phase for good; a successful sign-in leads from either settled phase to authenticated, or to anonymous when the answer has no user; logout leads to anonymous; a failed login changes nothing |
| AuthGate.Gate | context/AuthGate.tsx:9-13 | the loader exactly while `authLoading`, otherwise the children unchanged |
| AuthGate.GateReadsOnlyLoading | context/AuthGate.tsx:7 | two sessions that agree on `authLoading` render the same |
| AuthGate.ChildrenOnlyAfterRestore | context/AuthGate.tsx:7-13 | the first render shows the loader, a completed restore shows the children, and no later operation closes the gate |
| DashboardClient.SelectDashboard | components/module/dashboard/DashboardClient.tsx:15-44 | login prompt exactly when signed out; admin exactly for tag ADMIN, guide exactly for GUIDE, tourist for every other or missing tag |
| DashboardClient.DispatchIsExhaustive | components/module/dashboard/DashboardClient.tsx:34-44 | the string switch agrees with an exhaustive match over the three roles after defaulting to TOURIST |
| DashboardClient.NamedRoleSelectsItsView | components/module/dashboard/DashboardClient.tsx:36-42 | a user tagged with a role's name sees that role's dashboard |
| Navbar.AuthenticatedLinks | components/ui/Navbar.tsx:42-53 | no links without a user; otherwise exactly one: guide "Dashboard", admin "Admin Dashboard", anyone else "My Bookings" |
| Navbar.DesktopLinks | components/ui/Navbar.tsx:72-103 | "Explore Tours" first; role links only when signed in; "Become a Guide" exactly when signed out |
| Navbar.IsActive | components/ui/Navbar.tsx:36 | `pathname === path` |
| Navbar.AtMostOneHighlighted | components/ui/Navbar.tsx:36-103 | the desktop links lead to different pages, so at most one is highlighted on any page, and each is highlighted on its own page |
| Navbar.LinksAgreeWithDashboard | components/ui/Navbar.tsx:45-51 | the admin and guide links are shown to exactly the users the dashboard page gives those dashboards, and "My Bookings" to exactly the tourist-view users |
| Navbar.NextOpen | components/ui/Navbar.tsx:163 | the menu button flips `isOpen`; following a mobile link or logging out closes it |
| Navbar.MenuButtonInvolution | components/ui/Navbar.tsx:174 | two menu-button presses restore the flag; closing twice is closing once |
| Navbar.MobileLogoutPressed | components/ui/Navbar.tsx:210-213 | the mobile logout signs out and closes the menu, leaving the signed-out link row |
| GuideDashboard.OrEmpty | components/module/dashboard/GuideDashboard.tsx:82-83 | `data \|\| []`: a missing list becomes the empty list, and a present list, even an empty one, is kept |
| GuideDashboard.Load | components/module/dashboard/GuideDashboard.tsx:65-93 | without both guide id and token nothing happens and `loading` stays; otherwise `loading` is cleared and, on success, both lists are replaced |
| GuideDashboard.AnonymousStaysLoading | components/module/dashboard/GuideDashboard.tsx:58 | without a signed-in user the dashboard stays loading whatever the server would answer |
| GuideDashboard.WithStatus | components/module/dashboard/GuideDashboard.tsx:106-108 | the bookings with exactly that status string, in order and each as often as in the input, no more than all bookings |
| GuideDashboard.StatusListsBounded | components/module/dashboard/GuideDashboard.tsx:106-108 | the pending, confirmed and completed lists together hold no more than all bookings |
| GuideDashboard.RowOf | types/index.type.ts:106-121 | the row the dashboard reads from a booking of the declared type keeps its id and price, and its status string parses back to the booking's status |
| GuideDashboard.Rows | types/index.type.ts:106-121 | one row per booking, in order, each that booking's row |
| GuideDashboard.StatusesPartition | components/module/dashboard/GuideDashboard.tsx:106-108 | when every status string is one of the four names, the pending, confirmed, completed and cancelled lists together hold each booking exactly once |
| GuideDashboard.TypedBookingsPartition | types/index.type.ts:7 | bookings whose status has the declared type always split that way across the four status lists |
| GuideDashboard.TotalRevenue | components/module/dashboard/GuideDashboard.tsx:113 | `totalPrice` summed over the COMPLETED list; `GuideDashboard.RevenueIsCompletedSum` states what that sum is |
| GuideDashboard.RevenueIsCompletedSum | components/module/dashboard/GuideDashboard.tsx:113 | revenue is the price sum over COMPLETED bookings only, and with non-negative prices lies between 0 and the total |
| GuideDashboard.Stats | components/module/dashboard/GuideDashboard.tsx:110-124 | the booking and pending counts, the revenue as the completed bookings' price sum (`GuideDashboard.TotalRevenue`), the count of active listings (each count at most its list), and the rating as "no listings" exactly when there are none |
| GuideDashboard.AllActiveExactly | components/module/dashboard/GuideDashboard.tsx:123 | the active count equals the number of listings exactly when every listing is active |
| GuideDashboard.ToggleTour | components/module/dashboard/GuideDashboard.tsx:137-143 | after an ok answer, listings with the id get `isActive := !currentStatus` and all else is kept in place; otherwise the list is unchanged |
| GuideDashboard.ToggleToast | components/module/dashboard/GuideDashboard.tsx:145-147 | "Could not update tour status" on failure; on success "Tour deactivated" when the listing was active and "Tour activated" when it was not |
| GuideDashboard.ToggleTwiceRestores | components/module/dashboard/GuideDashboard.tsx:139-143 | with unique ids, one toggle negates exactly that listing's flag and a second toggle restores the list |
| AdminDashboard.RevenueIsCompletedSum | components/module/dashboard/AdminDashboard.tsx:37-39 | revenue is the price sum over 'completed' bookings only, between 0 and the total for non-negative prices |
| AdminDashboard.Stats | components/module/dashboard/AdminDashboard.tsx:41-50 | users, tours and bookings counted by their list lengths, guides and tourists by the lengths passed in; active tours and pending bookings counted by their flags, each at most its list; revenue as above |
| AdminDashboard.PendingAndCompletedBounded | components/module/dashboard/AdminDashboard.tsx:37-48 | pending and completed bookings together never outnumber the bookings |
| AdminDashboard.FilteredUsers | components/module/dashboard/AdminDashboard.tsx:98-101 | an order-preserving subsequence holding exactly the users whose name or e-mail contains the query, ignoring case, each as often as in the input |
| AdminDashboard.FilteredTours | components/module/dashboard/AdminDashboard.tsx:103-106 | the same for tours on title or location |
| AdminDashboard.FilteredBookings | components/module/dashboard/AdminDashboard.tsx:108-111 | the same for bookings on tour title or tourist name |
| AdminDashboard.EmptySearch | components/module/dashboard/AdminDashboard.tsx:98-111 | an empty search keeps every user and tour, but a booking only when it has a tour or a tourist |
| AdminDashboard.SearchIgnoresQueryCase | components/module/dashboard/AdminDashboard.tsx:98-111 | upper-casing the search text does not change any of the three results |
| AdminDashboard.Recent | components/module/dashboard/AdminDashboard.tsx:197-219 | at most the first five entries, in order |
| AdminDashboard.BookingActions | components/module/dashboard/AdminDashboard.tsx:421-425 | viewing is always offered; cancelling exactly for 'pending' |
| AdminDashboard.TotalRevenue | components/module/dashboard/AdminDashboard.tsx:37-39 | `totalPrice` summed over the bookings with status 'completed'; `AdminDashboard.RevenueIsCompletedSum` states what that sum is |
| TouristDashboard.TouristId | components/module/dashboard/TouristDashboard.tsx:30 | the user's id when truthy, otherwise "tourist1" |
| TouristDashboard.UpcomingBookings | components/module/dashboard/TouristDashboard.tsx:33-35 | an order-preserving subsequence of exactly the confirmed or pending bookings dated at or after the clock reading, each as often as in the input |
| TouristDashboard.PastBookings | components/module/dashboard/TouristDashboard.tsx:36-38 | an order-preserving subsequence of exactly the completed or earlier-dated bookings, each as often as in the input |
| TouristDashboard.UpcomingAndPastDisjoint | components/module/dashboard/TouristDashboard.tsx:33-38 | with one clock reading for both filters, no upcoming booking is past, and the two lists together never exceed the bookings |
| TouristDashboard.UpcomingPastOverlap | components/module/dashboard/TouristDashboard.tsx:33-38 | the two filters read the clock separately: an upcoming booking is also past exactly when it is dated between the upcoming reading and the later past reading; a cancelled booking dated at or after the later reading is in neither list |
| TouristDashboard.RemoveFromWishlist | components/module/dashboard/TouristDashboard.tsx:55-60 | drops every entry with the id and keeps every other, in order and as often as before |
| TouristDashboard.RemovalCount | components/module/dashboard/TouristDashboard.tsx:56 | the list shrinks by exactly the number of entries with that id; an absent id leaves it unchanged |
| TouristDashboard.CitiesVisited | components/module/dashboard/TouristDashboard.tsx:188 | the number of distinct locations among past bookings, at most their number, at least one when there are any |
| TouristDashboard.CardActions | components/module/dashboard/TouristDashboard.tsx:68-126 | "View Tour" always; "Cancel" exactly when asked for and pending; "Write Review" exactly when completed |
| TouristDashboard.TabsOfferTheRightButtons | components/module/dashboard/TouristDashboard.tsx:206-225 | past trips are never offered "Cancel", upcoming trips never "Write Review" |
| RegisterRoute.NormaliseRole | app/api/register/route.ts:32 | a missing or empty role becomes TOURIST, any other is upper-cased |
| RegisterRoute.RoleCasingAccepted | app/api/register/route.ts:32-38 | a role is accepted exactly when it is empty or upper-cases to one of the three role names, in any casing; an accepted non-empty role is stored upper-cased; empty and missing both mean TOURIST |
| RegisterRoute.Failed | app/api/register/route.ts:62-67 | an exception gives 500 with its message, or "Registration failed" when it has none, and creates nothing |
| RegisterRoute.Post | app/api/register/route.ts:7-69 | only 201, 400 or 500; nothing is created unless 201; 201 exactly when there is no fault and every check passes, returning and storing the user with the normalised role, the hash stored but not returned; a fault reached at its place in the order gives 500 with the exception's message or "Registration failed"; a 500 comes only from a fault |
| RegisterRoute.CheckOrder | app/api/register/route.ts:12-38 | each 400 answer arises exactly when its check is the first to fail: required fields, then existing e-mail, then role |
| RegisterRoute.RequiredFieldsBeforeLookup | app/api/register/route.ts:12-17 | a request missing a field gets the same 400 whatever the store holds and whatever later steps would do |
| RegisterRoute.PostKeepsEmailsUnique | app/api/register/route.ts:20-26 | the handler never creates a second account for an e-mail address |
| NextAuth.BaseUrl | auth.ts:11 | the configured API address, or the local default |
| NextAuth.Providers | auth.ts:13-74 | credentials always; Google second exactly when both its id and its secret are set |
| NextAuth.LoginRequestFor | auth.ts:21-33 | a backend request is made exactly when both email and password are truthy, to the login endpoint with those credentials |
| NextAuth.Authorize | auth.ts:20-52 | null for missing credentials, a non-ok answer or a user without id; otherwise the backend user's id, email and name with its role or TOURIST |
| NextAuth.MissingCredentialsSkipBackend | auth.ts:21-23 | missing credentials give null with no request, whatever the backend would answer |
| NextAuth.GoogleProfile | auth.ts:63-71 | id is the subject, role always TOURIST, name, email and picture carried over |
| NextAuth.Jwt | auth.ts:83-89 | with a user, id and role (default TOURIST) are written; without, the token is unchanged; other claims always kept |
| NextAuth.SessionCallback | auth.ts:90-96 | with a session user, id and role (default TOURIST) come from the token and nothing else changes; without, the session is unchanged |
| NextAuth.CredentialsRoleReachesSession | auth.ts:46-96 | a credentials sign-in's id and role (TOURIST when none was sent) reach the session at sign-in and after a later token refresh |
| NextAuth.GoogleRoleReachesSession | auth.ts:63-96 | a Google sign-in reaches the session as TOURIST with the subject as id, at sign-in and after a later refresh, taking the profile mapping's result to be the user `jwt` receives |
| GoogleSignIn.CallbackUrl | components/module/auth/GoogleSignInButton.tsx:24 | the given callback address, or "/" when none is given |
| GoogleSignIn.OnCredential | components/module/auth/GoogleSignInButton.tsx:36-82 | no credential: error toast, no backend call, session untouched; success exactly for an ok answer with truthy token and a user, which commits that pair and navigates; every other branch leaves the session and does not navigate |
| GoogleSignIn.RejectionMessages | components/module/auth/GoogleSignInButton.tsx:60-81 | the message of each failure branch: "Google login failed. Check console.", the server's message or "Google sign-in failed.", "Invalid Google response." |
| GoogleSignIn.SuccessSurvivesRestart | components/module/auth/GoogleSignInButton.tsx:74 | a successful sign-in is authenticated and paired, and a restart restores the same pair |
| ProfileEditForm.InitForm | components/module/profile/ProfileEditForm.tsx:18-26 | missing text fields are "", the lists are joined with ", ", and a missing or zero daily rate is "" |
| ProfileEditForm.JoinList | components/module/profile/ProfileEditForm.tsx:22-23 | `list.join(", ")`; `ProfileEditForm.ListRoundTrip` states how it inverts the split on submit |
| ProfileEditForm.HandleChange | components/module/profile/ProfileEditForm.tsx:28-30 | the named field takes the new text and every other field keeps its value |
| ProfileEditForm.SplitList | components/module/profile/ProfileEditForm.tsx:45-46 | one piece per comma-separated part, each the trimmed part at its place, so none containing a comma or surrounding white space |
| ProfileEditForm.TrimWithout | components/module/profile/ProfileEditForm.tsx:45-46 | trimming a comma-free piece leaves it comma-free |
| ProfileEditForm.RateOf | components/module/profile/ProfileEditForm.tsx:47 | `Number("")` is 0 and a number stays itself |
| ProfileEditForm.SubmitRequest | components/module/profile/ProfileEditForm.tsx:37-49 | the PATCH address for the user; the bearer header with the token, or "Bearer undefined" for an `undefined` token and "Bearer null" for a `null` one; and the body with the two lists split and trimmed |
| ProfileEditForm.SplitJoinedList | components/module/profile/ProfileEditForm.tsx:22-23 | a joined comma-free list splits into its first item and the rest behind one blank each |
| ProfileEditForm.ListRoundTrip | components/module/profile/ProfileEditForm.tsx:22-46 | a non-empty list of comma-free items without surrounding white space is submitted exactly as it was shown |
| ProfileEditForm.EmptyListSubmitsBlank | components/module/profile/ProfileEditForm.tsx:22-46 | an empty list is submitted as one empty item |
| ProfileEditForm.UntouchedFormResubmitsLists | components/module/profile/ProfileEditForm.tsx:18-46 | submitting the untouched form sends the user's own non-empty plain lists back |
| ProfileEditForm.FinishSubmit | components/module/profile/ProfileEditForm.tsx:51-62 | `onSaved` with the answer's data exactly on ok; otherwise the server's message or "Update failed"; `loading` cleared either way |

## Left out

- **Rendering.** JSX, styling, icons, toast rendering and the component tree are left out. Only the chosen branch, view, link list or toast text is modelled.
- **Network and storage I/O.** `fetch`, HTTP, the backend API, `localStorage` as real I/O, Prisma and bcrypt are left out. Answers, the store and the password hash are parameters, and storage is a `map<string, string>`.
- **Concurrency.** React `startTransition`, effect scheduling and overlapping requests are left out. Each operation is one atomic step.
- **Real JSON.** JSON serialisation is abstract (`AuthContext.Json`). Bodies whose fields have unexpected types are left out: a field that is not a string or object where one is read is modelled as absent, `null` or a crash, and a value of another type (a number where a token is read, say) is not modelled.
- **Floating point and dates:**
  - the guide's average rating and its `toFixed(1)` (`GuideDashboard.Rating` records only whether there are listings);
  - `Number(dailyRate)` of non-empty text (`ProfileEditForm.RateOf` leaves it abstract);
  - `Date` arithmetic: dates are whole numbers on one time line;
  - the guide dashboard's `thisMonth` figure, because it depends on the clock and `getMonth`;
  - prices, fees and rates are whole numbers, while the source adds JavaScript numbers, which can round. `GuideDashboard.RevenueIsCompletedSum` and `AdminDashboard.RevenueIsCompletedSum` hold for whole-number prices only.
- **Unicode.** Case mapping and white space other than ASCII are left out.
- **Files not in this model:**
  - `data/mockData`: its lists are parameters, and `MockData` holds only the record shapes the dashboards read;
  - the Prisma `Role` enum: it is taken to be the three roles of types/index.type.ts:5.
- **Framework integrations.** The NextAuth framework, the Google Identity Services widget set-up and the navigation router are left out. Their hooks are modelled as functions, and navigation is a returned address.
- **Logging.** `console.log`/`console.error` calls and the unused `image`/`name` fields of requests are left out.
- **Session secret.** `NextAuth` leaves out the `secret` setting, because it only reaches the framework.
- **Runtime type errors:**
  - `RegisterRoute.NormaliseRole`: a role that is not a string would make `toUpperCase` throw (a 500). It is not modelled, because the request body is modelled with string fields only.
  - `NextAuth.Authorize`: a backend `fetch` that throws, and a `res.json()` that throws on a body that is not JSON, are not modelled. Either makes the sign-in fail.
- **`GoogleSignIn.OnCredential`:** a credential that is truthy but not a string would throw at `slice`. It is not modelled, because credentials are modelled as strings.
- **`ProfileEditForm.FinishSubmit`:** a non-ok answer whose `message` is `null` would show the text "null". The model treats a missing message as absent, with the default text.
- **`TouristDashboard.CitiesVisited`:** it counts a missing tour as one more distinct value, `undefined`, as the source's `Set` does. Nothing here treats that value as a city.
- **`TouristDashboard.UpcomingBookings`/`PastBookings`:** the source calls `new Date()` once per booking in each filter. The model gives each filter one reading. `TouristDashboard.UpcomingPastOverlap` covers two readings, one per filter, and states which bookings then appear in both lists. Readings that differ from booking to booking within one filter are not modelled.
- **`Types.Booking`:** no dashboard reads this type. The guide dashboard reads untyped rows (`GuideDashboard.BookingRow`), and `GuideDashboard.RowOf` states how a typed booking becomes one. The admin and tourist dashboards read the demonstration bookings (`MockData.MockBooking`), whose status strings are lower case.
- **`ProfileEditForm.SubmitRequest`:** it takes the token as absent, `null` or present. The session store's memory (`AuthContext`) keeps only whether a token is there, so the model does not carry the `undefined` left by an incomplete login answer from the store to this header.
- **`NextAuth.GoogleRoleReachesSession`:** it takes the user object the Google provider's `profile` returns to be the `user` the `jwt` callback receives. The framework that passes it between them is not part of this model, and it may change fields (the id, say) on the way.
