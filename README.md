# MentalBridge front end — a Dafny model of its component logic

MentalBridge is a client-side React application for mental-health support. It has sign-up,
login and password-reset pages backed by an external identity provider. After sign-in a
dashboard shows several panels: appointments, a clinic directory, an article library, a chat
assistant and a mood check-in. This project models the logic inside these components and
proves what they promise. The JSX layout, styling and network calls are not modelled.

The model follows the source's structure, one module per component:

- `Appointments`: cancelling an appointment and the upcoming/past split.
- `Services`: the clinic directory's specialty and text filter, the similar-clinics chain,
  the dial string and the card address snippet.
- `Resources`: the article category tabs, search, the featured list and the article view.
- `Chat`: the keyword-priority offline responder, the submit guard and the append-only
  message log.
- `MoodCheckIn`: the check-in card's handlers and its view selection.
- `Signup`, `Login` and `ResetPassword`: the ordered form checks, the tables from error code
  to message, and the handlers with their session and route effects.
- `DashboardPage`: tab dispatch, the auth-state listener, logout, and the sidebar link.
- `Sidebar`: the tab buttons, collapsing and navigation.
- `EntryRedirect`: the `/app` redirect decision.

Five modules are shared:

- `Wrappers`: `Option` and `Outcome`.
- `Text`: the JavaScript string operations the components use. These are `trim`,
  `toLowerCase`, `includes`, `split(c)[0]`, `indexOf` and `substring`, with its clamping and
  swapping.
- `Seqs`: filter, subsequence, take, and set-like de-duplication in insertion order.
- `Platform`: a `Browser` object holding `sessionStorage` as a map and the pushed routes as a
  sequence.
- `Auth`: the provider user record, the user-name fallback chain, and the sign-in listener.

Each state-holding component is a `class` whose fields are that component's `useState`
variables. Each handler is a `method` that states the component's whole new state. The
derived values (filters, views, messages) are functions, and lemmas state their properties.

Calls into the identity provider are not executed. They are parameters of type
`Outcome<T>`: `Ok(value)`, or `Err(code)` carrying the provider's error code. A `setTimeout`
callback becomes a separate method that the environment may call later. These are
`AppointmentsPanel.SwitchTimerFires` and `ChatPanel.MockTimerFires`. Wall-clock timestamps
are a `now` parameter.

## Model

| member | source | states |
|---|---|---|
| `Appointments.Cancel` | src/app/app/dashboard/components/AppointmentsContent.tsx:86-92 | every appointment with the id becomes cancelled; every other one is unchanged; length and positions are kept |
| `Appointments.ViewsPartition` | src/app/app/dashboard/components/AppointmentsContent.tsx:100-104 | the upcoming view holds exactly the upcoming records and the past view exactly the completed or cancelled ones; both keep list order; their multisets add up to the whole list |
| `Appointments.CancelOfferedOnlyInUpcoming` | src/app/app/dashboard/components/AppointmentsContent.tsx:204-213 | every card of the upcoming view offers Cancel and no card of the past view does |
| `Appointments.CancelAbsent` | src/app/app/dashboard/components/AppointmentsContent.tsx:86-92 | cancelling an id that no appointment has leaves the list unchanged |
| `Appointments.CancelIdempotent` | src/app/app/dashboard/components/AppointmentsContent.tsx:86-92 | cancelling the same id twice equals cancelling it once |
| `Appointments.CancelMovesToPast` | src/app/app/dashboard/components/AppointmentsContent.tsx:86-104 | after cancelling a present id, that appointment is in the past view and no appointment with the id is left in the upcoming view |
| `Appointments.AppointmentsPanel.constructor` | src/app/app/dashboard/components/AppointmentsContent.tsx:17-83 | the panel starts on the upcoming tab with the seven listed appointments and no pending switch |
| `Appointments.AppointmentsPanel.SelectTab` | src/app/app/dashboard/components/AppointmentsContent.tsx:127-137 | a tab button sets the tab and changes nothing else |
| `Appointments.AppointmentsPanel.CancelAppointment` | src/app/app/dashboard/components/AppointmentsContent.tsx:86-97 | the list becomes its cancelled version; a switch to the past tab is scheduled exactly when the upcoming tab was active |
| `Appointments.AppointmentsPanel.ClickCancel` | src/app/app/dashboard/components/AppointmentsContent.tsx:204-213 | the Cancel button of a shown upcoming card cancels that card's id |
| `Appointments.AppointmentsPanel.SwitchTimerFires` | src/app/app/dashboard/components/AppointmentsContent.tsx:95-97 | a scheduled switch makes the past tab active and leaves the list alone |
| `Services.FilteredClinics` | src/app/app/dashboard/components/ServicesContent.tsx:131-137 | a clinic is kept iff the specialty is the sentinel or listed by it, and the lower-cased query occurs in its lower-cased name, description or a specialty |
| `Services.FilteredClinicsOrder` | src/app/app/dashboard/components/ServicesContent.tsx:131-137 | the result is an order-preserving subsequence of the clinics; the sentinel with an empty query keeps every clinic |
| `Services.AllButtonIsNotSentinel` | src/app/app/dashboard/components/ServicesContent.tsx:445-449 | the value "All" stored by the buttons differs from the sentinel "all"; with it only clinics listing a specialty literally named "All" pass |
| `Services.SpecialtyOptions` | src/app/app/dashboard/components/ServicesContent.tsx:116 | the specialty list is the sentinel followed by the fetched names in fetch order, with nothing removed |
| `Services.SimilarClinics` | src/app/app/dashboard/components/ServicesContent.tsx:319-322 | at most three clinics, each from the directory, with another id than the selected clinic and sharing one of its specialties |
| `Services.SimilarIsTakeOfAllSimilar` | src/app/app/dashboard/components/ServicesContent.tsx:319-322 | the id filter followed by the shared-specialty filter and the slice equals the first three clinics of one similarity filter |
| `Services.SimilarClinicsSpec` | src/app/app/dashboard/components/ServicesContent.tsx:319-322 | the similar clinics are a prefix of all similar clinics, number min(3, all), each has another id and shares a specialty, and they keep directory order |
| `Services.DialString` | src/app/app/dashboard/components/ServicesContent.tsx:295 | the dial string contains only the characters 0-9 |
| `Services.DialStringSpec` | src/app/app/dashboard/components/ServicesContent.tsx:378 | the dial string is the phone's digits in order, every digit is kept, it distributes over concatenation and it is idempotent |
| `Services.AddressSnippet` | src/app/app/dashboard/components/ServicesContent.tsx:499 | the snippet is the text before the first comma, and empty when there is no comma (`substring(0, -1)`) |
| `Services.ServicesPanel.constructor` | src/app/app/dashboard/components/ServicesContent.tsx:32-39 | the panel starts on the sentinel, with an empty query, no selection, loading, no clinics and only the sentinel specialty |
| `Services.ServicesPanel.DataFetched` | src/app/app/dashboard/components/ServicesContent.tsx:115-124 | a completed fetch stores the clinics and the specialty options; a failed one leaves both; loading ends either way |
| `Services.ServicesPanel.SetSearchQuery` | src/app/app/dashboard/components/ServicesContent.tsx:434 | typing sets the query only |
| `Services.ServicesPanel.SelectSpecialty` | src/app/app/dashboard/components/ServicesContent.tsx:461 | a specialty button sets the active specialty only |
| `Services.ServicesPanel.ShowAllClinics` | src/app/app/dashboard/components/ServicesContent.tsx:449 | stores "All" and changes nothing else; afterwards the specialty test passes exactly for clinics listing "All" |
| `Services.ServicesPanel.ClearFilters` | src/app/app/dashboard/components/ServicesContent.tsx:526-529 | clears the query and stores "All", changing nothing else, after which only clinics listing "All" pass the specialty test |
| `Services.ServicesPanel.ViewClinicDetails` | src/app/app/dashboard/components/ServicesContent.tsx:178-181 | selects the clinic for the detail view and changes nothing else |
| `Services.ServicesPanel.CloseClinicDetails` | src/app/app/dashboard/components/ServicesContent.tsx:184-186 | clears the selection and changes nothing else |
| `Services.ServicesPanel.SetBookingModal` | src/app/app/dashboard/components/ServicesContent.tsx:304 | opens or closes the booking modal only |
| `Resources.CategoryKeys` | src/app/app/dashboard/components/ResourcesContent.tsx:117 | one lower-cased category per article, in list order |
| `Resources.Categories` | src/app/app/dashboard/components/ResourcesContent.tsx:117 | the sentinel tab comes first, followed by at most one tab per article |
| `Resources.CategoriesSpec` | src/app/app/dashboard/components/ResourcesContent.tsx:117 | the tabs are the sentinel followed by each lower-cased category exactly once, in first-occurrence order, and every article's category has a tab |
| `Resources.FilteredArticles` | src/app/app/dashboard/components/ResourcesContent.tsx:120-125 | an article is kept iff the tab is the sentinel or its lower-cased category, and the lower-cased query occurs in its lower-cased title or description |
| `Resources.FilteredArticlesOrder` | src/app/app/dashboard/components/ResourcesContent.tsx:120-125 | the list is an order-preserving subsequence; the sentinel with an empty query lists every article |
| `Resources.ListedUnderOwnTab` | src/app/app/dashboard/components/ResourcesContent.tsx:117-125 | with an empty query an article is listed under its own category's tab and under the sentinel |
| `Resources.EveryTabSelectsAnArticle` | src/app/app/dashboard/components/ResourcesContent.tsx:117-125 | with an empty query every category tab lists at least one article, and the sentinel tab does too unless there are no articles |
| `Resources.Featured` | src/app/app/dashboard/components/ResourcesContent.tsx:128 | the featured list holds exactly the articles flagged featured; it takes neither tab nor query |
| `Resources.FeaturedOrder` | src/app/app/dashboard/components/ResourcesContent.tsx:128 | the featured list keeps article order |
| `Resources.TabLabel` | src/app/app/dashboard/components/ResourcesContent.tsx:239 | the sentinel is labelled "All"; any other category keeps its length, with the first character upper-cased and the rest unchanged |
| `Resources.ResourcesPanel.constructor` | src/app/app/dashboard/components/ResourcesContent.tsx:18-20 | the panel starts on the sentinel tab with an empty query and no article open |
| `Resources.ResourcesPanel.CurrentView` | src/app/app/dashboard/components/ResourcesContent.tsx:142-143 | the article view is shown exactly while an article id is selected; otherwise the featured list, the tabs and the filtered list |
| `Resources.ResourcesPanel.SelectTab` | src/app/app/dashboard/components/ResourcesContent.tsx:232 | a tab button sets the tab only |
| `Resources.ResourcesPanel.SetSearchQuery` | src/app/app/dashboard/components/ResourcesContent.tsx:175 | typing sets the query only |
| `Resources.ResourcesPanel.ReadArticle` | src/app/app/dashboard/components/ResourcesContent.tsx:131-134 | Read selects that article's id |
| `Resources.ResourcesPanel.OpenArticleEvent` | src/app/app/dashboard/components/ResourcesContent.tsx:24-27 | an `openArticle` event selects the id it carries |
| `Resources.ResourcesPanel.BackToArticles` | src/app/app/dashboard/components/ResourcesContent.tsx:137-139 | Back clears the selection |
| `Chat.MockResponse` | src/app/app/dashboard/components/ChatContent.tsx:166-238 | the first keyword present in the lower-cased input, in the order depression, anxiety, stress, picks the canned reply |
| `Chat.MockResponseIgnoresCase` | src/app/app/dashboard/components/ChatContent.tsx:171-219 | lower-casing the input first never changes the reply |
| `Chat.MockResponseShape` | src/app/app/dashboard/components/ChatContent.tsx:173-237 | at most 2 articles and 1 clinic; a clinic comes only with articles; the default reply is given iff no keyword occurs, and iff there are no articles |
| `Chat.ClinicMatchesKeyword` | src/app/app/dashboard/components/ChatContent.tsx:187-217 | every recommended clinic lists a specialty whose lower-cased name occurs in the lower-cased input |
| `Chat.ChatHistory` | src/app/app/dashboard/components/ChatContent.tsx:106-112 | the history sent to the backend has one role/content pair per logged message, in order |
| `Chat.FallbackMessage` | src/app/app/dashboard/components/ChatContent.tsx:145-160 | when the backend fails, the reply carries the error text and the offline reply's articles and clinics for the same input |
| `Chat.AppendAlternates` | src/app/app/dashboard/components/ChatContent.tsx:78-96 | appending a message of the role due next keeps the log alternating between assistant and user |
| `Chat.ChatPanel.constructor` | src/app/app/dashboard/components/ChatContent.tsx:17-29 | the log starts with the one greeting; the input is empty, nothing is loading and offline mode is on |
| `Chat.ChatPanel.SetInput` | src/app/app/dashboard/components/ChatContent.tsx:436 | typing sets the input only |
| `Chat.ChatPanel.Submit` | src/app/app/dashboard/components/ChatContent.tsx:67-101 | blank input, or a reply in flight, changes nothing; otherwise one user message with the untrimmed input is appended, the input is cleared, loading starts, and the reply is awaited in the current mode |
| `Chat.ChatPanel.Ask` | src/app/app/dashboard/components/ChatContent.tsx:72-80 | appends the user message, clears the input and starts waiting, keeping the log invariant |
| `Chat.ChatPanel.Answer` | src/app/app/dashboard/components/ChatContent.tsx:96-97 | appends one assistant message and ends loading, keeping the log invariant |
| `Chat.ChatPanel.MockTimerFires` | src/app/app/dashboard/components/ChatContent.tsx:84-98 | appends exactly one assistant message built from the offline reply to the logged input, then ends loading |
| `Chat.ChatPanel.BackendReplies` | src/app/app/dashboard/components/ChatContent.tsx:131-144 | appends the backend's reply, with the stock text when it has none and empty lists when it sends none |
| `Chat.ChatPanel.BackendFails` | src/app/app/dashboard/components/ChatContent.tsx:145-163 | appends the fallback message and ends loading |
| `Chat.ChatPanel.ToggleMockData` | src/app/app/dashboard/components/ChatContent.tsx:241-243 | flips the mode flag, so two toggles restore it; a reply already awaited keeps its mode |
| `MoodCheckIn.PromptTextInjective` | src/app/app/dashboard/components/DashboardContent.tsx:221-225 | different moods get different questions (the five questions differ in length) |
| `MoodCheckIn.ViewOf` | src/app/app/dashboard/components/DashboardContent.tsx:176-271 | each view is drawn exactly under its condition in the chain's priority: picker, question, form, thank-you note, otherwise nothing |
| `MoodCheckIn.CheckIn.CurrentView` | src/app/app/dashboard/components/DashboardContent.tsx:176-271 | in every state the handlers keep (a chosen mood implies the question flag), one of the four views is drawn, never nothing |
| `MoodCheckIn.CheckIn.constructor` | src/app/app/dashboard/components/DashboardContent.tsx:27-31 | the card starts in the initial state and shows the picker |
| `MoodCheckIn.CheckIn.MoodSelect` | src/app/app/dashboard/components/DashboardContent.tsx:33-36 | choosing a mood records it and shows the question; from the picker, the question is what is drawn next |
| `MoodCheckIn.CheckIn.PromptClick` | src/app/app/dashboard/components/DashboardContent.tsx:38-40 | opens the response form; from the question, the form is drawn next |
| `MoodCheckIn.CheckIn.SetResponse` | src/app/app/dashboard/components/DashboardContent.tsx:239 | typing sets the response only |
| `MoodCheckIn.CheckIn.SubmitResponse` | src/app/app/dashboard/components/DashboardContent.tsx:42-48 | a response that trims to empty changes nothing; any other marks the check-in submitted and closes the form, so the thank-you note is drawn |
| `MoodCheckIn.CheckIn.CheckInAgain` | src/app/app/dashboard/components/DashboardContent.tsx:260-265 | clears mood, question, text and the submitted flag; from the thank-you note this restores the initial state |
| `Auth.EmailPrefix` | src/app/app/signup/page.tsx:23 | the prefix is present iff the email is; it is a prefix of the email with no '@' in it |
| `Auth.UserName` | src/app/app/signup/page.tsx:23 | the name is the non-empty display name, else the non-empty email prefix, else the fallback |
| `Auth.UserNameNonEmpty` | src/app/app/login/page.tsx:21 | with a non-empty fallback the chosen name is never empty |
| `Auth.EmailPrefixLength` | src/app/app/login/page.tsx:21 | an email without '@' is its own prefix; one with an '@' has a strictly shorter prefix |
| `Auth.StoreSignIn` | src/app/app/signup/page.tsx:59-61 | sets the logged-in flag and the user name in the session and pushes the dashboard route |
| `Auth.SignedInListener` | src/app/app/login/page.tsx:17-24 | a signed-in user sets isLoggedIn to "true", stores the name with fallback "User" and goes to the dashboard; a sign-out changes nothing |
| `Signup.ProblemMessageInjective` | src/app/app/signup/page.tsx:36-52 | the three form-check messages differ |
| `Signup.CheckForm` | src/app/app/signup/page.tsx:36-52 | a form that passes has a password equal to its confirmation and at least 8 characters long |
| `Signup.CheckFormOrder` | src/app/app/signup/page.tsx:36-52 | first a blank name, email or password; then a mismatched confirmation; then an untrimmed password shorter than 8; the form passes iff no check fails |
| `Signup.SignupErrorMessage` | src/app/app/signup/page.tsx:66-74 | every rejection of account creation gets a non-empty message, so the error banner, drawn only for a non-empty error, is shown |
| `Signup.SignupErrorMessageCases` | src/app/app/signup/page.tsx:66-74 | email-already-in-use, invalid-email and weak-password each get their own message; exactly the other codes get the generic one |
| `Signup.GoogleSignupErrorMessage` | src/app/app/signup/page.tsx:97-103 | every rejection of a Google sign-up gets a non-empty message, so the error banner is shown |
| `Signup.GoogleSignupErrorMessageCases` | src/app/app/signup/page.tsx:97-103 | popup-closed-by-user and account-exists-with-different-credential each get their own message; exactly the other codes get the generic one |
| `Signup.SignupPage.constructor` | src/app/app/signup/page.tsx:11-16 | all fields start empty, with no error and not loading |
| `Signup.SignupPage.EditForm` | src/app/app/signup/page.tsx:128-164 | the inputs set the four fields only |
| `Signup.SignupPage.Submit` | src/app/app/signup/page.tsx:31-78 | the provider is called iff the form passes; a failed check or a rejection sets its message and leaves session and route alone; success stores the typed name and goes to the dashboard; loading is false on every exit |
| `Signup.SignupPage.GoogleSignup` | src/app/app/signup/page.tsx:81-107 | success stores the name with fallback "Google User" and goes to the dashboard; a rejection sets its message; loading is false on every exit |
| `Login.CredentialsPresent` | src/app/app/login/page.tsx:34-38 | the login check passes iff neither identifier nor password is all white space |
| `Login.LoginUserNameIgnoresDisplayName` | src/app/app/login/page.tsx:43-44 | as written, the stored name is always the identifier's text before its first '@', whatever the display name |
| `Login.LoginUserNameCounterexample` | src/app/app/login/page.tsx:43-44 | display name "Ann" with identifier "bob@example.com" is stored as "bob" |
| `Login.LoginUserName` | src/app/app/login/page.tsx:43-44 | the corrected name: the non-empty display name, otherwise the identifier's prefix |
| `Login.LoginUserNameAgreement` | src/app/app/login/page.tsx:43-44 | the corrected and the written names agree iff there is no display name or it already equals the prefix |
| `Login.LoginErrorMessage` | src/app/app/login/page.tsx:51-59 | every rejection of an email login gets a non-empty message, so the error banner, drawn only for a non-empty error, is shown |
| `Login.LoginErrorMessageCases` | src/app/app/login/page.tsx:51-59 | user-not-found and wrong-password share one message; invalid-email and too-many-requests get their own; exactly the other codes get the generic one |
| `Login.GoogleLoginErrorMessage` | src/app/app/login/page.tsx:80-86 | every rejection of a Google login gets a non-empty message, so the error banner is shown |
| `Login.GoogleLoginErrorMessageCases` | src/app/app/login/page.tsx:80-86 | popup-closed-by-user and account-exists-with-different-credential get their own messages; exactly the other codes get the generic one |
| `Login.LoginPage.constructor` | src/app/app/login/page.tsx:11-14 | the fields start empty, with no error and not loading |
| `Login.LoginPage.EditForm` | src/app/app/login/page.tsx:111-123 | the inputs set identifier and password only |
| `Login.LoginPage.Submit` | src/app/app/login/page.tsx:29-63 | the provider is called iff both fields are present; a blank field or a rejection sets its message and leaves session and route alone; success stores the corrected name `Login.LoginUserName` (the display name, else the identifier before its first '@'), not the name the code as written computes, and goes to the dashboard; loading is false on every exit |
| `Login.LoginPage.GoogleLogin` | src/app/app/login/page.tsx:65-90 | success stores the name with fallback "Google User" and goes to the dashboard; a rejection sets its message; loading is false on every exit |
| `ResetPassword.MatchesEmailPattern` | src/app/app/reset-password/page.tsx:26-27 | an address the pattern accepts has at least five characters and contains an '@' and a '.' |
| `ResetPassword.MatchIsValid` | src/app/app/reset-password/page.tsx:26-27 | a match of the email pattern satisfies the plain-terms conditions |
| `ResetPassword.ValidMatches` | src/app/app/reset-password/page.tsx:26-27 | an address meeting the plain-terms conditions matches the pattern |
| `ResetPassword.PatternIffValid` | src/app/app/reset-password/page.tsx:26-31 | the pattern accepts exactly the addresses with no white space, one '@' with text before it, and a '.' after it that is neither the domain's first nor its last character |
| `ResetPassword.PaddedEmailRejected` | src/app/app/reset-password/page.tsx:21-27 | a space before a well-formed address passes the blank check but fails the pattern, because the pattern runs on the untrimmed text |
| `ResetPassword.ResetErrorMessage` | src/app/app/reset-password/page.tsx:38-46 | every rejected reset request gets a non-empty message, so the error banner, drawn only for a non-empty error, is shown |
| `ResetPassword.ResetErrorMessageCases` | src/app/app/reset-password/page.tsx:38-46 | user-not-found, invalid-email and too-many-requests each get their own message; exactly the other codes get the generic one |
| `ResetPassword.ResetPage.constructor` | src/app/app/reset-password/page.tsx:9-12 | empty email, no error, no success, not loading |
| `ResetPassword.ResetPage.SetEmail` | src/app/app/reset-password/page.tsx:90 | typing sets the email only |
| `ResetPassword.ResetPage.Submit` | src/app/app/reset-password/page.tsx:15-50 | the reset is requested iff the email is not blank and matches the pattern; success holds iff the request resolved; each failure sets its message; loading is false on every exit |
| `DashboardPage.RenderContent` | src/app/app/dashboard/page.tsx:65-80 | a tab that does not select the home panel is the name of the panel it selects, so every other tab value, "dashboard" included, falls to the home panel |
| `DashboardPage.RenderContentRoundTrip` | src/app/app/dashboard/page.tsx:65-80 | each panel's tab name selects that panel |
| `DashboardPage.Dashboard.constructor` | src/app/app/dashboard/page.tsx:21-25 | starts as "Alex" on the "dashboard" tab, loading, with the logout modal hidden and the sidebar expanded |
| `DashboardPage.Dashboard.CurrentScreen` | src/app/app/dashboard/page.tsx:82-105 | only the loading screen is drawn while loading or with an empty user name; otherwise the active tab's panel |
| `DashboardPage.Dashboard.AuthStateChanged` | src/app/app/dashboard/page.tsx:28-42 | a signed-in user sets and stores the name and the logged-in flag, and the page is drawn; a sign-out removes both keys and goes to the login page; loading ends either way |
| `DashboardPage.Dashboard.Logout` | src/app/app/dashboard/page.tsx:47-54 | a completed sign-out shows the logout modal; a failed one changes nothing |
| `DashboardPage.Dashboard.CloseLogoutModal` | src/app/app/dashboard/page.tsx:56-59 | hides the modal and pushes the login route |
| `DashboardPage.Dashboard.SidebarToggled` | src/app/app/dashboard/page.tsx:61-63 | stores the collapsed value the sidebar reports |
| `DashboardPage.Dashboard.SetActiveTab` | src/app/app/dashboard/page.tsx:94-97 | sets the active tab only |
| `DashboardPage.Dashboard.ToggleSidebar` | src/app/app/dashboard/page.tsx:94-99 | the sidebar's toggle flips the page's copy of the collapsed flag, which stays equal to the sidebar's own |
| `DashboardPage.Dashboard.Navigate` | src/app/app/dashboard/page.tsx:94-97 | a sidebar button makes its tab active and pushes the dashboard route |
| `Sidebar.TabLists` | src/app/app/dashboard/components/Sidebar.tsx:141-211 | desktop offers five tabs and mobile the first four, leaving out resources; neither offers community or repeats a tab |
| `Sidebar.NavigationRoute` | src/app/app/dashboard/components/Sidebar.tsx:66-91 | every tab value, listed or not, routes to the dashboard |
| `Sidebar.AtMostOneActive` | src/app/app/dashboard/components/Sidebar.tsx:141-175 | in a list without repeats at most one button is highlighted, and it is the active tab's |
| `Sidebar.SidebarState.constructor` | src/app/app/dashboard/components/Sidebar.tsx:57 | the sidebar starts expanded |
| `Sidebar.SidebarState.Toggle` | src/app/app/dashboard/components/Sidebar.tsx:60-64 | flips the collapsed flag and reports the new value, so two toggles restore it |
| `Sidebar.SidebarState.NavigateTo` | src/app/app/dashboard/components/Sidebar.tsx:66-91 | reports the tab as the new active tab and pushes the dashboard route |
| `EntryRedirect.RedirectTarget` | src/app/app/page.tsx:10-16 | the dashboard exactly when isLoggedIn is stored as "true"; the login page when it is missing or holds anything else |
| `EntryRedirect.OnlyLoginFlagConsulted` | src/app/app/page.tsx:10 | two sessions that agree on isLoggedIn are sent to the same route |
| `EntryRedirect.Redirect` | src/app/app/page.tsx:9-17 | exactly one route is pushed, the chosen one, and the session is left unchanged |

## Left out

- Database fetches are not modelled: the clinic query and its enrichment loop in
  `ServicesContent.tsx` and the article fetch chain in `ArticleContent.tsx`.
  `ServicesPanel.DataFetched` receives the lists already fetched.
- The chat network calls are not modelled. The health check is dropped. The chat POST is
  left to the environment: it may call `BackendReplies` or `BackendFails`. The request body is
  modelled only as the history recorded in `Pending.BackendCall`. `formatted_data` is dropped.
- `src/app/firebase.ts` is not part of this model. Sign-in, sign-up, reset and sign-out are
  `Outcome` parameters. Subscribing to and unsubscribing from the auth listener are not modelled.
- `SignupPage.Submit`: account creation and the display-name update are two provider calls.
  They are folded into one outcome, because a rejection of either reaches the same handler.
- Floating point is not modelled: the star rendering of a rating, the distance formatting, and the
  article scroll-progress percentage. A rating is carried as a `real` and never computed on.
- Timer delays, `window.scrollTo`, resize and mobile detection, and `formatTime`'s locale
  formatting are effects only. Timestamps are the `now` parameter, and timer callbacks are
  separate methods.
- Layout-only files are not modelled: the landing page, the community, profile, crisis
  button, logout modal, loading screen, header and assessment components. So are all
  JSX, styling, animation and Markdown rendering.
- Some panel flags are not modelled: the appointments panel's "new appointment" modal flag,
  the booking modal's contents, and the dashboard home panel's fixed timeframe selector.
- The home panel's links call `setActiveTab` (modelled by `Dashboard.SetActiveTab`). Its
  article cards also dispatch an `openArticle` event after a delay. That event is modelled
  only on the receiving side, as `ResourcesPanel.OpenArticleEvent`.
- Case mapping: `toLowerCase` and `toUpperCase` are modelled on ASCII letters only, so
  non-ASCII letters keep their case.
- Lengths: `length` counts characters here, while JavaScript counts UTF-16 code units. The two
  differ only for characters outside the Basic Multilingual Plane.
- White space: `trim` and `\s` use the exact ECMAScript set of white-space and
  line-terminator characters.
- A user chat message has no recommendation lists in the source. The model gives it empty
  lists, which render the same.
- `Chat.MockResponse` states the three keyword cases. The default case is stated by
  `Chat.MockResponseShape` instead.

## Findings

| source | as written | input that shows it | evidently intended | confidence | as-written member | corrected member |
|---|---|---|---|---|---|---|
| src/app/app/login/page.tsx:43-44 | `\|\|` binds tighter than `?:`, so the condition is "display name or identifier contains '@'". Both arms take the identifier's text before its first '@' | display name "Ann", identifier "bob@example.com": "bob" is stored | store the display name when present, otherwise the identifier's text before its first '@' | high; not executed | `Login.LoginUserNameAsWritten` (counterexample `Login.LoginUserNameCounterexample`) | `Login.LoginUserName`, used by `Login.LoginPage.Submit` |
