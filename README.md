# Session-gated routing, auth forms and public feed of a social-media web client

This project models the logic of a small React client in Dafny and proves
properties of that model. Four source components are modelled:

- **`App`** (module `App`, `app.dfy`) is the root component. It resolves the
  session once with `GET /api/auth/me` and settles every failure to an
  anonymous session. While that first check loads it shows only a spinner.
  Otherwise it lays out the Navbar, a member or guest sidebar, the route
  table and the RightPanel according to the session. It also issues the
  logout request, followed by a session refetch.
- **`SignUpPage`** (module `SignUp`, `signup.dfy`) holds a five-field form
  record and a guard chain with early returns: missing field, then short
  password, then mismatched confirmation. Only a form that passes all three is
  sent, without its confirmation. It also has the mutation's success
  callback, which shows a toast, invalidates the session and clears the form,
  and its error callback, which shows a toast and keeps the form. The page
  state is a class whose methods are the event handlers.
- **`LoginPage`** (module `Login`, `login.dfy`) has the same shape with two
  fields and one required-field guard. Success does not touch the form.
- **`NoAuthPost`** (module `Feed`, `feed.dfy`) is the public feed. It covers
  the posts query's result, and the three render conditions for the
  skeletons, the empty-feed notice and the post list.

Module `Common` (`common.dfy`) holds the shared vocabulary:
- JavaScript truthiness of an `error` field and the `field || fallback`
  expression;
- the outcome of `fetch` + `res.json()` as `Reply` (thrown, with the error's
  name and message, or answered with an ok flag and a parsed body), and the
  string form `name: message` of a thrown error;
- the outcome of an auth mutation as the pages display it (`MutationOutcome`),
  which each page calls with its own fallback text;
- the observable effects as `Event` (request issued, toast, query
  invalidated or refetched).

HTTP, toasts and the query cache are not modelled. They are inputs (`Reply`,
`FetchOutcome`, the `isLoading`/`isRefetching` flags) and emitted `Event`s.

Three behaviours of the code worth noting:
- A failed login or signup shows a fixed toast text ("Login failed! Please
  check your credentials.", "Signup failed! Please try again."). The backend's
  `error` text, or the fallback, appears only in the page's error line
  (`errorText`).
- Logout refetches the session after the logout request completes with any
  status, not only on success. When the request itself rejects, the handler
  throws before the refetch, so nothing is refetched.
- The posts query's error message is the thrown error converted to a string,
  because the catch block wraps it in `new Error(error)`. For a non-ok reply
  that is `"Error: "` followed by the backend's `error` or the fallback; for a
  network failure it is the error's name, `": "` and its message. The auth
  pages, by contrast, show the thrown error's bare `message`.

## Model

| member | source | states |
|---|---|---|
| App.ResolveSession | frontend/src/App.jsx:27-40 | the session check never fails or stays loading; it is authenticated exactly when the reply was received and parsed, is ok and has no truthy `error`, and then carries the body's user |
| App.Match | frontend/src/App.jsx:70-88 | a matched pathname is exactly the path of the route it matched, and a profile's `:username` is one non-empty segment |
| App.MatchPathOf | frontend/src/App.jsx:70-88 | every route (with a valid username) is matched by its own path, so the five patterns never overlap |
| App.RouteElement | frontend/src/App.jsx:71-87 | a route renders iff its access class permits the session (`/` always, `/login` and `/signup` only anonymous, `/notifications` and `/profile/:username` only signed in); the rendered page belongs to that route, `/` shows HomePage iff signed in, and a refused visitor is redirected to `/` (auth forms) or `/login` (member pages) |
| App.Render | frontend/src/App.jsx:53-91 | only the spinner while loading; otherwise Navbar and RightPanel iff authenticated, no sidebar iff the pathname is `/login` or `/signup`, else the member sidebar iff authenticated; the outlet is the matched route's element, or nothing for an unmatched path |
| App.NoRedirectLoop | frontend/src/App.jsx:71-87 | for the same session, every redirect target renders a page instead of redirecting again |
| App.HideSidebarOnAuthRoutes | frontend/src/App.jsx:44-45 | under exact matching, the pathname test for hiding the sidebar holds exactly for the pathnames that match the login or signup route |
| App.AuthFormsWithoutSidebar | frontend/src/App.jsx:67-79 | under exact matching, whenever the login or signup form is shown, no sidebar is shown |
| App.PagesFollowSession | frontend/src/App.jsx:71-87 | a shown page is a member page (feed, notifications, profile) iff the session is authenticated |
| App.LoggedOutVisitorRedirected | frontend/src/App.jsx:80-87 | a session check answered with a non-ok status gives an anonymous session, under which `/notifications` and `/profile/alice` redirect to `/login` |
| App.Logout | frontend/src/App.jsx:48-51 | the logout request comes first; exactly one session refetch follows iff the request completed, and nothing else is emitted |
| SignUp.WithField | frontend/src/pages/auth/signup/SignUpPage.jsx:69-71 | the named field takes the new value and the other four are unchanged |
| SignUp.ValidateSignUp | frontend/src/pages/auth/signup/SignUpPage.jsx:49-67 | the registration is sent iff all five fields are non-empty, the password has at least 6 characters and equals its confirmation; the payload is email, username, fullName and password only; otherwise exactly one message, chosen in the order missing field, short password, mismatch |
| SignUp.SentRegistrationIsConfirmed | frontend/src/pages/auth/signup/SignUpPage.jsx:53-66 | a sent registration's password equals the confirmation and is at least 6 long, and its other fields are non-empty |
| SignUp.FormRoundTrip | frontend/src/pages/auth/signup/SignUpPage.jsx:53-66 | a form filled from a registration with non-empty fields and a long enough password, typed twice, sends exactly that registration |
| SignUp.ShortPasswordRejected | frontend/src/pages/auth/signup/SignUpPage.jsx:57-60 | "abc" typed twice is refused with the length message |
| SignUp.MismatchRejected | frontend/src/pages/auth/signup/SignUpPage.jsx:61-64 | "secret1" confirmed as "secret2" is refused with the mismatch message |
| Common.MutationOutcome | frontend/src/pages/auth/signup/SignUpPage.jsx:21-32 | success iff the reply was received and ok; a non-ok reply fails with the backend's truthy `error`, else the page's fallback text; a thrown error fails with its `message` (not its name), which is what the page shows as `error.message` |
| SignUp.SignUpFailureText | frontend/src/pages/auth/signup/SignUpPage.jsx:28-29 | a non-ok signup reply fails with the backend's truthy `error`, else "Failed to create account" |
| SignUp.SuccessfulSignUp | frontend/src/pages/auth/signup/SignUpPage.jsx:33-43 | filling in valid fields, submitting and succeeding emits the request without the confirmation, the success toast and the session invalidation, and leaves the form empty |
| SignUp.ShortPasswordSendsNothing | frontend/src/pages/auth/signup/SignUpPage.jsx:57-60 | submitting "abc"/"abc" emits one error toast and no request, and keeps the form |
| SignUp.SignUpPage.constructor | frontend/src/pages/auth/signup/SignUpPage.jsx:10-16 | the page starts with all five fields empty, nothing pending, no error and no effects |
| SignUp.SignUpPage.InputChange | frontend/src/pages/auth/signup/SignUpPage.jsx:69-71 | the form becomes the old form with the one field replaced; nothing else changes |
| SignUp.SignUpPage.Submit | frontend/src/pages/auth/signup/SignUpPage.jsx:49-67 | with the button disabled (pending) nothing happens; otherwise either exactly one error toast and no request, or exactly one request with the validated registration, after which the mutation is pending and the old error line is cleared; the form is never changed |
| SignUp.SignUpPage.OnSuccess | frontend/src/pages/auth/signup/SignUpPage.jsx:33-43 | success toast, then the `authUser` invalidation; the form is reset to empty and nothing is pending |
| SignUp.SignUpPage.OnError | frontend/src/pages/auth/signup/SignUpPage.jsx:44-46 | one error toast, the message shown on the page, the form untouched |
| SignUp.SignUpPage.Complete | frontend/src/pages/auth/signup/SignUpPage.jsx:20-47 | the outstanding signup settles with the success or the error effects according to the reply |
| Login.WithField | frontend/src/pages/auth/login/LoginPage.jsx:51-53 | the named field takes the new value and the other is unchanged |
| Login.ValidateLogin | frontend/src/pages/auth/login/LoginPage.jsx:42-49 | the credentials are sent iff username and password are both non-empty, and are exactly the form's two fields; otherwise the required-fields message |
| Login.LoginFailureText | frontend/src/pages/auth/login/LoginPage.jsx:28-29 | a non-ok login reply fails with the backend's truthy `error`, else "Something went wrong" |
| Login.DoubleSubmitSendsOnce | frontend/src/pages/auth/login/LoginPage.jsx:129-135 | a second submit while the first login is pending is ignored: exactly one request is emitted |
| Login.NetworkFailureShowsMessage | frontend/src/pages/auth/login/LoginPage.jsx:70-72 | when the login request throws, the page shows the thrown error's message |
| Login.RejectedCredentials | frontend/src/pages/auth/login/LoginPage.jsx:28-39 | a login rejected with "bad credentials" emits the request and exactly one error toast, keeps the form and shows "bad credentials" |
| Login.LoginPage.constructor | frontend/src/pages/auth/login/LoginPage.jsx:8-11 | the page starts with both fields empty, nothing pending, no error and no effects |
| Login.LoginPage.InputChange | frontend/src/pages/auth/login/LoginPage.jsx:51-53 | the form becomes the old form with the one field replaced; nothing else changes |
| Login.LoginPage.Submit | frontend/src/pages/auth/login/LoginPage.jsx:42-49 | with the button disabled (pending) nothing happens; otherwise either exactly one error toast and no request, or exactly one request carrying the current form, after which the mutation is pending; the form is never changed |
| Login.LoginPage.OnSuccess | frontend/src/pages/auth/login/LoginPage.jsx:33-36 | success toast, then the `authUser` invalidation; the form is not modified |
| Login.LoginPage.OnError | frontend/src/pages/auth/login/LoginPage.jsx:37-39 | one error toast, the message shown on the page, the form untouched |
| Login.LoginPage.Complete | frontend/src/pages/auth/login/LoginPage.jsx:20-40 | the outstanding login settles with the success or the error effects according to the reply |
| Feed.PostsQuery | frontend/src/components/common/NoAuthPost.jsx:15-28 | data iff the reply was received and ok, and then it is the body; a non-ok reply fails with "Error: " and the backend's truthy `error` or "Something went wrong"; a thrown error fails with its string form (`name: message`, or whichever of the two is non-empty) |
| Feed.RenderList | frontend/src/components/common/NoAuthPost.jsx:45-47 | exactly one entry per post, in order, each keyed by its post's id |
| Feed.RenderListAppend | frontend/src/components/common/NoAuthPost.jsx:45-47 | rendering a concatenation of posts gives the concatenation of their entries, so order is preserved |
| Feed.FeedView | frontend/src/components/common/NoAuthPost.jsx:33-49 | skeletons iff loading or refetching; the empty notice iff settled and the data is an empty array; a list block iff settled and data is present, never together with the skeletons; its entries match the posts one to one, and a non-array body fails to render |

## Left out

- `fetch`, `res.json()` and the endpoints are not modelled. A request is an emitted `Request` event, and its result is a `Reply` input: thrown, or answered with an ok flag and a parsed body.
- Bodies of the auth endpoints and the non-array bodies of `GET /api/posts/all` are modelled as objects with an optional string `error` field. A JSON `null` or scalar body is not modelled, and neither is a non-string `error` value.
- The query cache is not modelled: scheduling of `invalidateQueries` and `refetch`, and races between queries in flight. `retry: false` is reflected only in `App.ResolveSession` settling every failure at once. The posts query sets no `retry` option, so the library's default retries apply to a failed posts fetch; `Feed.PostsQuery` models a single attempt. After the first load, a refetch leaves `isLoading` false, so the spinner appears only for the first check. The model takes the session as an input to `App.Render` and does not track that transition.
- Toasts appear only as `SuccessToast`/`ErrorToast` events with their text; their timing and display are not modelled.
- Resetting the page's error line when a new mutation starts is how the mutation library behaves, and is modelled as such in `Submit`.
- `App.Match` matches pathnames exactly. The router's case-insensitive and trailing-slash matching is not modelled, and neither are `Navigate` mechanics. Under such matching, `/LOGIN` would render the login form with a sidebar, because the sidebar test compares the pathname exactly.
- The browser's native `required`/`type="email"` validation on the inputs is not modelled; the handlers' own checks are.
- Password length is counted in characters of a Dafny string, not in UTF-16 code units.
- The submit button's label and styling (`"Signing up..."`, `"Logging in..."`) are not modelled. Its `disabled` state is modelled as `Submit` doing nothing while `isPending` holds.
- JSX markup, Tailwind classes, icons, `InputField` layout, images and the `Toaster` element are not modelled.
- `frontend/src/components/common/Navbar.jsx` is a static carousel with no logic and is not part of this model.
