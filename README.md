# Session-gated pages of the marketplace client, in Dafny

This project models the logic of a small React web client for a marketplace:
the two route guards that admit or redirect a visitor after one session check,
the landing page, the login and registration forms (with the password-strength
meter), the profile page that merges the user's name with their store, and the
"Sell Item" modal.

Every component is a class whose fields are the component's `useState`
variables. Each event handler is a method. A handler never performs I/O: it
returns the request it would issue (or `None` when its pre-flight check stops
it) and takes the outcome of that request as a `FetchOutcome` parameter. The
outcome is a response (`ok` for 2xx, and a body that is not JSON, is the JSON
`null`, or is another JSON value) or a network error. A handler that changes state before its `await` is split in
two:

- `HandleX` is the synchronous part. It sets the loading flag and issues the
  request. The login and register handlers also clear the message. The
  create-store handler clears neither its `error` nor its `success`.
- `ResumeX(outcome)` is the continuation once the request has settled.

A `pending` field holds the request in flight, and `Valid()` ties it to
the loading flag. Navigation is recorded as a sequence of paths.
`setTimeout` is recorded as a `Timer(delayMs, action)` and never fires. Each
render decision is a function of the fields.

The modules are:

- `Client`: outcomes, requests and timers. It also holds the two orders in which
  handlers read a response: body first (register, create store, sell) or status
  first (login).
- `Strength`: the password score and its label.
- `JsString`: ECMAScript `trim`.
- `Guards`: `ProtectedRoute` and `PublicRoute`.
- `Home`, `Login`, `Register`, `Profile` and `Sell`: one module per page.

Some behaviour of the code is easy to misread:

- The password "Abc12345!" scores 5 and is labelled "Strong". It has 9
  characters, so it earns one length point, and each of its four character
  classes earns one more.
- The profile page reads the identity and then the store, one after the other.
  A throw in the store read also resets the name to "Guest".
- Registration does not check that a verification code was requested first.
  `Register.RegisterWithoutSendingCode` shows the request going out.
- The profile page checks the session at `/api/auth/check`, with no trailing
  slash. The guards and the landing page use `/api/auth/check/`.
- A response body is modelled as not JSON, as the JSON `null`, or as another
  JSON value. A handler that reads the body first succeeds on a 2xx `null`
  body, because it never reads the body on success. On a non-2xx `null` body it
  throws at `data.error` and shows its `catch` message.

## Model

| member | source | states |
|---|---|---|
| `Client.JsonThenOk` | src/pages/Register.jsx:65-70 | a body read before the status check: success exactly for a 2xx response whose body parses (`null` included); `catch` exactly when the body does not parse, the network failed, or a non-2xx body is `null`; otherwise the body's `error` |
| `Client.OkThenJson` | src/pages/Login.jsx:26-35 | the status checked first and the body read only on failure: success exactly for any 2xx; `catch` for a network failure or a non-2xx body that is not JSON or is `null`; otherwise the body's `error` |
| `Client.ParseOrderMatters` | src/pages/contents/Sell.jsx:27-36 | the two orders disagree exactly on a 2xx response whose body is not JSON, which the body-first order sends to `catch` |
| `Client.ErrorOr` | src/pages/contents/Sell.jsx:33 | `data.error` or else the fallback: a non-empty server text is the message; the message differs from the fallback only when it is that text; an absent or empty text gives the fallback |
| `Strength.ClassOf` | src/pages/Register.jsx:35-38 | each character matches exactly one of `[a-z]`, `[A-Z]`, `\d`, `[^A-Za-z0-9]` |
| `Strength.Score` | src/pages/Register.jsx:29-41 | the score is at most 6, and at most 4 below 8 characters (empty scores 0 by the early return) |
| `Strength.Test` | src/pages/Register.jsx:35-38 | `/re/.test(password)` holds exactly when some character of the password matches the class's regular expression |
| `Strength.TestIff` | src/pages/Register.jsx:35-38 | the left-to-right scan of `/re/.test` matches exactly when some character of the password is in the class |
| `Strength.ScoreCountsClasses` | src/pages/Register.jsx:30-40 | the score of a non-empty password is its length points plus the number of distinct classes it uses; empty scores 0 |
| `Strength.NonEmptyScoresAtLeastOne` | src/pages/Register.jsx:35-38 | every non-empty password scores at least 1 |
| `Strength.LongPasswordEarnsBothLengthPoints` | src/pages/Register.jsx:33-34 | from 12 characters on both length points are earned |
| `Strength.MaxScoreIff` | src/pages/Register.jsx:33-40 | the score is 6 if and only if the password has at least 12 characters and all four classes |
| `Strength.AppendNeverLowers` | src/pages/Register.jsx:33-38 | appending a character never lowers the score |
| `Strength.Label` | src/pages/Register.jsx:171 | a score in 1..6 shows `strengthLabels[score-1]`; any other score falls back to "Very Weak" |
| `Strength.Indicator` | src/pages/Register.jsx:160-172 | the indicator is shown exactly when the password is not empty, and its text is always one of the six labels |
| `Strength.LabelsOfScores` | src/pages/Register.jsx:45 | scores 0 and 1 both show "Very Weak"; scores 1..6 show six different labels |
| `Strength.IndicatorReadsTable` | src/pages/Register.jsx:160-172 | while the indicator is shown (password non-empty) its label comes from the table, never from the fallback |
| `Strength.Example` | src/pages/Register.jsx:29-45 | "Abc12345!" scores 5 and shows "Strong" |
| `JsString.LeadingWhiteSpace` | src/pages/contents/Profile.jsx:57 | the longest prefix of white space: all white space, and followed by a non-white-space character or the end |
| `JsString.TrailingWhiteSpace` | src/pages/contents/Profile.jsx:57 | the longest suffix of white space: all white space, and preceded by a non-white-space character or the start |
| `JsString.Trim` | src/pages/contents/Profile.jsx:57 | `trim()` returns no longer a string that starts and ends with a non-white-space character, or nothing |
| `JsString.BlankIff` | src/pages/contents/Profile.jsx:57 | `!storeName.trim()` holds exactly when every character of the name is white space |
| `JsString.TrimKeepsInner` | src/pages/contents/Profile.jsx:57 | trimming never lengthens and leaves a string without white space at either end unchanged |
| `Guards.ProtectedView` | src/components/ProtectedRoute.jsx:30-38 | placeholder exactly while loading, the children exactly when loaded and authenticated, otherwise a redirect to "/" |
| `Guards.PublicView` | src/components/PublicRoute.jsx:32-40 | placeholder exactly while loading, the children exactly when loaded and not authenticated, otherwise a redirect to "/dashboard" |
| `Guards.ExactlyOneAdmits` | src/components/PublicRoute.jsx:36-40 | for one settled auth state exactly one guard admits its children and the other redirects |
| `Guards.ProtectedRoute.constructor` | src/components/ProtectedRoute.jsx:5-6 | the guard mounts loading and unauthenticated, showing only the placeholder |
| `Guards.ProtectedRoute.CheckAuth` | src/components/ProtectedRoute.jsx:9-25 | authenticated exactly on a 2xx answer; loading ends false on every path |
| `Guards.PublicRoute.constructor` | src/components/PublicRoute.jsx:7-8 | the guard mounts loading and unauthenticated, showing only the placeholder |
| `Guards.PublicRoute.CheckAuth` | src/components/PublicRoute.jsx:11-27 | authenticated exactly on a 2xx answer; loading ends false on every path |
| `Guards.SameSession` | src/components/ProtectedRoute.jsx:15-38 | two guards given the same answer disagree on admission; the protected one admits exactly on 2xx, and on a non-2xx answer or a network failure it redirects to "/" while the public one admits |
| `Home.LandingFor` | src/pages/Home.jsx:51-84 | Login and Register links exactly when signed out, the Dashboard link exactly when signed in; Get Started goes to "/dashboard" or "/login" accordingly |
| `Home.HomePage.constructor` | src/pages/Home.jsx:7-8 | the page mounts loading and unauthenticated, showing only the placeholder |
| `Home.HomePage.CheckAuth` | src/pages/Home.jsx:12-27 | authenticated exactly on a 2xx answer; loading ends false on every path |
| `Home.HomePage.View` | src/pages/Home.jsx:31-84 | only the placeholder renders while loading; once loaded the page is `LandingFor` the authentication state |
| `Home.HomePage.GetStarted` | src/pages/Home.jsx:82-84 | navigates to "/dashboard" when authenticated and to "/login" otherwise |
| `Login.WithField` | src/pages/Login.jsx:10-12 | the named field takes the new value and the other keeps its own |
| `Login.SubmitMessage` | src/pages/Login.jsx:26-35 | "Login successful!" on any 2xx; on a non-2xx answer the server's error or "Login failed" when its body can be read, and "Server error" when it is not JSON or is `null`; "Server error" on a network failure |
| `Login.LoginPage.constructor` | src/pages/Login.jsx:5-7 | empty form, not loading, no message |
| `Login.LoginPage.HandleChange` | src/pages/Login.jsx:10-12 | the form becomes `WithField` of the old form |
| `Login.LoginPage.HandleSubmit` | src/pages/Login.jsx:14-24 | loading set and message cleared before the login request with the form's e-mail and password |
| `Login.LoginPage.ResumeSubmit` | src/pages/Login.jsx:26-37 | the message is `SubmitMessage` of the outcome, navigation to "/dashboard" exactly on 2xx, loading false on every path |
| `Register.Changed` | src/pages/Register.jsx:18-24 | the checkbox stores `checked`, a text input stores `value`, and every other field keeps its value |
| `Register.SendCodeRejection` | src/pages/Register.jsx:49-56 | the e-mail is checked before the name, with their two messages; no rejection exactly when both are present |
| `Client.BodyFirstFeedback` | src/pages/Register.jsx:65-70 | for a handler that parses the body before it looks at the status: the success text for a 2xx response whose body parses; the throw text whenever the body does not parse, the network failed or a non-2xx body is `null`; the server's error or the fallback for any other non-2xx body |
| `Register.RegisterPage.constructor` | src/pages/Register.jsx:7-16 | empty form with the terms unticked, not loading, no message, modal closed |
| `Register.RegisterPage.HandleChange` | src/pages/Register.jsx:18-24 | the form becomes `Changed` of the old form |
| `Register.RegisterPage.HandleSendCode` | src/pages/Register.jsx:48-58 | a rejection sets its message and issues nothing; otherwise loading set, message cleared, and the e-mail and name posted |
| `Register.RegisterPage.ResumeSendCode` | src/pages/Register.jsx:59-71 | the body-first message with "Verification code sent. Check your email.", "Failed to send code." and "Error sending code.", loading false on every path, no navigation |
| `Register.RegisterPage.HandleRegister` | src/pages/Register.jsx:74-89 | with the terms unticked only the modal opens: no request, loading and message untouched; otherwise the form and time zone are posted |
| `Register.RegisterPage.ResumeRegister` | src/pages/Register.jsx:90-102 | the body-first message with "Registration complete!", "Registration failed." and "Error registering."; a move to "/login" after 1000 ms scheduled exactly on a parsed 2xx; loading false on every path |
| `Register.RegisterPage.OpenTerms` | src/pages/Register.jsx:186 | the terms modal opens |
| `Register.RegisterPage.CloseTerms` | src/pages/Register.jsx:209 | the terms modal closes |
| `Register.RegisterPage.AcceptTermsAndClose` | src/pages/Register.jsx:215-218 | ticks the terms and closes the modal without submitting |
| `Register.RegisterWithoutSendingCode` | src/pages/Register.jsx:77-89 | a form with the terms accepted is posted although no code was ever requested |
| `Register.TermsGateThenSubmit` | src/pages/Register.jsx:74-103 | a first submission without the terms sends nothing and opens the modal; after accepting, the next one sends the form |
| `Profile.ReadsIssued` | src/pages/contents/Profile.jsx:26-38 | the profile read always goes out; the store read goes out exactly when the profile read did not throw (a 2xx profile body that is not JSON or is `null` throws) |
| `Profile.LoadAccount` | src/pages/contents/Profile.jsx:23-51 | a store only for a readable 2xx store answer with a truthy `has_store`; "Guest" after a non-2xx profile answer; a throw in either read, including a 2xx `null` body, resets the name to "Guest" and the store to none |
| `Profile.ProfilePage.constructor` | src/pages/contents/Profile.jsx:9-20 | the page mounts loading its profile, with no store, no messages and both modals closed |
| `Profile.ProfilePage.FetchUserData` | src/pages/contents/Profile.jsx:23-51 | the name and store become `LoadAccount` of the two outcomes, only the reads that run are issued, and `loadingProfile` ends false |
| `Profile.ProfilePage.View` | src/pages/contents/Profile.jsx:91-129 | only the loading view while loading; afterwards "Sell Item" exactly when there is a store and "Create Store" otherwise |
| `Profile.ProfilePage.Back` | src/pages/contents/Profile.jsx:89 | navigates to "/dashboard" |
| `Profile.ProfilePage.ShowCreateStoreModal` | src/pages/contents/Profile.jsx:124 | opens the create-store modal |
| `Profile.ProfilePage.HideCreateStoreModal` | src/pages/contents/Profile.jsx:178 | closes the create-store modal |
| `Profile.ProfilePage.ShowSellModal` | src/pages/contents/Profile.jsx:116 | opens the sell modal |
| `Profile.ProfilePage.HideSellModal` | src/pages/contents/Profile.jsx:199-202 | closes the sell modal |
| `Profile.ProfilePage.EditStoreName` | src/pages/contents/Profile.jsx:171 | the store-name input sets `storeName` |
| `Profile.ProfilePage.HandleCreateStore` | src/pages/contents/Profile.jsx:56-71 | a name blank after trimming sets "Store name cannot be empty." and issues nothing; otherwise the untrimmed name is posted and `loadingStore` set |
| `Profile.ProfilePage.ResumeCreateStore` | src/pages/contents/Profile.jsx:73-86 | a parsed 2xx sets "Store created!", records the posted name as the store and schedules the modal to close, with no further read; the server's error or "Failed to create store." for a readable non-2xx body; "Network error." for a network failure, a body that is not JSON or a non-2xx `null`; `loadingStore` ends false |
| `Profile.CreateAcme` | src/pages/contents/Profile.jsx:75-78 | creating "Acme" with a 2xx answer whose body parses shows the store "Acme" and offers "Sell Item", whatever the mount reads answered |
| `Profile.StaleErrorAfterSuccess` | src/pages/contents/Profile.jsx:56-86 | an error left by a blank name stays next to the success message of a later creation |
| `Sell.SellRequest` | src/pages/contents/Sell.jsx:10-18 | nothing is sent exactly when a field is empty or no image was picked; otherwise the request carries `item_name`, `price` and `image` |
| `Sell.CloseScheduled` | src/pages/contents/Sell.jsx:29-31 | the modal close after 1500 ms is scheduled exactly on a parsed 2xx |
| `Sell.UnparsableSuccessKeepsModalOpen` | src/pages/contents/Sell.jsx:27 | a 2xx answer whose body is not JSON shows "Something went wrong." and keeps the modal open |
| `Sell.NullBody` | src/pages/contents/Sell.jsx:27-36 | a `null` body lists the item and schedules the close on 2xx, and shows "Something went wrong." on a non-2xx answer |
| `Sell.SellModal.constructor` | src/pages/contents/Sell.jsx:4-7 | empty fields, no image, no message |
| `Sell.SellModal.EditItemName` | src/pages/contents/Sell.jsx:48 | the name input sets `itemName` |
| `Sell.SellModal.EditPrice` | src/pages/contents/Sell.jsx:56 | the price input sets `price` |
| `Sell.SellModal.PickImage` | src/pages/contents/Sell.jsx:62 | the file input sets `image` to the picked file or to nothing |
| `Sell.SellModal.HandleSell` | src/pages/contents/Sell.jsx:9-38 | the request is `SellRequest` of the fields; a missing field gives "Please fill in all fields." and no request; otherwise the body-first message with "Item listed successfully!", "Failed to list item." and "Something went wrong.", and the close only on a parsed 2xx |
| `Sell.MissingImage` | src/pages/contents/Sell.jsx:10-13 | with no image picked nothing is sent and the message asks for all fields |

## Left out

- The network, cookies and the base-URL settings. Every request's outcome is a parameter, and the server is not modelled.
- Timers and effects. `setTimeout` callbacks are recorded and never run. React's effect scheduling is not modelled, nor are state updates after a component has unmounted.
- Browser form validation. The `required` attributes on the register and login inputs (including the terms checkbox) and `type="email"` let a browser block the submit event before the handler runs. The model lets the handlers run on any form.
- Markup, styling and icons. This includes the strength bar's width and colours (`strengthColors`) and the click handling of the modal backdrops.
- The time zone. `Intl.DateTimeFormat` time-zone resolution is an opaque string given to the register page's constructor.
- Multipart bodies. `FormData` and file contents are not modelled: an image is present or absent.
- `Strength.Score`: lengths count characters, while JavaScript counts UTF-16 code units. A password with characters outside the Basic Multilingual Plane is counted shorter here than in the browser.
- `Client.Json`: reads `error`, `name` and `store_name` as strings or absent. A non-string value the server might send is not modelled. A JSON value that is neither an object nor `null` is represented by `Json` with every field absent, which is how the components read it.
- src/pages/contents/Dashboard.jsx is not part of this model. It only navigates to "/" after a 2xx logout.
- src/api.js is not part of this model. It is a fetch wrapper that no modelled component uses.
- vite.config.js is not part of this model. It holds build and proxy settings.
