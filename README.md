# Recipe app client: session, guard, validation and recipe-list rules

This project models the logic of a small React client for a recipe and
cooking-assistant service. The client keeps a session in `localStorage`. It
attaches the stored token to authenticated requests and guards routes on that
token. It validates registrations before sending them. It also keeps and edits
a list of the user's recipes. Each rule is stated as a function or a state
transition over an in-memory key/value store and the page's state. Network
replies are inputs, and navigation is an output value. Every handler is
therefore a deterministic transition.

Modules, one per source file, plus three shared ones:

- `Wrappers` (`wrappers.dfy`): `Option`.
- `Browser` (`browser.dfy`): the store (`map<string, string>`), the keys
  `"token"`, `"username"` and `"recipes"`, the truthiness of a `getItem`
  result, navigation requests, and a `LocalStorage` class.
- `JsValues` (`js_values.dfy`): JavaScript values as they arrive in response
  bodies. It covers truthiness, `String(v)` (arrays joined with `,`),
  property access (which throws on `undefined`/`null`), and `trim` with
  ECMAScript's white-space set.
- `Auth` (`auth.dfy`): the request interceptor of `src/utils/auth.ts`. The
  request config is a class whose `headers` the interceptor changes in place.
- `PrivateRoute` (`private_route.dfy`): the route guard as a pure decision.
- `Login` (`login.dfy`): `handleLogin` and the page's fields.
- `Register` (`register.dfy`): the validation schema. The password regular
  expression is modelled literally, with lazy lookaheads, a greedy `.` run and
  the `$` anchor. It is proved equal to the rule in words. The module also has
  `handleChange` and `handleSubmit`.
- `CreateRecipe` (`create_recipe_page.dfy`): normalisation of fetched recipes;
  the list updates (replace by id, append, filter by id); and the handlers
  `handleSubmit`, `handleEdit`, `handleChange`, `handleDelete`,
  `handleLogout` and the mount effect.
- `RecipeView` (`recipe_view_page.dfy`): the first-match lookup, the effect
  that stores its result, and the trimmed ingredient list.
- `Session` (`session.dfy`): what login, failed login and logout mean for the
  guard and for the authenticated channel.

Stateful pages are classes. Each class has a pure transition function (for
example `CreateRecipe.SubmitTransition`), and each handler method's `ensures`
equates the new state and outputs with that function applied to the old
state. The properties are stated on the transition functions.

Behaviour of the code worth noting:

- Login does not reject a reply without a token. It stores `String(res.data.token)`,
  so a missing token is stored as `"undefined"`. That value is truthy, so it
  opens the guard and is sent as `Bearer undefined`
  (`Session.MissingTokenGrantsAccess`). A `null` token is stored as `"null"`
  and opens the guard too (`Session.NullTokenGrantsAccess`).
- Login never writes `"username"`, so the token and the username are not set
  together.
- Registration writes nothing to the store. It only navigates to `/login`.

## Model

| member | source | states |
|---|---|---|
| `Browser.OrEmpty` | src/pages/CreateRecipePage.tsx:43 | `getItem(k) \|\| ""` is non-empty exactly when the stored value is truthy, and then it is that value |
| `Browser.LocalStorage.GetItem` | src/utils/auth.ts:8 | `getItem` returns the stored string, or null when the key is absent |
| `Browser.LocalStorage.SetItem` | src/pages/Login.tsx:21 | `setItem` maps the key to the value and changes nothing else |
| `Browser.LocalStorage.RemoveItem` | src/pages/CreateRecipePage.tsx:155-156 | `removeItem` removes exactly that key |
| `JsValues.Truthy` | src/pages/CreateRecipePage.tsx:35 | the falsy values are exactly `undefined`, `null`, `false`, `0` and `""`; every array and object is truthy |
| `JsValues.Property` | src/pages/Login.tsx:20 | reading a property throws exactly on `undefined`/`null`; a present property of an object reads as its value, and an absent one as `undefined` |
| `JsValues.ToStr` | src/pages/Login.tsx:21 | `String(v)`: a string converts to itself; an integer to a non-empty numeral that starts with "-" exactly when it is negative; an empty array to ""; only a string or an array can give "" |
| `JsValues.Coerce` | src/pages/CreateRecipePage.tsx:35 | `String(v \|\| "")`: falsy values give "", a string passes through unchanged, and a number or boolean gives "" exactly when it is falsy |
| `JsValues.CoerceStringArray` | src/pages/CreateRecipePage.tsx:35 | an array of strings coerces to the strings joined with "," |
| `JsValues.Trim` | src/pages/RecipeViewPage.tsx:55 | `trim` gives "" exactly for an all-white-space string; otherwise the result starts and ends with a non-white-space character |
| `JsValues.TrimPadded` | src/pages/RecipeViewPage.tsx:55 | trimming removes exactly the white-space padding on both sides of a core |
| `JsValues.TrimIdempotent` | src/pages/RecipeViewPage.tsx:55 | trimming twice is trimming once |
| `Auth.WithBearer` | src/utils/auth.ts:8-11 | with a truthy token t, `Authorization` is `"Bearer " + t`; with a null or "" token the headers are unchanged; no other header is ever added, removed or changed |
| `Auth.BearerCarriesToken` | src/utils/auth.ts:10 | the credential read back from the attached header is the stored token exactly |
| `Auth.Intercept` | src/utils/auth.ts:7-13 | the interceptor returns the same config object, rewrites only its headers as `WithBearer` says, and leaves the store unchanged |
| `PrivateRoute.Guard` | src/utils/PrivateRoute.tsx:8-11 | children are rendered exactly when the stored token is truthy; otherwise the guard redirects to `/login` with `replace` |
| `PrivateRoute.GuardReadsOnlyToken` | src/utils/PrivateRoute.tsx:9-10 | two stores that agree on whether the token is truthy get the same element |
| `Login.LoginTransition` | src/pages/Login.tsx:14-28 | a rejected request, or a body of undefined/null, gives "Login failed" with the store unchanged and no navigation. Any other body stores `String(data.token)` whatever the token is (a string verbatim, a missing one as "undefined", null as "null"), clears the error and goes to `/ai-kitchen`. No key but `"token"` is written |
| `Login.LoginPage.constructor` | src/pages/Login.tsx:8-10 | the username, password and error start empty |
| `Login.LoginPage.SetUsername` | src/pages/Login.tsx:39 | the username input changes only the username |
| `Login.LoginPage.SetPassword` | src/pages/Login.tsx:46 | the password input changes only the password |
| `Login.LoginPage.HandleLogin` | src/pages/Login.tsx:14-28 | the request body is `{username, password}` from the page's fields, and the store, error and navigation become what `LoginTransition` gives |
| `Register.WithField` | src/pages/Register.tsx:28-30 | the named field takes the new value and the other two keep theirs |
| `Register.LazyFindMeaning` | src/pages/Register.tsx:14 | the lookahead `(?=.*?[k])` succeeds exactly when a character of class k occurs with no line terminator before it |
| `Register.DotRunMeaning` | src/pages/Register.tsx:14 | the greedy `.` run reaches the end of the input exactly when no line terminator lies ahead |
| `Register.PasswordPattern` | src/pages/Register.tsx:14 | the regular expression itself: four lazy lookaheads from the start, then a greedy `.` run of at least 8 characters that must reach the end of the input |
| `Register.PatternMeansRule` | src/pages/Register.tsx:13-16 | the regular expression accepts a password exactly when it has at least 8 characters, no line terminator, and a lower-case letter, an upper-case letter, a digit and one of `@#$!%&*` |
| `Register.PasswordExamples` | src/pages/Register.tsx:14 | "Abcdef1!" is accepted; "abcdef1!" (no upper case) and "Abc1!" (too short) are not |
| `Register.Validate` | src/pages/Register.tsx:8-17 | the form passes exactly when the username has at least 3 characters, the e-mail check holds and the password rule holds; each failing field gives its own non-empty message |
| `Register.Submit` | src/pages/Register.tsx:32-50 | a request is made exactly when validation passes, and it is one POST to `/users/register` with the unchanged form. Failed validation shows a non-empty message and goes nowhere. Success goes to `/login`. A failed request shows the server's message or "Registration failed" and goes nowhere |
| `Register.RegistrationExamples` | src/pages/Register.tsx:36-46 | `{ab, x@y.com, Abcdef1!}` sends nothing; `{user1, x@y.com, Abcdef1!}` posts exactly that form |
| `Register.RegisterPage.constructor` | src/pages/Register.tsx:21-26 | the form fields and the error start empty |
| `Register.RegisterPage.HandleChange` | src/pages/Register.tsx:28-30 | only the named field of the form changes |
| `Register.RegisterPage.HandleSubmit` | src/pages/Register.tsx:32-50 | the error, the request and the navigation are those `Submit` gives; the form is unchanged |
| `CreateRecipe.Normalize` | src/pages/CreateRecipePage.tsx:33-36 | one fetched recipe keeps id, title, description, instructions and username; falsy ingredients become "" and string ingredients stay as they are |
| `CreateRecipe.NormalizeAll` | src/pages/CreateRecipePage.tsx:33-37 | a falsy body gives []; otherwise each recipe keeps its id, title, description, instructions and username, and its ingredients become `String(x \|\| "")` ("" when missing, a string unchanged) |
| `CreateRecipe.Saved` | src/pages/CreateRecipePage.tsx:87-91 | the recipe a save answers with keeps the server's id, title, description and instructions, normalises its ingredients as the fetch does, and takes the stored username whatever the server said |
| `CreateRecipe.ReplaceById` | src/pages/CreateRecipePage.tsx:92-94 | the length is kept; exactly the entries whose id equals the updated id become the updated recipe; every other entry stays in place |
| `CreateRecipe.Without` | src/pages/CreateRecipePage.tsx:148 | no remaining recipe has the deleted id, and the list does not grow |
| `CreateRecipe.WithoutMembers` | src/pages/CreateRecipePage.tsx:148 | a recipe remains after the filter exactly when it was in the list and its id differs |
| `CreateRecipe.WithoutConcat` | src/pages/CreateRecipePage.tsx:148 | filtering a concatenation filters each part, so the kept recipes keep their relative order |
| `CreateRecipe.WithoutAbsent` | src/pages/CreateRecipePage.tsx:148 | deleting an id that no recipe has leaves the list as it was |
| `CreateRecipe.WithoutIdempotent` | src/pages/CreateRecipePage.tsx:148 | deleting the same id twice is deleting it once |
| `CreateRecipe.ReplaceTouchesOnlyItsId` | src/pages/CreateRecipePage.tsx:92-94 | apart from the entries with the updated id, the list after an edit is the list before it |
| `CreateRecipe.AppendThenDelete` | src/pages/CreateRecipePage.tsx:104 | deleting an id after a creation filters the earlier recipes as before, and keeps the created recipe, at the end, exactly when its id differs |
| `CreateRecipe.FormProblem` | src/pages/CreateRecipePage.tsx:70-72 | the checks run in order: a blank trimmed title gives "Title is required", then ingredients, then instructions; the first failure wins, and none fails exactly when all three are non-blank |
| `CreateRecipe.DescriptionNotChecked` | src/pages/CreateRecipePage.tsx:69-72 | the description never affects validation |
| `CreateRecipe.SubmitTransition` | src/pages/CreateRecipePage.tsx:58-122 | Without a stored username and token: go to `/login`, clear the error, send nothing. With a form problem: show it and send nothing. Otherwise send one request with the stored username and `Bearer` token, a PUT exactly when editing with a truthy form id. Success replaces (edit) or appends (create), resets the form to the stored username and ends editing. Failure shows "Failed to save recipe" and keeps list, form and mode |
| `CreateRecipe.SaveOutcome` | src/pages/CreateRecipePage.tsx:82-121 | the `try` block always sends exactly one request, with `Bearer` and the token, never navigates and keeps the username state; the request is a PUT exactly when editing with a truthy form id |
| `CreateRecipe.SuccessfulEditReplaces` | src/pages/CreateRecipePage.tsx:83-94 | a successful edit keeps length and order and changes exactly the entries with the saved recipe's id |
| `CreateRecipe.ZeroIdCreates` | src/pages/CreateRecipePage.tsx:83 | an edit whose form id is 0 (falsy) takes the create branch and appends |
| `CreateRecipe.WithFormField` | src/pages/CreateRecipePage.tsx:48-56 | the edited field takes the value; id, username and the other fields are kept |
| `CreateRecipe.EditTransition` | src/pages/CreateRecipePage.tsx:124-143 | a failed load shows "Failed to load recipe for editing" and changes nothing else. A load fills the form: the id as loaded, title, description and instructions as loaded or "" when absent, ingredients as `String(x \|\| "")`, and the page's username. It enters edit mode, clears the error and keeps the list |
| `CreateRecipe.DeleteTransition` | src/pages/CreateRecipePage.tsx:145-152 | a failed delete changes nothing. A successful one changes only the list: it becomes `Without(list, id)`, so every recipe with the id goes and the others stay in their order. An undefined id removes every recipe without one |
| `CreateRecipe.LogoutStore` | src/pages/CreateRecipePage.tsx:155-156 | `"username"` and `"token"` are gone and every other key is kept |
| `CreateRecipe.CreateRecipePage.constructor` | src/pages/CreateRecipePage.tsx:17-27 | the list is empty, the form blank, not editing, no error, and the username is read from the store |
| `CreateRecipe.CreateRecipePage.Mount` | src/pages/CreateRecipePage.tsx:29-46 | the username is re-read from the store; a resolved fetch replaces the list with the normalised body; a failed fetch, or a body the normalisation throws on, keeps it |
| `CreateRecipe.CreateRecipePage.HandleChange` | src/pages/CreateRecipePage.tsx:48-56 | only the form changes, as `WithFormField` says |
| `CreateRecipe.CreateRecipePage.HandleEdit` | src/pages/CreateRecipePage.tsx:124-143 | the new state is `EditTransition` of the old |
| `CreateRecipe.CreateRecipePage.HandleSubmit` | src/pages/CreateRecipePage.tsx:58-122 | the new state, the request sent and the navigation are those `SubmitTransition` gives |
| `CreateRecipe.CreateRecipePage.Save` | src/pages/CreateRecipePage.tsx:82-121 | the `try` block: one request, then the list update and form reset, or the failure message |
| `CreateRecipe.CreateRecipePage.HandleDelete` | src/pages/CreateRecipePage.tsx:145-152 | the new state is `DeleteTransition` of the old |
| `CreateRecipe.CreateRecipePage.HandleLogout` | src/pages/CreateRecipePage.tsx:154-159 | both session keys leave the store, the username state becomes "", nothing else in the page changes, and the page goes to `/login` |
| `RecipeView.FirstMatch` | src/pages/RecipeViewPage.tsx:22 | the position returned is the first whose id is the route's, or the length when none is |
| `RecipeView.Find` | src/pages/RecipeViewPage.tsx:22 | nothing is found exactly when no recipe has the route's id; otherwise the result is the first recipe that has it |
| `RecipeView.AfterLookup` | src/pages/RecipeViewPage.tsx:18-25 | An absent or empty `"recipes"` entry changes nothing. Otherwise the first match is shown, and without a match the previous value stays. Whatever is shown has the route's id or was already shown |
| `RecipeView.NotFoundKeepsState` | src/pages/RecipeViewPage.tsx:18-33 | with no match, a first visit stays on "Recipe not found." and a later one keeps the previous recipe |
| `RecipeView.TrimmedItems` | src/pages/RecipeViewPage.tsx:54-55 | one item per ingredient, in order, each trimmed and without surrounding white space |
| `RecipeView.Render` | src/pages/RecipeViewPage.tsx:27-63 | the not-found view is shown exactly when there is no recipe; otherwise title, description and instructions are shown as stored and the ingredients trimmed |
| `RecipeView.RecipeViewPage.constructor` | src/pages/RecipeViewPage.tsx:16 | the recipe starts as null |
| `RecipeView.RecipeViewPage.LookupEffect` | src/pages/RecipeViewPage.tsx:18-25 | the recipe becomes `AfterLookup` of the old one and the store is unchanged |
| `Session.LoginGrantsAccess` | src/pages/Login.tsx:20-24 | after a login answered with a non-empty token, `getItem("token")` returns it, the guard renders its children, and requests carry exactly that token |
| `Session.MissingTokenGrantsAccess` | src/pages/Login.tsx:20-21 | a login answer without a token stores "undefined", navigates, opens the guard, and sends `Bearer undefined` |
| `Session.NullTokenGrantsAccess` | src/pages/Login.tsx:20-24 | a login answer with a null token stores "null", clears the error, navigates, opens the guard, and sends `Bearer null` |
| `Session.FailedLoginChangesNothing` | src/pages/Login.tsx:25-27 | a failed login leaves the guard's decision and the outgoing headers as they were |
| `Session.LogoutRevokesAccess` | src/pages/CreateRecipePage.tsx:154-159 | after logout both keys read as null, the guard redirects to `/login`, and no bearer header is added |
| `Session.LogoutBlocksSaving` | src/pages/CreateRecipePage.tsx:62-67 | after logout a save sends nothing and navigates to `/login` |
| `Session.GuardExamples` | src/utils/PrivateRoute.tsx:9-10 | a stored "abc123" renders the children; an empty store or an empty token redirects |

## Left out

- HTTP transport, axios and the base URLs. Replies are inputs to each handler, and requests are output values. The `src/utils/api.ts` module used by the recipe page is not part of this model. Nothing is assumed about its headers.
- `localStorage` persistence across reloads and storage quota errors. The store is an in-memory map.
- `JSON.parse` of the stored recipe list. `RecipeView.AfterLookup` takes the parser as a parameter, and a malformed stored value, which would throw, is not modelled.
- Register.Validate: zod's e-mail check is a parameter `isEmail`, and the text of zod's error message is a parameter `describe`. Both are library internals. Only the page's fallback to "Invalid input" is modelled.
- Register.Validate: lengths are counted in Unicode scalar values. JavaScript counts UTF-16 code units, and so does `.` in the regular expression. A username or password with characters outside the Basic Multilingual Plane is longer in JavaScript.
- JsValues.ToStr: numbers are integers. Fractions, `NaN` and exponent notation of `String(n)` are not modelled.
- JsValues.Property: prototype properties such as `constructor` are not modelled. No property the pages read is one.
- Auth.WithBearer: header names are compared as exact strings. The case-insensitive matching of axios' header object is not modelled.
- CreateRecipe.NormalizeAll: the fetched list's elements are read as records. A body the mapping throws on (a truthy non-array, or a null or undefined element) is the reply `FetchUnreadable`, which keeps the list. An element that is another primitive, such as a number, is not modelled.
- CreateRecipe.SaveOutcome: a server reply is read as a record with string title, description and instructions. Other shapes of `res.data` are not modelled, except a missing body, whose property read throws.
- The request URLs of `handleEdit` and `handleDelete`. The id only builds the URL, and the reply is an input.
- Asynchronous interleaving, double submission, React's batching of state updates, `window.scrollTo` and console logging.
- JSX rendering and styling, the home page, the AI kitchen page, the routing table in `src/App.tsx`, and the two public axios instances. They hold no logic beyond presentation and wiring.
