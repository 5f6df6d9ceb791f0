# JavaScript playground client: a verified model of its screen state machines

The playground is a browser client in which a user signs in, writes JavaScript, runs it on a
remote execution service, saves it as snippets, shares snippets by link and browses the
history of past runs. This project models the logic behind each of its screens: the state
each component keeps, how each handler moves that state, and how the reply of the server
(a success envelope, a non-success envelope, an HTTP error status, or no reply at all)
decides the new state. Each component is a Dafny class whose fields are the component's
state variables, and each handler is a method whose postcondition gives the whole new state.
Where a handler shows an in-flight state (a spinner, "Executing..."), it is split into a
`Begin…` method that returns the request to send and a `Complete…` method that takes the reply.

Modules, one per source file, plus three shared ones:

- `Text` (text.dfy): JavaScript `trim`, and a proof that a string trims to empty exactly
  when it is all whitespace.
- `Remote` (remote.dfy): `Outcome<T> = Ok | NotOk | HttpErr | NetErr`, the snippet and
  user records, JavaScript's `message || fallback`, and the share link.
- `Execution` (execution.dfy): how an execution reply becomes the result panel. The editor
  and the shared view hold identical copies of this logic.
- `Auth` (auth_form.dfy): form validation with the e-mail pattern `\S+@\S+\.\S+`, the request
  sent, the error text of each failed reply, and the form's state.
- `App` (app.dfy): the session (user, persisted token, default `Authorization` header,
  start-up loading) and the guarded route table.
- `Editor` (code_editor.dfy), `Snippets` (snippet_manager.dfy), `History`
  (execution_history.dfy) and `Shared` (shared_snippet.dfy): the four screens.

Behaviours of the code the model keeps, some of them surprising:

- A 409 reply gives "User already exists" in sign-in mode too.
- A profile reply that is a non-success envelope keeps the stored token; only a thrown
  request logs out.
- `loadMore` advances the offset even when the server said no more records exist. The
  button is merely hidden in that case.
- The editor always saves with `isPublic` false.
- A deletion counts as successful for any 2xx reply, whatever its envelope says.
- A non-success execution envelope without a message reads "Execution failed: undefined".

## Model

| member | source | states |
|---|---|---|
| `Text.TrimEmptyIffBlank` | javascript_playground_frontend/src/components/CodeEditor.js:33 | `!s.trim()` holds exactly when every character of `s` is whitespace, so the blankness test the model uses is the source's trim test |
| `Text.TrimStartDropsBlank` | javascript_playground_frontend/src/components/CodeEditor.js:33 | the leading part that trimming removes is all whitespace |
| `Text.TrimEndDropsBlank` | javascript_playground_frontend/src/components/CodeEditor.js:33 | the trailing part that trimming removes is all whitespace |
| `Remote.ThrownMessageOr` | javascript_playground_frontend/src/components/CodeEditor.js:61 | in a `catch`, the server's non-empty message is used; with no reply, or an empty or missing message, the fallback is used |
| `Remote.ShareUrl` | javascript_playground_frontend/src/components/CodeEditor.js:126 | the link is the origin, then `/share/`, then the share token, each recoverable at its position (the same construction as SnippetManager.js:81) |
| `Execution.Refused` | javascript_playground_frontend/src/components/CodeEditor.js:33-37 | code that trims empty shows "Error: No code to execute" flagged as an error, and the execution time is untouched |
| `Execution.Settled` | javascript_playground_frontend/src/components/CodeEditor.js:50-66 | a success copies `hasError` and the time verbatim and shows the output, or the placeholder when the output is empty; a non-success envelope shows exactly "Execution failed: " followed by the service's message, or by "undefined" when it has none; a thrown request shows exactly "Error: " followed by the reply's non-empty message, or by the fallback when there is no reply or the message is empty or missing; every failure is an error and keeps the time; the output is never empty |
| `Auth.EmailPatternIff` | javascript_playground_frontend/src/components/AuthForm.js:41 | the unanchored `\S+@\S+\.\S+` matches exactly when some '@' has a non-space before it and a later '.' has a non-space after it, with only non-space characters, at least one, between them |
| `Auth.UsernameError` | javascript_playground_frontend/src/components/AuthForm.js:35-37 | "Username is required" exactly when signing up with a blank name |
| `Auth.EmailError` | javascript_playground_frontend/src/components/AuthForm.js:39-43 | "Email is required" for a blank address, otherwise "Please enter a valid email" exactly when the pattern fails; never both |
| `Auth.PasswordError` | javascript_playground_frontend/src/components/AuthForm.js:45-49 | "Password is required" for a blank password of any length; the length error only when signing up with fewer than 6 characters |
| `Auth.ValidateForm` | javascript_playground_frontend/src/components/AuthForm.js:32-53 | no error exactly when the form is valid, meaning a non-blank username when signing up, a non-blank address matching the pattern, a non-blank password, and 6 or more characters when signing up; per field, the message each check gives; never a `submit` key; in sign-in mode no username error and no length error |
| `Auth.SignUpWithoutUsername` | javascript_playground_frontend/src/components/AuthForm.js:35-37 | signing up as ("", "a@b.com", "abcdef") yields exactly `{username: "Username is required"}` |
| `Auth.RequestFor` | javascript_playground_frontend/src/components/AuthForm.js:67-70 | the request goes to the sign-up endpoint exactly when signing up, and carries the username exactly then |
| `Auth.SubmitFailure` | javascript_playground_frontend/src/components/AuthForm.js:74-88 | a non-success envelope gives the server message or "Authentication failed"; 409 gives "User already exists…" and 401 "Invalid credentials…" in either mode; any other thrown request gives the server message or the retry text; the message is never empty |
| `Auth.AuthForm.constructor` | javascript_playground_frontend/src/components/AuthForm.js:6-13 | sign-in mode, empty fields, no errors, not loading |
| `Auth.AuthForm.InputChange` | javascript_playground_frontend/src/components/AuthForm.js:16-29 | only the named field changes; its error is blanked only if one was displayed; every other field and error is unchanged |
| `Auth.AuthForm.BeginSubmit` | javascript_playground_frontend/src/components/AuthForm.js:56-70 | an invalid form sends nothing and its errors are the validation map; a valid one clears the errors, starts loading and sends the mode's request |
| `Auth.AuthForm.CompleteSubmit` | javascript_playground_frontend/src/components/AuthForm.js:72-91 | a success hands the user and token to `onLogin`; any other reply sets only the `submit` error; loading ends in every case |
| `Auth.AuthForm.ToggleMode` | javascript_playground_frontend/src/components/AuthForm.js:95-99 | the mode flips, the three fields become empty and the errors are cleared |
| `Auth.ToggleTwice` | javascript_playground_frontend/src/components/AuthForm.js:95-99 | toggling twice restores the mode with an empty form and no errors |
| `App.ShareTokenOf` | javascript_playground_frontend/src/App.js:87 | a path matches `/share/:token` exactly when it is `/share/` followed by one non-empty segment without '/' |
| `App.Route` | javascript_playground_frontend/src/App.js:74-89 | for a signed-in user `/` renders the editor, `/snippets` the snippet list and `/history` the execution history; signed out, those three redirect to `/auth`; `/auth` renders the form for an anonymous visitor and redirects to `/` otherwise; a share path always renders the shared view of its token; anything else redirects to `/`; a protected screen is never shown signed out |
| `App.RedirectsSettle` | javascript_playground_frontend/src/App.js:75-88 | from any path, at most two redirects reach a rendered screen |
| `App.SharedLinkOpensSharedView` | javascript_playground_frontend/src/App.js:87 | the path of a link built by `ShareUrl` opens the shared view of the same token, signed in or not |
| `App.Session.constructor` | javascript_playground_frontend/src/App.js:17-18 | nobody signed in, no header, loading, with the token the browser persisted |
| `App.Session.Startup` | javascript_playground_frontend/src/App.js:21-29 | with a non-empty persisted token the header becomes "Bearer " + token before the profile request; without one, no request, no header and loading ends with nobody signed in |
| `App.Session.CompleteProfile` | javascript_playground_frontend/src/App.js:32-44 | a success signs the user in; a thrown request logs out; a non-success envelope changes nothing; loading ends in every case; a signed-in user always has the persisted token attached |
| `App.Session.Login` | javascript_playground_frontend/src/App.js:47-51 | the user is set, the token persisted and the header is "Bearer " + token |
| `App.Session.Logout` | javascript_playground_frontend/src/App.js:54-58 | user, persisted token and header are all removed |
| `App.LogoutTwice` | javascript_playground_frontend/src/App.js:54-58 | logging out twice leaves the state of logging out once |
| `App.Session.View` | javascript_playground_frontend/src/App.js:60-67 | no route is rendered while loading |
| `Editor.CodeEditor.constructor` | javascript_playground_frontend/src/components/CodeEditor.js:7-15 | the welcome template, an empty panel, no current snippet, the save form closed |
| `Editor.CodeEditor.BeginExecute` | javascript_playground_frontend/src/components/CodeEditor.js:32-48 | code that trims empty is refused with no request and the loading flag untouched; otherwise loading starts, the panel shows "Executing..." with no error and no time, and the request carries the code and the current snippet's id if there is one |
| `Editor.CodeEditor.CompleteExecute` | javascript_playground_frontend/src/components/CodeEditor.js:50-66 | the panel is the reply's mapping and loading ends |
| `Editor.CodeEditor.Save` | javascript_playground_frontend/src/components/CodeEditor.js:70-107 | a blank title sends nothing; otherwise a PUT to the current snippet's id, or a POST without one, always private; only a success changes state: the server's snippet becomes current, the form closes and empties, and the code stays |
| `Editor.SaveNewSnippet` | javascript_playground_frontend/src/components/CodeEditor.js:91-97 | saving "demo" with no current snippet sends one create request and makes the server's snippet current |
| `Editor.CodeEditor.Clear` | javascript_playground_frontend/src/components/CodeEditor.js:110-116 | the new-snippet template, no current snippet, an empty panel without error or time |
| `Editor.CodeEditor.Load` | javascript_playground_frontend/src/components/CodeEditor.js:136-142 | the snippet's code and the snippet itself become current, with an empty panel |
| `Editor.CodeEditor.ShareLink` | javascript_playground_frontend/src/components/CodeEditor.js:119-126 | a link exists exactly when there is a current snippet, built from its share token |
| `Snippets.Preview` | javascript_playground_frontend/src/components/SnippetManager.js:148-151 | code of 200 characters or fewer is shown whole; longer code shows its first 200 characters and "..."; never more than 203 characters |
| `Snippets.FormOf` | javascript_playground_frontend/src/components/SnippetManager.js:40-45 | the edit form takes the snippet's title, code and visibility, and its description or '' |
| `Snippets.SnippetManager.constructor` | javascript_playground_frontend/src/components/SnippetManager.js:6-15 | an empty list, loading, no error, nothing being edited, an empty form |
| `Snippets.SnippetManager.BeginFetch` | javascript_playground_frontend/src/components/SnippetManager.js:22-25 | loading starts and nothing else changes |
| `Snippets.SnippetManager.CompleteFetch` | javascript_playground_frontend/src/components/SnippetManager.js:26-34 | a success replaces the list wholesale, in server order; a thrown request keeps the list and sets "Failed to load snippets"; loading ends |
| `Snippets.SnippetManager.Edit` | javascript_playground_frontend/src/components/SnippetManager.js:38-46 | the snippet is being edited and the form is filled from it |
| `Snippets.SnippetManager.Save` | javascript_playground_frontend/src/components/SnippetManager.js:49-61 | the whole form is PUT to the edited snippet's id; a success re-fetches, stops editing and empties the form; a thrown request, or no edited snippet, sets "Failed to update snippet" and keeps the editing state |
| `Snippets.SnippetManager.Delete` | javascript_playground_frontend/src/components/SnippetManager.js:64-76 | declining sends nothing and changes nothing; otherwise the deletion is sent, then the list is re-fetched and never edited locally; a thrown deletion sets "Failed to delete snippet" |
| `History.Accumulate` | javascript_playground_frontend/src/components/ExecutionHistory.js:34 | a page at offset 0 replaces the list; a later page is appended after it, keeping order |
| `History.ExecutionHistory.constructor` | javascript_playground_frontend/src/components/ExecutionHistory.js:6-14 | an empty history, loading, limit 20, offset 0, no more records |
| `History.ExecutionHistory.BeginFetch` | javascript_playground_frontend/src/components/ExecutionHistory.js:22-30 | loading starts and the query is the current limit and offset |
| `History.ExecutionHistory.CompleteFetch` | javascript_playground_frontend/src/components/ExecutionHistory.js:32-45 | a success accumulates the page and copies `hasMore` verbatim; a thrown request sets the error and keeps the list and cursor; limit and offset never change; loading ends |
| `History.ExecutionHistory.FetchStats` | javascript_playground_frontend/src/components/ExecutionHistory.js:49-58 | only a success sets the statistics; a failure changes nothing, not the error and not the history |
| `History.ExecutionHistory.LoadMore` | javascript_playground_frontend/src/components/ExecutionHistory.js:61-66 | the offset grows by the limit, stays a multiple of it, and limit and `hasMore` are unchanged |
| `History.ExecutionHistory.View` | javascript_playground_frontend/src/components/ExecutionHistory.js:90-202 | the full-page spinner exactly when loading with an empty history; Load More appears exactly when records are listed and the server said more exist, and it is disabled while loading |
| `History.FetchPages` | javascript_playground_frontend/src/components/ExecutionHistory.js:22-66 | fetching at offsets 0, 20, 40, … with Load More between the fetches shows the concatenation of the pages in fetch order |
| `Shared.FetchError` | javascript_playground_frontend/src/components/SharedSnippet.js:26-37 | a non-success envelope gives "Snippet not found"; a thrown 404 gives "…no longer available"; any other thrown request gives "Failed to load shared snippet" |
| `Shared.SharedSnippet.constructor` | javascript_playground_frontend/src/components/SharedSnippet.js:8-15 | no snippet, loading, no error, an empty panel |
| `Shared.SharedSnippet.BeginFetch` | javascript_playground_frontend/src/components/SharedSnippet.js:22-25 | loading starts and the snippet is requested by its token |
| `Shared.SharedSnippet.CompleteFetch` | javascript_playground_frontend/src/components/SharedSnippet.js:26-40 | a success sets the snippet, anything else sets the classified error; loading ends |
| `Shared.Open` | javascript_playground_frontend/src/components/SharedSnippet.js:9-40 | from the initial state one fetch leaves exactly one of snippet and error set, so the page shows the snippet or the error |
| `Shared.SharedSnippet.BeginExecute` | javascript_playground_frontend/src/components/SharedSnippet.js:44-61 | with no snippet, or code that trims empty, the run is refused with no request; otherwise the request holds the code and never a snippet id |
| `Shared.SharedSnippet.CompleteExecute` | javascript_playground_frontend/src/components/SharedSnippet.js:63-79 | the panel is mapped exactly as in the editor and the run ends |
| `Shared.SharedSnippet.View` | javascript_playground_frontend/src/components/SharedSnippet.js:102-121 | loading takes priority over the error view, which takes priority over the snippet |

## Left out

- The requests themselves: each reply is an `Outcome` parameter. The execution, storage and authentication services are not part of this model.
- Browser storage and the HTTP client's default headers are plain fields of `App.Session`. The base URL setting (App.js:13) is not modelled.
- Alerts, `console.error` and the clipboard are not modelled. This includes the text of the save alerts, `copyCode` in ExecutionHistory.js and SharedSnippet.js, and copying the share link. Only the link that would be copied is modelled.
- `window.confirm` is the `confirmed` parameter of `Snippets.SnippetManager.Delete`.
- Inline JSX handlers are not modelled as members; each is a direct field assignment. These are the editor's `onChange`, opening and cancelling the save form, the edit form's inputs, and cancelling an edit.
- Markup, styling, disabled buttons, the code editor widget and its options are presentation.
- `Navbar.js` is presentation.
- The date formatting and the average time's `toFixed(1)` are not modelled. They rely on locale and floating-point formatting.
- React's effects are not modelled: fetching on mount, re-fetching when the offset or share token changes, and batched updates. The caller makes the corresponding method calls one after the other, and each handler's completion is one atomic step. Out-of-order replies and stale closures are not modelled.
- Response fields are assumed present and well typed. A missing `executionTime` or `hasError`, or a null share token, is not modelled.
- `App.ShareTokenOf`: the router's case-insensitive matching, trailing-slash tolerance and percent-decoding are not modelled. Paths are matched exactly.
- `Snippets.Preview`: lengths count Unicode code points, whereas JavaScript counts UTF-16 code units. The two differ only for characters outside the Basic Multilingual Plane. The same holds for the password length in `Auth.PasswordError`.
- `App.Session.CompleteProfile` requires that the persisted token was just attached. Its only call site, the start-up effect, guarantees this.
