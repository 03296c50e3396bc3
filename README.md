# QuickBite client: a verified model of its view logic

QuickBite's web client is a set of React views over HTTP calls. This project models the
state logic inside six of them, in Dafny:

- **Sign-up** (`SignUpPage`). The email and password validators are stated as the languages
  their regular expressions accept, so no regex engine is needed. The submit handler checks
  the email first, then the password, and only then posts the form. Its reply ends in a
  navigation to the verification notice or in an error message.
- **Featured recipes** (`FeaturedRecipesComponent`). A fetch gated on the `authToken` key of
  the browser store. It falls back to three placeholder recipes when there is no token, when
  the server sends nothing, and on every failure. A 401 also deletes `authToken` and `userId`.
- **Contact** (`ContactPage`). Per-field form edits, a status line set from the submission's
  outcome, and a form reset on success. The effect that clears the status 5000 ms later
  runs on a logical clock.
- **Recipe detail** (`RecipeDetailPage`). A fetch by slug, and the render chain:
  loading, then error, then "Recipe not found.", then the recipe.
- **Verify notice** (`VerifyNoticePage`). The address taken from the navigation state, and
  the resend button with its message, error and loading fields.
- **Verify-email handler** (`VerifyEmailHandlerPage`). The status moves from "verifying" to
  "verified" or "error". A redirect to `/verified` follows 2000 ms after a success.

Each component whose fields change is a class. Its `useState` cells are fields. Each async
handler is split at its `await` into two methods. One runs before the request and records
it. The other takes the request's outcome as an abstract datatype. Timers are deadlines on a
clock field `now`, and `AdvanceTo(t)` fires whatever falls due. The browser store is a
`map<string, string>` field. A navigation is a recorded path, plus the email it carries on
sign-up. Small client methods (`SubmitOnce`, `FetchOnce`, `StatusClearsAfterDelay`,
`LoadOnce`, `VerifyOnce`) run one whole scenario on a fresh object and state its outcome.

Behaviour of the code that the model keeps as written:

- Any failed detail fetch, a backend 404 included, sets the error text and so renders
  "Failed to load recipe details." (src/pages/RecipeDetail.jsx:23-25, 34). "Recipe not found." appears only when a successful reply has no
  body.
- The password rule's error text asks for "Special characters", but the validator does not
  require one. It only allows `@ $ ! % * ? &`.
- React skips a state update to the value already held, so it does not re-run the effect.
  Overlapping contact submissions can therefore set the same status text twice in a row.
  The second one then does not restart the 5000 ms countdown. `Contact.SetStatus` models
  this.

Files: `common.dfy` (optional values and JavaScript's `||` on strings), `sign_up.dfy`,
`featured_recipes.dfy`, `contact.dfy`, `recipe_detail.dfy`, `verify_notice.dfy`,
`verify_email_handler.dfy`.

## Model

| member | source | states |
|---|---|---|
| Common.OrElse | src/pages/SignUp.jsx:46-49 | JavaScript's logical or of a string-or-undefined with a fallback: the value when it is a non-empty string, the fallback otherwise |
| SignUpPage.ValidateEmail | src/pages/SignUp.jsx:18-20 | accepts exactly the strings in the language of `^[^\s@]+@[^\s@]+\.[^\s@]+$` that contain none of `# $ % ^ & * ( ) _ + =` |
| SignUpPage.AddressPatternByFirstAt | src/pages/SignUp.jsx:19 | the address regex holds iff splitting at the first '@' gives a non-empty local part and a domain of address characters with a '.' that is neither its first nor its last character (both directions) |
| SignUpPage.ValidEmailShape | src/pages/SignUp.jsx:19 | an accepted address has no white space, no forbidden character, exactly one '@' (not first), and an inner '.' after it |
| SignUpPage.PlainEmailAccepted | src/pages/SignUp.jsx:19 | `user@example.com` is accepted |
| SignUpPage.HashEmailRejected | src/pages/SignUp.jsx:19 | `a#b@example.com` is rejected although it has the address shape |
| SignUpPage.ValidatePassword | src/pages/SignUp.jsx:22-25 | following the regex with its two lookaheads: true iff length ≥ 8, every character in `A-Z a-z 0-9 @ $ ! % * ? &`, at least one ASCII letter and at least one digit |
| SignUpPage.PasswordExamples | src/pages/SignUp.jsx:24 | `abcd1234` passes; `abcdefgh`, `12345678` and `abc123` fail |
| SignUpPage.SignUp.constructor | src/pages/SignUp.jsx:10-12 | empty form, empty error, not loading, nothing sent, no navigation |
| SignUpPage.SignUp.HandleChange | src/pages/SignUp.jsx:14-16 | only the named field takes the new value; the other fields and all other state are unchanged |
| SignUpPage.SignUp.HandleSubmit | src/pages/SignUp.jsx:27-41 | clears the error; an invalid email gives exactly "Invalid email format." whatever the password; a valid email with an invalid password gives the password message; neither sets loading nor sends; otherwise the form is posted and loading is on |
| SignUpPage.SignUp.ReceiveReply | src/pages/SignUp.jsx:42-52 | a truthy `success` navigates to `/verify-notice` with the submitted email; otherwise the server message or "Registration failed."; an exception gives the server message or "Something went wrong."; loading ends on every path |
| SignUpPage.SubmitOnce | src/pages/SignUp.jsx:27-52 | one submission: posted iff both validators pass, email checked first; loading exactly while the request is outstanding and false afterwards; a non-success always leaves a non-empty error and no navigation |
| FeaturedRecipesComponent.DummyRecipesHaveDistinctIds | src/components/FeaturedRecipes.jsx:6-10 | the fallback list has exactly three entries, with the distinct ids `d1`, `d2`, `d3` |
| FeaturedRecipesComponent.GetItem | src/components/FeaturedRecipes.jsx:25 | `getItem` gives a value iff the key is stored, and then the stored string; `null` otherwise |
| FeaturedRecipesComponent.HasToken | src/components/FeaturedRecipes.jsx:25-30 | the token guard passes iff `authToken` is stored and is not the empty string |
| FeaturedRecipesComponent.FeaturedRecipes.constructor | src/components/FeaturedRecipes.jsx:15-17 | initial state: recipes = fallback, loading, no error |
| FeaturedRecipesComponent.FeaturedRecipes.BeginFetch | src/components/FeaturedRecipes.jsx:20-46 | every run sets loading and clears the error; a request is made iff the store holds a non-empty `authToken`; without a token: fallback list, loading off, no error, no request |
| FeaturedRecipesComponent.FeaturedRecipes.ReceiveRecipes | src/components/FeaturedRecipes.jsx:48-74 | a non-empty list is shown exactly as sent and the error stays empty; an empty or missing list gives the fallback with no error; a 401 removes `authToken` and `userId` and sets the session-expired message; any other failure sets the generic message and leaves the store alone; always loading off |
| FeaturedRecipesComponent.FetchOnce | src/components/FeaturedRecipes.jsx:15-84 | one mount: without a token nothing is requested and the fallback is shown; the list shown is the fallback or exactly the server's non-empty list; an error appears iff the request failed; the store changes only by the 401 logout |
| ContactPage.IsSuccessStatus | src/pages/Contact.jsx:101 | the success style applies iff the status is at least as long as "Message sent successfully!" and agrees with it character by character on that prefix |
| ContactPage.SubmissionStatus | src/pages/Contact.jsx:46-60 | the status a submission shows is never empty, and it is styled as a success (starts with "Message sent successfully!") iff the reply was a 2xx with a JSON body; neither error status is |
| ContactPage.Contact.constructor | src/pages/Contact.jsx:6-12 | empty form, no status, no pending clear |
| ContactPage.Contact.SetStatus | src/pages/Contact.jsx:15-25 | a new status replaces the pending clear with one due 5000 ms from now (none for a falsy status); re-setting the same value keeps the old deadline; at most one clear is ever pending |
| ContactPage.Contact.HandleChange | src/pages/Contact.jsx:28-30 | only the named field takes the new value; the other two are unchanged |
| ContactPage.Contact.HandleSubmit | src/pages/Contact.jsx:33-44 | the status is cleared at once (no clear pending) and the current form is posted |
| ContactPage.Contact.ReceiveReply | src/pages/Contact.jsx:46-60 | OK: "Message sent successfully!" and the form reset to empty; non-OK: "Error: " + (server message or "Failed to send message."), form kept; network or parse failure: "Something went wrong. Please try again.", form kept; a changed status arms a clear 5000 ms from now, an unchanged one keeps the pending clear's deadline |
| ContactPage.Contact.AdvanceTo | src/pages/Contact.jsx:17-19 | a clear that falls due by the new time removes the status; otherwise nothing changes |
| ContactPage.StatusClearsAfterDelay | src/pages/Contact.jsx:15-60 | a status set by a reply is still shown 4999 ms later and is gone 5000 ms later |
| RecipeDetailPage.SelectScreen | src/pages/RecipeDetail.jsx:33-35 | loading shows the loading text; otherwise a truthy error shows its text; otherwise no recipe shows "Recipe not found."; otherwise the recipe (each case as an if-and-only-if) |
| RecipeDetailPage.DescriptionText | src/pages/RecipeDetail.jsx:41 | a truthy description is shown as it is; a missing or empty one shows "No description available."; the paragraph is never empty |
| RecipeDetailPage.RecipeDetail.constructor | src/pages/RecipeDetail.jsx:8-10 | initial state: no recipe, loading, no error |
| RecipeDetailPage.RecipeDetail.Screen | src/pages/RecipeDetail.jsx:33-35 | the page shows the loading text iff loading is on, and the stored recipe iff neither loading nor a truthy error is set and a recipe is stored |
| RecipeDetailPage.RecipeDetail.FetchRecipeDetails | src/pages/RecipeDetail.jsx:13-21 | with no slug nothing changes (loading stays on) and nothing is requested; otherwise loading on, error cleared, the slug requested |
| RecipeDetailPage.RecipeDetail.ReceiveDetails | src/pages/RecipeDetail.jsx:22-28 | success: recipe = reply data, no error; failure: error "Failed to load recipe details.", the previous recipe kept; loading off; a failure renders the error text, not "Recipe not found." |
| RecipeDetailPage.LoadOnce | src/pages/RecipeDetail.jsx:12-35 | a fresh page renders the loading text until the reply; a failed fetch (a 404 included) then renders the error text; an empty slug stays loading |
| VerifyNoticePage.NoticeEmail | src/pages/VerifyNotice.jsx:7 | the navigation-state email, or "" when there is none |
| VerifyNoticePage.VerifyNotice.constructor | src/pages/VerifyNotice.jsx:7-10 | the email from the navigation state; empty message and error; not loading |
| VerifyNoticePage.VerifyNotice.ButtonDisabled | src/pages/VerifyNotice.jsx:37 | the button is disabled iff a resend is loading, and while it is disabled neither the success line nor the error line is shown |
| VerifyNoticePage.VerifyNotice.HandleResend | src/pages/VerifyNotice.jsx:12-17 | clears the error and the message and sets loading before the request, which disables the button |
| VerifyNoticePage.VerifyNotice.ReceiveResend | src/pages/VerifyNotice.jsx:18-23 | success: message = server message, error stays ""; failure: error = server message or "Failed to resend email.", message stays ""; loading off, so the button is enabled again |
| VerifyEmailHandlerPage.StatusLines | src/pages/VerifyEmailHandler.jsx:27-29 | each status renders exactly one line, and each of the three texts is rendered iff its own status holds |
| VerifyEmailHandlerPage.StatusLinesAreDistinct | src/pages/VerifyEmailHandler.jsx:27-29 | each status renders exactly one line, and different statuses render different lines |
| VerifyEmailHandlerPage.VerifyEmailHandler.constructor | src/pages/VerifyEmailHandler.jsx:7-13 | the status starts as "verifying" and the token is sent |
| VerifyEmailHandlerPage.VerifyEmailHandler.ReceiveVerification | src/pages/VerifyEmailHandler.jsx:13-18 | leaves "verifying"; success gives "verified" and a redirect due 2000 ms later; failure gives "error" and schedules nothing |
| VerifyEmailHandlerPage.VerifyEmailHandler.AdvanceTo | src/pages/VerifyEmailHandler.jsx:15 | a redirect that falls due navigates to `/verified` once; otherwise nothing changes |
| VerifyEmailHandlerPage.VerifyOnce | src/pages/VerifyEmailHandler.jsx:10-22 | the final status is "verified" or "error" as the server answered; `/verified` is reached 2000 ms after a success, not 1 ms earlier, and never after a failure |

## Left out

- Rendering: JSX, CSS classes, dark mode, Navbar and Footer are not modelled. The loading lines of the featured section and the card key `recipe.id || recipe.recipeId` are rendering too. `src/pages/Verified.jsx` is static markup and is not part of this model.
- HTTP transport: axios, `fetch` and JSON parsing are outcome datatypes. The truthiness of `success` is a `bool`. A contact body that `response.json()` rejects is `NotJson`. A body that is the JSON literal `null` makes the handler's own property access throw, so it goes to the failure case: a non-2xx contact reply with it is `NotJson` (a 2xx one is `Json(None)`, whose body is never read), a 2xx resend reply with it is `ResendFailed(None)`, and a 2xx sign-up reply with it is `Threw(None)`.
- Browser form validation: on both forms the browser checks the `required` inputs and the `type="email"` input before `onSubmit` fires (src/pages/SignUp.jsx:80-112, src/pages/Contact.jsx:120-163). The model starts at the handler call, so `SignUp.HandleSubmit`, `SubmitOnce` and `Contact.HandleSubmit` also cover forms the browser would not submit.
- FeaturedRecipesComponent.FeaturedRecipes.ReceiveRecipes: a 2xx body that is not a list is modelled as an absent list (`Fetched(None)`), so the model shows the fallback. The source instead keeps any truthy body with a positive `length` (a non-empty string, say) as the recipe list with no error, and its render then fails on `.map` (src/components/FeaturedRecipes.jsx:49-50, 110). Only list bodies are modelled.
- `localStorage` is a map field. Only `authToken` and `userId` are read or removed.
- The router: navigations are recorded paths. The notice page receives its navigation-state email when it is built. Token and slug come from the route as parameters.
- Real timers and effect scheduling are a logical clock. Unmounting is not modelled, so it does not cancel the contact clear. The verification redirect is never cancelled in the source either.
- Overlapping requests are left out where the source does not prevent them. `RecipeDetail.FetchRecipeDetails` requires no request in flight, so a slug change during a request is not modelled. `VerifyEmailHandler` runs its effect once per mount, not again when the token changes. Sign-up and the verify notice disable their buttons while loading, so their `requires` there is the source's own. The featured fetch runs once on mount. Contact submissions may overlap in the model, with replies in any order.
- Late results after unmount and `console.log`/`console.error` calls are not modelled.
- The JavaScript regex engine: the accepted languages are stated directly. `\s` is the fixed ECMAScript set of white-space and line-terminator characters.
