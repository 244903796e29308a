# Job portal: login form controller and upload file naming

This project models, in Dafny, the two pieces of the job portal whose
behaviour can be stated precisely:

- **The login form's controller** (`frontend/src/components/auth/Login.jsx`).
  The model covers client-side validation of email, password and role, the
  change handler, and the submit handler with its store updates (`loading`,
  `user`), navigation and toast notifications. It also covers the effect
  that sends an already signed-in user home. The form is the class
  `Login.LoginForm`. Its `input` and `errors` are the component's own state.
  Its `loading` and `user` are the entries of the shared auth store it reads.
  Store dispatches, navigation and toasts are appended, in order, to an
  effect log (`effects`). How the HTTP request ended is a parameter
  (`Login.Outcome`), not a call. The email check is the unanchored regular
  expression `\S+@\S+\.\S+`. It is written as an explicit predicate
  (`EmailPattern.EmailShape`) and proved equal to "some substring is in the
  pattern's language". Whitespace is ECMAScript's full `\s` set, written out
  in `EmailPattern.IsSpace`.
- **The upload middleware's storage callbacks** (`backend/middlewares/mutler.js`).
  Every file goes to `uploads/` under the name
  `<Date.now()>-<original name>`. The clock reading is a parameter. The model
  adds the inverse of this composition: split at the first `-`, then read a
  canonical decimal numeral. It proves that the two round trips hold in both
  directions, so the stored name is injective in (timestamp, original name).

Where the code and the system's broader design disagree, the model follows
the code:
- The form accepts any non-empty role text (`Login.AnyRoleIsAccepted`). It
  does not require one of the two offered roles.
- A success-status response whose body says `success: false` produces no
  notification at all (`Login.UnsuccessfulResponseIsSilent`). Only thrown
  errors produce an error toast.
- `Date.now()` is not monotonic. The model treats it as an arbitrary
  natural number.

## Model

| member | source | states |
|---|---|---|
| `EmailPattern.EmailShapeIsRegexTest` | frontend/src/components/auth/Login.jsx:40 | the form's email check (`EmailShape`, the regex test) holds exactly when the unanchored `\S+@\S+\.\S+` finds a match somewhere in the string, in both directions |
| `EmailPattern.EmailShapeSurvivesContext` | frontend/src/components/auth/Login.jsx:40 | for every accepted string, adding any text before or after it keeps it accepted (the test is unanchored) |
| `EmailPattern.NoDotAfterAtIsRejected` | frontend/src/components/auth/Login.jsx:40 | every string with no `.` after any `@` is rejected |
| `EmailPattern.NoTextBeforeAtIsRejected` | frontend/src/components/auth/Login.jsx:40 | every string whose every `@` is first or right after whitespace is rejected |
| `EmailPattern.EmailShapeExamples` | frontend/src/components/auth/Login.jsx:40 | four concrete strings: `alice@x.com` alone and inside other text is accepted; `alice@xcom` and `alice @x.com` are rejected |
| `Login.Input.With` | frontend/src/components/auth/Login.jsx:28 | the spread update sets the named field to the new value and leaves the other two fields as they were |
| `Login.ReportIsUnique` | frontend/src/components/auth/Login.jsx:34-55 | the error map after validation is determined by the input alone, so validation replaces it wholesale and a stale error for a now-valid field is dropped |
| `Login.ValidIffNoErrors` | frontend/src/components/auth/Login.jsx:33-57 | validation passes exactly when its error map is empty |
| `Login.AnyRoleIsAccepted` | frontend/src/components/auth/Login.jsx:50-53 | for every well-formed email and non-empty password, the input is valid exactly when the role text is non-empty, whatever that text is |
| `Login.AdminRoleIsAccepted` | frontend/src/components/auth/Login.jsx:50-53 | an example: the role "admin", which is not one of the offered roles, passes validation |
| `Login.RequestEffects` | frontend/src/components/auth/Login.jsx:63-87 | after validation passes, loading is raised first and lowered last on every path, with no other loading change in between; the user is set, home is navigated to and a success toast is shown, in that order, exactly when the response says success; a thrown error gives exactly one error toast, whose text (`FailureText`) is the response message, or the fallback when that is empty, if there was a response; else the no-response text if a request went out; else the unexpected text; no other outcome gives an error toast |
| `Login.UnsuccessfulResponseIsSilent` | frontend/src/components/auth/Login.jsx:71-75 | a success-status response with `success: false` only raises and lowers the loading flag |
| `Login.LoginForm.constructor` | frontend/src/components/auth/Login.jsx:17-23 | a mounted form starts with three empty inputs and no errors, over the store's current loading flag and user |
| `Login.LoginForm.ChangeEventHandler` | frontend/src/components/auth/Login.jsx:27-31 | only the named input changes; only that field's error becomes "" (no longer shown) and every other field's error display is unchanged; loading, user and effects are untouched |
| `Login.LoginForm.ValidateForm` | frontend/src/components/auth/Login.jsx:33-57 | returns true iff the email is non-empty and has the address shape, the password is non-empty and the role is non-empty; the new error map has an entry exactly for each failing field, with "required" only for an empty email and "invalid" only for a non-empty badly shaped one; returns true iff that map is empty |
| `Login.LoginForm.SubmitHandler` | frontend/src/components/auth/Login.jsx:59-88 | returns whether the input passed validation; invalid input sends no request and leaves loading, user and effects unchanged; otherwise the effects appended are those of `RequestEffects`, loading ends false, and user changes only on a successful response |
| `Login.LoginForm.RedirectIfSignedIn` | frontend/src/components/auth/Login.jsx:90-94 | navigates home exactly when a user is present and changes nothing else |
| `UploadStorage.DecimalString` | backend/middlewares/mutler.js:9 | the timestamp's text is a non-empty run of digits with no leading zero, and starts with `0` only for zero |
| `UploadStorage.DecimalStringHasNoDash` | backend/middlewares/mutler.js:9 | the timestamp's text contains no `-` |
| `UploadStorage.ValueOfDecimalString` | backend/middlewares/mutler.js:9 | reading the timestamp's text back as a number gives the timestamp |
| `UploadStorage.DecimalStringOfValue` | backend/middlewares/mutler.js:9 | every canonical numeral is the text of the number it denotes |
| `UploadStorage.StoredName` | backend/middlewares/mutler.js:9 | the stored name ends with the original name unchanged, preceded by `-`, preceded by the canonical decimal digits of the timestamp |
| `UploadStorage.SplitRecoversParts` | backend/middlewares/mutler.js:9 | splitting a stored name at its first `-` gives back exactly the timestamp and the original name, even when the original name contains `-` |
| `UploadStorage.StoredNameOfParts` | backend/middlewares/mutler.js:9 | every name the split accepts is the stored name of the parts it yields, so the split is exactly the inverse of the composition |
| `UploadStorage.StoredNameInjective` | backend/middlewares/mutler.js:9 | two stored names are equal iff both timestamps and both original names are equal |
| `UploadStorage.Filename` | backend/middlewares/mutler.js:8-10 | the `filename` callback's result splits back into the clock reading and the file's original name |
| `UploadStorage.Destination` | backend/middlewares/mutler.js:5-7 | the `destination` callback gives `uploads/` whatever the request and the file |

## Left out

- JSX rendering, styling, the navigation bar, the radio group, the loader icon and the button's `disabled={loading}` are not modelled. Nothing in the model blocks a second submit.
- The axios call (endpoint, headers, credentials) is replaced by its outcome (`Login.Outcome`). Redux `dispatch`, react-router `navigate` and sonner `toast` are replaced by entries in the effect log. `console.error` is not modelled.
- React batches state updates asynchronously. Each handler is modelled as one atomic state change.
- Login.LoginForm.RedirectIfSignedIn: the model does not say when React runs this hook (on mount, and after every change of `user`). So the second navigation home that follows a successful login is in no trace of `SubmitHandler`; a caller must invoke `RedirectIfSignedIn` itself to get it.
- `Login.LoginForm.ChangeEventHandler`: the field name is one of the form's three inputs. In JavaScript any `name` attribute would add a key.
- `Login.Outcome`: an error response whose body is missing is not modelled. In JavaScript, reading its message would throw inside the `catch`. An exception thrown by the store, router or toast after a successful response is not modelled either.
- `EmailPattern.IsSpace`: JavaScript tests `\S` on UTF-16 code units, while the model tests Unicode scalar values. This makes no difference, because every `\s` character is a single code unit.
- `UploadStorage.StoredName`: every timestamp is rendered in plain decimal. JavaScript switches to exponent notation from 10^21 ms on. A clock reading before 1970 (negative) is outside the model, because the timestamp is a natural number.
- The `multer` library, the disk write, the joining of directory and file name, and the real clock are not modelled.
- `backend/routes/user.route.js` (route wiring to controllers and middlewares that are not part of this model) and `backend/utils/db.js` (a database connection whose errors are only logged) are not part of this model. The server-side identity service, validation middleware and authentication guard are not part of this model.
