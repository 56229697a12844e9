# Certificate subject form: validation and submission

This project models the decision logic of the certificate-request form in `App.js`. The user fills in the subject of a certificate: common name, organization, organizational unit, country, state, locality and e-mail address. The user also picks a certificate type: signed, self-signed, CA or unsigned. On submit, the form is validated field by field. An invalid form keeps its errors for display and sends nothing. A valid form is POSTed, without its certificate type, to the issuance endpoint that the type selects, and the errors are cleared.

Modules, one per component:

- `CharClasses` (`char_classes.dfy`): the bracket expressions of the validator's regular expressions. It defines ASCII letters, ASCII digits and JavaScript's `\s`, and the anchored shape `^[...]+$`.
- `Patterns` (`patterns.dfy`): the e-mail regular expression. `EmailPattern` is its meaning, an existential choice of where the `@` and the final `.` sit. `IsEmail` is a deterministic decision: the first `@`, then the last `.` after it. A proof shows the two agree on every string.
- `Fields` (`fields.dfy`): the form data. `FormData` is a record of the eight properties. `Key` names them, as the form's inputs do. `Update` is the object spread `{ ...data, [key]: value }`.
- `Validator` (`validator.dfy`): `validateFormData`. `Errors` is the declarative errors object. The method `ValidateFormData` runs the five tests one after another, as the source does, and is proved to return `Errors`.
- `Endpoint` (`endpoint.dfy`): the certificate-type `switch`, both as a function (`Url`) and as the `+=` method (`ResolveEndpoint`). `TypeOf` reads the type back from a URL.
- `Form` (`form.dfy`): the component's state as class `App`. The fields are `formData`, `validationErrors` and `requests`, a log of the POSTs made. The methods are the submit, reset and input-change handlers. The module also holds the initial form, the payload stripping (`WithoutCertificateType`) and the scenarios of the example subject "Jane Doe".

Modelling choices:

- The form data always has the same eight string properties: the initial state, the reset and every input of `MyComponents/UserDataForm.js` name only those. It is modelled as a record, `FormData`. The property names are the enumeration `Key`.
- The errors object is a map from `Key` to its message.
- The request body is the record `Payload`: the seven subject properties without `certificateType`. `Lookup` reads a property of it, and `certificateType` reads as absent.
- JavaScript's `\s` is modelled as TAB, LF, VT, FF, CR, SPACE, U+00A0, U+1680, U+2000 to U+200A, U+2028, U+2029, U+202F, U+205F, U+3000 and U+FEFF. These are the ECMAScript WhiteSpace and LineTerminator code points.
- The certificate type is a string, not an enumeration. The model follows the code: the switch compares strings and its `default` branch appends nothing.
- `handleSubmit` returns nothing, and `sendPostRequest` only logs the response, so a submission is one entry appended to `requests`.
- The base URL is the constant `BaseUrl` with the value the code hard-codes. `Url` and `ResolveEndpoint` take the base as a parameter.

## Model

| member | source | states |
|---|---|---|
| `Patterns.EmailDecision` | App.js:121-122 | The deterministic check (first `@`, last `.` after it) accepts exactly the strings that the anchored e-mail regular expression matches under any backtracking choice. |
| `Patterns.SplitIsDetermined` | App.js:121 | A placement of `@` and `.` that makes the pattern match is the one the deterministic check finds: its `@` is the first `@` and its `.` the last `.` after it, so the check accepts. |
| `Patterns.AtIsFirst` | App.js:121 | In a placement that matches, the `@` is the first `@` of the string, because no local-part character is an `@`. |
| `Patterns.DotIsLast` | App.js:121 | In a placement that matches, the `.` is the last `.` after the `@`, because the top-level label is letters only. |
| `Patterns.EmailHasOneAt` | App.js:121 | An accepted address contains exactly one `@`. |
| `Patterns.EmailShape` | App.js:121 | An accepted address contains an `@`, and at least two characters follow its last `.`. |
| `Patterns.IndexOf` | App.js:121 | The result is the first position of the character, or none when the character does not occur. |
| `Patterns.LastIndexOf` | App.js:121 | The result is the last position of the character, or none when the character does not occur. |
| `Fields.Update` | App.js:135-137 | The spread object has the new value under the named property and every other property's old value. |
| `Fields.Extensionality` | App.js:7-16 | Helper for `UpdateLaws`, a fact about the record rather than a behaviour: two form data values that agree on all eight properties are equal. |
| `Fields.UpdateLaws` | App.js:135-137 | Writing back a property's own value changes nothing, and of two writes to one property only the later counts. |
| `Validator.ValidateFormData` | App.js:100-127 | Five tests run in sequence with no short-circuit. The result is exactly the map from each failing checked property to its message. |
| `Validator.TestOne` | App.js:103-124 | Running one more test adds that property's message exactly when its value fails, and changes nothing else. |
| `Validator.ValidIff` | App.js:100-127 | The errors object is empty if and only if every checked property matches its pattern. |
| `Validator.ErrorKeys` | App.js:100-127 | Only commonName, organization, organizationalUnit, locality and emailAddress can be keys. country, state and certificateType never are. Each value is that property's own message. |
| `Validator.OthersUnaffected` | App.js:103-124 | Changing one property does not change whether any other property has an error. |
| `Validator.FixingRemovesEntry` | App.js:103-124 | Giving a checked property a value that passes removes its entry and keeps every other entry. |
| `Validator.BreakingAddsEntry` | App.js:103-124 | Giving a checked property a value that fails adds its message and keeps every other entry. |
| `Validator.ErrorsIndependent` | App.js:103-124 | Changing one checked property adds or removes only that property's entry. All other entries stay as they were. |
| `Validator.ErrorsIgnoreUnchecked` | App.js:100-127 | Changing country, state or certificateType leaves the errors object unchanged. |
| `Validator.CommonNameRule` | App.js:104-106 | commonName has an error if and only if it is empty or holds a character that is neither an ASCII letter nor JavaScript white space. So a name of spaces only passes. |
| `Validator.TextRule` | App.js:108-118 | organization, organizationalUnit and locality each have an error if and only if the value is empty or holds a character outside ASCII letters, digits and white space. |
| `Validator.EmailRule` | App.js:120-124 | emailAddress has an error if and only if the deterministic e-mail check rejects it. |
| `Validator.CommonNameRejectsNonLetter` | App.js:104-106 | A common name holding a digit or a symbol gets the message "Common Name should contain alphabets only". |
| `Validator.EmailRejectsMissingParts` | App.js:120-124 | An address without `@`, without a `.`, or with fewer than two characters after its last `.` gets "Invalid email address". |
| `Endpoint.Url` | App.js:26-43 | The URL starts with the base. It equals the base if and only if the type is not one of the four known types. |
| `Endpoint.ResolveEndpoint` | App.js:26-43 | The `+=` switch gives the same URL as `Url`. |
| `Endpoint.UrlTable` | App.js:28-43 | signed gives base+"/signed", self-signed gives base+"/self-signed", CA gives base+"/Ca" and unsigned gives base+"/Unsigned". Any other type gives the base unchanged. |
| `Endpoint.UrlRoundTrip` | App.js:28-43 | The type can be read back from its URL for the four known types. An unknown type reads back as none. |
| `Endpoint.UrlInjective` | App.js:28-43 | Two different known types never share an endpoint. |
| `Form.WithoutCertificateType` | App.js:44 | The body has every property of the form data except certificateType, each with its unchanged value. certificateType is absent. |
| `Form.StripRoundTrip` | App.js:44 | Putting the certificate type back into the body gives the form data again, so stripping loses nothing else. Every body and type arise this way. |
| `Form.InitialFormData` | App.js:7-16 | Every text property of the initial form is empty and certificateType is "signed". |
| `Form.InitialFormRejected` | App.js:7-16 | The initial form fails all five tests. |
| `Form.App.constructor` | App.js:7-18 | The component starts with the initial form, no errors and no requests. |
| `Form.App.SendPostRequest` | App.js:53-82 | Exactly one request with the given URL and body is appended to the log. |
| `Form.App.HandleSubmit` | App.js:20-51 | With errors: the errors object becomes exactly those errors and nothing is sent. Without errors: exactly one request is sent to the type's endpoint with the stripped body, and the errors are cleared. The form data is unchanged either way. |
| `Form.App.HandleReset` | App.js:84-97 | The form data becomes the initial form and the errors are cleared. The request log is unchanged. |
| `Form.App.HandleInputChange` | App.js:135-137 | The named property takes the new value and nothing else changes. |
| `Form.ResetTwice` | App.js:84-97 | The results are the state one reset leaves (initial form, no errors, request log unchanged), and the state after a second reset equals it, so reset is idempotent. |
| `Form.FillIn` | App.js:135-137 | Typing every property through the input handler leaves exactly the typed values. |
| `Form.JaneDoeValid` | App.js:100-127 | The example subject (Jane Doe, Acme 1, IT, US, CA, Metropolis, jane@acme.com) passes every test. |
| `Form.NotAnEmailRejected` | App.js:120-124 | The same subject with address "not-an-email" fails only on emailAddress. |
| `Form.SubmitJaneDoe` | App.js:20-51 | Filling in the example subject with type CA and submitting leaves exactly one request in the log, to base+"/Ca", whose body is the seven subject values without certificateType. The errors are empty and the form data is the subject. |
| `Form.SubmitBadAddress` | App.js:20-51 | Submitting the subject with address "not-an-email" sends nothing, the errors object holds only the address's message, and the form keeps that subject. |

## Left out

- `sendPostRequest`'s body (App.js:53-82) is left out because it is network I/O. That covers `JSON.stringify`, `fetch` with its `Content-Type: application/json` header, the check for HTTP status 201, reading the response text, and the `console.log`/`console.error` calls. The outcome is only logged and changes no state. A POST is modelled as an entry in `requests`, and the body is modelled as the object, not its JSON text.
- React's `useState` mechanics are left out. Updates are asynchronous and batched, and handlers read the `formData` captured at render time. The two state variables are plain fields that the handlers assign directly.
- Overlapping submissions and their asynchronous completion are not modelled. Each submit is one atomic step.
- `e.preventDefault()` (App.js:21) is left out because it is browser event handling.
- Form.App.HandleInputChange: the property name is one of the eight `Key`s. In the source `e.target.name` could be any string, but every input of the form carries one of these eight names, so a ninth property never arises.
- `MyComponents/UserDataForm.js` is not part of this model. It holds the rendering, the five-second timer on the error banner and the country and region pickers.
- The browser's constraint validation is not modelled. The form's inputs carry `required` attributes and the address input has `type="email"` (UserDataForm.js:45, 81, 94, 113, 119), so the browser can block the submit event before `handleSubmit` runs. The model starts at `handleSubmit`, as if every submit reached it.
- The order of the errors object's entries is not modelled. In the source they keep insertion order (commonName, organization, organizationalUnit, locality, emailAddress), and the error banner of `MyComponents/UserDataForm.js` lists the messages in that order. A `map` has no order.
- Strings are sequences of Unicode scalar values, whereas JavaScript strings are UTF-16 code units. Lone surrogates cannot be represented. No character outside the Basic Multilingual Plane is a letter, digit or `\s` in either model, so such characters are rejected in both.
