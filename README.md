# Job-application tracker: a verified model of its core

The tracker is a Laravel API with a React client. Each user records the jobs
they applied for: a link, a title, a position, a company, a status and notes.
This project models the parts of it whose behaviour can be stated exactly:

- **Policy**: the ownership policy. Listing and creating are open to every
  user. Viewing, updating and deleting a record are open to its owner only.
  Ownership is PHP's strict `===` between the user's id and the record's
  `user_id`.
- **Actions**: the four actions over a job-application store, modelled as a
  class. The store holds the records by id, the next id to hand out, and a
  clock that ticks once per insert and stands for `created_at`.
  - Create resolves the owner and refuses a falsy one.
  - List gives the caller's records, newest first (module `Listing`).
  - Update overwrites the fields it is given.
  - Delete removes the record.
- **Controller**: the controller pipeline. The order is: route binding (404),
  then the form request (422), then the policy (403), then the action with its
  envelope and status code.
- **Requests**: the create and update validation rule tables. They are
  evaluated as Laravel evaluates them:
  - `required` is the only implicit rule.
  - Every other rule is skipped for an absent field, for a blank string, and
    for null on a `nullable` field.
  - `validated()` keeps only the fields that have rules and were sent.
- **Model**: the model's mass assignment, which keeps only the fillable keys.
- On the client:
  - **ApplicationsPage**: the search and status filter.
  - **Dashboard**: the dashboard counters, the recent slice and the badge tones.
  - **RegisterPage**: the registration schema and the password-strength
    indicator.

The update request's status rule is written
`in:pending,interview, approved, rejected`. Laravel splits the list on commas
and keeps the spaces, so the accepted values are `pending`, `interview`,
` approved` and ` rejected`. The model keeps that list literally. Lemma
`Requests.UpdateRefusesStatusesCreateAccepts` states the consequence: an
update refuses `approved`, `rejected` and `in_progress`, all of which a create
accepts.

The client's lengths are JavaScript lengths: `min`, `max` and a regular
expression without the `u` flag count UTF-16 code units, so a character
outside the Basic Multilingual Plane counts twice. The model counts the same
way (`RegisterPage.Utf16Length`). `Ab1` followed by three emoji is six
characters but nine code units, so the schema accepts it and it scores 4
(`RegisterPage.SurrogatePairsCountTwice`).

The strength indicator tests `/.{8,}/`. A regular expression's `.` does not
match a line terminator (line feed, carriage return, U+2028, U+2029), so this
test needs eight code units between two line terminators. The schema's
`min(8)` counts every code unit. An accepted password with no line terminator
scores 4 (`RegisterPage.AcceptedSingleLinePasswordIsStrong`). One with a line
terminator can score less. A password input drops line feeds and carriage
returns from its value but keeps U+2028, so `Abcdefg`, U+2028, `1` can reach
the schema. The schema accepts it and it scores 3
(`RegisterPage.LineBreakLowersStrength`).

## Model

| member | source | states |
|---|---|---|
| Policy.ViewAny | app/Policies/JobApplicationPolicy.php:13-18 | every user may list |
| Policy.View | app/Policies/JobApplicationPolicy.php:23-26 | allowed exactly when the record's `user_id` is the integer equal to the user's id |
| Policy.Create | app/Policies/JobApplicationPolicy.php:31-35 | every user may create |
| Policy.Update | app/Policies/JobApplicationPolicy.php:40-43 | allowed exactly when the record's `user_id` is the integer equal to the user's id |
| Policy.Delete | app/Policies/JobApplicationPolicy.php:48-51 | allowed exactly when the record's `user_id` is the integer equal to the user's id |
| Policy.RecordAbilitiesAgree | app/Policies/JobApplicationPolicy.php:23-51 | view, update and delete give the same answer for every user and record |
| Policy.AtMostOneOwner | app/Policies/JobApplicationPolicy.php:23-51 | two users with different ids never both pass view, update or delete on one record |
| Policy.NonIntegerOwnerDeniesAll | app/Policies/JobApplicationPolicy.php:23-51 | under strict equality, a record whose owner is not stored as an integer is denied to everybody |
| Model.FillableOf | app/Models/JobApplication.php:14-22 | mass assignment takes exactly the fillable keys of the data, with their values |
| Model.Fill | app/Models/JobApplication.php:14-22 | every fillable key sent overwrites its attribute; every other attribute keeps its value; non-fillable keys are dropped |
| Model.FillIdempotent | app/Actions/JobApplication/UpdateJobApplication.php:11 | filling twice with the same data is filling once |
| Actions.ResolveOwner | app/Actions/JobApplication/CreateJobApplication.php:16 | `$data['user_id'] ?? Auth::id()`: the sent `user_id` when it is present and not null, else the caller's id; null exactly when neither is there |
| Actions.JobApplicationStore.constructor | app/Actions/JobApplication/CreateJobApplication.php:24 | an empty store that satisfies the store invariant |
| Actions.JobApplicationStore.Create | app/Actions/JobApplication/CreateJobApplication.php:14-25 | refuses when the resolved owner is falsy (null, 0, false, "" or "0") and then changes nothing; otherwise it inserts one record under a fresh id. That record has the fillable part of the data, the resolved owner (the sent `user_id` unless it is absent or null, else the caller), and the next creation tick. Every other record is unchanged and the store grows by one |
| Actions.JobApplicationStore.Update | app/Actions/JobApplication/UpdateJobApplication.php:9-14 | the returned record is the stored one with every fillable field sent overwritten and every other field kept; id and creation tick are kept; every other record is unchanged |
| Actions.JobApplicationStore.Delete | app/Actions/JobApplication/DeleteJobApplication.php:9-12 | the result is true unless a `deleting` listener vetoes. On true the record is gone, the store shrinks by one and the other records are unchanged. On false nothing changes |
| Actions.UpdateIdempotent | app/Actions/JobApplication/UpdateJobApplication.php:11 | applying the same update data twice gives the record that applying it once gives |
| Listing.Owned | app/Actions/JobApplication/ListJobApplications.php:12 | `where('user_id', caller)`: the selection never holds more records than there are keys below the bound, and every record in it belongs to the caller |
| Listing.InsertByCreated | app/Actions/JobApplication/ListJobApplications.php:12 | inserting into a newest-first list keeps it newest first and adds exactly that record |
| Listing.SortNewestFirst | app/Actions/JobApplication/ListJobApplications.php:12 | `latest()`: the result is ordered by creation tick, non-increasing, and is a permutation of its input |
| Listing.List | app/Actions/JobApplication/ListJobApplications.php:12 | the listing is newest first and every listed record belongs to the caller |
| Listing.OwnedCounts | app/Actions/JobApplication/ListJobApplications.php:12 | the unsorted selection holds each of the caller's stored records once and nothing else |
| Listing.ListIsExactlyTheCallersRecords | app/Actions/JobApplication/ListJobApplications.php:12 | every record of the caller occurs exactly once in the listing, and no other record occurs |
| Listing.ListHidesOthers | app/Actions/JobApplication/ListJobApplications.php:12 | no record owned by another user is listed |
| Controller.Index | app/Http/Controllers/JobApplicationController.php:20-32 | 200, status `success`, the caller's records newest first, each owned by the caller; the store is only read |
| Controller.IndexIsExactlyTheCallersRecords | app/Http/Controllers/JobApplicationController.php:23-31 | the index lists each of the caller's records once and no record of anybody else |
| Controller.StoreApplication | app/Http/Controllers/JobApplicationController.php:37-51 | invalid input gives 422 with the create request's message and the failing fields. A valid request gives 201 with a new record whose attributes are the validated data with `user_id` forced to the caller. A caller id of 0 makes the action throw, which gives 500. Nothing is stored unless the response is 201 |
| Controller.Show | app/Http/Controllers/JobApplicationController.php:56-65 | 404 for an unknown id, 403 for a record of another user, otherwise 200 with the record |
| Controller.UpdateApplication | app/Http/Controllers/JobApplicationController.php:70-81 | 404, then 422 with the failing fields, then 403 for a non-owner; the response is 200 exactly when the record exists, the input is valid and the caller owns the record; the store is untouched unless the response is 200. On 200 the record is the old one filled with the validated data, and it still belongs to the caller |
| Controller.DestroyApplication | app/Http/Controllers/JobApplicationController.php:86-104 | 404, then 403 for a non-owner; for the owner, a vetoed delete gives 400 `error` with no data and otherwise 200 `success` with null data. The record is removed exactly when the response is 200 |
| Requests.Errors | app/Http/Requests/StoreJobApplicationRequest.php:20-30 | the failing fields are among the fields the table has rules for |
| Requests.MissingFieldFails | app/Http/Requests/UpdateJobApplicationRequest.php:22-32 | a field that is not sent fails exactly when its rules hold `required` and not `sometimes` |
| Requests.Validated | app/Http/Requests/UpdateJobApplicationRequest.php:22-32 | the validated data is exactly the sent fields that have a rule, with their values |
| Requests.Authorize | app/Http/Requests/StoreJobApplicationRequest.php:10-13 | both form requests authorise every request; ownership is left to the policy |
| Requests.RequiredUrl | app/Http/Requests/StoreJobApplicationRequest.php:23 | `required + url` passes exactly a non-blank string that is a URL |
| Requests.RequiredText | app/Http/Requests/StoreJobApplicationRequest.php:24-26 | `required + string + max:255` passes exactly a non-blank string of at most 255 characters |
| Requests.SometimesUrl | app/Http/Requests/UpdateJobApplicationRequest.php:25 | `sometimes + url` passes an absent field, a blank string or a URL |
| Requests.SometimesText | app/Http/Requests/UpdateJobApplicationRequest.php:26-28 | `sometimes + string + max:255` passes an absent field, a blank string or a string of at most 255 characters |
| Requests.NullableEnum | app/Http/Requests/StoreJobApplicationRequest.php:27 | `nullable + string + in:…` passes absent, null, blank, or a listed string |
| Requests.NullableText | app/Http/Requests/StoreJobApplicationRequest.php:28 | `nullable + string` passes absent, null or any string |
| Requests.StoreErrorsByField | app/Http/Requests/StoreJobApplicationRequest.php:20-30 | field by field, exactly which create payloads fail; no field outside the table ever fails |
| Requests.StoreRejectsBadLink | tests/Feature/JobApplicationValidationTest.php:6-82 | a missing, null, empty or `not-a-valid-url` link is reported under `link` |
| Requests.StoreAcceptsCompletePayload | app/Http/Requests/StoreJobApplicationRequest.php:20-30 | a payload that sends every field as a non-blank string of at most 255 characters, with a URL link and a listed status, raises no error |
| Requests.StoreAcceptsValidPayload | tests/Feature/JobApplicationValidationTest.php:38-51 | the complete payload with a URL link and status `pending` raises no error |
| Requests.UpdateErrorsByField | app/Http/Requests/UpdateJobApplicationRequest.php:22-32 | field by field, exactly which update payloads fail; a field that is not sent never fails |
| Requests.UpdateRefusesStatusesCreateAccepts | app/Http/Requests/UpdateJobApplicationRequest.php:29 | `approved`, `rejected` and `in_progress` fail the update status rule and pass the create one |
| Requests.ValidatedHasNoOwner | app/Http/Requests/UpdateJobApplicationRequest.php:24-31 | `user_id` never survives validation, so an update cannot change the owner |
| ApplicationsPage.Lower | frontend/src/pages/applications/ApplicationsPage.tsx:68-71 | lower-casing keeps the length and lowers each letter |
| ApplicationsPage.IncludesAtSomePosition | frontend/src/pages/applications/ApplicationsPage.tsx:68-71 | `includes` holds exactly when the needle occurs at some position of the haystack |
| ApplicationsPage.FilterCards | frontend/src/pages/applications/ApplicationsPage.tsx:67-76 | the kept cards are a subsequence of the list; all of them match; each matching card is kept as often as it occurs |
| ApplicationsPage.FilteredApplications | frontend/src/pages/applications/ApplicationsPage.tsx:64-77 | nothing without data; otherwise an order-keeping subsequence whose cards match the search and, unless the filter is `all`, have the filter's status; never longer than the total |
| ApplicationsPage.SubsequenceNoLonger | frontend/src/pages/applications/ApplicationsPage.tsx:183 | a subsequence is never longer than its list, so "Showing X of Y" has X at most Y |
| ApplicationsPage.EmptySearchShowsAll | frontend/src/pages/applications/ApplicationsPage.tsx:68-75 | an empty search with filter `all` shows every card, in order |
| Dashboard.CountWithStatus | frontend/src/pages/dashboard/DashboardPage.tsx:24-26 | a status count never exceeds the number of cards |
| Dashboard.CountIsMultiplicity | frontend/src/pages/dashboard/DashboardPage.tsx:24-26 | a count is the number of cards whose status is exactly that status |
| Dashboard.CountsWithinTotal | frontend/src/pages/dashboard/DashboardPage.tsx:23-26 | pending, approved and rejected together never exceed the total |
| Dashboard.Count | frontend/src/pages/dashboard/DashboardPage.tsx:23-26 | all four counters are 0 without data. Otherwise the total is the list length and each counter is its status's multiplicity, summing to at most the total |
| Dashboard.Recent | frontend/src/pages/dashboard/DashboardPage.tsx:192 | the recent list is the prefix of min(3, n) cards, or empty without data |
| Dashboard.BadgeTone | frontend/src/pages/dashboard/DashboardPage.tsx:203-207 | amber exactly for pending, emerald exactly for approved, rose exactly for rejected, blue for anything else |
| RegisterPage.Utf16Length | frontend/src/pages/auth/RegisterPage.tsx:16-31 | a string's JavaScript length lies between its number of characters and twice that |
| RegisterPage.Utf16LengthOfBmp | frontend/src/pages/auth/RegisterPage.tsx:16-31 | a string with no character outside the Basic Multilingual Plane has one code unit per character |
| RegisterPage.NameIssues | frontend/src/pages/auth/RegisterPage.tsx:16-20 | the name passes exactly when its length in UTF-16 code units is 2 to 50; its complaints are filed under the name |
| RegisterPage.EmailIssues | frontend/src/pages/auth/RegisterPage.tsx:21-24 | the e-mail passes exactly when it is non-empty and an e-mail address |
| RegisterPage.PasswordIssues | frontend/src/pages/auth/RegisterPage.tsx:25-31 | the password passes exactly when it has at least 8 UTF-16 code units, an uppercase letter, a lowercase letter and a digit |
| RegisterPage.ConfirmationIssues | frontend/src/pages/auth/RegisterPage.tsx:32-34 | the confirmation passes exactly when it is non-empty |
| RegisterPage.TermsIssues | frontend/src/pages/auth/RegisterPage.tsx:35-37 | the terms pass exactly when they are accepted |
| RegisterPage.MatchIssues | frontend/src/pages/auth/RegisterPage.tsx:38-41 | the refinement passes exactly when password and confirmation are equal, and complains under `password_confirmation` |
| RegisterPage.FieldsOfConcat | frontend/src/pages/auth/RegisterPage.tsx:15-41 | the fields complained about by two lists of complaints together are the union of their fields |
| RegisterPage.IssuesByField | frontend/src/pages/auth/RegisterPage.tsx:15-41 | field by field, which fields the schema complains about |
| RegisterPage.Issues | frontend/src/pages/auth/RegisterPage.tsx:15-41 | the schema raises no issue exactly when the name, e-mail, password, confirmation match and terms rules all hold |
| RegisterPage.Strength | frontend/src/pages/auth/RegisterPage.tsx:46-53 | the strength is at most 4, and is 4 exactly when all four requirements hold; the length requirement is a run of 8 code units with no line terminator |
| RegisterPage.StrengthLabel | frontend/src/pages/auth/RegisterPage.tsx:61-66 | Weak up to 1, Fair at 2, Good at 3, Strong from 4 |
| RegisterPage.LabelMonotone | frontend/src/pages/auth/RegisterPage.tsx:61-66 | a higher strength never gets a lower label |
| RegisterPage.StrengthColour | frontend/src/pages/auth/RegisterPage.tsx:54-59 | the colour goes through the same thresholds as the label: red, yellow, blue, green |
| RegisterPage.Indicator | frontend/src/pages/auth/RegisterPage.tsx:68 | nothing is shown exactly for an empty password; otherwise the label and colour of its strength |
| RegisterPage.AcceptedSingleLinePasswordIsStrong | frontend/src/pages/auth/RegisterPage.tsx:25-53 | a password the schema accepts, with no line terminator, has strength 4 and is labelled Strong |
| RegisterPage.SurrogatePairsCountTwice | frontend/src/pages/auth/RegisterPage.tsx:25-53 | `Ab1` and three emoji has nine code units: the schema accepts it and it scores 4 |
| RegisterPage.LineBreakPasswordAccepted | frontend/src/pages/auth/RegisterPage.tsx:25-31 | `Abcdefg`, U+2028, `1` passes the password rules |
| RegisterPage.LineBreakFormPasses | frontend/src/pages/auth/RegisterPage.tsx:15-41 | a form with that password, a matching confirmation, a valid e-mail and accepted terms raises no issue |
| RegisterPage.LineBreakLowersStrength | frontend/src/pages/auth/RegisterPage.tsx:25-53 | the same form passes the schema, yet the password scores 3, because `.` stops at U+2028 |

## Left out

- The database, the ORM and SQL are left out. The store is a map from id to record with an id counter and a creation clock. Ids start at 1 and increase by one.
- Timestamps are left out. `created_at` is a tick that strictly increases per insert, so the model has no two records created at once. `updated_at` is not modelled.
- The default value of `status` is set in the database and is not part of this model. A record created without a status has no `status` attribute.
- Route binding and routing are left out. A lookup of the id in the store stands for route-model binding, which answers 404 before the controller runs.
- Authentication is left out. The authenticated user's id is a parameter, and an unauthenticated request never reaches the controller.
- The `url` and `email` validations are library behaviour. They are the parameters `isUrl` and `isEmail`. The lemmas assume only the test examples: `https://example.com/job` is a URL and `not-a-valid-url` is not.
- The framework's global middleware (trimming strings, turning empty strings into null) is not modelled. Blank strings are handled by the validator's own skipping rule.
- Validation messages are left out. The error bag is modelled as the set of failing fields, not the messages per field.
- The JSON resource shape is left out. A response carries the record itself.
- Controller.StoreApplication: the exception that a caller id of 0 raises is modelled as the framework's 500 response; the exception's message is not modelled.
- Actions.JobApplicationStore.Delete: Eloquent's `delete()` result is the parameter `vetoed`, which stands for a `deleting` event listener. Listeners are not part of this model.
- Database type coercion of `user_id` is not modelled. A stored owner keeps the JSON value it was given, and the policy compares it strictly.
- Listing.List: records created at the same tick could be ordered in any way by the database; the model promises only the non-increasing order of creation ticks.
- The application form page's own schema, React rendering, hooks, toasts, navigation, date formatting and the strength bar's width are not modelled.
- ApplicationsPage.Lower: lower-casing covers ASCII letters only; Unicode case folding is not modelled.
