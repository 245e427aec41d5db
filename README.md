# Project writes, review requests and admin shop items: a Dafny model

This project models three pieces of a Next.js / Prisma web app in which users
track projects, ask for them to be reviewed, and spend currency in a shop
that admins run.

- **The project write path** (`lib/project.ts`) is modelled by the
  `Projects` module. `createProject` does five things in order:
  1. It normalises the caller's list of tracked (Hackatime) project names in
     place, adding the legacy `hackatimeName` to it.
  2. It builds the row to store, filling in defaults.
  3. It probes the connection and looks up the user.
  4. It inserts the row. When the insert fails with a unique-constraint error
     on `projectID`, it retries exactly once with a fresh id.
  5. It tries to create one link per tracked name. Link failures are
     swallowed.

  `updateProject` and `deleteProject` act only on the row keyed by
  `(projectID, userId)`. The database is a `ProjectStore` object holding:
  - a map from that key to the row;
  - the set of users;
  - a multiset of links;
  - ghost logs of every insert and link attempt.
- **The review-request panel** (`components/common/ProjectReviewRequest.tsx`)
  is modelled by the `ReviewRequest` module. It covers:
  - the gate that picks between nothing, the missing-metadata warning and the
    form;
  - the default review type and the option list;
  - the placeholder for each type;
  - the state changes of the comment form as a `ReviewForm` object, including
    `handleSubmit`.
- **The admin shop-item route** (`app/api/admin/shop-items/route.ts`) is
  modelled by the `ShopItems` module:
  - `GET` lists the items newest first.
  - `POST` checks admin access, validates the body, applies the field
    defaults, and appends one item and one audit record.

  The item table and the audit log are the two sequences of a `ShopCatalog`
  object.

The `JsValues` module holds the JavaScript semantics these rely on:
- `undefined` versus `null`;
- the truthiness of strings and `||` defaults;
- `String.prototype.trim`, using the ECMAScript WhiteSpace and LineTerminator
  characters;
- `String.prototype.includes`.

Values the code gets from outside are parameters of the methods. These are:
- the outcome of the connection probe, the user lookup, each insert and each
  link creation;
- the generated UUIDs;
- the result of the admin-access check;
- the database's success;
- the creation time.

In the review-request panel, `isInReview` is tested (line 47) before the
metadata (line 58), so a project in review never shows the missing-metadata
warning, whatever its metadata (`ReviewRequest.Gate`,
`ReviewRequest.InReviewNeverWarns`).

## Model

| member | source | states |
|---|---|---|
| JsValues.OrElse | lib/project.ts:53-57 | `s \|\| fallback` is a truthy `s` unchanged and the fallback otherwise; it is empty only when `s` is falsy and the fallback is empty |
| JsValues.Trim | components/common/ProjectReviewRequest.tsx:52-54 | `trim()` is a slice of the string with only whitespace cut off its two ends; it is empty exactly when the string is all whitespace, and otherwise begins and ends with a non-whitespace character |
| JsValues.TrimmedSlice | components/common/ProjectReviewRequest.tsx:88 | dropping leading and then trailing whitespace leaves a slice of the string with only whitespace removed on either side |
| JsValues.TrimIdempotent | components/common/ProjectReviewRequest.tsx:88 | trimming an already trimmed comment changes nothing |
| JsValues.HasText | components/common/ProjectReviewRequest.tsx:52-54 | `s && s.trim() !== ''` holds iff `s` is present and has a non-whitespace character |
| JsValues.Includes | lib/project.ts:163-164 | `includes` is true iff the piece occurs at some index of the message |
| Projects.LegacyName | lib/project.ts:38 | the legacy name is a truthy `hackatimeName` as given, and `""` exactly when `hackatimeName` is falsy |
| Projects.MergeTracked | lib/project.ts:41-44 | the input list is a prefix of the result; the result has a name iff the input does or it is the non-empty legacy name; other names keep their counts; the legacy name ends up once unless it was already there; an empty legacy name changes nothing |
| Projects.MergeTrackedIdempotent | lib/project.ts:41-44 | normalising twice is the same as normalising once |
| Projects.MergeTrackedKeepsNoDuplicates | lib/project.ts:42 | a list without duplicates stays without duplicates |
| Projects.TrackedNames.Push | lib/project.ts:43 | the name is appended to the caller's array |
| Projects.NormaliseTracked | lib/project.ts:38-44 | the names used later are the merged list, and the caller's own array now holds exactly that list |
| Projects.Coerce | lib/project.ts:60-62 | `!!b` is true iff the flag is present and true |
| Projects.BuildPayload | lib/project.ts:51-63 | the payload carries the given id and user id and `submitted = false`; its name is never empty and is `'Unnamed Project'` when the input name is falsy; missing text fields become `''`; each boolean is true iff the input flag is true |
| Projects.RetryPayloadChangesOnlyId | lib/project.ts:169-175 | the retried payload is the first one with only `projectID` replaced |
| Projects.CollisionIsRetried | lib/project.ts:163-169 | the database's error for a taken `projectID` mentions both the unique constraint and `projectID`, so it is retried |
| Projects.FailureMessage | lib/project.ts:125-128 | the message the catch block classifies is the thrown error's own, or the null-result message when the insert resolved to nothing |
| Projects.RetryFailureMessage | lib/project.ts:173-205 | the retry's failure carries the thrown error's message, or the message of reading `projectID` of a null result |
| Projects.IsIdCollision | lib/project.ts:163-164 | a message is an id collision iff "Unique constraint" and "projectID" both occur in it |
| Projects.Retries | lib/project.ts:160-164 | only a thrown error is retried, and a thrown error is retried iff its message is an id collision; a null result is never retried |
| Projects.OtherUniqueFailureIsNotRetried | lib/project.ts:163-164 | any failure whose message does not mention `projectID` is not retried |
| Projects.NameCollisionIsNotRetried | lib/project.ts:163-164 | for example, a unique-constraint failure on `name` is not retried |
| Projects.LinkAttempts | lib/project.ts:137-144 | one link attempt per merged name, in order, each keyed by the stored `projectID` |
| Projects.LinksCreatedAreAttempts | lib/project.ts:133-153 | every link created belongs to the stored project and is among the attempts |
| Projects.SucceededLinksExist | lib/project.ts:137-152 | a failing link attempt does not stop the others: every attempt that succeeds leaves its link |
| Projects.AllLinksSucceed | lib/project.ts:137-152 | when every attempt succeeds, the links created are exactly the attempts |
| Projects.LinkAttemptsCount | lib/project.ts:137-144 | each name gets exactly as many link attempts as it has entries in the merged list |
| Projects.LegacyNameNotDuplicated | lib/project.ts:42-43 | a new non-empty legacy name gets exactly one link attempt; one already listed gets no more attempts than the list already gave it |
| Projects.ApplyUpdate | lib/project.ts:23 | each field given in the update takes the given value, fields absent from it keep their stored values, and `projectID`, `userId` and `submitted` never change |
| Projects.UpdateLaws | lib/project.ts:236-246 | an empty update is the identity; applying an update twice is the same as once; two updates in a row equal their field-wise overlay |
| Projects.OwnerMismatchIsNotFound | lib/project.ts:225-246 | in a well-keyed store a project is not reachable under another user's id |
| Projects.ProjectStore.constructor | lib/project.ts:1 | the abstract store standing for the imported Prisma client; no source line creates it, and it starts with no rows, links or attempts over the given users |
| Projects.ProjectStore.Insert | lib/project.ts:107-109 | an insert is logged; the row is stored iff the outcome is success; a taken `projectID` always fails with the unique-constraint error; the store stays well keyed |
| Projects.ProjectStore.TryLink | lib/project.ts:139 | the attempt is logged; the link exists afterwards iff the attempt succeeded; no row changes |
| Projects.ProjectStore.LinkAll | lib/project.ts:133-153 | the attempts are exactly `LinkAttempts` of the names and the links added are exactly `LinksCreated`; no row changes |
| Projects.ProjectStore.InsertWithRetry | lib/project.ts:100-212 | one insert, plus exactly one retry with only the id replaced after an id collision; the result for each outcome (stored, other failure, retry stored, retry failed); on success exactly one new row under a previously free id, on failure no change |
| Projects.ProjectStore.CreateProject | lib/project.ts:25-223 | the caller's list is normalised whatever happens; a failed probe, a failed lookup or an unknown user fails before any insert; at most two inserts with the outcomes above; on success one new row and one link attempt per merged name, and the returned row does not depend on link outcomes; on failure no row and no link |
| Projects.ProjectStore.UpdateProject | lib/project.ts:236-246 | the row under `(projectID, userId)` becomes `ApplyUpdate` of it and is returned; a missing key is not found; every other row is unchanged |
| Projects.ProjectStore.DeleteProject | lib/project.ts:225-234 | the row under `(projectID, userId)` is removed and returned; a missing key is not found; every other row is unchanged |
| ReviewRequest.Gate | components/common/ProjectReviewRequest.tsx:47-69 | nothing is shown iff review mode or in review; otherwise the form iff all three metadata fields have non-whitespace text, else the warning |
| ReviewRequest.InReviewNeverWarns | components/common/ProjectReviewRequest.tsx:47-49 | a project in review never gets the warning, even with an empty or missing code URL |
| ReviewRequest.BlankFieldWarns | components/common/ProjectReviewRequest.tsx:52-58 | a whitespace-only field counts as missing |
| ReviewRequest.Options | components/common/ProjectReviewRequest.tsx:146-155 | ShippedApproval is offered iff not shipped, ViralApproval iff not viral, HoursApproval iff shipped; Other always, and last |
| ReviewRequest.DefaultReviewType | components/common/ProjectReviewRequest.tsx:36-44 | the default type is HoursApproval iff the project is shipped and ShippedApproval iff it is not |
| ReviewRequest.DefaultIsOffered | components/common/ProjectReviewRequest.tsx:36 | the default type is always among the offered options |
| ReviewRequest.OptionsAreDistinct | components/common/ProjectReviewRequest.tsx:146-155 | no option is offered twice |
| ReviewRequest.Placeholder | components/common/ProjectReviewRequest.tsx:114-127 | each review type has its text from lines 116-123, and none is empty |
| ReviewRequest.PlaceholderInjective | components/common/ProjectReviewRequest.tsx:114-127 | different review types have different placeholders |
| ReviewRequest.SubmitEnabled | components/common/ProjectReviewRequest.tsx:177 | the submit button is enabled iff nothing is being submitted and the comment has a non-whitespace character |
| ReviewRequest.ReviewForm.constructor | components/common/ProjectReviewRequest.tsx:35-37 | an empty comment, not submitting, and the default type for the shipped status |
| ReviewRequest.ReviewForm.ShippedChanged | components/common/ProjectReviewRequest.tsx:40-44 | the type is reset to the default exactly when `isShipped` changes; nothing else changes |
| ReviewRequest.ReviewForm.EditComment | components/common/ProjectReviewRequest.tsx:166 | the comment becomes the typed text |
| ReviewRequest.ReviewForm.SelectType | components/common/ProjectReviewRequest.tsx:141 | the selected type becomes the chosen one |
| ReviewRequest.ReviewForm.HandleSubmit | components/common/ProjectReviewRequest.tsx:71-111 | a blank comment sends nothing and changes nothing; otherwise exactly one request with the trimmed comment and the selected type; `isSubmitting` is false afterwards; success clears the comment and notifies the parent once, failure keeps the comment and notifies no one |
| ShopItems.Validate | app/api/admin/shop-items/route.ts:38-48 | a request passes iff name and description are truthy and price is present and positive; every refusal is a 400; the price message is given exactly when the required fields are there and the price is not positive |
| ShopItems.ZeroPriceFailsPriceCheck | app/api/admin/shop-items/route.ts:38-48 | a zero price gets past the required-field check and is refused by the price check |
| ShopItems.NewItem | app/api/admin/shop-items/route.ts:50-61 | the stored item keeps the given name, description and price; `image` and `config` become null when falsy; `costType` becomes `'fixed'` when falsy; `usdCost` and `useRandomizedPricing` are replaced only when undefined, so null and false are kept |
| ShopItems.DefaultsDiffer | app/api/admin/shop-items/route.ts:54-59 | an explicit `false` or `0` is kept while an empty `costType` or `image` is replaced |
| ShopItems.CreationAudit | app/api/admin/shop-items/route.ts:63-74 | the admin is both actor and target, and the record carries the item's id, name and price |
| ShopItems.InsertNewestFirst | app/api/admin/shop-items/route.ts:14-16 | inserting into a newest-first list keeps it newest first and adds exactly that item |
| ShopItems.SortNewestFirst | app/api/admin/shop-items/route.ts:14-16 | the result is ordered by `createdAt` descending and is a permutation of the items |
| ShopItems.ShopCatalog.constructor | app/api/admin/shop-items/route.ts:2 | the abstract item table and audit log standing for the imported Prisma client; no source line creates them, and both start empty |
| ShopItems.ShopCatalog.List | app/api/admin/shop-items/route.ts:7-22 | refused with the check's status and error without admin access; a 500 when the query fails; otherwise every item, newest first |
| ShopItems.ShopCatalog.Create | app/api/admin/shop-items/route.ts:26-80 | refused with the check's status without admin access; a 500 for a body that is not JSON or a failed insert; the validation errors as given by `Validate`; an authorised, valid request whose insert succeeds always succeeds with `NewItem`; on success exactly one item (`NewItem`) and one audit record (`CreationAudit`) are appended; on any error neither sequence changes |

## Left out

- Logging and timing (`console.*`) are diagnostic only and are not modelled.
- The link attempts run concurrently under `Promise.allSettled`. They are modelled as a sequential loop in which each attempt may fail independently. Only the set of links created is observable.
- In the source, the link fan-out appears twice, once after the first insert and once after the retry. The model runs `LinkAll` once, after `InsertWithRetry` returns a stored row. This has the same effect.
- Projects.ProjectStore.CreateProject: errors are modelled by their kind plus the underlying message, not by the exact prefixed message text.
- Projects.ProjectStore.CreateProject: a non-`Error` value thrown by the database is not modelled.
- Prisma schema details are not modelled: link cascades on delete, and column constraints beyond the `projectID` and `(projectID, userId)` uniqueness.
- Projects.ProjectStore.UpdateProject: only the fields of `ProjectUpdateInput` are modelled. Other properties supplied at run time are not modelled.
- Projects.ProjectStore.UpdateProject: a missing row is the only failure modelled, as `NotFound`. Other failures are not modelled, such as a lost connection or a constraint violation.
- Projects.ProjectStore.DeleteProject: a missing row is the only failure modelled, as `NotFound`. Other failures are not modelled, such as a lost connection or a foreign key held by the project's links.
- React rendering, `toast`, `fetch`, `useEffect` scheduling and the `useReviewMode` context are not modelled. The gate takes review mode as a parameter, and a request's success is one boolean.
- The form's other paths are not modelled: the request failing, the response not being OK, and a response body that is not JSON. All three are the single `succeeded = false` case.
- ReviewRequest.Placeholder: the `default:` branch of `getPlaceholderText` cannot be reached when the type is one of the four values, so it is not modelled.
- The admin-access check and `createAuditLog` are foreign calls. The check's result is a parameter. Audit logging is modelled as never failing, because its internals are not part of this model.
- ShopItems.ShopCatalog.List: the 500 answered when the admin-access check itself throws is not modelled. The check is a parameter that always returns a result.
- ShopItems.ShopCatalog.Create: the 500 answered when the admin-access check itself throws is not modelled, for the same reason.
- ShopItems.NewItem: prices and costs are integers. JSON numbers with fractions, and `name`, `description` or `config` values of other JSON types, are not modelled.
- ShopItems.SortNewestFirst: the database's order among items with equal `createdAt` is not specified, so the model only promises the descending order and the permutation.
- The shells route (`app/api/users/me/shells/route.ts`) is not part of this model. It is a thin wrapper around a progress calculation whose code is not available.
- `components/common/Project.tsx` is presentational only and is not part of this model.
