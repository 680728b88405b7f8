# Cargo fleet dashboard: the in-browser document store

This project models, in Dafny, the local stand-in for the Appwrite backend of
a fleet and cargo-tracking dashboard (`services/appwrite.ts`). It also models
the two screens that define how delivery records (PODs) are written: the
dispatch form (`components/PODModal.tsx`) and the driver console
(`pages/DriverDashboard.tsx`).

The store keeps each collection as one list of documents under the storage
key `cargo_<collection>`. The current session is a single record under
`cargo_session`. In the model:

- a document is a map from field name to scalar value (`Js.Doc`);
- the storage is `Storage.Store`: a map from storage key to document list,
  plus an optional session document;
- every operation is a pure function of the storage before the call. The
  `databases` calls and login return their result together with the storage
  after the call (`Storage.Step`); `account.get` returns only its result
  and logout only the new storage; the console handlers return the new
  console state and storage as a pair;
- a thrown value is `Js.Thrown`, with an optional `code` and an optional
  `message`, as the source throws them.

Points where this stand-in behaves differently from the Appwrite service
calls it imitates; the model follows the stand-in:

- `listDocuments` honours only the first query keyed `driverId` and the
  first keyed `role`, each as an equality filter. Appwrite's own
  `Query.orderDesc` sorts and `Query.limit` truncates; this stand-in builds
  both queries but applies neither, and an equality query on any other
  field is ignored.
- A query is looked up by its `key` field. An ordering query has a key but
  no value, so `orderDesc('driverId')` acts as a filter for documents with no
  `driverId` (`Scenarios.OrderDescOnDriverIdFilters`).
- Seeding depends on the operation that first touches a collection.
  Listing uses the collection's own seed. Getting seeds only `profiles`.
  Creating and updating always seed `[]`. A lookup or a create that comes
  first therefore means the seed is never listed (`Scenarios.GetBeforeListLosesSeed`,
  `Scenarios.CreateBeforeListLosesSeed`).
- `createDocument` does not check for an existing id. It prepends, so the
  newest document with an id shadows older ones for `getDocument` and
  `updateDocument`, and all of them stay stored.
- Login reads the profiles directly through the seeding read, not through a
  filtered listing. The session keeps the whole matched profile, password
  included, as a snapshot that later profile updates do not change.

## Model

| member | source | states |
|---|---|---|
| Js.Spread | services/appwrite.ts:103 | an object spread keeps every key of the base that the patch lacks, and takes the patch's value for every key the patch has |
| ArrayOps.FindIndex | services/appwrite.ts:101 | the result is -1 exactly when no element matches; otherwise it is a matching index with no match before it |
| ArrayOps.Find | services/appwrite.ts:89 | the result is undefined exactly when no element matches; otherwise it is the element at the first matching index |
| ArrayOps.Filter | services/appwrite.ts:82 | the result is no longer than the input, holds only matching elements of the input, and holds every matching element |
| ArrayOps.FilterMembers | services/appwrite.ts:82 | a value is in the filtered sequence exactly when it is in the input and satisfies the predicate |
| ArrayOps.FilterAppend | services/appwrite.ts:84 | filtering a concatenation is concatenating the filtered parts, so relative order is kept |
| ArrayOps.FilterFuse | services/appwrite.ts:81-84 | filtering by one predicate and then another equals filtering once by their conjunction |
| ArrayOps.FindSkipsNonMatching | services/appwrite.ts:81 | inserting elements that do not match anywhere in a sequence does not change what `find` returns |
| ArrayOps.FilterPartition | pages/DriverDashboard.tsx:121-126 | a predicate and its negation split a sequence into two parts whose multisets add up to the input's |
| ArrayOps.FilterPartitionSize | pages/DriverDashboard.tsx:121-126 | the two parts a predicate and its negation cut a sequence into have lengths adding up to its length |
| Decimal.ParseRender | components/PODModal.tsx:14 | reading back the decimal text of a number gives the number |
| Decimal.SixDigits | components/PODModal.tsx:14 | every number from 100000 to 999999 is written with exactly six digits |
| Decimal.Render | components/PODModal.tsx:14 | the text of a number, as a template literal writes it, is a non-empty string of digits with no leading zero unless the number is zero |
| Storage.CollectionKeyInjective | services/appwrite.ts:80 | two collections with the same storage key `cargo_<col>` are the same collection |
| Storage.GetStorage | services/appwrite.ts:48-55 | the returned list is what the key holds afterwards; a present key is read without any write; an absent key receives the initial value; other keys are untouched |
| Storage.SetStorage | services/appwrite.ts:57-59 | the key holds exactly the new list and every other key is unchanged |
| Storage.GetStorageSeedsOnce | services/appwrite.ts:48-55 | a second read of a key, whatever initial value it offers, returns what the first returned and writes nothing: seeding happens at most once per key |
| Seeds.AdminProfile | services/appwrite.ts:16 | the seeded administrator is `admin_1` with role admin, email `admin@cargo.com` and password `demo123` |
| Seeds.RajeshProfile | services/appwrite.ts:17 | the first seeded driver is `driver_1`, on duty, with email `rajesh@cargo.com`, password `demo123`, last updated at load time |
| Seeds.AmitProfile | services/appwrite.ts:18 | the second seeded driver is `driver_2`, off duty, with email `amit@cargo.com`, password `demo123`, last updated at load time |
| Seeds.InitialProfiles | services/appwrite.ts:15-19 | three profiles, administrator first and then two drivers, every one with password `demo123` |
| Seeds.InitialPods | services/appwrite.ts:44-46 | one record, `pod_1`, in transit with `driver_1`, stamped with the given creation time (an hour before load in `Seeds.PageSeeds`), with no delivery fields |
| Seeds.ListSeed | services/appwrite.ts:80 | listing seeds a collection by name: the profiles, the delivery records, the location history, and `[]` for any other name |
| Seeds.GetSeed | services/appwrite.ts:88 | a lookup seeds `profiles` with the seeded profiles and every other collection with `[]` |
| Queries.FindKeyedFirst | services/appwrite.ts:81-83 | the query read for a key is the first one whose `key` field is that key, and there is none exactly when no query has it |
| Queries.FilterOn | services/appwrite.ts:81-82 | one filtering pass keeps exactly the documents whose field equals the value of the first query with that key, in stored order, and keeps all when there is none |
| Queries.Evaluate | services/appwrite.ts:81-84 | the driver filter followed by the role filter equals one order-preserving filter by the conjunction of both |
| Queries.EvaluateIgnores | services/appwrite.ts:81-84 | limits and queries keyed on neither `driverId` nor `role` can be inserted anywhere in a query list without changing the result |
| Queries.EvaluateByDriver | services/appwrite.ts:81-82 | with an equality query on `driverId` first, every listed document carries that driver id |
| Queries.AdmitsByDriver | services/appwrite.ts:81-84 | with an equality query on `driverId` first and none keyed `role`, a document is listed exactly when it carries that driver id |
| Databases.IndexOfId | services/appwrite.ts:101 | the index is -1 exactly when no document has the id; otherwise it holds the first document with the id |
| Databases.ListDocuments | services/appwrite.ts:78-86 | the collection is seeded with its own seed (profiles, pods, history, otherwise empty) only if absent; the documents are those of the stored list the filters admit, in stored order; `total` equals their number; the session is untouched |
| Databases.ListSeedsOnce | services/appwrite.ts:80 | a second listing writes nothing, and with the same queries returns the same documents |
| Databases.ListIgnoresOrderAndLimit | services/appwrite.ts:81-85 | orderings, limits and queries on other keys change neither the listing nor the storage |
| Databases.GetDocument | services/appwrite.ts:87-92 | the collection is seeded only if absent, with the profile seed for `profiles` and `[]` otherwise; the result is the first document with the id, or code 404 exactly when none has it; the session is untouched |
| Databases.NewDocument | services/appwrite.ts:95 | the new document has the caller's fields unchanged, plus `$id`; its `$id` is the generated one exactly when the id argument is `unique`, unless the data carries its own `$id` |
| Databases.CreateDocument | services/appwrite.ts:93-98 | the stored list becomes the new document followed by the old list (empty if absent), with no duplicate check; the returned document is the new head; other keys and the session are untouched |
| Databases.CreatedIsFirstWithId | services/appwrite.ts:95-96 | a created document heads its collection, so it is the first with its own id even when older documents share it |
| Databases.CreateThenGet | services/appwrite.ts:93-98 | looking up the id of a just-created document returns exactly that document, even when an older one shares the id, and writes nothing |
| Databases.UpdateDocument | services/appwrite.ts:99-106 | fails with `Not found` exactly when no stored document has the id, writing only the `[]` seed; otherwise only the first document with the id changes, to itself overlaid with the patch; length and order are kept and the result is the stored entry |
| Databases.UpdateThenGet | services/appwrite.ts:99-106 | after an update that does not rewrite `$id`, a lookup of the id returns the merged document |
| Account.Get | services/appwrite.ts:62-66 | fails with code 401 exactly when no session is stored; otherwise returns the stored snapshot |
| Account.CreateEmailPasswordSession | services/appwrite.ts:67-73 | succeeds exactly when some stored profile matches both email and password; the session becomes the first such profile, whole; on failure the session is unchanged though the profiles may have been seeded |
| Account.Matches | services/appwrite.ts:69 | a profile matches when its email and password are strictly equal to the given strings; one lacking either field never matches |
| Account.DeleteSession | services/appwrite.ts:74 | the session is cleared whatever it held and the collections are unchanged, so `account.get` then fails |
| Account.DeleteSessionIdempotent | services/appwrite.ts:74 | logging out twice leaves the same storage as logging out once |
| PodModal.InitialForm | components/PODModal.tsx:13-22 | the waybill number is `AWB-` followed by the six-digit decimal text of a number from 100000 to 999999; one local piece of 10 kg; empty addresses, description and driver |
| PodModal.FormRecord | components/PODModal.tsx:12-21 | the form record has exactly the eight form fields, each under its own name, and reads back as the form |
| PodModal.DriverName | components/PODModal.tsx:26-29 | the name of the first driver with the chosen id, or `Unassigned` if no driver has it or that driver's name is missing or empty |
| PodModal.HandleSubmit | components/PODModal.tsx:24-33 | the submitted record holds exactly the form fields unchanged (it reads back as the form) plus `driverName`, `status` = `pending` and `createdAt`; it has no `$id` and no recipient, signature or delivery time |
| DriverDashboard.FetchPods | pages/DriverDashboard.tsx:19-24 | the pods collection is seeded only if absent; the fetched records are exactly the stored records carrying the user's driver id, in stored order and with repeats kept |
| DriverDashboard.PodQueries | pages/DriverDashboard.tsx:21 | the store reads the driver filter on the user's id from `fetchPods`' queries and finds no role filter in them |
| DriverDashboard.ToggleDuty | pages/DriverDashboard.tsx:30-34 | the duty switch flips, even when the update fails; the user's first stored profile gets `isOnline` = the new switch value, with all its other fields and all other profiles unchanged; when no profile has the id only the `[]` seed is written; no other storage key and not the session changes |
| DriverDashboard.DeliveryPatch | pages/DriverDashboard.tsx:42 | the patch sets exactly `status` = `delivered`, the signature URL, the recipient name and the delivery time |
| DriverDashboard.HandleDeliveryConfirm | pages/DriverDashboard.tsx:36-49 | with no selection nothing happens; if the selected id is not stored, the console is unchanged and only the `[]` seed is written; otherwise only the first stored record with that id is overlaid with the patch, the selection and signature pad close, the receipt is the selection overlaid with the patch (equal to the stored record when the selection was), the list is re-fetched as the user's stored records in stored order, and no other storage key changes |
| DriverDashboard.StreamAndRegistryPartition | pages/DriverDashboard.tsx:80-126 | the mission stream and the registry log split the fetched records: each record is in exactly one, and together they hold the whole list |
| DriverDashboard.ActivePods | pages/DriverDashboard.tsx:121-126 | the mission stream holds exactly the fetched records not delivered, and is no longer than the list |
| DriverDashboard.RegistryPods | pages/DriverDashboard.tsx:80 | the registry log holds exactly the fetched records delivered, and is no longer than the list |
| Scenarios.PodCreatedPending | pages/AdminDashboard.tsx:115 | a record created through the dispatch form with a generated id carries that id, is pending, has no delivery fields and heads the stored list |
| Scenarios.CreatedPodIsFirst | services/appwrite.ts:93-97 | a record without `$id` created under a generated id gets that id as a string and is stored first with it |
| Scenarios.ConfirmOverlaysStored | pages/DriverDashboard.tsx:42-47 | confirming a record stored first with its id overlays the delivery patch on that entry, keeps its id and the list length, and the receipt shows it |
| Scenarios.ConfirmStoredRecord | pages/DriverDashboard.tsx:42-47 | confirming a stored record makes it delivered with recipient, signature and time, keeps its other fields and the rest of the list, and the receipt equals the stored record |
| Scenarios.CreateThenConfirm | pages/DriverDashboard.tsx:36-49 | a record created under a generated id and then confirmed is stored first as itself overlaid with the delivery patch, keeps the generated id, and the receipt equals it |
| Scenarios.PodLifecycle | pages/DriverDashboard.tsx:36-49 | after dispatch and confirmation, the record is delivered, keeps its id and every field the form wrote except status, and the receipt equals it |
| Scenarios.SessionLifecycle | services/appwrite.ts:62-74 | after a successful login `account.get` returns the matched profile; after logout it fails with 401 |
| Scenarios.SeededCredentials | services/appwrite.ts:15-19 | the seeded admin has email `admin@cargo.com`, and every seeded profile has password `demo123` |
| Scenarios.DemoAdminLogin | services/appwrite.ts:67-73 | on a fresh store the demo admin's login seeds the profiles and makes the admin profile the session |
| Scenarios.DemoWrongPassword | services/appwrite.ts:67-70 | on a fresh store a wrong password is refused with the invalid-credentials error, the profiles are seeded, and no session is set |
| Scenarios.LoginProfileLookup | pages/Login.tsx:24-38 | after a login whose profile has a string id, the login page's profile lookup succeeds and writes nothing, so the logout branch is not taken |
| Scenarios.SessionSnapshotIsStale | services/appwrite.ts:71 | switching duty after login changes the stored profile but not what `account.get` returns |
| Scenarios.AdminHistoryQuery | pages/AdminDashboard.tsx:29-33 | the history query with ordering and a limit of 50 lists the same as the bare driver filter |
| Scenarios.AdminPodsQuery | pages/AdminDashboard.tsx:25 | the admin's ordered delivery query lists every stored record in stored order |
| Scenarios.OrderDescOnDriverIdFilters | services/appwrite.ts:81-82 | an ordering query on `driverId` keeps exactly the documents without a `driverId` |
| Scenarios.GetBeforeListLosesSeed | services/appwrite.ts:80-90 | on a fresh store, listing pods shows the seed; looking up `pod_1` first fails with 404, and the listing after it is empty, so the seed is not listed afterwards |
| Scenarios.CreateBeforeListLosesSeed | services/appwrite.ts:93-96 | creating into a fresh collection seeds it with `[]`, so only the new document is listed afterwards |

## Left out

- `ID.unique` (services/appwrite.ts:5) draws random characters; the generated id is the `freshId` parameter of `Databases.CreateDocument`.
- Clock readings are parameters: the seeds' timestamps (`Seeds.PageSeeds`), `createdAt` in `PodModal.HandleSubmit` and `deliveredAt` in `DriverDashboard.HandleDeliveryConfirm`.
- The location-history seed (services/appwrite.ts:21-42) is built from random numbers and random ids; it is the opaque `history` field of `Seeds.Seeds`.
- The 200 ms delay in `listDocuments` and async/await: every operation is a synchronous function.
- JSON serialisation through the storage is taken to be the identity; storage exceptions such as an exceeded quota are not modelled.
- `storage.createFile`, `storage.getFileView` and `base64ToFile` are stubs; the signature URL is the `signatureUrl` parameter.
- The session is kept apart from the collection lists, so a collection named `session`, whose key `cargo_session` would alias the session record, is not modelled.
- Document values are strings, numbers (as exact reals, without NaN or floating-point rounding) and booleans; `null`, nested objects and arrays do not occur in this store's documents and are not modelled.
- Queries.Query: the value of `Query.equal` is always a defined value; an `equal` query whose value is `undefined` is not modelled (every caller passes a string).
- PodModal.PodForm: a pieces or weight entry that does not parse (NaN) is not modelled.
- DriverDashboard.ToggleDuty: when no profile has the user's id, the source's update throws and the promise `toggleDuty` returns rejects with nobody to catch it; the model returns the flipped switch and the seeded storage and does not model the rejection.
- The screens' side effects outside the store are not modelled: the alert on a failed confirmation (pages/DriverDashboard.tsx:48), the logged error of a failed fetch (pages/DriverDashboard.tsx:23) and the unhandled rejection in `toggleDuty`. In the model the re-fetch cannot fail.
- DriverDashboard.HandleDeliveryConfirm: requires the selected record's `$id` to be a string, as the `PODEntry` type declares; a record without one is not modelled.
- The signature pad's guard (components/SignaturePad.tsx:73-76), canvas drawing and the map (components/TrackingMap.tsx) are not modelled; any recipient name is accepted.
- Rendering and routing (pages/AdminDashboard.tsx, pages/Login.tsx, App.tsx, components/Layout.tsx) are not modelled; their store calls appear only as the scenario lemmas in `Scenarios`.
- setup-appwrite.js administers a remote Appwrite server over the network and is not part of this model.
