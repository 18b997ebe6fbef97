# Property Pulse Hub admin store, in Dafny

This project models the admin side of the Property Pulse Hub site: a real-estate and agriculture company's website. It has one store shared by every admin page. The store holds:

- the real-estate projects;
- the agriculture projects;
- the property requests sent in from the public site;
- one market-trend record;
- a signed-in flag behind a fixed credential pair.

The store loads itself from the browser's storage, or from the bundled fixture data when nothing is stored, and writes every collection back after each change.

Every store operation is a pure function from the old state to the new one:

- append with a clock-derived id;
- rewrite by id with a shallow merge;
- drop by id;
- set a request's status;
- merge into the trend record and restamp it.

The model states and proves the following:

- what each operation keeps and what it changes;
- that signing in and out keeps memory and storage in agreement, so a reload gives back the saved state;
- the round trips, idempotence and uniqueness facts that follow from the above.

Around the store sit the admin pages. The model covers their logic:

- the trending-area editor (trim, de-duplicate, remove);
- the request filter, counters, status toggle and CSV text;
- the add/edit forms with their reset defaults, edit-versus-add dispatch, star toggle and the number inputs;
- the dashboard counters and previews.

The fixture queries over the bundled data are modelled as well (featured, by id, by category, by status), with the concrete facts about the fixtures.

Modules, one per file:

| file | module | models |
|---|---|---|
| optional.dfy | `Optional` | absent keys / `undefined` (`Option`), thrown errors (`Result`) |
| seqs.dfy | `Seqs` | `filter`, `find`, `map` with a per-element choice, `slice(0, n)` |
| text.dfy | `Text` | `trim`, `join`, `split`, `parseInt`, `String(n)` |
| collection.dfy | `Collection` | append, rewrite-by-id and drop-by-id over any record type |
| projects.dfy | `Projects` | `src/data/projects.ts` |
| agriculture.dfy | `AgricultureProjects` | `src/data/agricultureProjects.ts` |
| requests.dfy | `PropertyRequests` | `src/data/propertyRequests.ts` |
| trends.dfy | `MarketTrends` | `src/data/marketTrends.ts` |
| admin_store.dfy | `AdminStore` | `src/contexts/AdminContext.tsx` |
| trends_page.dfy | `TrendsPage` | `src/pages/admin/AdminTrends.tsx` |
| requests_page.dfy | `RequestsPage` | `src/pages/admin/AdminRequests.tsx` |
| projects_page.dfy | `ProjectsPage` | `src/pages/admin/AdminProjects.tsx` |
| agriculture_page.dfy | `AgriculturePage` | `src/pages/admin/AdminAgriculture.tsx` |
| dashboard.dfy | `Dashboard` | `src/pages/admin/AdminDashboard.tsx` |

Modelling choices:

- A `Partial<T>` is a patch record with one `Option` per key; `None` means the key is absent. `{ ...p, ...u }` is `Merge`.
- `Omit<T, "id">` is a whole record whose id is ignored, because `{ ...project, id }` overwrites it.
- `Date.now()` is a parameter `now: nat`. The id it gives is `Text.Decimal(now)`, the numeral `toString()` writes.
- The month stamp from `toLocaleDateString` is a parameter `stamp`.
- `JSON.stringify` and `JSON.parse` are a `Codec` parameter. `decode` returns `None` where `JSON.parse` throws.
- The agriculture record's `type` key is called `kind`, because `type` is a Dafny keyword.
- Two behaviours of the code worth noting:
  - A stored value that does not parse is an uncaught error in `AdminStore.Init`, not a fall-back to the fixture. An empty stored string is falsy, so it does fall back.
  - A failed login leaves the state as it was. That state is not necessarily signed out.

## Model

| member | source | states |
|---|---|---|
| `Text.Trim` | src/pages/admin/AdminTrends.tsx:25 | the result has no leading or trailing whitespace, is what is left of the input after whitespace at both ends, and is empty exactly when the input is all whitespace |
| `Text.TrimIdempotent` | src/pages/admin/AdminTrends.tsx:25 | trimming a trimmed string changes nothing |
| `Text.SplitJoin` | src/pages/admin/AdminRequests.tsx:49 | splitting a join on the same one-character separator gives back the parts when no part contains it |
| `Text.JoinAvoids` | src/pages/admin/AdminRequests.tsx:49 | a character in neither the parts nor the separator is not in the joined text |
| `Text.DecimalValue` | src/contexts/AdminContext.tsx:99 | the numeral `toString()` writes for n denotes n |
| `Text.DecimalInjective` | src/contexts/AdminContext.tsx:99 | two clock values give the same id exactly when they are equal |
| `Text.ParseIntDecimal` | src/pages/admin/AdminProjects.tsx:214 | `parseInt` reads back every numeral `String(n)` writes |
| `Seqs.Find` | src/data/projects.ts:150 | `find` returns nothing exactly when no element passes, else the first element that passes |
| `Seqs.FilterAppend` | src/data/projects.ts:149 | `filter` keeps relative order: it distributes over concatenation |
| `Seqs.FilterIdempotent` | src/data/projects.ts:149 | filtering twice by the same test is filtering once |
| `Seqs.Take` | src/pages/admin/AdminDashboard.tsx:82 | `slice(0, n)` is the prefix of length min(n, length) |
| `Collection.UpdateById` | src/contexts/AdminContext.tsx:104 | the `map` by id keeps length and order, rewrites exactly the records with that id and leaves the others equal |
| `Collection.DeleteById` | src/contexts/AdminContext.tsx:108 | the `filter` by id leaves no record with that id, keeps every other record and adds nothing |
| `Collection.FindById` | src/data/projects.ts:150 | nothing exactly when no record has the id; otherwise the first record with it |
| `Collection.FindUnique` | src/data/projects.ts:150 | with unique ids the record found is the one carrying the id |
| `Collection.DeleteKeepsOrder` | src/contexts/AdminContext.tsx:108 | the survivors of a delete keep their relative order |
| `Collection.UpdateMissing` | src/contexts/AdminContext.tsx:104 | an update on an id no record has changes nothing |
| `Collection.DeleteMissing` | src/contexts/AdminContext.tsx:108 | a delete of an id no record has changes nothing |
| `Collection.DeleteIdempotent` | src/contexts/AdminContext.tsx:108 | deleting twice is deleting once |
| `Collection.UpdateIdempotent` | src/contexts/AdminContext.tsx:104 | an idempotent rewrite applied twice by id is applied once |
| `Collection.UpdateKeepsIds` | src/contexts/AdminContext.tsx:104 | a rewrite that keeps ids keeps the id list, hence uniqueness |
| `Collection.AppendFreshKeepsUnique` | src/contexts/AdminContext.tsx:98-101 | appending under a fresh id keeps ids unique |
| `Collection.UniqueIdsCons` | src/contexts/AdminContext.tsx:98-101 | a list with a head has unique ids exactly when the head's id is fresh in the tail and the tail's ids are unique |
| `Collection.DeleteKeepsUnique` | src/contexts/AdminContext.tsx:107-109 | deleting keeps ids unique |
| `Collection.DeletePresentUnique` | src/contexts/AdminContext.tsx:107-109 | with unique ids, deleting a present id removes exactly one record |
| `Collection.AppendThenDelete` | src/contexts/AdminContext.tsx:98-109 | append under a fresh id, then delete that id: the original list |
| `Collection.AppendUpdateDelete` | src/contexts/AdminContext.tsx:98-109 | append, update by the new id keeping the id, delete: the original list |
| `Projects.MergeLaws` | src/contexts/AdminContext.tsx:103-105 | the empty patch is the identity; a whole record overwrites everything; merging is idempotent; an absent id is kept; a present `specifications` replaces the nested record whole |
| `Projects.MergeFeatured` | src/pages/admin/AdminProjects.tsx:91-92 | the `{ featured }` patch changes `featured` and nothing else |
| `Projects.Featured` | src/data/projects.ts:149 | every result is featured and from the list; every featured project of the list is in the result |
| `Projects.FeaturedKeepsOrder` | src/data/projects.ts:149 | the featured projects keep their relative order |
| `Projects.ById` | src/data/projects.ts:150 | nothing exactly when no project has the id; otherwise the first project of the list with that id |
| `Projects.ByCategory` | src/data/projects.ts:151-152 | every result has the category and is from the list; every project of that category is in the result |
| `Projects.CategoriesPartition` | src/data/projects.ts:151-152 | for every category the query keeps order (it distributes over concatenation), and the residential and commercial results together are as long as the list |
| `Projects.FixtureIds` | src/data/projects.ts:21-146 | the fixture ids are "1" to "6", pairwise distinct |
| `Projects.FixtureFeatured` | src/data/projects.ts:21-146 | exactly the first three fixtures are featured |
| `Projects.FixtureResidential` | src/data/projects.ts:21-146 | the residential fixtures are the first, third and fifth |
| `Projects.FixtureCommercial` | src/data/projects.ts:21-146 | the commercial fixtures are the second, fourth and sixth |
| `AgricultureProjects.MergeLaws` | src/contexts/AdminContext.tsx:124-126 | the project merge laws for agriculture records |
| `AgricultureProjects.MergeFeatured` | src/pages/admin/AdminAgriculture.tsx:89-90 | the `{ featured }` patch changes `featured` and nothing else |
| `AgricultureProjects.Featured` | src/data/agricultureProjects.ts:101 | every result is featured and from the list; every featured record is in the result |
| `AgricultureProjects.FeaturedKeepsOrder` | src/data/agricultureProjects.ts:101 | the featured records keep their relative order |
| `AgricultureProjects.ById` | src/data/agricultureProjects.ts:102 | nothing exactly when no record has the id; otherwise the first record of the list with that id |
| `AgricultureProjects.FixtureIds` | src/data/agricultureProjects.ts:20-98 | the fixture ids are "1" to "4", pairwise distinct, and every fixture has a non-empty `yearStarted` |
| `AgricultureProjects.FixtureFeatured` | src/data/agricultureProjects.ts:20-98 | exactly the first three fixtures are featured |
| `PropertyRequests.WithStatusOnly` | src/data/propertyRequests.ts:72-73 | every result has the status and is from the list; every request with that status is in the result |
| `PropertyRequests.PendingRequests` | src/data/propertyRequests.ts:72 | exactly the pending requests, each one taken from the list, and no more of them than the list holds |
| `PropertyRequests.HandledRequests` | src/data/propertyRequests.ts:73 | exactly the handled requests, each one taken from the list, and no more of them than the list holds |
| `PropertyRequests.PendingHandledSplit` | src/data/propertyRequests.ts:72-73 | the two queries are disjoint and keep order; together at most all requests, exactly all when none is archived |
| `PropertyRequests.FixtureIds` | src/data/propertyRequests.ts:16-69 | the fixture ids are "1" to "4", pairwise distinct |
| `PropertyRequests.FixturePending` | src/data/propertyRequests.ts:16-69 | the first, second and fourth fixtures are pending |
| `PropertyRequests.FixtureHandled` | src/data/propertyRequests.ts:16-69 | only the third fixture is handled |
| `MarketTrends.MergeLaws` | src/contexts/AdminContext.tsx:115-117 | the empty patch is the identity; a whole record overwrites; merging is idempotent; a present `averageBudget` replaces the nested record whole |
| `AdminStore.Load` | src/contexts/AdminContext.tsx:47-50 | an absent or empty stored value gives the fixture; any other value gives its parse, and fails, naming the key, exactly when it does not parse |
| `AdminStore.Init` | src/contexts/AdminContext.tsx:43-65 | succeeds exactly when all four collection loads do, and then holds each collection's loaded value (the stored parse, or the fixture when absent or empty) with the session flag read as stored "true"; a failure names a collection key holding a non-empty value |
| `AdminStore.InitEmpty` | src/contexts/AdminContext.tsx:43-65 | with nothing stored the store starts signed out with the four fixtures |
| `AdminStore.Save` | src/contexts/AdminContext.tsx:68-82 | the write-back effects set exactly the four collection keys, each to the encoding of the current collection, and leave the other keys alone |
| `AdminStore.Commit` | src/contexts/AdminContext.tsx:68-82 | writing the new state back keeps memory and storage in agreement |
| `AdminStore.Reload` | src/contexts/AdminContext.tsx:43-82 | with codecs that read back what they write, reloading gives back exactly the saved state |
| `AdminStore.Mount` | src/contexts/AdminContext.tsx:43-82 | mounting succeeds exactly when initialisation does; the mounted state is the initial state and the storage is the old storage with that state written back, so memory and storage agree |
| `AdminStore.MountThenReload` | src/contexts/AdminContext.tsx:43-82 | with codecs that read back what they write, a reload right after mounting rebuilds the mounted state |
| `AdminStore.Login` | src/contexts/AdminContext.tsx:84-91 | true exactly on the fixed pair, then signed in and storage is the old storage with the key set to "true"; otherwise nothing changes; only the flag ever changes in memory |
| `AdminStore.Logout` | src/contexts/AdminContext.tsx:93-96 | always signed out; storage is the old storage with only the key removed; only the flag changes in memory |
| `AdminStore.GateKeepsSync` | src/contexts/AdminContext.tsx:84-96 | signing in or out keeps memory and storage in agreement |
| `AdminStore.LoginSurvivesReload` | src/contexts/AdminContext.tsx:84-91 | a reload after a successful login is signed in |
| `AdminStore.WrongCredentialsStayOut` | src/contexts/AdminContext.tsx:84-91 | from a signed-out session no other credential pair signs in |
| `AdminStore.AddProject` | src/contexts/AdminContext.tsx:98-101 | one more project; the old ones an unchanged prefix; the last the input under the clock id; nothing else changes |
| `AdminStore.UpdateProject` | src/contexts/AdminContext.tsx:103-105 | length and order kept; projects with the id merged, the others equal; nothing else changes |
| `AdminStore.DeleteProject` | src/contexts/AdminContext.tsx:107-109 | no project with the id is left, every other one stays, none is added; nothing else changes |
| `AdminStore.ProjectMissingId` | src/contexts/AdminContext.tsx:103-109 | update and delete of an absent id are no-ops |
| `AdminStore.UpdateProjectLaws` | src/contexts/AdminContext.tsx:103-105 | the empty update is the identity; an update repeated is the update once |
| `AdminStore.DeleteProjectKeepsOrder` | src/contexts/AdminContext.tsx:107-109 | the surviving projects keep their order, duplicates included: delete distributes over concatenation |
| `AdminStore.DeleteProjectLaws` | src/contexts/AdminContext.tsx:107-109 | delete is idempotent, keeps ids unique, and removes exactly one project when the id is present and ids are unique |
| `AdminStore.ProjectIdsStayUnique` | src/contexts/AdminContext.tsx:98-105 | adding under a fresh id and updating without an id key keep ids unique |
| `AdminStore.ProjectRoundTrip` | src/contexts/AdminContext.tsx:98-109 | add, update the new id, delete it: the original state |
| `AdminStore.AddAgriProject` | src/contexts/AdminContext.tsx:119-122 | one more agriculture project at the end under the clock id; nothing else changes |
| `AdminStore.UpdateAgriProject` | src/contexts/AdminContext.tsx:124-126 | length and order kept; matching records merged, the others equal; nothing else changes |
| `AdminStore.DeleteAgriProject` | src/contexts/AdminContext.tsx:128-130 | no record with the id is left, every other one stays; nothing else changes |
| `AdminStore.AgriLaws` | src/contexts/AdminContext.tsx:124-130 | an absent id is a no-op; the empty update is the identity; update and delete are idempotent |
| `AdminStore.AgriDeleteLaws` | src/contexts/AdminContext.tsx:128-130 | delete keeps the survivors in order, keeps ids unique, and removes exactly one record when the id is present and ids are unique |
| `AdminStore.AgriIdsStayUnique` | src/contexts/AdminContext.tsx:119-126 | adding under a fresh id and updating without an id key keep agriculture ids unique |
| `AdminStore.AgriRoundTrip` | src/contexts/AdminContext.tsx:119-130 | add, update the new id, delete it: the original state |
| `AdminStore.UpdateRequestStatus` | src/contexts/AdminContext.tsx:111-113 | matching requests get the status and keep every other field; the others are equal; nothing else changes |
| `AdminStore.RequestStatusLaws` | src/contexts/AdminContext.tsx:111-113 | an absent id is a no-op; repeating a status is a no-op; ids stay the same |
| `AdminStore.UpdateTrends` | src/contexts/AdminContext.tsx:115-117 | the record is the old one with the supplied keys and the current stamp merged over it; nothing else changes |
| `AdminStore.UpdateTrendsLaws` | src/contexts/AdminContext.tsx:115-117 | changing only the most requested type changes only it and the stamp; a caller's own stamp never matters; repeating an update is a no-op |
| `AdminStore.NewIdFresh` | src/contexts/AdminContext.tsx:99 | a clock value beyond 6 gives an id no fixture project has |
| `AdminStore.AddToSeeded` | src/contexts/AdminContext.tsx:98-101 | adding to the six seeded projects gives seven with unique ids; the new one is in the residential filter of the store's list exactly when it is residential |
| `AdminStore.HandleSeededRequest` | src/contexts/AdminContext.tsx:111-113 | marking seeded request "1" handled changes its status and nothing else |
| `TrendsPage.AddArea` | src/pages/admin/AdminTrends.tsx:24-32 | the trimmed text is appended and the box cleared exactly when it is non-empty and not listed; otherwise nothing changes |
| `TrendsPage.AddAreaGrows` | src/pages/admin/AdminTrends.tsx:24-32 | the list grows by at most one, old entries stay in place, and an added entry is non-empty and trimmed |
| `TrendsPage.AppendFreshNoDuplicates` | src/pages/admin/AdminTrends.tsx:25-28 | appending an unlisted entry keeps a list duplicate-free |
| `TrendsPage.AddAreaKeepsNoDuplicates` | src/pages/admin/AdminTrends.tsx:25-28 | adding never introduces a duplicate |
| `TrendsPage.RemoveArea` | src/pages/admin/AdminTrends.tsx:34-39 | the area is gone afterwards, every other area stays, nothing is added; the text box is untouched |
| `TrendsPage.RemoveAreaLaws` | src/pages/admin/AdminTrends.tsx:34-39 | removal is idempotent, a no-op on an unlisted area, and keeps the list duplicate-free |
| `TrendsPage.RemoveAreaKeepsOrder` | src/pages/admin/AdminTrends.tsx:34-39 | the remaining areas keep their order, duplicates included: removal distributes over concatenation |
| `TrendsPage.FilterKeepsNoDuplicates` | src/pages/admin/AdminTrends.tsx:37 | filtering a duplicate-free list gives a duplicate-free list |
| `TrendsPage.AddThenRemove` | src/pages/admin/AdminTrends.tsx:24-39 | adding a new area and removing it gives back the original record |
| `TrendsPage.HandleSave` | src/pages/admin/AdminTrends.tsx:19-22 | the stored record becomes the form's record with the current stamp; nothing else changes |
| `TrendsPage.SaveUnedited` | src/pages/admin/AdminTrends.tsx:16-22 | opening the page and saving only restamps the record |
| `TrendsPage.SeededAreas` | src/data/marketTrends.ts:16-22 | the seeded area list has five entries and no duplicates |
| `RequestsPage.FilteredRequests` | src/pages/admin/AdminRequests.tsx:19-22 | "all" gives every request; the other filters give exactly the pending or handled query |
| `RequestsPage.FilterAgrees` | src/pages/admin/AdminRequests.tsx:19-22 | each filter button selects what its status query selects |
| `RequestsPage.FilterSame` | src/pages/admin/AdminRequests.tsx:19-22 | two tests that agree on every request select the same requests |
| `RequestsPage.CountsBound` | src/pages/admin/AdminRequests.tsx:24-25 | pending plus handled is at most the number of requests, and equal when none is archived |
| `RequestsPage.ToggledStatus` | src/pages/admin/AdminRequests.tsx:250-266 | the button always changes the status, and never to archived |
| `RequestsPage.ToggleTwice` | src/pages/admin/AdminRequests.tsx:250-266 | toggling twice restores the status exactly when it was not archived |
| `RequestsPage.Toggle` | src/pages/admin/AdminRequests.tsx:250-266 | the rows with the id get the toggled status and keep every other field; other rows are equal; nothing else changes |
| `RequestsPage.ToggleRowTwice` | src/pages/admin/AdminRequests.tsx:250-266 | with unique ids, pressing a pending or handled row twice restores the state |
| `RequestsPage.HeadersPlain` | src/pages/admin/AdminRequests.tsx:36 | no header holds a comma or a line break |
| `RequestsPage.LineShape` | src/pages/admin/AdminRequests.tsx:49 | a line of plain fields has no line break and splits back into its fields |
| `RequestsPage.CsvShape` | src/pages/admin/AdminRequests.tsx:35-50 | without commas or line breaks in the fields, the text splits into the header plus one line per request, each of exactly its ten fields |
| `ProjectsPage.MergePatchOver` | src/pages/admin/AdminProjects.tsx:120-128 | a form edit followed by the store's merge is the merge of the combined patch |
| `ProjectsPage.AsRecord` | src/pages/admin/AdminProjects.tsx:76 | the cast record is a fixed point of the form's merge and the result of merging the form over any record |
| `ProjectsPage.ResetForm` | src/pages/admin/AdminProjects.tsx:41-61 | not editing; complete; residential, completed, not featured, empty strings and images, no counts |
| `ProjectsPage.HandleEdit` | src/pages/admin/AdminProjects.tsx:63-67 | editing the record, and merging the form over anything gives the record |
| `ProjectsPage.Change` | src/pages/admin/AdminProjects.tsx:120-128 | a field edit keeps the edit target, keeps the form addable and keeps the id unless it sets it; merging the edited form over any record is merging the old form and then the change |
| `ProjectsPage.StoredCount` | src/pages/admin/AdminProjects.tsx:214 | never 0; absent exactly when the input does not parse or parses to 0; otherwise the parsed number |
| `ProjectsPage.StoredCountDecimal` | src/pages/admin/AdminProjects.tsx:209-216 | a typed numeral is stored as its number, except 0, which is stored as absent |
| `ProjectsPage.SetBedrooms` | src/pages/admin/AdminProjects.tsx:209-217 | only `specifications.bedrooms` changes |
| `ProjectsPage.SetBathrooms` | src/pages/admin/AdminProjects.tsx:220-228 | only `specifications.bathrooms` changes |
| `ProjectsPage.HandleSubmit` | src/pages/admin/AdminProjects.tsx:69-82 | editing keeps the length, merges the form over every record with the edited id and keeps every other record; adding appends the form's record under the clock id; the form is reset |
| `ProjectsPage.EditSubmitUnchanged` | src/pages/admin/AdminProjects.tsx:63-82 | with unique ids, edit then submit without changes leaves the state as it was |
| `ProjectsPage.EditSubmitApplies` | src/pages/admin/AdminProjects.tsx:63-82 | edit, change some fields, submit: the record becomes the old one with exactly those fields replaced |
| `ProjectsPage.AddBlank` | src/pages/admin/AdminProjects.tsx:41-82 | `handleSubmit` on a reset form appends the default record under the clock id; the page itself never submits a reset form, since its `required` inputs are empty |
| `ProjectsPage.EditsKeepAddable` | src/pages/admin/AdminProjects.tsx:41-82 | every form reached from a reset by field edits can be added |
| `ProjectsPage.ToggleFeatured` | src/pages/admin/AdminProjects.tsx:91-96 | records with the id get `featured` flipped, the others are equal; nothing else changes |
| `ProjectsPage.ToggleFeaturedTwice` | src/pages/admin/AdminProjects.tsx:91-96 | with unique ids, pressing a row's star twice restores the state |
| `AgriculturePage.MergePatchOver` | src/pages/admin/AdminAgriculture.tsx:127-135 | a form edit followed by the store's merge is the merge of the combined patch |
| `AgriculturePage.AsRecord` | src/pages/admin/AdminAgriculture.tsx:74 | the cast record is a fixed point of the form's merge and the result of merging the form over any record |
| `AgriculturePage.ResetForm` | src/pages/admin/AdminAgriculture.tsx:40-59 | not editing; complete; crop, active, not featured, empty strings, images and specifications |
| `AgriculturePage.HandleEdit` | src/pages/admin/AdminAgriculture.tsx:61-65 | editing the record, and merging the form over anything gives the record |
| `AgriculturePage.Change` | src/pages/admin/AdminAgriculture.tsx:127-135 | a field edit keeps the edit target, keeps the form addable and keeps the id unless it sets it; merging the edited form over any record is merging the old form and then the change |
| `AgriculturePage.HandleSubmit` | src/pages/admin/AdminAgriculture.tsx:67-80 | editing keeps the length, merges the form over every record with the edited id and keeps every other record; adding appends the form's record under the clock id; the form is reset |
| `AgriculturePage.EditSubmitUnchanged` | src/pages/admin/AdminAgriculture.tsx:61-80 | with unique ids, edit then submit without changes leaves the state as it was |
| `AgriculturePage.EditSubmitApplies` | src/pages/admin/AdminAgriculture.tsx:61-80 | edit, change some fields, submit: exactly those fields are replaced |
| `AgriculturePage.AddBlank` | src/pages/admin/AdminAgriculture.tsx:40-80 | `handleSubmit` on a reset form appends the default record under the clock id; the page itself never submits a reset form, since its `required` inputs are empty |
| `AgriculturePage.ToggleFeatured` | src/pages/admin/AdminAgriculture.tsx:89-94 | records with the id get `featured` flipped, the others are equal; nothing else changes |
| `AgriculturePage.ToggleFeaturedTwice` | src/pages/admin/AdminAgriculture.tsx:89-94 | with unique ids, pressing a row's star twice restores the state |
| `Dashboard.Show` | src/pages/admin/AdminDashboard.tsx:10-186 | the four cards show the collection sizes and the pending count; pending plus handled is at most the requests; featured is at most the projects; the previews are the first min(5, n) requests and min(3, n) areas |
| `Dashboard.CountersAreQueries` | src/pages/admin/AdminDashboard.tsx:10-11 | the counters are the sizes of the status and featured queries |
| `Dashboard.SeededOverview` | src/pages/admin/AdminDashboard.tsx:10-186 | on the seeded state: 6, 4, 3 and 4 on the cards, 1 handled, 3 featured, all four requests and the first three areas |

## Left out

- Rendering, routing, toasts, `confirm()` dialogs, dialog open/close state and the sidebar-collapse flag: presentation only. The dialog's close handler calls `resetForm`, which is `ResetForm`. The Cancel buttons (src/pages/admin/AdminProjects.tsx:251, src/pages/admin/AdminAgriculture.tsx:274) only set the dialog closed and do not reset the form, so after Edit then Cancel, a later Add opens the form still editing the old record; the model has no dialog state and so does not capture this.
- The CSV download: the Blob, the object URL, the anchor click and the dated file name need the browser and the clock. Only the CSV text is modelled.
- `localStorage` write failures, such as an exceeded quota, are not modelled: the model's storage is a map that always accepts a write.
- The write-back effects run once per changed collection. The model writes all four collections after every change. Rewriting an unchanged collection stores the same text, so the resulting storage is the same.
- The JSON encoding itself is not modelled. `AdminStore.Reload` is stated for any codec that reads back what it writes.
- AdminStore.Init: stored JSON of the wrong shape cannot be represented. A successful decode is taken to give a well-typed value.
- `Date.now()` and `toLocaleDateString` are parameters, so whether two additions get the same id is left to the caller. Uniqueness after an add is proved only for a fresh id.
- MarketTrends.Merge: `marketMoodValue` is a JavaScript number and the model keeps it as an integer. Fractional values are not modelled.
- Text.Trim: only ASCII whitespace is trimmed. JavaScript also trims Unicode spaces and line separators.
- Text.ParseInt: only an optional sign and decimal digits after ASCII whitespace are read. Hex prefixes, and values too large for a double, are not modelled.
- ProjectsPage.HandleSubmit and AgriculturePage.HandleSubmit require, in the add branch, that every key but `id` is present. The source's cast assumes this. `EditsKeepAddable` and `Change` show that every form reached from a reset keeps it.
- ProjectsPage.HandleSubmit and AgriculturePage.HandleSubmit do not model the browser's `required` check on title, location and short description (AdminProjects.tsx lines 121, 129 and 139; AdminAgriculture.tsx lines 128, 136 and 146). The browser blocks the submit while any of them is empty, but the model's handlers accept such forms. The constraint validation belongs to the browser, not to the page's code.
- ProjectsPage.SetBedrooms and ProjectsPage.SetBathrooms require the form's `specifications` to be present. The source writes `formData.specifications!` (src/pages/admin/AdminProjects.tsx:214, 225); every form the page can reach, from `ResetForm` or `HandleEdit`, has specifications. The page has no floors input, so `floors` is never set by the form.
- Projects.Featured, Projects.ById, Projects.ByCategory, AgricultureProjects.Featured and AgricultureProjects.ById take the list as a parameter. In the source these queries read only the bundled fixture arrays, so records added through the store never reach them. The model's lemmas about these queries hold for any list, the store's included, but the source never calls these exported functions on the store's list. The dashboard's inline featured and status filters over the store's lists use the same tests, and `Dashboard.Show` models those filters with these functions.
- The public request and contact forms, the static content modules, the stat-card animation and the portfolio filter are left out. The forms never write into the store, and the portfolio filter is `Projects.ByCategory` plus an "all" case.
