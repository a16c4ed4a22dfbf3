# Property admin panel: session gate, route table, upload widget and entity lists

A verified model of the logic underneath a browser admin panel for real-estate listings.
The panel manages developers, projects, properties and property images. Everything is held in memory behind a mock login.
The model covers the following parts.

- **Session gate** (`Auth`, `auth_context.dfy`). An `AuthProvider` class holds the user slot (`Option<User>`) and the browser's local store (`map<string, string>`).
  - Login succeeds only for `admin@example.com` / `password123`. It then writes `isAuthenticated = "true"` and `userEmail`.
  - Logout empties the slot and deletes both keys.
  - Mounting the provider rehydrates the user when `isAuthenticated` is `"true"` and `userEmail` is present and non-empty.
  - Each method is tied to a pure transition function on a `Session` value. The properties are proved about those functions.
- **Route table** (`Routing`, `app_routes.dfy`). A pure decision from path and `isAuthenticated` to the page rendered or a redirect to `/login`.
- **Start-up** (`Boot`, `app_boot.dfy`). The provider's first render is anonymous, and the router decides on it before the mount effect restores a stored session. The module states what a reload of a protected path shows as written, and what the persisted session is meant to give.
- **Upload widget** (`Upload`, `file_upload.dfy`). A `FileUpload` class with its own file list and its `maxFiles`/`maxSize` limits (defaults 5 and 5 MB).
  - A selection is rejected outright when it would exceed the count.
  - Otherwise oversized files are filtered out in order, and the survivors are appended in one step.
  - Removal by position follows `Array.prototype.splice(index, 1)`, including negative and out-of-range indices.
  - The method returns the list handed to `onChange` and the notices (toasts) shown.
- **Entity lists** (`Developers`, `Projects`, `Properties`, `Images`, one file per page, over the shared `Lists` module).
  - Each page is a class holding its list and its form.
  - A submit copies the form under a caller-supplied identifier and appends it. For projects, properties and images it first looks up the parent's display name; when the lookup fails, nothing changes.
  - Images append one record per chosen file.
  - Removal filters out every record with the given identifier.
  - The form resets to fixed defaults after a successful submit.

`Date.now()`, `Math.random()`, `URL.createObjectURL` and `new Date().toISOString()` are parameters. The developer, project and property pages take a `now: string`. The images page takes one `Stamp` (identifier, object URL, day) per chosen file.
Properties about fresh identifiers are lemmas with a freshness precondition (`Lists.FreshId`).

## Model

| member | source | states |
|---|---|---|
| `Lists.Filter` | src/components/ui/file-upload.tsx:45-55 | the result contains exactly the input elements that pass the predicate and is no longer than the input |
| `Lists.RemoveById` | src/pages/DevelopersPage.tsx:90 | a record survives removal iff it was in the list and its identifier differs from the removed one |
| `Lists.FindById` | src/pages/ProjectsPage.tsx:103 | `None` iff no record carries the identifier; otherwise the record found carries it and no earlier record does (first match) |
| `Lists.RemoveAbsentId` | src/pages/PropertiesPage.tsx:165 | removing an identifier no record carries leaves the list unchanged |
| `Lists.RemoveKeepsOrder` | src/pages/ProjectsPage.tsx:131 | the surviving records are a subsequence of the old list (relative order kept) |
| `Lists.RemoveCount` | src/pages/ImagesPage.tsx:134 | every copy of a record with another identifier survives, no copy of one with the removed identifier does |
| `Lists.RemoveIdempotent` | src/pages/DevelopersPage.tsx:90 | removing the same identifier twice equals removing it once |
| `Lists.AppendThenRemove` | src/pages/ImagesPage.tsx:117-134 | appending records, then removing an identifier the old records lack, keeps the old records and removes only among the new ones |
| `Lists.AddThenRemove` | src/pages/DevelopersPage.tsx:73-90 | adding a record under a fresh identifier and removing that identifier restores the original list |
| `Lists.AppendKeepsUnique` | src/pages/ImagesPage.tsx:107-117 | appending records with distinct fresh identifiers keeps all identifiers distinct |
| `Lists.RemoveUniqueDropsOne` | src/pages/PropertiesPage.tsx:165 | with distinct identifiers, removing a present identifier shortens the list by exactly one |
| `Auth.LoginStep` | src/contexts/AuthContext.tsx:24-31 | success iff the pair is `admin@example.com`/`password123`; on success the user is `{email}`, the store maps `isAuthenticated` to "true" and `userEmail` to the email, every other key unchanged; on failure the state is unchanged |
| `Auth.LogoutStep` | src/contexts/AuthContext.tsx:38-42 | the user slot is empty, both keys are absent, every other key keeps its presence and value |
| `Auth.RestoreStep` | src/contexts/AuthContext.tsx:45-52 | the store is untouched; the user becomes `{userEmail}` when `isAuthenticated` is "true" and `userEmail` is present and non-empty, else stays as it was |
| `Auth.Started` | src/contexts/AuthContext.tsx:18-52 | a freshly mounted provider is authenticated iff the store holds a session, and then its user is the stored non-empty email |
| `Auth.LoginSucceedsOnlyForAdmin` | src/contexts/AuthContext.tsx:24-31 | login reports success iff the credentials are the literal pair; afterwards the gate is authenticated iff they were or it already was |
| `Auth.LoginThenLogout` | src/contexts/AuthContext.tsx:24-42 | a successful login followed by logout is anonymous, both keys are absent, and the store equals the pre-login store minus the two keys |
| `Auth.RestartAfterLogin` | src/contexts/AuthContext.tsx:24-52 | remounting over the store a successful login left signs the same user back in |
| `Auth.RestartAfterLogout` | src/contexts/AuthContext.tsx:38-52 | remounting over the store logout left is anonymous |
| `Auth.AuthProvider.constructor` | src/contexts/AuthContext.tsx:18-52 | the mounted provider's state is `Started` of the persisted store |
| `Auth.AuthProvider.IsAuthenticated` | src/contexts/AuthContext.tsx:55 | `isAuthenticated` holds iff the user slot is non-empty |
| `Auth.AuthProvider.Login` | src/contexts/AuthContext.tsx:20-36 | the result is the credential check and the new state is `LoginStep` of the old one |
| `Auth.AuthProvider.Logout` | src/contexts/AuthContext.tsx:38-42 | the new state is `LogoutStep` of the old one |
| `Auth.AuthProvider.Restore` | src/contexts/AuthContext.tsx:45-52 | the new state is `RestoreStep` of the old one |
| `Routing.ProtectedRoute` | src/App.tsx:19-27 | renders the wrapped page iff authenticated, otherwise redirects to `/login` |
| `Routing.ProtectedPage` | src/App.tsx:33-37 | defined exactly on `/`, `/developers`, `/projects`, `/properties`, `/images`, never the login or not-found page |
| `Routing.Resolve` | src/App.tsx:29-41 | `/login` always renders the login page; a protected path redirects to `/login` when anonymous and, when signed in, renders the page the table assigns to it; any other path renders NotFound |
| `Routing.RedirectExactlyWhenAnonymousOnProtected` | src/App.tsx:22-24 | a redirect happens iff the path is protected and the session anonymous |
| `Routing.RedirectLandsOnLogin` | src/App.tsx:23 | following the redirect renders the login page in either session state |
| `Routing.UnprotectedIgnoresSession` | src/App.tsx:32-38 | paths outside the protected set resolve the same whether signed in or not |
| `Routing.RouteTable` | src/App.tsx:33-37 | each protected path renders its own page when signed in |
| `Routing.ProtectedPagesDistinct` | src/App.tsx:33-37 | distinct protected paths render distinct pages |
| `Boot.FirstRender` | src/contexts/AuthContext.tsx:18 | the provider's first render is anonymous and carries the persisted store |
| `Boot.FirstRenderRedirects` | src/App.tsx:22-24 | on that first render every protected path redirects to `/login`, whatever the store holds |
| `Boot.LandingAsWritten` | src/App.tsx:22-24 | after the mount effect, a reload of a protected path shows the login page, whatever the store holds; other paths resolve with the restored session |
| `Boot.StoredSessionLandsOnLogin` | src/contexts/AuthContext.tsx:45-52 | over a stored admin session, a reload of `/developers` ends signed in and on the login page |
| `Boot.Landing` | src/contexts/AuthContext.tsx:45-52 | with routing deciding on the restored session, a protected path shows its page iff the store holds a session and redirects otherwise |
| `Boot.LandingAfterLogin` | src/contexts/AuthContext.tsx:24-52 | after a successful login, reloading any protected path shows that path's page |
| `Upload.ValidFiles` | src/components/ui/file-upload.tsx:45-55 | a file is accepted iff it was selected and its size is at most `maxSize * 1024 * 1024` bytes |
| `Upload.OversizedFiles` | src/components/ui/file-upload.tsx:46-52 | a file is reported too large iff it was selected and its size exceeds the limit |
| `Upload.ValidFilesInOrder` | src/components/ui/file-upload.tsx:45 | the accepted files keep their selection order |
| `Upload.SizeCheckPartitions` | src/components/ui/file-upload.tsx:45-55 | accepted plus rejected files are, as a multiset, exactly the selection |
| `Upload.Committed` | src/components/ui/file-upload.tsx:36-69 | nothing is committed iff selected plus current count exceeds `maxFiles` or no file passes the size check; otherwise the new list is the old list followed by the accepted files, longer than before and at most `maxFiles` |
| `Upload.TooLargeNotices` | src/components/ui/file-upload.tsx:47-51 | one "too large" notice per rejected file, naming it, in order |
| `Upload.Notices` | src/components/ui/file-upload.tsx:36-74 | a count violation gives only the count notice; otherwise one notice per oversized file, then the upload notice with the accepted count when anything was accepted |
| `Upload.OversizedSelectionChangesNothing` | src/components/ui/file-upload.tsx:57 | a selection of only oversized files commits nothing |
| `Upload.SpliceStart` | src/components/ui/file-upload.tsx:85 | the splice position: the index when in range, the length above it, counted from the end for negative indices, clamped at 0 |
| `Upload.RemoveAt` | src/components/ui/file-upload.tsx:83-88 | at an in-range position the list loses exactly that element, the others keep their order; past the end the list is unchanged |
| `Upload.RemoveAtTakesOne` | src/components/ui/file-upload.tsx:84-85 | for an in-range index the removed element is exactly `xs[index]` (multiset) and the rest is a subsequence |
| `Upload.CommitKeepsWithinLimit` | src/components/ui/file-upload.tsx:36-69 | a widget within `maxFiles` stays within it after any selection |
| `Upload.FileUpload.constructor` | src/components/ui/file-upload.tsx:19-30 | the list is seeded from `value`; limits default to 5 files and 5 MB; not uploading, progress 0 |
| `Upload.FileUpload.HandleFileChange` | src/components/ui/file-upload.tsx:33-81 | `onChange` receives `Committed` of the old list and becomes the stored list, progress ends at 100 and uploading false; otherwise nothing changes; the notices are `Notices` |
| `Upload.FileUpload.RemoveFile` | src/components/ui/file-upload.tsx:83-88 | the stored list becomes `RemoveAt` of the old one and `onChange` receives that same list |
| `Developers.NewDeveloper` | src/pages/DevelopersPage.tsx:68-71 | the record carries the supplied identifier and exactly the form's four fields |
| `Developers.Submitted` | src/pages/DevelopersPage.tsx:65-73 | one record more, the old records unchanged and first, the new one last with the identifier and the form's fields |
| `Developers.InitialIdsUnique` | src/pages/DevelopersPage.tsx:29-44 | the seed developers have distinct identifiers |
| `Developers.SubmitThenRemove` | src/pages/DevelopersPage.tsx:73-90 | submitting under a fresh identifier then removing it restores the list |
| `Developers.SubmitKeepsIdsUnique` | src/pages/DevelopersPage.tsx:68-73 | a submit under a fresh identifier keeps identifiers distinct |
| `Developers.DevelopersPage.constructor` | src/pages/DevelopersPage.tsx:48-54 | the page starts with the two seed developers and the empty form |
| `Developers.DevelopersPage.HandleSubmit` | src/pages/DevelopersPage.tsx:65-79 | the list becomes `Submitted` of the old list and form; the form resets to four empty strings |
| `Developers.DevelopersPage.RemoveDeveloper` | src/pages/DevelopersPage.tsx:89-90 | the list becomes `RemoveById` of the old list; the form is untouched |
| `Projects.NewProject` | src/pages/ProjectsPage.tsx:106-110 | the record carries the identifier, the form's fields and the developer's name |
| `Projects.Submitted` | src/pages/ProjectsPage.tsx:100-112 | `None` iff no developer carries the form's `developerId`; otherwise one record appended after the unchanged old ones, with the identifier, the form's fields and the name of the first matching developer |
| `Projects.StatusColor` | src/pages/ProjectsPage.tsx:139-150 | the colour is the grey fallback iff the status is not Planning, In Progress or Completed |
| `Projects.StatusColorsDistinct` | src/pages/ProjectsPage.tsx:139-150 | the three declared statuses map to three different colours |
| `Projects.InitialIdsUnique` | src/pages/ProjectsPage.tsx:48-69 | the seed projects have distinct identifiers |
| `Projects.SubmitThenRemove` | src/pages/ProjectsPage.tsx:112-131 | a successful submit under a fresh identifier, then its removal, restores the list |
| `Projects.SubmitKeepsIdsUnique` | src/pages/ProjectsPage.tsx:106-112 | a successful submit under a fresh identifier keeps identifiers distinct |
| `Projects.ProjectsPage.constructor` | src/pages/ProjectsPage.tsx:73-81 | the page starts with the two seed projects and the empty form |
| `Projects.ProjectsPage.HandleSubmit` | src/pages/ProjectsPage.tsx:100-120 | lookup failure leaves list and form unchanged; otherwise the list becomes the `Submitted` list and the form resets to empty strings with status Planning |
| `Projects.ProjectsPage.RemoveProject` | src/pages/ProjectsPage.tsx:130-131 | the list becomes `RemoveById` of the old list; the form is untouched |
| `Properties.NewProperty` | src/pages/PropertiesPage.tsx:135-139 | the record carries the identifier, the project's name and all the form's fields, the picture as present |
| `Properties.Submitted` | src/pages/PropertiesPage.tsx:129-141 | `None` iff no project carries the form's `projectId`; otherwise one record appended after the unchanged old ones, with the identifier, the form's fields and the name of the first matching project |
| `Properties.StatusColor` | src/pages/PropertiesPage.tsx:173-184 | the colour is the grey fallback iff the status is not Available, Reserved or Sold |
| `Properties.StatusColorsDistinct` | src/pages/PropertiesPage.tsx:173-184 | the three declared statuses map to three different colours |
| `Properties.InitialIdsUnique` | src/pages/PropertiesPage.tsx:59-90 | the seed properties have distinct identifiers |
| `Properties.SubmitThenRemove` | src/pages/PropertiesPage.tsx:141-165 | a successful submit under a fresh identifier, then its removal, restores the list |
| `Properties.SubmitKeepsIdsUnique` | src/pages/PropertiesPage.tsx:135-141 | a successful submit under a fresh identifier keeps identifiers distinct |
| `Properties.PropertiesPage.constructor` | src/pages/PropertiesPage.tsx:94-108 | the page starts with the two seed properties and the default form |
| `Properties.PropertiesPage.HandleSubmit` | src/pages/PropertiesPage.tsx:129-154 | lookup failure leaves list and form unchanged; otherwise the list becomes the `Submitted` list and the form resets to the fixed default record |
| `Properties.PropertiesPage.RemoveProperty` | src/pages/PropertiesPage.tsx:164-165 | the list becomes `RemoveById` of the old list; the form is untouched |
| `Images.NewImages` | src/pages/ImagesPage.tsx:107-115 | one image per file in file order, each with its stamp's identifier, URL and day, the form's property id, caption and primary flag, and the property's title |
| `Images.Submitted` | src/pages/ImagesPage.tsx:99-117 | `None` iff the property is unknown or no file is chosen; otherwise the old images, unchanged and first, followed by `NewImages` for the first matching property |
| `Images.SubmitKeepsIdsUnique` | src/pages/ImagesPage.tsx:107-117 | distinct stamp identifiers that no existing image carries keep image identifiers distinct |
| `Images.RemoveNewImage` | src/pages/ImagesPage.tsx:117-134 | removing the identifier of a newly added image leaves all earlier images in place |
| `Images.ImagesPage.constructor` | src/pages/ImagesPage.tsx:70-76 | the page starts with the two seed images, no files and the empty form |
| `Images.ImagesPage.HandleFileChange` | src/pages/ImagesPage.tsx:95-97 | the chosen files are replaced wholesale; images and form untouched |
| `Images.ImagesPage.HandleSubmit` | src/pages/ImagesPage.tsx:99-123 | a failed guard leaves everything unchanged; otherwise the images become the `Submitted` list, the form resets and the file list empties |
| `Images.ImagesPage.RemoveImage` | src/pages/ImagesPage.tsx:133-134 | the images become `RemoveById` of the old list; files and form untouched |

## Left out

- Rendering, dialogs (the `isDialogOpen` flag), tabs, cards, tables and toasts: presentation only. The upload widget's notices are returned as values; the pages' toasts are not modelled.
- The upload widget's progress timer (`setInterval`, 10 % steps every 200 ms): it is asynchronous. The model takes its final effect as one step: the list is appended, progress is 100, uploading is false.
- `Upload.FileUpload.HandleFileChange`: does not model the intermediate states while the timer runs. In particular it misses a `removeFile` made during the two seconds of the timer: the remove buttons stay enabled, and the commit appends to the list as it was when the selection was made, so the removed file comes back. A second selection during an upload is not possible, because the input is disabled.
- The form-field handlers (`handleChange`, `handleSelectChange` on every page): they bind inputs to the form record. The model treats the current form as arbitrary page state.
- `parseFloat` of the numeric property fields: floating point. `bedrooms`, `bathrooms`, `area` and `price` are integers, so NaN is not modelled.
- `Date.now()`, `Math.random()`, `URL.createObjectURL` and `new Date().toISOString()`: nondeterministic. They are parameters (`now`, `Stamp`). Image identifier collisions are expressed only through the freshness preconditions.
- The link between the images page's `files` and the upload widget's own list. The widget seeds its list from the prop once, at the first render, and is modelled independently.
- React Router's path matching: the model compares paths exactly. It does not model case-insensitive matching, trailing slashes or the `replace` history flag.
- `Auth.LoginStep`: assumes that both writes to the local store succeed. In the source, `setItem` may throw, for example a quota error. The user slot is then already set, the catch branch reports failure, and the store holds at most the first key. The model's "failure leaves the state unchanged" does not cover that case.
- `Auth.AuthProvider.constructor`: merges the first render and the mount effect into one step, so its state is the one after the restore. The anonymous first render in between, and the redirect the router makes on it, are stated separately in `Boot`.
- `useAuth`'s error outside a provider, the `Promise` around `login`, and the navigation after login and logout.
- src/pages/LoginPage.tsx (form validation by foreign libraries), src/pages/Index.tsx (static figures) and the header's logout button (a call to `logout` plus navigation) are not part of this model.
- The upload widget's `maxFiles`/`maxSize` are natural numbers; negative or fractional prop values are not modelled.

## Findings

| source | as written | input that shows it | evidently intended | confidence | as-written member | corrected member |
|---|---|---|---|---|---|---|
| src/App.tsx:22-24 | the provider's first render is anonymous (src/contexts/AuthContext.tsx:18). `ProtectedRoute` redirects to `/login` on it, before the mount effect restores the session. The login page has no branch for a signed-in user. | a store holding `isAuthenticated` = "true" and `userEmail` = "admin@example.com", then a reload of `/developers` | a stored session keeps the requested page | medium, not executed | `Boot.LandingAsWritten`, `Boot.StoredSessionLandsOnLogin` | `Boot.Landing`, `Boot.LandingAfterLogin` |
