# premium-steli in Dafny

This project models "premium-steli", a React site for a stretch-ceiling business. The model covers the small pieces of state and list logic inside the site and its admin panel:
- the admin gallery list (title search, date sort, save, delete with one-step undo);
- the project edit form, with its image-upload batches and its submit gate;
- the drag-and-drop image picker;
- the admin panel's notifications, confirmation modal and list bookkeeping;
- the public contact form's validator;
- the public gallery's category filter and its seed-on-first-visit rule;
- the price calculator;
- the dashboard's counters.

Every call into the hosted backend is an argument of the handler that makes it:
- `Outcome` is a call that resolves or rejects with a message;
- `Fetch<T>` is a list load that resolves with data (possibly `null`) or rejects.

Each class records the requests it issues in a `calls` log, so contracts can state which calls were made and in what order. Clock readings (`Date.now()`, "today") are parameters too. `toLowerCase` is an abstract function `lower` held by the gallery tab. The backend's project table is an abstract map from store-assigned ids to rows (`ProjectStore`).

Modules, one per source component:

| module | file | source |
|---|---|---|
| `Wrappers` | wrappers.dfy | `Option`, `Outcome` |
| `Seqs` | seqs.dfy | `Array.prototype.filter` by value and by index |
| `Records` | records.dfy | projects, rows, leads, submissions, backend requests (`src/lib/*.js`) |
| `ProjectStore` | project_store.dfy | what `src/lib/projects.js` does to the project table |
| `Uploads` | uploads.dfy | `Promise.all` over `uploadImage` |
| `Admin` | admin_panel.dfy | `src/pages/AdminPanel.jsx` (and the submissions tab it wires) |
| `ProjectEditing` | project_form.dfy | `src/components/ProjectForm.jsx` |
| `GalleryAdmin` | gallery_tab.dfy | `src/components/GalleryTab.jsx` |
| `ImageUpload` | image_uploader.dfy | `src/components/ImageUploader.jsx` |
| `Contact` | contact_form.dfy | `src/components/ContactForm.jsx` |
| `PublicGallery` | public_gallery.dfy | `src/pages/Gallery.jsx` |
| `Calculator` | calculator.dfy | `src/components/ServicesCalculator.jsx` |
| `Dashboard` | dashboard.dfy | `src/components/DashboardTab.jsx` |

Component state held in place (`useState` fields updated by handlers) is a Dafny `class` whose methods name what they modify and state the whole new state. The pure expressions (the filter and sort pipelines, the merge of defaults, the validator, the price formula, the counters) are functions, and lemmas prove their properties.

Where the code does something other than what its surroundings suggest, the model follows the code, with one exception (the contact form's insert, the fourth item):
- `Promise.all` delivers URLs in the order of the input files, whatever order the uploads finish in. When several uploads fail, the model reports the first failure in file order rather than the first in time.
- The edit form and the gallery tab never check `image_url`. Only the admin panel's own `handleSaveProject` does, and nothing in the panel renders a form that calls it or sets `editingProject`. That handler is still modelled (`Admin.AdminPanel.SaveProject`).
- The calculator's menu names the third service "Bauf та Renolit". The project form's category value is "Bauf & Renolit". The two tables are modelled as written.
- `ContactForm.jsx` imports `addSubmission`, but `src/lib/submissions.js` exports only `getSubmissions` and `deleteSubmission` (lines 4 and 14). As written, the import is undefined, so no submit can succeed. The model does not follow the code here: it models the intended insert as the `InsertSubmission` request, with an outcome argument (see `Contact.ContactForm.HandleSubmit` under "## Left out").
- The submissions tab lists the loaded submissions reversed. The store returns them newest first, so the tab shows them oldest first.

## Model

| member | source | states |
|---|---|---|
| `Seqs.Keep` | src/components/GalleryTab.jsx:93 | `filter` keeps exactly the passing elements, each as often as in the input, and never lengthens the list |
| `Seqs.KeepConcat` | src/components/GalleryTab.jsx:93 | filtering distributes over concatenation, so kept elements keep their relative order |
| `Seqs.KeepAll` | src/components/GalleryTab.jsx:93 | a filter every element passes returns the list unchanged |
| `Seqs.DropIndex` | src/components/ProjectForm.jsx:46 | `filter((_, i) => i !== idx)` removes one entry and shifts the later ones down; an index out of range changes nothing |
| `Seqs.DropIndexIsSplice` | src/components/ProjectForm.jsx:45-47 | dropping an index in range is the splice `s[..idx] + s[idx+1..]` |
| `Records.SameRowIff` | src/lib/projects.js:17-23 | two projects are saved as the same row exactly when they agree on title, category, description, date and `image_url` |
| `Records.RowRoundTrip` | src/lib/projects.js:4-11 | a row read back (with its id and no `images`) and saved again is written unchanged |
| `Records.SaveRequest` | src/components/GalleryTab.jsx:42-47 | a save is an update of the project's own id exactly when the id is truthy, and an insert otherwise; both send the persisted row |
| `Records.Find` | src/components/GalleryTab.jsx:59 | `find` returns the first project with that id, and `None` exactly when no project has it |
| `ProjectStore.Apply` | src/lib/projects.js:14-53 | an insert stores the row under a fresh id; an update replaces only the row with that id; a delete removes it; reads change nothing; store validity is preserved |
| `ProjectStore.SaveEffect` | src/lib/projects.js:14-42 | saving a draft without an id adds one new row; saving with a stored id overwrites that row and no other |
| `ProjectStore.RestoreIsNewRecord` | src/components/GalleryTab.jsx:78-86 | delete then undo leaves the old id gone and the same columns under a new id |
| `ProjectStore.ImagesAreNotPersisted` | src/lib/projects.js:32-38 | the `images` list never reaches the store, so an undo cannot bring it back |
| `Uploads.Settle` | src/components/ProjectForm.jsx:30 | a batch succeeds iff every upload succeeded, with the URLs in input-file order; a failed batch carries the message of an upload that failed |
| `Uploads.UploadCallsFiles` | src/components/ProjectForm.jsx:30 | a batch sends one upload per input file, in file order, and uploads no other file |
| `Uploads.UploadCallsConcat` | src/components/ProjectForm.jsx:30 | two batches started back to back log the same requests as one batch over both file lists |
| `Admin.WithoutId` | src/pages/AdminPanel.jsx:31 | the survivors are exactly the entries with another id, each as often as before |
| `Admin.WithoutIdConcat` | src/pages/AdminPanel.jsx:31 | removing an id acts on each part of a list separately, so survivors keep their order |
| `Admin.ShowThenDismiss` | src/pages/AdminPanel.jsx:27-32 | a notification shown and then expired by its own id leaves the list as it was, when its id is new |
| `Admin.FirstExpiryKeepsSecond` | src/pages/AdminPanel.jsx:27-32 | two notices with different ids expire separately: removing the first leaves the second in place |
| `Admin.Notifier.constructor` | src/pages/AdminPanel.jsx:25 | the list starts empty |
| `Admin.Notifier.Show` | src/pages/AdminPanel.jsx:27-29 | appends exactly one entry whose id is the clock reading: type `info` and duration 4000 unless given; older entries are unchanged |
| `Admin.Notifier.Dismiss` | src/pages/AdminPanel.jsx:30-32 | expiry and the close button (line 239) remove every entry with that id and keep the rest in order |
| `Admin.ConfirmModal.constructor` | src/pages/AdminPanel.jsx:36-41 | the modal starts closed with empty title and message and no callback |
| `Admin.ConfirmModal.Open` | src/pages/AdminPanel.jsx:43-50 | opens with the given title and message; the callback remembers the state before opening |
| `Admin.ConfirmModal.Cancel` | src/pages/AdminPanel.jsx:53-55 | the cancel buttons (line 262) close the modal and change nothing else |
| `Admin.ConfirmModal.CloseAfterConfirm` | src/pages/AdminPanel.jsx:48 | the close function handed to a callback restores the pre-open state, closed |
| `Admin.LoadNotesIff` | src/pages/AdminPanel.jsx:82-98 | a load raises a notice exactly when it fails, at most one, and only when the list is kept |
| `Admin.LoadedIgnoresOld` | src/pages/AdminPanel.jsx:82-98 | a successful load does not depend on the old list; a failed load keeps it, and repeating it changes nothing |
| `Admin.LoadSeriesLastWins` | src/pages/AdminPanel.jsx:82-98 | after a run of loads the list is what the last successful load fetched, `null` included |
| `Admin.LoadSeriesAllFailed` | src/pages/AdminPanel.jsx:82-98 | a run of failed loads leaves the list as it was |
| `Admin.AdminPanel.constructor` | src/pages/AdminPanel.jsx:16-25 | no session, empty lists, no draft, no notifications, closed modal |
| `Admin.AdminPanel.LoadProjects` | src/pages/AdminPanel.jsx:82-89 | issues one list request; the project list becomes `Loaded(...)`; an error notice only on failure; other state unchanged |
| `Admin.AdminPanel.LoadSubmissions` | src/pages/AdminPanel.jsx:91-98 | the same for submissions |
| `Admin.AdminPanel.SessionChanged` | src/pages/AdminPanel.jsx:75-98 | both lists load, projects first, exactly when there is a session; without one nothing is requested. Each load error carries the clock reading of its own load |
| `Admin.AdminPanel.SaveProject` | src/pages/AdminPanel.jsx:117-136 | with no draft, reading `image_url` of `null` throws and nothing changes. Without an image: error notice, no request, draft kept. Otherwise update or insert. Success: success notice, draft cleared, reload, with any reload error at the later clock reading. Failure: error notice, draft kept, no reload |
| `Admin.AdminPanel.DeleteProjectClick` | src/pages/AdminPanel.jsx:138-154 | opens the confirm modal with the project-delete texts; nothing is deleted yet |
| `Admin.AdminPanel.DeleteSubmissionClick` | src/pages/AdminPanel.jsx:156-172 | opens the confirm modal with the submission-delete texts; nothing is deleted yet |
| `Admin.AdminPanel.ConfirmProjectDelete` | src/pages/AdminPanel.jsx:142-152 | delete, then on success reload and a success notice, with any reload error at the later clock reading; on failure an error notice; the modal is closed in both cases |
| `Admin.AdminPanel.ConfirmSubmissionDelete` | src/pages/AdminPanel.jsx:160-170 | the same over submissions: the reload error has its own clock reading, and the modal is closed whether the delete succeeded or failed |
| `Admin.AdminPanel.SubmissionsTabDelete` | src/pages/AdminPanel.jsx:335-340 | as wired, the tab's button (src/components/SubmissionsTab.jsx:27-30) sends the delete at once and announces success; the list is not reloaded |
| `Admin.Listing` | src/components/SubmissionsTab.jsx:13-16 | the tab lists the submissions in reverse: position i shows entry n-1-i |
| `Admin.ListingTwiceRestores` | src/components/SubmissionsTab.jsx:13-16 | reversing twice gives the list back, and the listing holds the same submissions |
| `Admin.ListingSameMultiset` | src/components/SubmissionsTab.jsx:13-16 | the listing is a permutation of the loaded list |
| `Admin.DeletedSubmissionStaysListed` | src/components/SubmissionsTab.jsx:27-30 | as wired, a delete announces success while the submission is still listed |
| `Admin.LoadErrorsExpireSeparately` | src/pages/AdminPanel.jsx:75-98 | when both loads fail on sign-in, the first error's expiry leaves the second error on screen |
| `Admin.ConfirmedDeleteReportsFailure` | src/pages/AdminPanel.jsx:156-172 | through the confirming handler, nothing is sent before confirmation and a rejected delete keeps the submission and reports the error |
| `ProjectEditing.Merge` | src/components/ProjectForm.jsx:7-15 | each field is the project's value when present and the default otherwise; no project gives the defaults |
| `ProjectEditing.MergeRoundTrip` | src/components/ProjectForm.jsx:15 | merging a draft's own object gives the draft back |
| `ProjectEditing.MergeIdempotent` | src/components/ProjectForm.jsx:19-21 | re-deriving a merged draft changes nothing |
| `ProjectEditing.WithField` | src/components/ProjectForm.jsx:77-97 | the edited input shows the typed value; every other input, the id and both image fields are unchanged |
| `ProjectEditing.WithFieldOverwrites` | src/components/ProjectForm.jsx:77-97 | typing into the same input twice keeps only the second value |
| `ProjectEditing.WithFieldCommutes` | src/components/ProjectForm.jsx:77-97 | edits to two different inputs give the same draft in either order |
| `ProjectEditing.WithFieldUnchanged` | src/components/ProjectForm.jsx:77-97 | writing back the value an input already shows leaves the draft unchanged |
| `ProjectEditing.ReadinessIgnoresImagesAndCategory` | src/components/ProjectForm.jsx:51 | neither a settled upload batch nor the category select opens or closes the submit check |
| `ProjectEditing.ReadinessFollowsInputs` | src/components/ProjectForm.jsx:51 | clearing title, description or date fails the check; after typing all three it passes exactly when none is empty |
| `ProjectEditing.AfterBatch` | src/components/ProjectForm.jsx:30-37 | main batch: `image_url` becomes the first URL. Extra batch: the URLs are appended. Failed batch: nothing changes |
| `ProjectEditing.BatchIsAllOrNothing` | src/components/ProjectForm.jsx:38-39 | one failed upload leaves the whole draft, both image fields included, unchanged |
| `ProjectEditing.ExtraBatchAppendsInOrder` | src/components/ProjectForm.jsx:34-36 | the old images come first, then every new URL in input-file order; nothing else changes |
| `ProjectEditing.MainBatchSetsCover` | src/components/ProjectForm.jsx:31-33 | `image_url` becomes the first file's URL, with `images` and every other field untouched |
| `ProjectEditing.ProjectForm.constructor` | src/components/ProjectForm.jsx:15-17 | the draft is the merge of the project; not saving, not uploading |
| `ProjectEditing.ProjectForm.ProjectChanged` | src/components/ProjectForm.jsx:19-21 | a new project re-derives the draft and leaves the flags alone |
| `ProjectEditing.ProjectForm.Edit` | src/components/ProjectForm.jsx:77-97 | typing changes that field of the draft only |
| `ProjectEditing.ProjectForm.BeginUpload` | src/components/ProjectForm.jsx:23-30 | an empty selection changes nothing, `uploading` included; otherwise `uploading` is set and one upload per file starts |
| `ProjectEditing.ProjectForm.FinishUpload` | src/components/ProjectForm.jsx:30-42 | the settled batch applies `AfterBatch` to the draft as it is now, raises its notice, and clears `uploading` |
| `ProjectEditing.ProjectForm.RemoveExtra` | src/components/ProjectForm.jsx:45-47 | drops exactly entry `idx` of the images; out of range changes nothing |
| `ProjectEditing.ProjectForm.BeginSubmit` | src/components/ProjectForm.jsx:49-57 | `handleSubmit` on a submit event while neither `saving` nor `uploading` is set, batches pending or not. An empty title, description or date raises the error and hands nothing over. Otherwise the current draft is handed to `onSave` and `saving` is set |
| `ProjectEditing.ProjectForm.SubmitClick` | src/components/ProjectForm.jsx:74-129 | a click on the enabled button hands the draft over exactly when title, description and date are non-empty; otherwise the browser's `required` check stops it and no notice appears |
| `ProjectEditing.ProjectForm.SubmitWhenIdle` | src/components/ProjectForm.jsx:27-57 | with the intended gate (no save and no batch pending) the submit is allowed, and a draft is handed over exactly when it is complete, with every started upload already in it |
| `ProjectEditing.ProjectForm.FinishSubmit` | src/components/ProjectForm.jsx:58-62 | a rejection raises the error notice; `saving` is false afterwards either way |
| `ProjectEditing.OverlappingBatchesEnableSubmit` | src/components/ProjectForm.jsx:27-57 | extra images then a main image: once the extras settle, the button is enabled with the main batch pending, and a completed draft is handed to `onSave` with an empty `image_url` |
| `ProjectEditing.OverlappingBatchesStayBusy` | src/components/ProjectForm.jsx:27-41 | with the pending-batch count as the gate, the same batches keep the form busy until the main image has landed in the draft |
| `GalleryAdmin.ContainsIff` | src/components/GalleryTab.jsx:93 | `includes` holds iff the needle occurs at some position, in both directions |
| `GalleryAdmin.Filtered` | src/components/GalleryTab.jsx:92-93 | a project is kept iff its lower-cased title (missing title as "") contains the lower-cased search, with its multiplicity |
| `GalleryAdmin.EmptySearchKeepsAll` | src/components/GalleryTab.jsx:92-93 | an empty search keeps every project in fetched order |
| `GalleryAdmin.LexLeRefl` | src/components/GalleryTab.jsx:95-96 | the date order is reflexive |
| `GalleryAdmin.LexLeTotal` | src/components/GalleryTab.jsx:95-96 | the date order is total |
| `GalleryAdmin.LexLeTrans` | src/components/GalleryTab.jsx:95-96 | the date order is transitive |
| `GalleryAdmin.LexLeAntisym` | src/components/GalleryTab.jsx:95-96 | the date order is antisymmetric |
| `GalleryAdmin.Toggle` | src/components/GalleryTab.jsx:121 | the sort button always switches to the other mode |
| `GalleryAdmin.LeTotal` | src/components/GalleryTab.jsx:94-98 | any two projects are comparable under either mode |
| `GalleryAdmin.LeTrans` | src/components/GalleryTab.jsx:94-98 | the comparator is transitive under either mode |
| `GalleryAdmin.LeBoth` | src/components/GalleryTab.jsx:94-98 | two projects tie exactly when their dates are equal |
| `GalleryAdmin.WithDateMembers` | src/components/GalleryTab.jsx:94-98 | the per-date subsequence holds exactly the projects of that date |
| `GalleryAdmin.Insert` | src/components/GalleryTab.jsx:94-98 | inserting into a sorted list gives a sorted list with one more copy of the element |
| `GalleryAdmin.SortByDate` | src/components/GalleryTab.jsx:94-98 | the sort is a permutation and ordered: newest first for `date-desc`, oldest first for `date-asc` |
| `GalleryAdmin.InsertWithDate` | src/components/GalleryTab.jsx:94-98 | an inserted project goes ahead of every project of its own date |
| `GalleryAdmin.SortByDateStable` | src/components/GalleryTab.jsx:94-98 | the sort is stable: projects of one date keep their relative order |
| `GalleryAdmin.SortUnique` | src/components/GalleryTab.jsx:94-98 | two sorted lists with the same per-date subsequences are equal |
| `GalleryAdmin.SortedIsFixpoint` | src/components/GalleryTab.jsx:94-98 | sorting an already sorted list returns it unchanged |
| `GalleryAdmin.Visible` | src/components/GalleryTab.jsx:92-98 | `filteredProjects` holds exactly the matching projects, as a permutation of the filtered list, in date order |
| `GalleryAdmin.VisibleIsTheStableSort` | src/components/GalleryTab.jsx:92-98 | any sorted list with the filtered list's per-date order equals `filteredProjects` |
| `GalleryAdmin.EmptySearchShowsAll` | src/components/GalleryTab.jsx:92-98 | with an empty search every project is shown, reordered only by date |
| `GalleryAdmin.NewDraft` | src/components/GalleryTab.jsx:131-139 | the new draft has no id, today's date and "MSD Classic", and merges to the form defaults dated today |
| `GalleryAdmin.NewDraftNotReady` | src/components/GalleryTab.jsx:131-139 | a new draft fails the form's submit check; once title and description are typed it passes exactly when both and today's date are non-empty |
| `GalleryAdmin.ReloadedIsLoaded` | src/components/GalleryTab.jsx:30-37 | the tab's reload is the panel's load with `null` read as `[]`: a successful one ignores the old list, a failed one keeps it, and repeating it changes nothing |
| `GalleryAdmin.GalleryTab.constructor` | src/components/GalleryTab.jsx:7-12 | empty list, no draft, not loading, empty search, `date-desc`, no undo candidate |
| `GalleryAdmin.GalleryTab.Shown` | src/components/GalleryTab.jsx:92-98 | the rendered list holds exactly the matching projects, in order under the current mode |
| `GalleryAdmin.GalleryTab.LoadProjects` | src/components/GalleryTab.jsx:30-37 | one list request; the list becomes `Reloaded(...)`; an error notice only on failure |
| `GalleryAdmin.GalleryTab.HandleSave` | src/components/GalleryTab.jsx:39-56 | update with an id, insert without. Success: success notice, form closed, reload, with any reload error at the later clock reading. Failure: error notice, draft kept, no reload. `loading` ends false |
| `GalleryAdmin.GalleryTab.HandleDelete` | src/components/GalleryTab.jsx:58-64 | captures the listed project with that id (or none) and opens the confirm modal |
| `GalleryAdmin.GalleryTab.ConfirmDelete` | src/components/GalleryTab.jsx:64-75 | success: the captured project becomes the undo candidate, the list reloads (any error at the later clock reading) and the modal closes. Failure: error notice, candidate and modal unchanged |
| `GalleryAdmin.GalleryTab.HandleUndo` | src/components/GalleryTab.jsx:78-90 | no candidate: nothing happens. Otherwise the candidate is re-inserted without its id. Success clears it and reloads, with any reload error at the later clock reading; failure keeps it |
| `GalleryAdmin.GalleryTab.DismissUndo` | src/components/GalleryTab.jsx:156 | clears the undo candidate without any request |
| `GalleryAdmin.GalleryTab.ToggleSort` | src/components/GalleryTab.jsx:121 | flips the sort mode and nothing else |
| `GalleryAdmin.GalleryTab.SetSearch` | src/components/GalleryTab.jsx:115 | sets the search text and nothing else |
| `GalleryAdmin.GalleryTab.AddNew` | src/components/GalleryTab.jsx:131-139 | opens the form on the new draft |
| `GalleryAdmin.GalleryTab.Edit` | src/components/GalleryTab.jsx:204 | opens the form on that project |
| `GalleryAdmin.GalleryTab.CloseForm` | src/components/GalleryTab.jsx:224 | closes the form |
| `GalleryAdmin.LastDeleteWins` | src/components/GalleryTab.jsx:58-75 | after two confirmed deletes, only the second project can be undone |
| `ImageUpload.ItemsNormalises` | src/components/ImageUploader.jsx:19 | reading the value as a list and storing it back changes only a value that was not a list |
| `ImageUpload.AfterUpload` | src/components/ImageUploader.jsx:13-24 | main mode takes the first URL; extra mode appends all URLs in order after the old list (a non-list counts as empty); a failure changes nothing |
| `ImageUpload.AfterRemove` | src/components/ImageUploader.jsx:40-46 | main mode sets "" whatever the index; extra mode drops exactly entry `idx`, and a non-list becomes `[]` |
| `ImageUpload.UploadThenRemoveRestores` | src/components/ImageUploader.jsx:18-46 | uploading one extra image and removing it again restores the list |
| `ImageUpload.AgreesWithForm` | src/components/ImageUploader.jsx:18-20 | the picker and the edit form (src/components/ProjectForm.jsx:34-35) append an extra-image batch the same way |
| `ImageUpload.ImageUploader.constructor` | src/components/ImageUploader.jsx:5-6 | not hovering, and the value is the parent's |
| `ImageUpload.ImageUploader.HandleUpload` | src/components/ImageUploader.jsx:8-25 | an empty list changes nothing. Otherwise one upload per file, then `AfterUpload` and the matching notice |
| `ImageUpload.ImageUploader.HandleDrop` | src/components/ImageUploader.jsx:27-31 | clears the hover flag, then uploads exactly as the picker does: same requests, same new value, and the same success or error notice |
| `ImageUpload.ImageUploader.HandleDragOver` | src/components/ImageUploader.jsx:33-36 | sets the hover flag |
| `ImageUpload.ImageUploader.HandleDragLeave` | src/components/ImageUploader.jsx:38 | clears the hover flag |
| `ImageUpload.ImageUploader.HandleRemove` | src/components/ImageUploader.jsx:40-46 | the value becomes `AfterRemove(...)` |
| `Contact.TrimStartFacts` | src/components/ContactForm.jsx:28 | trimming the start drops exactly a leading run of white space |
| `Contact.TrimEndFacts` | src/components/ContactForm.jsx:28 | trimming the end drops exactly a trailing run of white space |
| `Contact.TrimIsInnerSlice` | src/components/ContactForm.jsx:28 | `trim()` is a slice of the input that starts and ends with a non-space, or is empty |
| `Contact.TrimEmptyIff` | src/components/ContactForm.jsx:28 | `!value.trim()` holds iff every character is white space |
| `Contact.PhoneValidIff` | src/components/ContactForm.jsx:31 | the phone test holds iff the value is an optional "+" and then one or more digits, spaces, "-", "(" or ")" |
| `Contact.EmailValidIff` | src/components/ContactForm.jsx:36 | the e-mail test holds iff the value is `local@label.rest` with non-empty parts and no space or extra "@" |
| `Contact.Validate` | src/components/ContactForm.jsx:25-42 | a field has an entry iff it fails, holding that field's one message; "required" wins over "invalid" |
| `Contact.WithError` | src/components/ContactForm.jsx:28-39 | one assignment step adds the field's message if it has one, and otherwise leaves the map alone |
| `Contact.ValidateEmptyIff` | src/components/ContactForm.jsx:48 | no errors at all exactly when no field fails |
| `Contact.AcceptedIff` | src/components/ContactForm.jsx:25-51 | a submit passes `validateForm` iff all four fields are non-blank and the phone and e-mail match their patterns |
| `Contact.BlankFormRequiresAll` | src/components/ContactForm.jsx:28-39 | the blank form fails on every field with its "required" message |
| `Contact.ContactForm.constructor` | src/components/ContactForm.jsx:6-14 | empty fields, no errors, not submitting, not submitted |
| `Contact.ContactForm.HandleChange` | src/components/ContactForm.jsx:16-23 | updates only the named field, and blanks only that field's message, if it has one |
| `Contact.ContactForm.HandleSubmit` | src/components/ContactForm.jsx:44-64 | with errors: store them and send nothing. Otherwise insert the lead. Success: thank-you state, fields reset. Failure: alert, data kept. `isSubmitting` ends false |
| `Contact.ContactForm.SendAnother` | src/components/ContactForm.jsx:82 | back to the form, nothing else changes |
| `PublicGallery.DefaultIds` | src/pages/Gallery.jsx:16-81 | eight samples with ids 1 to 8 in order |
| `PublicGallery.DefaultCategories` | src/pages/Gallery.jsx:16-81 | every sample is residential or commercial |
| `PublicGallery.DefaultResidentialCount` | src/pages/Gallery.jsx:16-81 | five samples are residential |
| `PublicGallery.DefaultCommercialCount` | src/pages/Gallery.jsx:16-81 | three samples are commercial |
| `PublicGallery.Seeded` | src/pages/Gallery.jsx:12-86 | an empty saved list becomes the samples; a non-empty one is shown as it is; the result is never empty |
| `PublicGallery.SeededIdempotent` | src/pages/Gallery.jsx:12-86 | seeding twice is seeding once |
| `PublicGallery.ByCategory` | src/pages/Gallery.jsx:95-97 | "all" returns the list unchanged; any other id keeps exactly the projects of that category, each as often as in the list, and never lengthens it |
| `PublicGallery.ByCategoryConcat` | src/pages/Gallery.jsx:95-97 | filtering a list in two parts filters each part, so the kept projects keep their order |
| `PublicGallery.ByCategoryNarrows` | src/pages/Gallery.jsx:95-97 | applying a category filter twice changes nothing; a second, different category shows nothing |
| `PublicGallery.CountIn` | src/pages/Gallery.jsx:97 | the number of projects of a category is at most the list length |
| `PublicGallery.ByCategoryCounts` | src/pages/Gallery.jsx:97 | a category filter shows exactly `CountIn` projects |
| `PublicGallery.FiltersPartition` | src/pages/Gallery.jsx:89-97 | over residential and commercial projects, the two filters together show each project once |
| `PublicGallery.PartitionCounts` | src/pages/Gallery.jsx:89-97 | the two category counts add up to the list length |
| `PublicGallery.Gallery.constructor` | src/pages/Gallery.jsx:6-8 | empty list, category "all", nothing selected |
| `PublicGallery.Gallery.Shown` | src/pages/Gallery.jsx:95-97 | the rendered list is the category filter of the current state |
| `PublicGallery.Gallery.Mount` | src/pages/Gallery.jsx:10-87 | an empty store is seeded into both state and storage; a non-empty one becomes the state and storage is not written |
| `PublicGallery.Gallery.SelectCategory` | src/pages/Gallery.jsx:129 | sets the category and nothing else |
| `PublicGallery.Gallery.OpenProject` | src/pages/Gallery.jsx:99-101 | selects that project |
| `PublicGallery.Gallery.CloseProject` | src/pages/Gallery.jsx:103-105 | clears the selection |
| `PublicGallery.RevisitShowsSameList` | src/pages/Gallery.jsx:10-87 | a second visit shows the same list as the first |
| `Calculator.FindService` | src/components/ServicesCalculator.jsx:33 | finds the table entry with that name, or none when no entry has it |
| `Calculator.CalcResult` | src/components/ServicesCalculator.jsx:30-42 | 0 when width, length or service is empty; the lookup fails exactly for a filled-in name outside the table |
| `Calculator.MenuOptionsPrice` | src/components/ServicesCalculator.jsx:24-33 | every menu option has a price |
| `Calculator.BaseIsAreaTimesPrice` | src/components/ServicesCalculator.jsx:34-37 | with no extras the price is width times length times the service's price |
| `Calculator.DecorSurcharge` | src/components/ServicesCalculator.jsx:35-39 | decor adds exactly 80 times (width + length) |
| `Calculator.LightSurcharge` | src/components/ServicesCalculator.jsx:38 | each extra light adds exactly 300 |
| `Calculator.DearerServiceCostsMore` | src/components/ServicesCalculator.jsx:24-37 | for non-negative sizes, a dearer service never gives a lower quote |
| `Calculator.PricesAscend` | src/components/ServicesCalculator.jsx:24-28 | the prices are 320 < 350 < 450 in menu order |
| `Calculator.QuoteNonNegative` | src/components/ServicesCalculator.jsx:30-41 | over non-negative sizes and light counts, a priced quote is never negative |
| `Calculator.SizesCommute` | src/components/ServicesCalculator.jsx:34-35 | swapping width and length gives the same quote |
| `Calculator.WiderCostsMore` | src/components/ServicesCalculator.jsx:34-41 | for a known service, a wider room never costs less (non-negative sizes) |
| `Calculator.LongerCostsMore` | src/components/ServicesCalculator.jsx:34-41 | for a known service, a longer room never costs less (non-negative sizes) |
| `Calculator.MoreLightsCostMore` | src/components/ServicesCalculator.jsx:38 | for a known service, more light fittings never cost less |
| `Dashboard.RecentCount` | src/components/DashboardTab.jsx:11 | the recent count is never more than the total |
| `Dashboard.RecentCountIsFilterLength` | src/components/DashboardTab.jsx:11 | the count is the length of the filter keeping submissions newer than `now` minus 604800000 ms, strictly |
| `Dashboard.RecentCountConcat` | src/components/DashboardTab.jsx:11 | counts over a split list add up |
| `Dashboard.RecentCountFalls` | src/components/DashboardTab.jsx:11 | as time passes the recent count never grows |
| `Dashboard.WeekBoundary` | src/components/DashboardTab.jsx:11 | a submission exactly seven days old is not counted; a millisecond earlier it was |
| `Dashboard.Summary` | src/components/DashboardTab.jsx:7-11 | the cards show the two list lengths and the recent count, which is at most the submissions total; a `null` list throws |

## Left out
- Sign-in, sign-out and the session listener (src/pages/AdminPanel.jsx:57-72, 100-115) and ChangePasswordTab: they only call the hosted auth service. The session is an argument of `SessionChanged`.
- The hosted backend itself: the database, the blob storage and its public URLs. Calls are oracle arguments, and `ProjectStore` fixes only what the components rely on.
- Concurrency: every handler runs to completion in one step. The exceptions are the edit form's upload and submit, which are split into a start and a finish so that overlapping batches can be stated. Promise interleavings beyond that are not modelled.
- Uploads.Settle: when several uploads fail, it reports the first failing file in input order. `Promise.all` reports the first to fail in time.
- The notification timer is the explicit `Dismiss` event; no clock runs.
- Floating point: the calculator uses Dafny reals. An empty field is `None`. `Number()` on non-numeric text (NaN) is not modelled.
- Date parsing and locale formatting. Gallery dates are ISO strings compared lexicographically, a project without a date sorts as "", and the NaN comparator for invalid dates is not modelled. Dashboard timestamps are milliseconds, and a missing or unparseable timestamp never counts as recent: `new Date(null)`, which is the epoch, is not distinguished from an invalid date.
- `toLowerCase` is an abstract function, with no Unicode case mapping.
- JSON and `localStorage` in the public gallery: the storage slot holds the decoded list, and a malformed entry (a parse error) is not modelled.
- The `document.body.style.overflow` effects in the gallery tab and the calculator.
- Present-but-`null` fields of a project object: a key is either present with a value or absent.
- Rendering: every JSX layout, the presentation pages and components, and the modal's animation. ConfirmModal is modelled only through the state it renders.
- Switching between the admin panel's tabs: it carries no logic beyond choosing what to render.
- ProjectEditing.ProjectForm.BeginSubmit: models `handleSubmit` on any submit event. From the page's button, the browser's `required` check on title, description and date (src/components/ProjectForm.jsx:77, 92, 97) comes first, so the "fill all fields" error cannot be reached that way. `SubmitClick` models that click.
- Contact.ContactForm.HandleSubmit: the browser's own check of the `type="email"` input (src/components/ContactForm.jsx:183) is not modelled. The handler runs as if every submit fired. The browser blocks a non-empty value it does not accept as an address (for example "a@b_c.d", which passes the site's pattern), and then no errors are stored at all.
- Contact.ContactForm.HandleSubmit: the success branch (thank-you state, fields reset) models the intended insert, not the code. `addSubmission` is not exported by src/lib/submissions.js. Under ES modules the import at src/components/ContactForm.jsx:3 is a link error and the page does not load; a bundler that tolerates it leaves `addSubmission` undefined, so the call at line 56 throws into the alert branch. Either way, as written no submit succeeds.
- ServicesCalculator's open and close props: nothing in the shown code renders the calculator, so only `services` and `calcResult` are modelled.

## Findings

| source | as written | input that shows it | evidently intended | confidence | as-written member | corrected member |
|---|---|---|---|---|---|---|
| src/components/ProjectForm.jsx:27-41 | one `uploading` flag is set by every batch and cleared by the first batch to settle | choose extra images, then a main image before the extras settle; when the extras settle the submit button is enabled while the main image is pending, and a completed draft is handed to `onSave` without `image_url` | the submit button stays disabled until every pending batch has settled | high, not executed | `ProjectEditing.OverlappingBatchesEnableSubmit` | `ProjectEditing.OverlappingBatchesStayBusy` |
| src/pages/AdminPanel.jsx:337 | the submissions tab's delete handler is wired to the store's `deleteSubmission`, so the click deletes without confirmation; the tab (src/components/SubmissionsTab.jsx:29) announces success at once and the list is not reloaded | click delete on any listed submission: "Заявку видалено!" appears, the submission stays listed, and a rejected delete is never reported | wire the panel's `handleDeleteSubmissionClick` (src/pages/AdminPanel.jsx:156-172), which confirms, awaits the delete, reloads and reports the outcome | high, not executed | `Admin.DeletedSubmissionStaysListed` | `Admin.ConfirmedDeleteReportsFailure` |
