/**
 * The project edit form: a draft staged from the incoming project, image uploads that land in
 * the draft, and the submit gate. Uploads and submits are two steps each (start, then the
 * promise settles), because the form's `uploading` and `saving` flags exist to gate the submit
 * button while they are pending.
 */
module ProjectEditing {
  import opened Wrappers
  import opened Records
  import opened Uploads
  import Seqs
  import Admin

  /** The form's draft: every field has a value once the defaults are merged in; `id` only when the project had one. */
  datatype FormData = FormData(
    id: Option<int>,
    title: string,
    description: string,
    category: string,
    date: string,
    imageUrl: string,
    images: seq<string>)

  /** `defaultProject`. */
  const Defaults: FormData := FormData(None, "", "", "MSD Classic", "", "", [])

  /** `{ ...defaultProject, ...(project || {}) }`: every key present in the project wins over the default. */
  function Merge(project: Option<Project>): (f: FormData)
    ensures project.None? ==> f == Defaults
    ensures project.Some? ==> f.id == project.value.id
    ensures project.Some? && project.value.title.Some? ==> f.title == project.value.title.value
    ensures project.Some? && project.value.title.None? ==> f.title == Defaults.title
    ensures project.Some? && project.value.description.Some? ==> f.description == project.value.description.value
    ensures project.Some? && project.value.description.None? ==> f.description == Defaults.description
    ensures project.Some? && project.value.category.Some? ==> f.category == project.value.category.value
    ensures project.Some? && project.value.category.None? ==> f.category == Defaults.category
    ensures project.Some? && project.value.date.Some? ==> f.date == project.value.date.value
    ensures project.Some? && project.value.date.None? ==> f.date == Defaults.date
    ensures project.Some? && project.value.imageUrl.Some? ==> f.imageUrl == project.value.imageUrl.value
    ensures project.Some? && project.value.imageUrl.None? ==> f.imageUrl == Defaults.imageUrl
    ensures project.Some? && project.value.images.Some? ==> f.images == project.value.images.value
    ensures project.Some? && project.value.images.None? ==> f.images == Defaults.images
  {
    match project
    case None => Defaults
    case Some(p) =>
      FormData(p.id, p.title.GetOr(Defaults.title), p.description.GetOr(Defaults.description),
               p.category.GetOr(Defaults.category), p.date.GetOr(Defaults.date),
               p.imageUrl.GetOr(Defaults.imageUrl), p.images.GetOr(Defaults.images))
  }

  /** The draft as the plain object `onSave` receives. */
  function AsProject(f: FormData): Project {
    Project(f.id, Some(f.title), Some(f.description), Some(f.category), Some(f.date), Some(f.imageUrl), Some(f.images))
  }

  /** Merging a draft's own object gives the draft back, so re-deriving from a saved draft changes nothing. */
  lemma MergeRoundTrip(f: FormData)
    ensures Merge(Some(AsProject(f))) == f
  {
  }

  /** Merging is idempotent: a merged draft fed back as the project merges to itself. */
  lemma MergeIdempotent(project: Option<Project>)
    ensures Merge(Some(AsProject(Merge(project)))) == Merge(project)
  {
    MergeRoundTrip(Merge(project));
  }

  /** The text fields the inputs edit. */
  datatype FormField = Title | Category | Description | Date

  /** The value the input for `field` shows. */
  function FieldOf(f: FormData, field: FormField): string {
    match field
    case Title => f.title
    case Category => f.category
    case Description => f.description
    case Date => f.date
  }

  /** `handleChange`: `{ ...prev, [name]: value }` for the input that changed. */
  function WithField(f: FormData, field: FormField, value: string): (r: FormData)
    ensures FieldOf(r, field) == value
    ensures forall g :: g != field ==> FieldOf(r, g) == FieldOf(f, g)
    ensures r.id == f.id && r.imageUrl == f.imageUrl && r.images == f.images
  {
    match field
    case Title => f.(title := value)
    case Category => f.(category := value)
    case Description => f.(description := value)
    case Date => f.(date := value)
  }

  /** Typing into an input again replaces what the first edit wrote. */
  lemma WithFieldOverwrites(f: FormData, field: FormField, a: string, b: string)
    ensures WithField(WithField(f, field, a), field, b) == WithField(f, field, b)
  {
  }

  /** Edits to two different inputs commute. */
  lemma WithFieldCommutes(f: FormData, x: FormField, y: FormField, a: string, b: string)
    requires x != y
    ensures WithField(WithField(f, x, a), y, b) == WithField(WithField(f, y, b), x, a)
  {
  }

  /** Writing back the value an input already shows leaves the draft as it was. */
  lemma WithFieldUnchanged(f: FormData, field: FormField)
    ensures WithField(f, field, FieldOf(f, field)) == f
  {
  }

  /** The submit check: title, description and date must be non-empty strings (no trimming, no image check). */
  predicate ReadyToSave(f: FormData) {
    f.title != "" && f.description != "" && f.date != ""
  }

  /**
   * What a settled batch does to the draft: for the main slot, the first URL becomes
   * `image_url`; for the extra images, all URLs are appended; a failed batch changes nothing.
   */
  function AfterBatch(f: FormData, isMain: bool, b: Batch): (r: FormData)
    requires b.AllUploaded? && isMain ==> |b.urls| > 0
    ensures b.BatchFailed? ==> r == f
    ensures b.AllUploaded? && isMain ==> r == f.(imageUrl := b.urls[0])
    ensures b.AllUploaded? && !isMain ==> r == f.(images := f.images + b.urls)
  {
    match b
    case BatchFailed(_) => f
    case AllUploaded(urls) => if isMain then f.(imageUrl := urls[0]) else f.(images := f.images + urls)
  }

  /** Uploads never open or close the submit gate, and neither does changing the category select. */
  lemma ReadinessIgnoresImagesAndCategory(f: FormData, isMain: bool, b: Batch, value: string)
    requires b.AllUploaded? && isMain ==> |b.urls| > 0
    ensures ReadyToSave(AfterBatch(f, isMain, b)) == ReadyToSave(f)
    ensures ReadyToSave(WithField(f, Category, value)) == ReadyToSave(f)
  {
  }

  /** Clearing any of the three checked inputs closes the gate; filling all three opens it. */
  lemma ReadinessFollowsInputs(f: FormData, field: FormField, value: string, title: string, description: string, date: string)
    ensures field != Category && value == "" ==> !ReadyToSave(WithField(f, field, value))
    ensures (ReadyToSave(WithField(WithField(WithField(f, Title, title), Description, description), Date, date))
             <==> title != "" && description != "" && date != "")
  {
  }

  /** A batch in which any upload failed leaves both image fields, and everything else, as they were. */
  lemma BatchIsAllOrNothing(f: FormData, isMain: bool, results: seq<UploadResult>, k: int)
    requires 0 <= k < |results| && results[k].UploadFailed?
    ensures AfterBatch(f, isMain, Settle(results)) == f
  {
  }

  /** A successful extra-images batch appends every new URL after the old ones, in input-file order. */
  lemma ExtraBatchAppendsInOrder(f: FormData, results: seq<UploadResult>)
    requires forall i :: 0 <= i < |results| ==> results[i].Uploaded?
    ensures var r := AfterBatch(f, false, Settle(results));
            && r == f.(images := r.images)
            && |r.images| == |f.images| + |results|
            && r.images[..|f.images|] == f.images
            && forall i :: 0 <= i < |results| ==> r.images[|f.images| + i] == results[i].url
  {
  }

  /** A successful main-image batch sets `image_url` to the first file's URL and touches nothing else. */
  lemma MainBatchSetsCover(f: FormData, results: seq<UploadResult>)
    requires |results| > 0 && forall i :: 0 <= i < |results| ==> results[i].Uploaded?
    ensures AfterBatch(f, true, Settle(results)) == f.(imageUrl := results[0].url)
  {
  }

  /** A batch whose promise has not settled yet. */
  datatype PendingBatch = PendingBatch(isMain: bool, files: seq<File>)

  const MainUploaded := "Головне фото завантажене!"
  const ExtrasUploaded := "Додаткові фото завантажені!"
  const UploadError := "Помилка при завантаженні фото: "
  const FillAllFields := "Будь ласка, заповніть усі поля."
  const SaveError := "Помилка при збереженні: "

  /** The notification a settled batch raises. */
  function BatchNote(isMain: bool, b: Batch, now: int): Admin.Notification {
    match b
    case BatchFailed(m) => Admin.Note(now, UploadError + m, Admin.Error)
    case AllUploaded(_) => Admin.Note(now, if isMain then MainUploaded else ExtrasUploaded, Admin.Success)
  }

  class ProjectForm {
    var formData: FormData
    var saving: bool
    var uploading: bool
    var inFlight: seq<PendingBatch>
    var calls: seq<Request>
    const notifier: Admin.Notifier

    /** `uploading` is only ever set by starting a batch, and every batch started has at least one file. */
    predicate Valid()
      reads this
    {
      && (uploading ==> |inFlight| > 0)
      && forall i :: 0 <= i < |inFlight| ==> |inFlight[i].files| > 0
    }

    /** The submit button's `disabled={saving || uploading}`. */
    predicate SubmitDisabled()
      reads this
    {
      saving || uploading
    }

    /** The gate the button is meant to have: a save or any batch still pending. */
    predicate Busy()
      reads this
    {
      saving || |inFlight| > 0
    }

    constructor (project: Option<Project>, notifier: Admin.Notifier)
      ensures Valid() && formData == Merge(project) && !saving && !uploading && inFlight == [] && calls == []
      ensures this.notifier == notifier
    {
      formData := Merge(project);
      saving := false;
      uploading := false;
      inFlight := [];
      calls := [];
      this.notifier := notifier;
    }

    /** The effect on a new `project` prop: the draft is re-derived; the flags are left alone. */
    method ProjectChanged(project: Option<Project>)
      requires Valid()
      modifies this
      ensures Valid() && formData == Merge(project)
      ensures saving == old(saving) && uploading == old(uploading) && inFlight == old(inFlight) && calls == old(calls)
    {
      formData := Merge(project);
    }

    /** Typing in one of the text inputs. */
    method Edit(field: FormField, value: string)
      requires Valid()
      modifies this
      ensures Valid() && formData == WithField(old(formData), field, value)
      ensures saving == old(saving) && uploading == old(uploading) && inFlight == old(inFlight) && calls == old(calls)
    {
      formData := WithField(formData, field, value);
    }

    /** `handleFileUpload`, up to the `await`: an empty selection does nothing; otherwise one upload per file starts. */
    method BeginUpload(files: seq<File>, isMain: bool)
      requires Valid()
      modifies this
      ensures Valid()
      ensures files == [] ==> uploading == old(uploading) && inFlight == old(inFlight) && calls == old(calls)
      ensures files != [] ==> uploading && inFlight == old(inFlight) + [PendingBatch(isMain, files)]
      ensures files != [] ==> calls == old(calls) + UploadCalls(files)
      ensures formData == old(formData) && saving == old(saving)
    {
      if files == [] {
        return;
      }
      uploading := true;
      calls := calls + UploadCalls(files);
      inFlight := inFlight + [PendingBatch(isMain, files)];
    }

    /**
     * The batch `k` settles: the draft as it is now (`setFormData(prev => ...)`) takes the
     * batch's URLs, or nothing if any upload failed; `finally` clears `uploading`.
     */
    method FinishUpload(k: nat, results: seq<UploadResult>, now: int)
      requires Valid() && k < |inFlight| && |results| == |inFlight[k].files|
      modifies this, notifier
      ensures Valid()
      ensures formData == AfterBatch(old(formData), old(inFlight[k]).isMain, Settle(results))
      ensures inFlight == old(inFlight[..k] + inFlight[k + 1..])
      ensures !uploading && saving == old(saving) && calls == old(calls)
      ensures notifier.notifications == old(notifier.notifications) + [BatchNote(old(inFlight[k]).isMain, Settle(results), now)]
    {
      var batch := inFlight[k];
      var b := Settle(results);
      formData := AfterBatch(formData, batch.isMain, b);
      notifier.Show(BatchNote(batch.isMain, b, now).message, Some(BatchNote(batch.isMain, b, now).kind), None, now);
      inFlight := inFlight[..k] + inFlight[k + 1..];
      uploading := false;
    }

    /** `handleRemoveExtra`: drops the extra image at `idx`; an index out of range changes nothing. */
    method RemoveExtra(idx: int)
      requires Valid()
      modifies this
      ensures Valid() && formData == old(formData).(images := Seqs.DropIndex(old(formData).images, idx))
      ensures saving == old(saving) && uploading == old(uploading) && inFlight == old(inFlight) && calls == old(calls)
    {
      formData := formData.(images := Seqs.DropIndex(formData.images, idx));
    }

    /**
     * `handleSubmit`, up to the `await onSave(...)`, run on a submit event: an incomplete draft
     * raises an error and is not handed over; a complete one is handed to `onSave` as it stands
     * and `saving` is set. From the page's own button the browser's `required` check comes first
     * (`SubmitClick`), so the error branch is reached only by a submit that skips that check.
     */
    method BeginSubmit(now: int) returns (handed: Option<FormData>)
      requires Valid() && !SubmitDisabled()
      modifies this, notifier
      ensures Valid()
      ensures ReadyToSave(old(formData)) ==> handed == Some(old(formData)) && saving
      ensures ReadyToSave(old(formData)) ==> notifier.notifications == old(notifier.notifications)
      ensures !ReadyToSave(old(formData)) ==> handed == None && saving == old(saving)
      ensures !ReadyToSave(old(formData)) ==> notifier.notifications == old(notifier.notifications) + [Admin.Note(now, FillAllFields, Admin.Error)]
      ensures formData == old(formData) && uploading == old(uploading) && inFlight == old(inFlight) && calls == old(calls)
    {
      if !ReadyToSave(formData) {
        notifier.Show(FillAllFields, Some(Admin.Error), None, now);
        return None;
      }
      saving := true;
      return Some(formData);
    }

    /**
     * A click on the enabled submit button. Title, description and date are `required` inputs,
     * so with any of them empty the browser refuses the submit and `handleSubmit` never runs:
     * nothing is handed over and no notice appears. Otherwise the submit event reaches
     * `handleSubmit`, which hands the draft over.
     */
    method SubmitClick(now: int) returns (handed: Option<FormData>)
      requires Valid() && !SubmitDisabled()
      modifies this, notifier
      ensures Valid()
      ensures handed.Some? <==> ReadyToSave(old(formData))
      ensures handed.Some? ==> handed.value == old(formData) && saving
      ensures handed.None? ==> saving == old(saving)
      ensures notifier.notifications == old(notifier.notifications)
      ensures formData == old(formData) && uploading == old(uploading) && inFlight == old(inFlight) && calls == old(calls)
    {
      if !ReadyToSave(formData) {
        return None;
      }
      handed := BeginSubmit(now);
    }

    /**
     * The submit with the intended gate: allowed only when nothing is pending, which the written
     * gate then also allows; the draft handed over has every started upload in it.
     */
    method SubmitWhenIdle(now: int) returns (handed: Option<FormData>)
      requires Valid() && !Busy()
      modifies this, notifier
      ensures Valid()
      ensures ReadyToSave(old(formData)) <==> handed.Some?
      ensures handed.Some? ==> handed.value == old(formData) && saving && old(inFlight) == []
      ensures formData == old(formData) && uploading == old(uploading) && inFlight == old(inFlight) && calls == old(calls)
    {
      handed := BeginSubmit(now);
    }

    /** `onSave` settled: a rejection raises an error; `finally` clears `saving`. */
    method FinishSubmit(failure: Option<string>, now: int)
      requires Valid()
      modifies this, notifier
      ensures Valid() && !saving
      ensures failure.None? ==> notifier.notifications == old(notifier.notifications)
      ensures failure.Some? ==> notifier.notifications == old(notifier.notifications) + [Admin.Note(now, SaveError + failure.value, Admin.Error)]
      ensures formData == old(formData) && uploading == old(uploading) && inFlight == old(inFlight) && calls == old(calls)
    {
      if failure.Some? {
        notifier.Show(SaveError + failure.value, Some(Admin.Error), None, now);
      }
      saving := false;
    }
  }

  /**
   * Two overlapping batches (extra images, then the main image): when the first settles it clears
   * the single `uploading` flag, so the submit button is enabled while the main image is still
   * pending, and a completed draft is handed to `onSave` with an empty `image_url`.
   */
  method OverlappingBatchesEnableSubmit() returns (disabled: bool, busy: bool, pending: nat, handed: Option<FormData>)
    ensures !disabled && busy && pending == 1
    ensures handed.Some? && handed.value.imageUrl == "" && handed.value.images == ["https://cdn/extra.jpg"]
  {
    var notifier := new Admin.Notifier();
    var form := new ProjectForm(None, notifier);
    form.BeginUpload([File("extra.jpg")], false);
    form.BeginUpload([File("cover.jpg")], true);
    form.FinishUpload(0, [Uploaded("https://cdn/extra.jpg")], 0);
    disabled := form.SubmitDisabled();
    busy := form.Busy();
    form.Edit(Title, "Кухня");
    form.Edit(Description, "Глянцева стеля");
    form.Edit(Date, "2024-03-01");
    pending := |form.inFlight|;
    handed := form.SubmitClick(1);
  }

  /**
   * With the intended gate (no submit while any batch is pending), the same two batches keep the
   * form busy until the main image has landed, and the draft then carries it.
   */
  method OverlappingBatchesStayBusy() returns (busyMid: bool, busyEnd: bool, cover: string)
    ensures busyMid && !busyEnd && cover == "https://cdn/cover.jpg"
  {
    var notifier := new Admin.Notifier();
    var form := new ProjectForm(None, notifier);
    form.BeginUpload([File("extra.jpg")], false);
    form.BeginUpload([File("cover.jpg")], true);
    form.FinishUpload(0, [Uploaded("https://cdn/extra.jpg")], 0);
    busyMid := form.Busy();
    form.FinishUpload(0, [Uploaded("https://cdn/cover.jpg")], 1);
    busyEnd := form.Busy();
    cover := form.formData.imageUrl;
  }
}
