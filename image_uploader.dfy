/**
 * The drag-and-drop image picker. It does not own its value: it writes through the parent's
 * setter, which is modelled as the `files` field it reads and reassigns.
 */
module ImageUpload {
  import opened Wrappers
  import opened Records
  import opened Uploads
  import Seqs
  import Admin
  import ProjectEditing

  /** The parent's value: a single URL in main mode, a list of URLs otherwise, or neither (`null`). */
  datatype Value = Text(url: string) | List(urls: seq<string>) | Absent

  /** `Array.isArray(prev) ? prev : []`. */
  function Items(v: Value): (r: seq<string>)
    ensures v.List? ==> r == v.urls
    ensures !v.List? ==> r == []
  {
    if v.List? then v.urls else []
  }

  /** Reading a value as a list and storing the list back changes only a value that was not a list. */
  lemma ItemsNormalises(v: Value)
    ensures Items(List(Items(v))) == Items(v)
    ensures List(Items(v)) == v <==> v.List?
  {
  }

  /**
   * The value a settled batch leaves: main mode takes the first URL, extra mode appends all of
   * them to the list (a non-list counts as empty); a failed batch leaves it as it was.
   */
  function AfterUpload(v: Value, isMain: bool, b: Batch): (r: Value)
    requires b.AllUploaded? && isMain ==> |b.urls| > 0
    ensures b.BatchFailed? ==> r == v
    ensures b.AllUploaded? && isMain ==> r == Text(b.urls[0])
    ensures b.AllUploaded? && !isMain ==> r.List? && |r.urls| == |Items(v)| + |b.urls|
    ensures b.AllUploaded? && !isMain ==> r.urls[..|Items(v)|] == Items(v) && r.urls[|Items(v)|..] == b.urls
  {
    match b
    case BatchFailed(_) => v
    case AllUploaded(urls) => if isMain then Text(urls[0]) else List(Items(v) + urls)
  }

  /** `handleRemove`: main mode clears the URL; extra mode drops the entry at `idx`. */
  function AfterRemove(v: Value, isMain: bool, idx: int): (r: Value)
    ensures isMain ==> r == Text("")
    ensures !isMain ==> r.List? && r.urls == Seqs.DropIndex(Items(v), idx)
  {
    if isMain then Text("") else List(Seqs.DropIndex(Items(v), idx))
  }

  /** Removing the last entry right after uploading one extra image puts the list back as it was. */
  lemma UploadThenRemoveRestores(urls: seq<string>, url: string)
    ensures AfterRemove(AfterUpload(List(urls), false, AllUploaded([url])), false, |urls|) == List(urls)
  {
    var r := AfterUpload(List(urls), false, AllUploaded([url]));
    assert r.urls == urls + [url];
    Seqs.DropIndexIsSplice(r.urls, |urls|);
    assert r.urls[..|urls|] == urls;
  }

  /** The picker and the edit form treat an extra-images batch the same way. */
  lemma AgreesWithForm(f: ProjectEditing.FormData, results: seq<UploadResult>)
    ensures AfterUpload(List(f.images), false, Settle(results)).List? ==>
              AfterUpload(List(f.images), false, Settle(results)).urls == ProjectEditing.AfterBatch(f, false, Settle(results)).images
    ensures Settle(results).BatchFailed? ==> AfterUpload(List(f.images), false, Settle(results)) == List(f.images)
  {
  }

  const MainUploaded := "Головне фото завантажене!"
  const ExtrasUploaded := "Додаткові фото завантажені!"
  const UploadError := "Помилка при завантаженні фото: "

  class ImageUploader {
    const isMain: bool
    const notifier: Admin.Notifier
    var files: Value
    var dragOver: bool
    var calls: seq<Request>

    constructor (isMain: bool, files: Value, notifier: Admin.Notifier)
      ensures this.isMain == isMain && this.files == files && this.notifier == notifier
      ensures !dragOver && calls == []
    {
      this.isMain := isMain;
      this.files := files;
      this.notifier := notifier;
      dragOver := false;
      calls := [];
    }

    /** `handleUpload`: nothing for an empty selection; otherwise one upload per file, then the batch's effect. */
    method HandleUpload(fileList: seq<File>, results: seq<UploadResult>, now: int)
      requires |results| == |fileList|
      modifies this, notifier
      ensures fileList == [] ==> files == old(files) && calls == old(calls) && notifier.notifications == old(notifier.notifications)
      ensures fileList != [] ==> files == AfterUpload(old(files), isMain, Settle(results))
      ensures fileList != [] ==> calls == old(calls) + UploadCalls(fileList)
      ensures fileList != [] && Settle(results).AllUploaded? ==>
                notifier.notifications == old(notifier.notifications)
                  + [Admin.Note(now, if isMain then MainUploaded else ExtrasUploaded, Admin.Success)]
      ensures fileList != [] && Settle(results).BatchFailed? ==>
                notifier.notifications == old(notifier.notifications)
                  + [Admin.Note(now, UploadError + Settle(results).message, Admin.Error)]
      ensures dragOver == old(dragOver)
    {
      if fileList == [] {
        return;
      }
      calls := calls + UploadCalls(fileList);
      var b := Settle(results);
      files := AfterUpload(files, isMain, b);
      if b.AllUploaded? {
        notifier.Show(if isMain then MainUploaded else ExtrasUploaded, Some(Admin.Success), None, now);
      } else {
        notifier.Show(UploadError + b.message, Some(Admin.Error), None, now);
      }
    }

    /** `handleDrop`: leaves the hover state and uploads the dropped files. */
    method HandleDrop(fileList: seq<File>, results: seq<UploadResult>, now: int)
      requires |results| == |fileList|
      modifies this, notifier
      ensures !dragOver
      ensures fileList == [] ==> files == old(files) && calls == old(calls) && notifier.notifications == old(notifier.notifications)
      ensures fileList != [] ==> files == AfterUpload(old(files), isMain, Settle(results))
      ensures fileList != [] ==> calls == old(calls) + UploadCalls(fileList)
      ensures fileList != [] && Settle(results).AllUploaded? ==>
                notifier.notifications == old(notifier.notifications)
                  + [Admin.Note(now, if isMain then MainUploaded else ExtrasUploaded, Admin.Success)]
      ensures fileList != [] && Settle(results).BatchFailed? ==>
                notifier.notifications == old(notifier.notifications)
                  + [Admin.Note(now, UploadError + Settle(results).message, Admin.Error)]
    {
      dragOver := false;
      HandleUpload(fileList, results, now);
    }

    method HandleDragOver()
      modifies this
      ensures dragOver && files == old(files) && calls == old(calls)
    {
      dragOver := true;
    }

    method HandleDragLeave()
      modifies this
      ensures !dragOver && files == old(files) && calls == old(calls)
    {
      dragOver := false;
    }

    method HandleRemove(idx: int)
      modifies this
      ensures files == AfterRemove(old(files), isMain, idx)
      ensures dragOver == old(dragOver) && calls == old(calls)
    {
      files := AfterRemove(files, isMain, idx);
    }
  }
}
