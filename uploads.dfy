/** `Promise.all(files.map((f) => uploadImage(f)))`: one batch of uploads to the blob store. */
module Uploads {
  import opened Records

  /** How one `uploadImage` call ends: with the object's public URL, or rejected with a message. */
  datatype UploadResult = Uploaded(url: string) | UploadFailed(message: string)

  /** How the whole batch ends. */
  datatype Batch = AllUploaded(urls: seq<string>) | BatchFailed(message: string)

  /**
   * `Promise.all`: resolves when every upload resolved, with the URLs in the order of the input
   * files; rejects as soon as one upload rejects, with that upload's message.
   */
  function Settle(results: seq<UploadResult>): (b: Batch)
    ensures b.AllUploaded? <==> forall i :: 0 <= i < |results| ==> results[i].Uploaded?
    ensures b.AllUploaded? ==> |b.urls| == |results| && forall i :: 0 <= i < |results| ==> b.urls[i] == results[i].url
    ensures b.BatchFailed? ==> exists i :: 0 <= i < |results| && results[i] == UploadFailed(b.message)
    decreases |results|
  {
    if results == [] then AllUploaded([])
    else
      var rest := Settle(results[1..]);
      assert forall i :: 0 <= i < |results[1..]| ==> results[1..][i] == results[i + 1];
      match results[0]
      case UploadFailed(m) => BatchFailed(m)
      case Uploaded(u) =>
        match rest
        case AllUploaded(us) => AllUploaded([u] + us)
        case BatchFailed(m) =>
          assert exists i :: 0 <= i < |results| && results[i] == UploadFailed(m) by {
            var k :| 0 <= k < |results[1..]| && results[1..][k] == UploadFailed(m);
            assert results[k + 1] == UploadFailed(m);
          }
          BatchFailed(m)
  }

  /** The upload requests of one batch, one per file, in order. */
  function UploadCalls(files: seq<File>): (r: seq<Request>)
    ensures |r| == |files| && forall i :: 0 <= i < |files| ==> r[i] == UploadImage(files[i])
  {
    seq(|files|, i requires 0 <= i < |files| => UploadImage(files[i]))
  }

  /** Two batches started one after the other log the requests of one batch over both file lists. */
  lemma {:induction false} UploadCallsConcat(a: seq<File>, b: seq<File>)
    ensures UploadCalls(a + b) == UploadCalls(a) + UploadCalls(b)
  {
    var r, q := UploadCalls(a + b), UploadCalls(a) + UploadCalls(b);
    assert |r| == |q|;
    forall i | 0 <= i < |r| ensures r[i] == q[i] {
      if i < |a| {
        assert (a + b)[i] == a[i];
      } else {
        assert (a + b)[i] == b[i - |a|];
      }
    }
  }

  /** The files a batch sends are exactly its input files, in order. */
  lemma UploadCallsFiles(files: seq<File>)
    ensures forall i :: 0 <= i < |UploadCalls(files)| ==> UploadCalls(files)[i].UploadImage? && UploadCalls(files)[i].file == files[i]
    ensures forall r: Request :: r in UploadCalls(files) <==> r.UploadImage? && r.file in files
  {
    var calls := UploadCalls(files);
    forall r: Request | r.UploadImage? && r.file in files ensures r in calls {
      var i :| 0 <= i < |files| && files[i] == r.file;
      assert calls[i] == r;
    }
  }
}
