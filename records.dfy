/** The records the site passes around, and the requests it sends to the hosted backend. */
module Records {
  import opened Wrappers

  /**
   * A project as the admin side holds it: a plain object whose keys may be absent
   * (`None`). `date` is an ISO 8601 `YYYY-MM-DD` string.
   */
  datatype Project = Project(
    id: Option<int>,
    title: Option<string>,
    description: Option<string>,
    category: Option<string>,
    date: Option<string>,
    imageUrl: Option<string>,
    images: Option<seq<string>>)

  /** `if (project.id)`: an id counts only when it is present and truthy, so id 0 counts as no id. */
  predicate HasId(p: Project) {
    p.id.Some? && p.id.value != 0
  }

  /** The columns a stored project row holds: the five fields `addProject` and `updateProject` send. */
  datatype Row = Row(
    title: Option<string>,
    category: Option<string>,
    description: Option<string>,
    date: Option<string>,
    imageUrl: Option<string>)

  /** The row written for a project: title, category, description, date and image URL; `images` and `id` are dropped. */
  function Persisted(p: Project): (r: Row)
    ensures r.title == p.title && r.category == p.category && r.description == p.description
    ensures r.date == p.date && r.imageUrl == p.imageUrl
  {
    Row(p.title, p.category, p.description, p.date, p.imageUrl)
  }

  /** The project `select('*')` returns for the row stored under `id`. */
  function FromRow(id: int, r: Row): Project {
    Project(Some(id), r.title, r.description, r.category, r.date, r.imageUrl, None)
  }

  /** Two projects are stored as the same row exactly when they agree on the five persisted columns. */
  lemma SameRowIff(p: Project, q: Project)
    ensures Persisted(p) == Persisted(q) <==>
              && p.title == q.title && p.category == q.category && p.description == q.description
              && p.date == q.date && p.imageUrl == q.imageUrl
  {
  }

  /** A row read back from the store and saved again is written unchanged, whatever its id. */
  lemma RowRoundTrip(id: int, r: Row)
    ensures Persisted(FromRow(id, r)) == r
    ensures FromRow(id, r).id == Some(id) && FromRow(id, r).images.None?
  {
  }

  /** A lead from the public contact form. */
  datatype Lead = Lead(name: string, phone: string, email: string, projectDetails: string)

  /** A stored submission; `timestamp` is its time in milliseconds, `None` when it does not parse as a date. */
  datatype Submission = Submission(id: int, lead: Lead, timestamp: Option<int>)

  /** A file chosen in a file input or dropped on an upload area. */
  datatype File = File(name: string)

  /** A call into the backend: the data-access functions of `src/lib`. */
  datatype Request =
    | ListProjects
    | InsertProject(row: Row)
    | UpdateProject(projectId: int, row: Row)
    | DeleteProject(deletedId: int)
    | ListSubmissions
    | InsertSubmission(lead: Lead)
    | DeleteSubmission(submissionId: int)
    | UploadImage(file: File)

  /** How a list request ends: it resolves with data (possibly `null`), or it rejects with a message. */
  datatype Fetch<T> = Fetched(data: Option<seq<T>>) | FetchFailed(message: string)

  /** The request a save issues: an update of the project's own id when it has one, an insert otherwise. */
  function SaveRequest(p: Project): (r: Request)
    ensures r.UpdateProject? <==> HasId(p)
    ensures r.InsertProject? <==> !HasId(p)
    ensures r.UpdateProject? ==> r.projectId == p.id.value && r.row == Persisted(p)
    ensures r.InsertProject? ==> r.row == Persisted(p)
  {
    if HasId(p) then UpdateProject(p.id.value, Persisted(p)) else InsertProject(Persisted(p))
  }

  /** `projects.find((p) => p.id === id)`: the first project carrying this id. */
  function Find(ps: seq<Project>, id: int): (r: Option<Project>)
    ensures r.None? <==> forall i :: 0 <= i < |ps| ==> ps[i].id != Some(id)
    ensures r.Some? ==> exists i :: 0 <= i < |ps| && ps[i] == r.value && r.value.id == Some(id) &&
                                   forall j :: 0 <= j < i ==> ps[j].id != Some(id)
    decreases |ps|
  {
    if ps == [] then None
    else if ps[0].id == Some(id) then Some(ps[0])
    else
      var r := Find(ps[1..], id);
      assert forall i :: 0 <= i < |ps[1..]| ==> ps[1..][i] == ps[i + 1];
      if r.Some? then
        assert exists i :: 0 <= i < |ps| && ps[i] == r.value && r.value.id == Some(id) &&
                           forall j :: 0 <= j < i ==> ps[j].id != Some(id) by {
          var k :| 0 <= k < |ps[1..]| && ps[1..][k] == r.value && r.value.id == Some(id) &&
                   forall j :: 0 <= j < k ==> ps[1..][j].id != Some(id);
          assert ps[k + 1] == r.value;
          assert forall j :: 0 <= j < k + 1 ==> ps[j].id != Some(id);
        }
        r
      else r
  }
}
