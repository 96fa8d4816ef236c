/**
 * What the hosted `projects` table does with the requests of `src/lib/projects.js`, as an
 * abstract map from store-assigned ids to rows. The table itself is outside the repository; this
 * module fixes only what the components rely on: an insert gets a fresh id, an update replaces the
 * row with that id (`.eq('id', id)` matches at most one), a delete removes it.
 */
module ProjectStore {
  import opened Wrappers
  import opened Records

  datatype Db = Db(rows: map<int, Row>, nextId: int)

  /** Ids the store hands out are positive (so truthy in JavaScript) and lower than the next one. */
  ghost predicate Valid(db: Db) {
    db.nextId > 0 && forall k :: k in db.rows ==> 0 < k < db.nextId
  }

  /** The effect of a request that resolved. Reads and other tables leave the project rows alone. */
  function Apply(db: Db, req: Request): (r: Db)
    ensures Valid(db) ==> Valid(r)
    ensures req.InsertProject? ==> r.rows == db.rows[db.nextId := req.row]
    ensures req.UpdateProject? ==> r.rows == if req.projectId in db.rows then db.rows[req.projectId := req.row] else db.rows
    ensures req.DeleteProject? ==> r.rows == db.rows - {req.deletedId}
    ensures !(req.InsertProject? || req.UpdateProject? || req.DeleteProject?) ==> r == db
  {
    match req
    case InsertProject(row) => Db(db.rows[db.nextId := row], db.nextId + 1)
    case UpdateProject(id, row) => if id in db.rows then Db(db.rows[id := row], db.nextId) else db
    case DeleteProject(id) => Db(db.rows - {id}, db.nextId)
    case _ => db
  }

  /**
   * Saving a draft: a draft without an id becomes a new row under a fresh id, carrying exactly
   * the persisted fields; a draft with the id of a stored row overwrites that row and no other.
   */
  lemma SaveEffect(db: Db, p: Project)
    requires Valid(db)
    ensures var after := Apply(db, SaveRequest(p));
            && (!HasId(p) ==> db.nextId !in db.rows && after.rows == db.rows[db.nextId := Persisted(p)])
            && (HasId(p) && p.id.value in db.rows ==> after.rows == db.rows[p.id.value := Persisted(p)])
            && (HasId(p) && p.id.value !in db.rows ==> after.rows == db.rows)
  {
  }

  /**
   * Delete followed by restore: the restored project is a new row with a new id holding the
   * deleted row's columns, and the original id stays gone.
   */
  lemma RestoreIsNewRecord(db: Db, k: int)
    requires Valid(db) && k in db.rows
    ensures var p := FromRow(k, db.rows[k]);
            var after := Apply(Apply(db, DeleteProject(k)), InsertProject(Persisted(p.(id := None))));
            && k !in after.rows
            && db.nextId != k && db.nextId !in db.rows
            && after.rows == (db.rows - {k})[db.nextId := db.rows[k]]
  {
    assert Persisted(FromRow(k, db.rows[k]).(id := None)) == db.rows[k];
  }

  /** `images` never reaches the store: two projects that differ only in their image lists persist the same row. */
  lemma ImagesAreNotPersisted(p: Project, images: Option<seq<string>>)
    ensures Persisted(p.(images := images)) == Persisted(p)
  {
  }
}
