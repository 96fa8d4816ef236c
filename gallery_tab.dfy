/**
 * The admin gallery tab: the project list with a title search and a date sort, the edit form
 * hand-off, delete behind the confirm modal with a one-step undo.
 */
module GalleryAdmin {
  import opened Wrappers
  import opened Records
  import Seqs
  import Admin
  import ProjectEditing

  // ---------------------------------------------------------------- search

  /** `(p.title || "")`. */
  function TitleOf(p: Project): string {
    p.title.GetOr("")
  }

  predicate IsPrefix(prefix: string, s: string) {
    |prefix| <= |s| && s[..|prefix|] == prefix
  }

  /** `String.prototype.includes`: `needle` occurs in `hay` at some position. */
  predicate Contains(hay: string, needle: string)
    decreases |hay|
  {
    IsPrefix(needle, hay) || (hay != [] && Contains(hay[1..], needle))
  }

  /** `needle` occurs in `hay` starting at position `i`. */
  predicate OccursAt(hay: string, needle: string, i: int) {
    0 <= i && i + |needle| <= |hay| && hay[i..i + |needle|] == needle
  }

  /** `Contains` agrees with the positional definition of a substring occurrence, in both directions. */
  lemma {:induction false} ContainsIff(hay: string, needle: string)
    ensures Contains(hay, needle) <==> exists i :: OccursAt(hay, needle, i)
    decreases |hay|
  {
    if IsPrefix(needle, hay) {
      assert OccursAt(hay, needle, 0);
    } else if hay == [] {
      forall i | 0 <= i ensures !OccursAt(hay, needle, i) {
      }
    } else {
      ContainsIff(hay[1..], needle);
      if Contains(hay[1..], needle) {
        var i :| OccursAt(hay[1..], needle, i);
        assert hay[i + 1..i + 1 + |needle|] == hay[1..][i..i + |needle|];
        assert OccursAt(hay, needle, i + 1);
      } else {
        forall i | 0 <= i ensures !OccursAt(hay, needle, i) {
          if i > 0 && i + |needle| <= |hay| {
            var j := i - 1;
            assert hay[j + 1..j + 1 + |needle|] == hay[1..][j..j + |needle|];
            assert !OccursAt(hay[1..], needle, i - 1);
          }
        }
      }
    }
  }

  /** The search filter: the lower-cased title includes the lower-cased search text. */
  predicate Matches(p: Project, search: string, lower: string -> string) {
    Contains(lower(TitleOf(p)), lower(search))
  }

  function Filtered(ps: seq<Project>, search: string, lower: string -> string): (r: seq<Project>)
    ensures forall p :: p in r <==> p in ps && Matches(p, search, lower)
    ensures forall p :: multiset(r)[p] == if Matches(p, search, lower) then multiset(ps)[p] else 0
  {
    Seqs.Keep(ps, p => Matches(p, search, lower))
  }

  /** An empty search keeps every project, whenever lower-casing maps the empty string to itself. */
  lemma EmptySearchKeepsAll(ps: seq<Project>, lower: string -> string)
    requires lower("") == ""
    ensures Filtered(ps, "", lower) == ps
  {
    forall p | p in ps ensures Matches(p, "", lower) {
      assert IsPrefix("", lower(TitleOf(p)));
    }
    Seqs.KeepAll(ps, p => Matches(p, "", lower));
  }

  // ---------------------------------------------------------------- date order

  /** Lexicographic order on strings; for `YYYY-MM-DD` dates it is the calendar order. */
  predicate LexLe(a: string, b: string)
    decreases |a|
  {
    a == [] || (b != [] && (a[0] < b[0] || (a[0] == b[0] && LexLe(a[1..], b[1..]))))
  }

  lemma {:induction false} LexLeRefl(a: string)
    ensures LexLe(a, a)
    decreases |a|
  {
    if a != [] {
      LexLeRefl(a[1..]);
    }
  }

  lemma {:induction false} LexLeTotal(a: string, b: string)
    ensures LexLe(a, b) || LexLe(b, a)
    decreases |a|
  {
    if a != [] && b != [] && a[0] == b[0] {
      LexLeTotal(a[1..], b[1..]);
    }
  }

  lemma {:induction false} LexLeTrans(a: string, b: string, c: string)
    requires LexLe(a, b) && LexLe(b, c)
    ensures LexLe(a, c)
    decreases |a|
  {
    if a != [] && a[0] == b[0] && b[0] == c[0] {
      LexLeTrans(a[1..], b[1..], c[1..]);
    }
  }

  lemma {:induction false} LexLeAntisym(a: string, b: string)
    requires LexLe(a, b) && LexLe(b, a)
    ensures a == b
    decreases |a|
  {
    if a != [] {
      LexLeAntisym(a[1..], b[1..]);
      assert a == [a[0]] + a[1..];
      assert b == [b[0]] + b[1..];
    }
  }

  /** The sort key; a project without a date sorts as the empty string, before every date. */
  function DateKey(p: Project): string {
    p.date.GetOr("")
  }

  /** `"date-desc"` and `"date-asc"`. */
  datatype SortMode = DateDesc | DateAsc

  function Toggle(m: SortMode): (r: SortMode)
    ensures r != m
  {
    if m == DateDesc then DateAsc else DateDesc
  }

  /** `a` may come before `b` under the mode (ties allowed). */
  predicate Le(m: SortMode, a: Project, b: Project) {
    if m == DateDesc then LexLe(DateKey(b), DateKey(a)) else LexLe(DateKey(a), DateKey(b))
  }

  lemma LeTotal(m: SortMode, a: Project, b: Project)
    ensures Le(m, a, b) || Le(m, b, a)
  {
    LexLeTotal(DateKey(a), DateKey(b));
  }

  lemma LeTrans(m: SortMode, a: Project, b: Project, c: Project)
    requires Le(m, a, b) && Le(m, b, c)
    ensures Le(m, a, c)
  {
    if m == DateDesc {
      LexLeTrans(DateKey(c), DateKey(b), DateKey(a));
    } else {
      LexLeTrans(DateKey(a), DateKey(b), DateKey(c));
    }
  }

  /** Two projects tie under either mode exactly when they have the same date. */
  lemma LeBoth(m: SortMode, a: Project, b: Project)
    ensures Le(m, a, b) && Le(m, b, a) <==> DateKey(a) == DateKey(b)
  {
    LexLeRefl(DateKey(a));
    if Le(m, a, b) && Le(m, b, a) {
      LexLeAntisym(DateKey(a), DateKey(b));
    }
  }

  predicate Sorted(s: seq<Project>, m: SortMode) {
    forall i, j :: 0 <= i < j < |s| ==> Le(m, s[i], s[j])
  }

  /** The projects of `s` with date key `d`, in their order in `s`. */
  function WithDate(s: seq<Project>, d: string): (r: seq<Project>)
    ensures |r| <= |s|
  {
    if s == [] then [] else (if DateKey(s[0]) == d then [s[0]] else []) + WithDate(s[1..], d)
  }

  /** The date subsequence holds exactly the projects of `s` that have that date. */
  lemma {:induction false} WithDateMembers(s: seq<Project>, d: string, y: Project)
    ensures y in WithDate(s, d) <==> y in s && DateKey(y) == d
    decreases |s|
  {
    if s != [] {
      WithDateMembers(s[1..], d, y);
      assert s == [s[0]] + s[1..];
    }
  }

  lemma ConsWithDate(x: Project, s: seq<Project>, d: string)
    ensures WithDate([x] + s, d) == (if DateKey(x) == d then [x] else []) + WithDate(s, d)
  {
    assert ([x] + s)[1..] == s;
  }

  lemma SortedTail(s: seq<Project>, m: SortMode)
    requires Sorted(s, m) && s != []
    ensures Sorted(s[1..], m)
  {
    forall i, j | 0 <= i < j < |s[1..]| ensures Le(m, s[1..][i], s[1..][j]) {
      assert s[1..][i] == s[i + 1] && s[1..][j] == s[j + 1];
    }
  }

  /** A project that may precede every element of a sorted list extends it at the front. */
  lemma SortedCons(y: Project, t: seq<Project>, m: SortMode)
    requires Sorted(t, m) && forall z :: z in t ==> Le(m, y, z)
    ensures Sorted([y] + t, m)
  {
    var r := [y] + t;
    forall i, j | 0 <= i < j < |r| ensures Le(m, r[i], r[j]) {
      assert r[j] == t[j - 1];
      if i > 0 {
        assert r[i] == t[i - 1];
      }
    }
  }

  /** The head of a sorted list may precede everything after it. */
  lemma HeadBelowAll(s: seq<Project>, m: SortMode)
    requires Sorted(s, m) && s != []
    ensures forall z :: z in s ==> Le(m, s[0], z)
  {
    LexLeRefl(DateKey(s[0]));
  }

  /** Inserts `x` before the first element it may precede. */
  function Insert(x: Project, s: seq<Project>, m: SortMode): (r: seq<Project>)
    requires Sorted(s, m)
    ensures multiset(r) == multiset(s) + multiset{x}
    ensures Sorted(r, m)
    decreases |s|
  {
    if s == [] then [x]
    else if Le(m, x, s[0]) then
      HeadBelowAll(s, m);
      assert forall z :: z in s ==> Le(m, x, z) by {
        forall z | z in s ensures Le(m, x, z) {
          LeTrans(m, x, s[0], z);
        }
      }
      SortedCons(x, s, m);
      [x] + s
    else
      LeTotal(m, x, s[0]);
      SortedTail(s, m);
      HeadBelowAll(s, m);
      var t := Insert(x, s[1..], m);
      assert s == [s[0]] + s[1..];
      assert forall z :: z in t ==> Le(m, s[0], z) by {
        forall z | z in t ensures Le(m, s[0], z) {
          assert z in multiset(t);
          if z != x {
            assert z in multiset(s[1..]);
            assert z in s;
          }
        }
      }
      SortedCons(s[0], t, m);
      [s[0]] + t
  }

  /** The stable insertion sort, the reference for `Array.prototype.sort` with the date comparator. */
  function SortByDate(s: seq<Project>, m: SortMode): (r: seq<Project>)
    ensures multiset(r) == multiset(s)
    ensures Sorted(r, m)
    decreases |s|
  {
    if s == [] then []
    else
      assert s == [s[0]] + s[1..];
      Insert(s[0], SortByDate(s[1..], m), m)
  }

  /** Inserting `x` puts it ahead of every project with the same date. */
  lemma {:induction false} InsertWithDate(x: Project, s: seq<Project>, m: SortMode, d: string)
    requires Sorted(s, m)
    ensures WithDate(Insert(x, s, m), d) == (if DateKey(x) == d then [x] else []) + WithDate(s, d)
    decreases |s|
  {
    if s == [] {
      assert WithDate([x], d) == (if DateKey(x) == d then [x] else []) + WithDate([], d);
    } else if Le(m, x, s[0]) {
      assert Insert(x, s, m) == [x] + s;
      ConsWithDate(x, s, d);
    } else {
      LeBoth(m, x, s[0]);
      LexLeRefl(DateKey(x));
      assert DateKey(x) != DateKey(s[0]);
      SortedTail(s, m);
      var t := Insert(x, s[1..], m);
      assert Insert(x, s, m) == [s[0]] + t;
      InsertWithDate(x, s[1..], m, d);
      ConsWithDate(s[0], t, d);
      TailWithDate(s, d);
    }
  }

  /** The sort is stable: the projects of each date keep their relative order. */
  lemma {:induction false} SortByDateStable(s: seq<Project>, m: SortMode, d: string)
    ensures WithDate(SortByDate(s, m), d) == WithDate(s, d)
    decreases |s|
  {
    if s != [] {
      SortByDateStable(s[1..], m, d);
      InsertWithDate(s[0], SortByDate(s[1..], m), m, d);
    }
  }

  /**
   * A sorted order is determined by its per-date subsequences: two sorted lists that agree on
   * the projects of every date, in order, are equal.
   */
  lemma {:induction false} SortUnique(r1: seq<Project>, r2: seq<Project>, m: SortMode)
    requires Sorted(r1, m) && Sorted(r2, m)
    requires forall d :: WithDate(r1, d) == WithDate(r2, d)
    ensures r1 == r2
    decreases |r1| + |r2|
  {
    if r1 != [] {
      WithDateMembers(r1, DateKey(r1[0]), r1[0]);
    }
    if r2 != [] {
      WithDateMembers(r2, DateKey(r2[0]), r2[0]);
    }
    if r1 != [] && r2 != [] {
      HeadsAgree(r1, r2, m);
      SortedTail(r1, m);
      SortedTail(r2, m);
      SortUnique(r1[1..], r2[1..], m);
      assert r1 == [r1[0]] + r1[1..];
      assert r2 == [r2[0]] + r2[1..];
    }
  }

  /** Two sorted lists with the same per-date subsequences start with the same project, and so do their tails. */
  lemma HeadsAgree(r1: seq<Project>, r2: seq<Project>, m: SortMode)
    requires Sorted(r1, m) && Sorted(r2, m) && r1 != [] && r2 != []
    requires forall d :: WithDate(r1, d) == WithDate(r2, d)
    ensures r1[0] == r2[0]
    ensures forall d :: WithDate(r1[1..], d) == WithDate(r2[1..], d)
  {
    SameDateHeads(r1, r2, m);
    forall d ensures WithDate(r1[1..], d) == WithDate(r2[1..], d) {
      TailWithDate(r1, d);
      TailWithDate(r2, d);
      var n := if DateKey(r1[0]) == d then 1 else 0;
      assert WithDate(r1[1..], d) == WithDate(r1, d)[n..];
      assert WithDate(r2[1..], d) == WithDate(r2, d)[n..];
    }
  }

  /** The heads of two such lists share their date, and then are the same project. */
  lemma SameDateHeads(r1: seq<Project>, r2: seq<Project>, m: SortMode)
    requires Sorted(r1, m) && Sorted(r2, m) && r1 != [] && r2 != []
    requires forall d :: WithDate(r1, d) == WithDate(r2, d)
    ensures r1[0] == r2[0]
  {
    var a, b := r1[0], r2[0];
    var ka, kb := DateKey(a), DateKey(b);
    assert WithDate(r1, ka) == WithDate(r2, ka);
    assert WithDate(r1, kb) == WithDate(r2, kb);
    WithDateMembers(r1, ka, a);
    WithDateMembers(r2, ka, a);
    WithDateMembers(r1, kb, b);
    WithDateMembers(r2, kb, b);
    assert a in r2;
    assert b in r1;
    LeFirst(r2, a, m);
    LeFirst(r1, b, m);
    LeBoth(m, a, b);
    assert ka == kb;
    TailWithDate(r1, ka);
    TailWithDate(r2, ka);
    assert WithDate(r1, ka)[0] == a;
    assert WithDate(r2, ka)[0] == b;
  }

  /** The date subsequence of a non-empty list, split at its head. */
  lemma TailWithDate(s: seq<Project>, d: string)
    requires s != []
    ensures WithDate(s, d) == (if DateKey(s[0]) == d then [s[0]] else []) + WithDate(s[1..], d)
  {
  }

  /** The head of a sorted list may precede every one of its elements. */
  lemma LeFirst(s: seq<Project>, y: Project, m: SortMode)
    requires Sorted(s, m) && y in s
    ensures Le(m, s[0], y)
  {
    LexLeRefl(DateKey(y));
  }

  /** Sorting a list that is already sorted leaves it as it is. */
  lemma SortedIsFixpoint(s: seq<Project>, m: SortMode)
    requires Sorted(s, m)
    ensures SortByDate(s, m) == s
  {
    forall d ensures WithDate(SortByDate(s, m), d) == WithDate(s, d) {
      SortByDateStable(s, m, d);
    }
    SortUnique(SortByDate(s, m), s, m);
  }

  /** `filteredProjects`: the matching projects, sorted by date under the mode, ties in list order. */
  function Visible(ps: seq<Project>, search: string, m: SortMode, lower: string -> string): (r: seq<Project>)
    ensures forall p :: p in r <==> p in ps && Matches(p, search, lower)
    ensures multiset(r) == multiset(Filtered(ps, search, lower))
    ensures Sorted(r, m)
  {
    SortByDate(Filtered(ps, search, lower), m)
  }

  /**
   * `filteredProjects` is the one list that holds the matching projects sorted by date with each
   * date's projects in list order: any such list equals it.
   */
  lemma VisibleIsTheStableSort(ps: seq<Project>, search: string, m: SortMode, lower: string -> string, r: seq<Project>)
    requires Sorted(r, m)
    requires forall d :: WithDate(r, d) == WithDate(Filtered(ps, search, lower), d)
    ensures r == Visible(ps, search, m, lower)
  {
    forall d ensures WithDate(Visible(ps, search, m, lower), d) == WithDate(r, d) {
      SortByDateStable(Filtered(ps, search, lower), m, d);
    }
    SortUnique(Visible(ps, search, m, lower), r, m);
  }

  /** With an empty search the tab lists every project, only reordered by date. */
  lemma EmptySearchShowsAll(ps: seq<Project>, m: SortMode, lower: string -> string)
    requires lower("") == ""
    ensures multiset(Visible(ps, "", m, lower)) == multiset(ps)
    ensures forall d :: WithDate(Visible(ps, "", m, lower), d) == WithDate(ps, d)
  {
    EmptySearchKeepsAll(ps, lower);
    forall d ensures WithDate(Visible(ps, "", m, lower), d) == WithDate(ps, d) {
      SortByDateStable(ps, m, d);
    }
  }

  // ---------------------------------------------------------------- the tab

  const LoadError := "Помилка завантаження проєктів: "
  const Updated := "Проєкт оновлено!"
  const Added := "Проєкт додано!"
  const SaveError := "Помилка при збереженні проєкту: "
  const DeletedUndoable := "Проєкт видалено! Можна відновити."
  const DeleteError := "Помилка при видаленні проєкту: "
  const Restored := "Проєкт відновлено!"
  const RestoreError := "Не вдалося відновити проєкт"

  /** The draft the "add" button opens: no id, today's date, the first category and no images. */
  function NewDraft(today: string): (p: Project)
    ensures !HasId(p) && p.date == Some(today) && p.category == Some("MSD Classic")
    ensures ProjectEditing.Merge(Some(p)) == ProjectEditing.Defaults.(date := today)
  {
    Project(None, Some(""), Some(""), Some("MSD Classic"), Some(today), Some(""), Some([]))
  }

  /** A fresh draft cannot be submitted until its title and description are typed in. */
  lemma NewDraftNotReady(today: string, title: string, description: string)
    ensures !ProjectEditing.ReadyToSave(ProjectEditing.Merge(Some(NewDraft(today))))
    ensures var f := ProjectEditing.Merge(Some(NewDraft(today)));
            (ProjectEditing.ReadyToSave(f.(title := title, description := description))
             <==> title != "" && description != "" && today != "")
  {
  }

  /** What the tab lists after a load of `f`: `data || []`, or the old list when the load failed. */
  function Reloaded(old_: seq<Project>, f: Fetch<Project>): (r: seq<Project>)
    ensures f.Fetched? && f.data.Some? ==> r == f.data.value
    ensures f.Fetched? && f.data.None? ==> r == []
    ensures f.FetchFailed? ==> r == old_
  {
    if f.FetchFailed? then old_ else f.data.GetOr([])
  }

  /**
   * The tab's reload is the panel's load with `null` read as the empty list: a successful reload
   * does not depend on the old list, a failed one keeps it.
   */
  lemma ReloadedIsLoaded(a: seq<Project>, b: seq<Project>, f: Fetch<Project>)
    ensures Reloaded(a, f) == Admin.Loaded(Some(a), f).GetOr([])
    ensures f.Fetched? ==> Reloaded(a, f) == Reloaded(b, f)
    ensures Reloaded(Reloaded(a, f), f) == Reloaded(a, f)
  {
  }

  class GalleryTab {
    var projects: seq<Project>
    var editingProject: Option<Project>
    var loading: bool
    var search: string
    var sort: SortMode
    var undoProject: Option<Project>
    var calls: seq<Request>
    const notifier: Admin.Notifier
    const modal: Admin.ConfirmModal
    /** `toLowerCase`, which the search applies to both sides. */
    const lower: string -> string

    constructor (notifier: Admin.Notifier, modal: Admin.ConfirmModal, lower: string -> string)
      ensures projects == [] && editingProject == None && !loading && search == "" && sort == DateDesc
      ensures undoProject == None && calls == []
      ensures this.notifier == notifier && this.modal == modal && this.lower == lower
    {
      projects := [];
      editingProject := None;
      loading := false;
      search := "";
      sort := DateDesc;
      undoProject := None;
      calls := [];
      this.notifier := notifier;
      this.modal := modal;
      this.lower := lower;
    }

    /** `filteredProjects` for the current list, search and sort. */
    function Shown(): (r: seq<Project>)
      reads this
      ensures forall p :: p in r <==> p in projects && Matches(p, search, lower)
      ensures Sorted(r, sort)
    {
      Visible(projects, search, sort, lower)
    }

    /** `loadProjects`: a failed load keeps the list and raises an error; it never throws. */
    method LoadProjects(f: Fetch<Project>, now: int)
      modifies this, notifier
      ensures projects == Reloaded(old(projects), f)
      ensures calls == old(calls) + [ListProjects]
      ensures notifier.notifications == old(notifier.notifications) + Admin.LoadNotes(f, LoadError, now)
      ensures editingProject == old(editingProject) && loading == old(loading) && search == old(search)
      ensures sort == old(sort) && undoProject == old(undoProject)
    {
      calls := calls + [ListProjects];
      if f.Fetched? {
        projects := f.data.GetOr([]);
      } else {
        notifier.Show(LoadError + f.message, Some(Admin.Error), None, now);
      }
    }

    /**
     * `handleSave` with the form's draft: update when it has an id, insert otherwise; on success
     * close the form and reload. `loading` is down again afterwards in every case. `now` is the
     * clock when the save settles; `reloadAt` is the clock when the awaited reload settles.
     */
    method HandleSave(draft: ProjectEditing.FormData, outcome: Outcome, f: Fetch<Project>, now: int, reloadAt: int)
      modifies this, notifier
      ensures var p := ProjectEditing.AsProject(draft);
              && (outcome.Resolved? ==>
                    && calls == old(calls) + [SaveRequest(p), ListProjects]
                    && editingProject == None && projects == Reloaded(old(projects), f)
                    && notifier.notifications == old(notifier.notifications)
                         + [Admin.Note(now, if HasId(p) then Updated else Added, Admin.Success)]
                         + Admin.LoadNotes(f, LoadError, reloadAt))
              && (outcome.Rejected? ==>
                    && calls == old(calls) + [SaveRequest(p)]
                    && editingProject == old(editingProject) && projects == old(projects)
                    && notifier.notifications == old(notifier.notifications) + [Admin.Note(now, SaveError + outcome.message, Admin.Error)])
      ensures !loading && search == old(search) && sort == old(sort) && undoProject == old(undoProject)
    {
      loading := true;
      var p := ProjectEditing.AsProject(draft);
      calls := calls + [SaveRequest(p)];
      if outcome.Resolved? {
        notifier.Show(if HasId(p) then Updated else Added, Some(Admin.Success), None, now);
        editingProject := None;
        LoadProjects(f, reloadAt);
      } else {
        notifier.Show(SaveError + outcome.message, Some(Admin.Error), None, now);
      }
      loading := false;
    }

    /** `handleDelete`: captures the listed project with that id (if any) and asks for confirmation. */
    method HandleDelete(id: int)
      modifies modal
      ensures modal.state == Admin.ModalState(true, Admin.DeleteProjectTitle, Admin.DeleteProjectMessage,
                Some(Admin.PendingConfirm(Admin.RemoveGalleryProject(id, Find(projects, id)), old(modal.state))))
    {
      modal.Open(Admin.DeleteProjectTitle, Admin.DeleteProjectMessage, Admin.RemoveGalleryProject(id, Find(projects, id)));
    }

    /**
     * The confirmed delete: on success the captured project becomes the undo candidate, the list
     * reloads and the modal closes; on failure only an error is raised and the modal stays open.
     * `now` is the clock when the delete settles; `reloadAt` when the awaited reload settles.
     */
    method ConfirmDelete(outcome: Outcome, f: Fetch<Project>, now: int, reloadAt: int)
      requires modal.state.onConfirm.Some? && modal.state.onConfirm.value.action.RemoveGalleryProject?
      modifies this, notifier, modal
      ensures var pending := old(modal.state.onConfirm.value);
              && (outcome.Resolved? ==>
                    && calls == old(calls) + [DeleteProject(pending.action.galleryId), ListProjects]
                    && undoProject == pending.action.captured
                    && projects == Reloaded(old(projects), f)
                    && notifier.notifications == old(notifier.notifications)
                         + [Admin.Note(now, DeletedUndoable, Admin.Success)] + Admin.LoadNotes(f, LoadError, reloadAt)
                    && modal.state == pending.closesTo.(isOpen := false))
              && (outcome.Rejected? ==>
                    && calls == old(calls) + [DeleteProject(pending.action.galleryId)]
                    && undoProject == old(undoProject) && projects == old(projects)
                    && notifier.notifications == old(notifier.notifications) + [Admin.Note(now, DeleteError + outcome.message, Admin.Error)]
                    && modal.state == old(modal.state))
      ensures editingProject == old(editingProject) && loading == old(loading) && search == old(search) && sort == old(sort)
    {
      var action := modal.state.onConfirm.value.action;
      calls := calls + [DeleteProject(action.galleryId)];
      if outcome.Resolved? {
        undoProject := action.captured;
        notifier.Show(DeletedUndoable, Some(Admin.Success), None, now);
        LoadProjects(f, reloadAt);
        modal.CloseAfterConfirm();
      } else {
        notifier.Show(DeleteError + outcome.message, Some(Admin.Error), None, now);
      }
    }

    /**
     * `handleUndo`: re-inserts the deleted project without its id (the store gives it a new one);
     * with no candidate nothing happens. `now` is the clock when the insert settles; `reloadAt`
     * when the awaited reload settles.
     */
    method HandleUndo(outcome: Outcome, f: Fetch<Project>, now: int, reloadAt: int)
      modifies this, notifier
      ensures old(undoProject).None? ==>
                calls == old(calls) && projects == old(projects) && undoProject == None
                && notifier.notifications == old(notifier.notifications)
      ensures old(undoProject).Some? && outcome.Resolved? ==>
                && calls == old(calls) + [InsertProject(Persisted(old(undoProject).value.(id := None))), ListProjects]
                && undoProject == None && projects == Reloaded(old(projects), f)
                && notifier.notifications == old(notifier.notifications)
                     + [Admin.Note(now, Restored, Admin.Success)] + Admin.LoadNotes(f, LoadError, reloadAt)
      ensures old(undoProject).Some? && outcome.Rejected? ==>
                && calls == old(calls) + [InsertProject(Persisted(old(undoProject).value.(id := None)))]
                && undoProject == old(undoProject) && projects == old(projects)
                && notifier.notifications == old(notifier.notifications) + [Admin.Note(now, RestoreError, Admin.Error)]
      ensures editingProject == old(editingProject) && loading == old(loading) && search == old(search) && sort == old(sort)
    {
      if undoProject.None? {
        return;
      }
      var restore := undoProject.value.(id := None);
      calls := calls + [InsertProject(Persisted(restore))];
      if outcome.Resolved? {
        notifier.Show(Restored, Some(Admin.Success), None, now);
        undoProject := None;
        LoadProjects(f, reloadAt);
      } else {
        notifier.Show(RestoreError, Some(Admin.Error), None, now);
      }
    }

    /** The undo banner's close button. */
    method DismissUndo()
      modifies this
      ensures undoProject == None
      ensures projects == old(projects) && editingProject == old(editingProject) && loading == old(loading)
      ensures search == old(search) && sort == old(sort) && calls == old(calls)
    {
      undoProject := None;
    }

    /** The sort button flips between newest first and oldest first. */
    method ToggleSort()
      modifies this
      ensures sort == Toggle(old(sort)) && sort != old(sort)
      ensures projects == old(projects) && editingProject == old(editingProject) && loading == old(loading)
      ensures search == old(search) && undoProject == old(undoProject) && calls == old(calls)
    {
      sort := Toggle(sort);
    }

    method SetSearch(text: string)
      modifies this
      ensures search == text
      ensures projects == old(projects) && editingProject == old(editingProject) && loading == old(loading)
      ensures sort == old(sort) && undoProject == old(undoProject) && calls == old(calls)
    {
      search := text;
    }

    /** The "add" button opens the form on a fresh draft dated `today`. */
    method AddNew(today: string)
      modifies this
      ensures editingProject == Some(NewDraft(today))
      ensures projects == old(projects) && loading == old(loading) && search == old(search)
      ensures sort == old(sort) && undoProject == old(undoProject) && calls == old(calls)
    {
      editingProject := Some(NewDraft(today));
    }

    /** A card's edit button opens the form on that project. */
    method Edit(p: Project)
      modifies this
      ensures editingProject == Some(p)
      ensures projects == old(projects) && loading == old(loading) && search == old(search)
      ensures sort == old(sort) && undoProject == old(undoProject) && calls == old(calls)
    {
      editingProject := Some(p);
    }

    /** The form's `onClose`. */
    method CloseForm()
      modifies this
      ensures editingProject == None
      ensures projects == old(projects) && loading == old(loading) && search == old(search)
      ensures sort == old(sort) && undoProject == old(undoProject) && calls == old(calls)
    {
      editingProject := None;
    }
  }

  /**
   * Two confirmed deletes in a row: the undo slot holds only the project of the second one, so
   * at most one deletion can be undone.
   */
  method LastDeleteWins(lower: string -> string) returns (undo: Option<Project>)
    ensures undo == Some(Project(Some(2), Some("Офіс"), None, None, Some("2024-02-01"), None, None))
  {
    var first := Project(Some(1), Some("Кухня"), None, None, Some("2024-01-01"), None, None);
    var second := Project(Some(2), Some("Офіс"), None, None, Some("2024-02-01"), None, None);
    var notifier := new Admin.Notifier();
    var modal := new Admin.ConfirmModal();
    var tab := new GalleryTab(notifier, modal, lower);
    tab.LoadProjects(Fetched(Some([first, second])), 0);
    tab.HandleDelete(1);
    tab.ConfirmDelete(Resolved, Fetched(Some([second])), 1, 2);
    tab.HandleDelete(2);
    tab.ConfirmDelete(Resolved, Fetched(Some([])), 3, 4);
    undo := tab.undoProject;
  }
}
