/**
 * The admin panel page: its notification list, its confirmation modal, and its own project and
 * submission bookkeeping. Every backend call is an oracle argument; every handler runs to
 * completion in one step.
 */
module Admin {
  import opened Wrappers
  import opened Records
  import Seqs

  datatype Kind = Info | Success | Error

  datatype Notification = Notification(id: int, message: string, kind: Kind, duration: int)

  const DefaultDuration: int := 4000

  /** A notification as the handlers raise it: with the default duration. */
  function Note(now: int, message: string, kind: Kind): Notification {
    Notification(now, message, kind, DefaultDuration)
  }

  /** The entries that survive removing `id`: every entry with another id, in order. */
  function WithoutId(ns: seq<Notification>, id: int): (r: seq<Notification>)
    ensures forall n :: n in r <==> n in ns && n.id != id
    ensures forall n :: multiset(r)[n] == if n.id != id then multiset(ns)[n] else 0
  {
    Seqs.Keep(ns, (n: Notification) => n.id != id)
  }

  /** Removing an id from a concatenation removes it from each part, so the survivors keep their order. */
  lemma WithoutIdConcat(a: seq<Notification>, b: seq<Notification>, id: int)
    ensures WithoutId(a + b, id) == WithoutId(a, id) + WithoutId(b, id)
  {
    Seqs.KeepConcat(a, b, (n: Notification) => n.id != id);
  }

  /** A notification shown and then removed by its own id leaves the list as it was, when no older entry shares that id. */
  lemma {:induction false} ShowThenDismiss(ns: seq<Notification>, n: Notification)
    requires forall i :: 0 <= i < |ns| ==> ns[i].id != n.id
    ensures WithoutId(ns + [n], n.id) == ns
  {
    WithoutIdConcat(ns, [n], n.id);
    Seqs.KeepAll(ns, (m: Notification) => m.id != n.id);
    assert WithoutId([n], n.id) == [];
  }

  /**
   * Two notices raised by one handler at different clock readings expire separately: the first
   * one's timer removes it and leaves the second in place.
   */
  lemma {:induction false} FirstExpiryKeepsSecond(ns: seq<Notification>, a: Notification, b: Notification)
    requires forall i :: 0 <= i < |ns| ==> ns[i].id != a.id
    requires a.id != b.id
    ensures WithoutId(ns + [a, b], a.id) == ns + [b]
  {
    assert ns + [a, b] == (ns + [a]) + [b];
    WithoutIdConcat(ns + [a], [b], a.id);
    ShowThenDismiss(ns, a);
    Seqs.KeepAll([b], (m: Notification) => m.id != a.id);
  }

  class Notifier {
    var notifications: seq<Notification>

    constructor ()
      ensures notifications == []
    {
      notifications := [];
    }

    /** `showNotification`: appends one entry whose id is the clock reading; kind defaults to info, duration to 4000 ms. */
    method Show(message: string, kind: Option<Kind>, duration: Option<int>, now: int)
      modifies this
      ensures notifications == old(notifications) + [Notification(now, message, kind.GetOr(Info), duration.GetOr(DefaultDuration))]
    {
      notifications := notifications + [Notification(now, message, kind.GetOr(Info), duration.GetOr(DefaultDuration))];
    }

    /** The expiry timer and the close button: removes every entry with this id, keeping the rest in order. */
    method Dismiss(id: int)
      modifies this
      ensures notifications == WithoutId(old(notifications), id)
      ensures forall n :: n in notifications <==> n in old(notifications) && n.id != id
    {
      notifications := WithoutId(notifications, id);
    }
  }

  /** The `onConfirm` callbacks handed to the modal, by what they delete and what they captured. */
  datatype ConfirmAction =
    | RemoveProject(projectId: int)
    | RemoveSubmission(submissionId: int)
    | RemoveGalleryProject(galleryId: int, captured: Option<Project>)

  /** The modal's state. `onConfirm` carries the action and the state the modal had when it was opened. */
  datatype ModalState = ModalState(isOpen: bool, title: string, message: string, onConfirm: Option<PendingConfirm>)

  /** A confirm callback; its close function restores `closesTo` (the pre-open state) with the modal shut. */
  datatype PendingConfirm = PendingConfirm(action: ConfirmAction, closesTo: ModalState)

  const ClosedModal: ModalState := ModalState(false, "", "", None)

  class ConfirmModal {
    var state: ModalState

    constructor ()
      ensures state == ClosedModal
    {
      state := ClosedModal;
    }

    /** `openConfirmModal`: opens with this title and message; the callback remembers the state before opening. */
    method Open(title: string, message: string, action: ConfirmAction)
      modifies this
      ensures state == ModalState(true, title, message, Some(PendingConfirm(action, old(state))))
      ensures state.isOpen
    {
      state := ModalState(true, title, message, Some(PendingConfirm(action, state)));
    }

    /** `closeConfirmModal` from the current render (the cancel buttons): only `isOpen` changes. */
    method Cancel()
      modifies this
      ensures state == old(state).(isOpen := false)
      ensures !state.isOpen
    {
      state := state.(isOpen := false);
    }

    /** The close function a confirm callback calls: it sets the state captured at opening, shut. */
    method CloseAfterConfirm()
      requires state.onConfirm.Some?
      modifies this
      ensures state == old(state).onConfirm.value.closesTo.(isOpen := false)
      ensures !state.isOpen
    {
      state := state.onConfirm.value.closesTo.(isOpen := false);
    }
  }

  const LoadProjectsError := "Помилка при завантаженні проєктів: "
  const LoadSubmissionsError := "Помилка при завантаженні заявок: "
  const ImageRequired := "Будь ласка, завантажте зображення проекту"
  const ProjectUpdated := "Проєкт оновлено!"
  const ProjectAdded := "Проєкт додано!"
  const SaveProjectError := "Помилка при збереженні проекту: "
  const DeleteProjectTitle := "Видалити проєкт?"
  const DeleteProjectMessage := "Ви впевнені, що хочете видалити цей проєкт? Цю дію не можна буде скасувати."
  const ProjectDeleted := "Проєкт видалено!"
  const DeleteProjectError := "Помилка при видаленні проекту: "
  const DeleteSubmissionTitle := "Видалити заявку?"
  const DeleteSubmissionMessage := "Ви впевнені, що хочете видалити цю заявку? Цю дію не можна буде скасувати."
  const SubmissionDeleted := "Заявку видалено!"
  const DeleteSubmissionError := "Помилка при видаленні заявки: "

  /** The notification a list load adds: none on success, one error entry on failure. */
  function LoadNotes<T>(f: Fetch<T>, prefix: string, now: int): (r: seq<Notification>)
    ensures f.Fetched? ==> r == []
    ensures f.FetchFailed? ==> r == [Note(now, prefix + f.message, Error)]
  {
    if f.Fetched? then [] else [Note(now, prefix + f.message, Error)]
  }

  /** `setProjects(data)` after a load: the fetched data as it came, `null` included; a failed load keeps the old list. */
  function Loaded<T>(old_: Option<seq<T>>, f: Fetch<T>): (r: Option<seq<T>>)
    ensures f.Fetched? ==> r == f.data
    ensures f.FetchFailed? ==> r == old_
  {
    if f.Fetched? then f.data else old_
  }

  /** A load posts an error exactly when it leaves the list as it was for want of data. */
  lemma LoadNotesIff<T>(old_: Option<seq<T>>, f: Fetch<T>, prefix: string, now: int)
    ensures LoadNotes(f, prefix, now) != [] <==> f.FetchFailed?
    ensures LoadNotes(f, prefix, now) != [] ==> Loaded(old_, f) == old_
    ensures |LoadNotes(f, prefix, now)| <= 1
  {
  }

  /** A successful load does not depend on what was listed before it; a failed one changes nothing. */
  lemma LoadedIgnoresOld<T>(a: Option<seq<T>>, b: Option<seq<T>>, f: Fetch<T>)
    ensures f.Fetched? ==> Loaded(a, f) == Loaded(b, f)
    ensures f.FetchFailed? ==> Loaded(a, f) == a && Loaded(Loaded(a, f), f) == Loaded(a, f)
  {
  }

  /** The list after a run of loads, e.g. reloads after successive saves and deletes. */
  function LoadSeries<T>(old_: Option<seq<T>>, fs: seq<Fetch<T>>): Option<seq<T>>
    decreases |fs|
  {
    if fs == [] then old_ else LoadSeries(Loaded(old_, fs[0]), fs[1..])
  }

  /** After a run of loads the panel shows what the last successful one fetched. */
  lemma {:induction false} LoadSeriesLastWins<T>(old_: Option<seq<T>>, fs: seq<Fetch<T>>, k: nat)
    requires k < |fs| && fs[k].Fetched?
    requires forall j :: k < j < |fs| ==> fs[j].FetchFailed?
    ensures LoadSeries(old_, fs) == fs[k].data
    decreases |fs|
  {
    if k == 0 {
      LoadSeriesAllFailed(Loaded(old_, fs[0]), fs[1..]);
    } else {
      LoadSeriesLastWins(Loaded(old_, fs[0]), fs[1..], k - 1);
    }
  }

  /** A run of failed loads keeps the list it started from. */
  lemma {:induction false} LoadSeriesAllFailed<T>(old_: Option<seq<T>>, fs: seq<Fetch<T>>)
    requires forall j :: 0 <= j < |fs| ==> fs[j].FetchFailed?
    ensures LoadSeries(old_, fs) == old_
    decreases |fs|
  {
    if fs != [] {
      LoadSeriesAllFailed(Loaded(old_, fs[0]), fs[1..]);
    }
  }

  /** A signed-in user, as far as the panel cares. */
  datatype Session = Session(user: string)

  class AdminPanel {
    var session: Option<Session>
    var projects: Option<seq<Project>>
    var submissions: Option<seq<Submission>>
    var editingProject: Option<Project>
    var calls: seq<Request>
    const notifier: Notifier
    const modal: ConfirmModal

    constructor ()
      ensures session == None && projects == Some([]) && submissions == Some([]) && editingProject == None
      ensures calls == [] && fresh(notifier) && fresh(modal)
      ensures notifier.notifications == [] && modal.state == ClosedModal
    {
      session := None;
      projects := Some([]);
      submissions := Some([]);
      editingProject := None;
      calls := [];
      notifier := new Notifier();
      modal := new ConfirmModal();
    }

    /** `loadProjects`: a failed load keeps the list and shows an error. */
    method LoadProjects(f: Fetch<Project>, now: int)
      modifies this, notifier
      ensures projects == Loaded(old(projects), f)
      ensures calls == old(calls) + [ListProjects]
      ensures notifier.notifications == old(notifier.notifications) + LoadNotes(f, LoadProjectsError, now)
      ensures session == old(session) && submissions == old(submissions) && editingProject == old(editingProject)
    {
      calls := calls + [ListProjects];
      if f.Fetched? {
        projects := f.data;
      } else {
        notifier.Show(LoadProjectsError + f.message, Some(Error), None, now);
      }
    }

    /** `loadSubmissions`: the same for the submissions list. */
    method LoadSubmissions(f: Fetch<Submission>, now: int)
      modifies this, notifier
      ensures submissions == Loaded(old(submissions), f)
      ensures calls == old(calls) + [ListSubmissions]
      ensures notifier.notifications == old(notifier.notifications) + LoadNotes(f, LoadSubmissionsError, now)
      ensures session == old(session) && projects == old(projects) && editingProject == old(editingProject)
    {
      calls := calls + [ListSubmissions];
      if f.Fetched? {
        submissions := f.data;
      } else {
        notifier.Show(LoadSubmissionsError + f.message, Some(Error), None, now);
      }
    }

    /**
     * The session effect: when the session changes, both lists load if and only if there is a
     * session. The two loads run side by side, and each error notice takes the clock reading of
     * the moment its own load settled (`projectsAt`, `submissionsAt`).
     */
    method SessionChanged(s: Option<Session>, fp: Fetch<Project>, fs: Fetch<Submission>, projectsAt: int, submissionsAt: int)
      modifies this, notifier
      ensures session == s && editingProject == old(editingProject)
      ensures s.None? ==> projects == old(projects) && submissions == old(submissions) && calls == old(calls)
      ensures s.None? ==> notifier.notifications == old(notifier.notifications)
      ensures s.Some? ==> projects == Loaded(old(projects), fp) && submissions == Loaded(old(submissions), fs)
      ensures s.Some? ==> calls == old(calls) + [ListProjects, ListSubmissions]
      ensures s.Some? ==> notifier.notifications == old(notifier.notifications) + LoadNotes(fp, LoadProjectsError, projectsAt) + LoadNotes(fs, LoadSubmissionsError, submissionsAt)
    {
      session := s;
      if s.Some? {
        LoadProjects(fp, projectsAt);
        LoadSubmissions(fs, submissionsAt);
      }
    }

    /**
     * `handleSaveProject`: without an image nothing is sent; otherwise update or insert, and on
     * success forget the draft and reload. With no draft at all, reading `image_url` of `null`
     * throws before the `try`, so the handler's promise rejects and nothing happens. `now` is
     * the clock when the save settles; `reloadAt` is the clock when the reload settles.
     */
    method SaveProject(outcome: Outcome, f: Fetch<Project>, now: int, reloadAt: int)
      modifies this, notifier
      ensures old(editingProject).None? ==>
                && calls == old(calls) && editingProject == None && projects == old(projects)
                && notifier.notifications == old(notifier.notifications)
      ensures old(editingProject).Some? ==>
              var p := old(editingProject.value);
              && (p.imageUrl.GetOr("") == "" ==>
                    && calls == old(calls) && editingProject == old(editingProject) && projects == old(projects)
                    && notifier.notifications == old(notifier.notifications) + [Note(now, ImageRequired, Error)])
              && (p.imageUrl.GetOr("") != "" && outcome.Resolved? ==>
                    && calls == old(calls) + [SaveRequest(p), ListProjects]
                    && editingProject == None && projects == Loaded(old(projects), f)
                    && notifier.notifications == old(notifier.notifications)
                         + [Note(now, if HasId(p) then ProjectUpdated else ProjectAdded, Success)]
                         + LoadNotes(f, LoadProjectsError, reloadAt))
              && (p.imageUrl.GetOr("") != "" && outcome.Rejected? ==>
                    && calls == old(calls) + [SaveRequest(p)]
                    && editingProject == old(editingProject) && projects == old(projects)
                    && notifier.notifications == old(notifier.notifications) + [Note(now, SaveProjectError + outcome.message, Error)])
      ensures session == old(session) && submissions == old(submissions)
    {
      if editingProject.None? {
        return;
      }
      var p := editingProject.value;
      if p.imageUrl.GetOr("") == "" {
        notifier.Show(ImageRequired, Some(Error), None, now);
        return;
      }
      calls := calls + [SaveRequest(p)];
      if outcome.Resolved? {
        notifier.Show(if HasId(p) then ProjectUpdated else ProjectAdded, Some(Success), None, now);
        editingProject := None;
        LoadProjects(f, reloadAt);
      } else {
        notifier.Show(SaveProjectError + outcome.message, Some(Error), None, now);
      }
    }

    /** `handleDeleteProjectClick`: asks first; nothing is deleted yet. */
    method DeleteProjectClick(id: int)
      modifies modal
      ensures modal.state == ModalState(true, DeleteProjectTitle, DeleteProjectMessage, Some(PendingConfirm(RemoveProject(id), old(modal.state))))
    {
      modal.Open(DeleteProjectTitle, DeleteProjectMessage, RemoveProject(id));
    }

    /** `handleDeleteSubmissionClick`: asks first; nothing is deleted yet. */
    method DeleteSubmissionClick(id: int)
      modifies modal
      ensures modal.state == ModalState(true, DeleteSubmissionTitle, DeleteSubmissionMessage, Some(PendingConfirm(RemoveSubmission(id), old(modal.state))))
    {
      modal.Open(DeleteSubmissionTitle, DeleteSubmissionMessage, RemoveSubmission(id));
    }

    /**
     * The confirmed project delete: delete, then (on success) reload, and in every case close
     * the modal. The reload is not awaited, so the success notice (clock `now`) comes before any
     * load error (clock `reloadAt`, when the reload settles).
     */
    method ConfirmProjectDelete(outcome: Outcome, f: Fetch<Project>, now: int, reloadAt: int)
      requires modal.state.onConfirm.Some? && modal.state.onConfirm.value.action.RemoveProject?
      modifies this, notifier, modal
      ensures var pending := old(modal.state.onConfirm.value);
              && modal.state == pending.closesTo.(isOpen := false)
              && (outcome.Resolved? ==>
                    && calls == old(calls) + [DeleteProject(pending.action.projectId), ListProjects]
                    && projects == Loaded(old(projects), f)
                    && notifier.notifications == old(notifier.notifications) + [Note(now, ProjectDeleted, Success)] + LoadNotes(f, LoadProjectsError, reloadAt))
              && (outcome.Rejected? ==>
                    && calls == old(calls) + [DeleteProject(pending.action.projectId)]
                    && projects == old(projects)
                    && notifier.notifications == old(notifier.notifications) + [Note(now, DeleteProjectError + outcome.message, Error)])
      ensures !modal.state.isOpen
      ensures session == old(session) && submissions == old(submissions) && editingProject == old(editingProject)
    {
      var id := modal.state.onConfirm.value.action.projectId;
      calls := calls + [DeleteProject(id)];
      if outcome.Resolved? {
        calls := calls + [ListProjects];
        notifier.Show(ProjectDeleted, Some(Success), None, now);
        if f.Fetched? {
          projects := f.data;
        } else {
          notifier.Show(LoadProjectsError + f.message, Some(Error), None, reloadAt);
        }
      } else {
        notifier.Show(DeleteProjectError + outcome.message, Some(Error), None, now);
      }
      modal.CloseAfterConfirm();
    }

    /** The confirmed submission delete: the same shape over the submissions list. */
    method ConfirmSubmissionDelete(outcome: Outcome, f: Fetch<Submission>, now: int, reloadAt: int)
      requires modal.state.onConfirm.Some? && modal.state.onConfirm.value.action.RemoveSubmission?
      modifies this, notifier, modal
      ensures var pending := old(modal.state.onConfirm.value);
              && modal.state == pending.closesTo.(isOpen := false)
              && (outcome.Resolved? ==>
                    && calls == old(calls) + [DeleteSubmission(pending.action.submissionId), ListSubmissions]
                    && submissions == Loaded(old(submissions), f)
                    && notifier.notifications == old(notifier.notifications) + [Note(now, SubmissionDeleted, Success)] + LoadNotes(f, LoadSubmissionsError, reloadAt))
              && (outcome.Rejected? ==>
                    && calls == old(calls) + [DeleteSubmission(pending.action.submissionId)]
                    && submissions == old(submissions)
                    && notifier.notifications == old(notifier.notifications) + [Note(now, DeleteSubmissionError + outcome.message, Error)])
      ensures !modal.state.isOpen
      ensures session == old(session) && projects == old(projects) && editingProject == old(editingProject)
    {
      var id := modal.state.onConfirm.value.action.submissionId;
      calls := calls + [DeleteSubmission(id)];
      if outcome.Resolved? {
        calls := calls + [ListSubmissions];
        notifier.Show(SubmissionDeleted, Some(Success), None, now);
        if f.Fetched? {
          submissions := f.data;
        } else {
          notifier.Show(LoadSubmissionsError + f.message, Some(Error), None, reloadAt);
        }
      } else {
        notifier.Show(DeleteSubmissionError + outcome.message, Some(Error), None, now);
      }
      modal.CloseAfterConfirm();
    }

    /**
     * The submissions tab's delete button as the panel wires it: the store's delete is called
     * directly (not awaited, no confirmation) and the tab announces success at once; the list
     * is not reloaded.
     */
    method SubmissionsTabDelete(id: int, now: int)
      modifies this, notifier
      ensures calls == old(calls) + [DeleteSubmission(id)]
      ensures notifier.notifications == old(notifier.notifications) + [Note(now, SubmissionDeleted, Success)]
      ensures submissions == old(submissions) && projects == old(projects)
      ensures session == old(session) && editingProject == old(editingProject)
    {
      calls := calls + [DeleteSubmission(id)];
      notifier.Show(SubmissionDeleted, Some(Success), None, now);
    }
  }

  /** The order the submissions tab lists them in: the loaded order reversed. */
  function Listing(subs: seq<Submission>): (r: seq<Submission>)
    ensures |r| == |subs|
    ensures forall i :: 0 <= i < |subs| ==> r[i] == subs[|subs| - 1 - i]
  {
    if subs == [] then [] else [subs[|subs| - 1]] + Listing(subs[..|subs| - 1])
  }

  /** Listing is its own inverse and keeps the same submissions. */
  lemma ListingTwiceRestores(subs: seq<Submission>)
    ensures Listing(Listing(subs)) == subs
    ensures multiset(Listing(subs)) == multiset(subs)
  {
    var r := Listing(subs);
    assert Listing(r) == subs;
    ListingSameMultiset(subs);
  }

  lemma {:induction false} ListingSameMultiset(subs: seq<Submission>)
    ensures multiset(Listing(subs)) == multiset(subs)
    decreases |subs|
  {
    if subs != [] {
      var front := subs[..|subs| - 1];
      ListingSameMultiset(front);
      assert subs == front + [subs[|subs| - 1]];
    }
  }

  const Sample: Submission := Submission(7, Lead("Ім'я", "+380501234567", "a@b.c", "Стеля"), None)

  /**
   * As wired, deleting a submission reports success while the submission stays listed, and
   * does so whatever the store later does with the request.
   */
  /**
   * Both lists fail to load on sign-in: the two errors carry their own clock readings, so the
   * first one's expiry leaves the second on screen.
   */
  method LoadErrorsExpireSeparately() returns (left: seq<Notification>)
    ensures left == [Note(8, LoadSubmissionsError + "b", Error)]
  {
    var panel := new AdminPanel();
    panel.SessionChanged(Some(Session("admin")), FetchFailed("a"), FetchFailed("b"), 7, 8);
    panel.notifier.Dismiss(7);
    left := panel.notifier.notifications;
    FirstExpiryKeepsSecond([], Note(7, LoadProjectsError + "a", Error), Note(8, LoadSubmissionsError + "b", Error));
  }

  method DeletedSubmissionStaysListed() returns (listed: bool, last: Notification)
    ensures listed && last == Note(0, SubmissionDeleted, Success)
  {
    var panel := new AdminPanel();
    panel.submissions := Some([Sample]);
    panel.SubmissionsTabDelete(Sample.id, 0);
    listed := Sample in panel.submissions.value;
    last := panel.notifier.notifications[|panel.notifier.notifications| - 1];
  }

  /**
   * Wired to the confirming handler instead, a rejected delete keeps the submission and
   * reports the error, and nothing is sent before the user confirms.
   */
  method ConfirmedDeleteReportsFailure(message: string) returns (sentBeforeConfirm: bool, listed: bool, last: Notification)
    ensures !sentBeforeConfirm && listed && last == Note(0, DeleteSubmissionError + message, Error)
  {
    var panel := new AdminPanel();
    panel.submissions := Some([Sample]);
    panel.DeleteSubmissionClick(Sample.id);
    sentBeforeConfirm := panel.calls != [];
    panel.ConfirmSubmissionDelete(Rejected(message), Fetched(None), 0, 1);
    listed := Sample in panel.submissions.value;
    last := panel.notifier.notifications[|panel.notifier.notifications| - 1];
  }
}
