/**
 * The admin page for the home banner's announcements: the list fetched from
 * the store, a search box, an add/edit dialog and per-row delete.
 */
module AnnouncementsAdmin {
  import opened Wrappers
  import opened JsText
  import opened SeqOps
  import opened Store
  import opened Records
  import opened AdminCommon

  /** The dialog's fields, as they are sent to the store. */
  datatype AnnouncementForm = AnnouncementForm(
    title: string, description: string, imageUrl: string, linkUrl: string,
    displayOrder: int, active: bool)

  const ImageRequired := "Por favor ingresa la URL de la imagen"
  const SaveFailedPrefix := "Error al guardar anuncio: "
  const DeletePrompt := "¿Eliminar este anuncio del banner?"

  function AnnouncementId(a: Announcement): string { a.id }

  /** The add dialog: empty text, placed after the current list, active. */
  function AddForm(count: nat): (f: AnnouncementForm)
    ensures f.title == "" && f.description == "" && f.imageUrl == "" && f.linkUrl == ""
    ensures f.displayOrder == count + 1 && f.active
  {
    AnnouncementForm("", "", "", "", count + 1, true)
  }

  /** The edit dialog: the record's fields, a missing text field as `""`. */
  function EditForm(a: Announcement): (f: AnnouncementForm)
    ensures f.title == OrEmpty(a.title) && f.description == OrEmpty(a.description)
    ensures f.linkUrl == OrEmpty(a.linkUrl)
    ensures f.imageUrl == a.imageUrl && f.displayOrder == a.displayOrder && f.active == a.active
  {
    AnnouncementForm(OrEmpty(a.title), OrEmpty(a.description), a.imageUrl, OrEmpty(a.linkUrl),
      a.displayOrder, a.active)
  }

  /** The row an update with this form leaves in the store for record `id`. */
  function Stored(id: string, f: AnnouncementForm): Announcement {
    Announcement(id, Some(f.title), Some(f.description), f.imageUrl, Some(f.linkUrl), f.displayOrder, f.active)
  }

  /** Saving the edit dialog unchanged writes the record back as it was, except
      that a missing text field is now stored as `""`. */
  lemma EditFormRoundTrip(a: Announcement)
    ensures Stored(a.id, EditForm(a)) == a.(title := Some(OrEmpty(a.title)),
      description := Some(OrEmpty(a.description)), linkUrl := Some(OrEmpty(a.linkUrl)))
    ensures a.title.Some? && a.description.Some? && a.linkUrl.Some? ==> Stored(a.id, EditForm(a)) == a
  {
  }

  predicate Matches(a: Announcement, term: string) {
    IncludesIgnoringCase(OrEmpty(a.title), term) || IncludesIgnoringCase(OrEmpty(a.description), term)
  }

  /** The search box: title or description, a missing one read as `""`. */
  function SearchAnnouncements(xs: seq<Announcement>, term: string): (r: seq<Announcement>)
    ensures forall a :: a in r <==> (a in xs &&
      (IncludesIgnoringCase(OrEmpty(a.title), term) || IncludesIgnoringCase(OrEmpty(a.description), term)))
    ensures IsSubsequence(r, xs)
    ensures forall a :: multiset(r)[a] == if Matches(a, term) then multiset(xs)[a] else 0
  {
    var keep := (a: Announcement) => Matches(a, term);
    FilterIsSubsequence(xs, keep);
    FilterMultiplicity(xs, keep);
    Filter(xs, keep)
  }

  lemma EmptySearchKeepsAll(xs: seq<Announcement>)
    ensures SearchAnnouncements(xs, "") == xs
  {
    forall i | 0 <= i < |xs| ensures Matches(xs[i], "") {
      EmptyQueryMatches(OrEmpty(xs[i].title));
    }
    FilterAll(xs, (a: Announcement) => Matches(a, ""));
  }

  class AnnouncementsPage {
    var announcements: seq<Announcement>
    var loading: bool
    var searchTerm: string
    var isDialogOpen: bool
    var editing: Option<Announcement>
    var saving: bool
    var form: AnnouncementForm
    var requests: seq<Call<AnnouncementForm>>
    var alerts: seq<string>
    var confirms: seq<string>

    /** The initial state, and the mount effect's fetch. */
    constructor ()
      ensures announcements == [] && loading && searchTerm == "" && !isDialogOpen
      ensures editing.None? && !saving && form == AnnouncementForm("", "", "", "", 0, true)
      ensures requests == [Select] && alerts == [] && confirms == []
    {
      announcements := [];
      loading := true;
      searchTerm := "";
      isDialogOpen := false;
      editing := None;
      saving := false;
      form := AnnouncementForm("", "", "", "", 0, true);
      requests := [Select];
      alerts := [];
      confirms := [];
    }

    /** What the table shows. */
    function Shown(): seq<Announcement>
      reads this
    {
      SearchAnnouncements(announcements, searchTerm)
    }

    /** The answer to the last fetch: a failure is only logged. */
    method Fetched(answer: Fetch<Announcement>)
      modifies this`announcements, this`loading
      ensures announcements == AfterFetch(old(announcements), answer) && !loading
    {
      announcements := AfterFetch(announcements, answer);
      loading := false;
    }

    method SearchChanged(term: string)
      modifies this`searchTerm
      ensures searchTerm == term
    {
      searchTerm := term;
    }

    /** The add button (`None`) or a row's edit button. */
    method HandleOpenDialog(a: Option<Announcement>)
      modifies this`editing, this`form, this`isDialogOpen
      ensures editing == a && isDialogOpen
      ensures a.None? ==> form == AddForm(|announcements|)
      ensures a.Some? ==> form == EditForm(a.value)
    {
      editing := a;
      if a.Some? {
        form := EditForm(a.value);
      } else {
        form := AddForm(|announcements|);
      }
      isDialogOpen := true;
    }

    /** The dialog's own close (overlay, Escape, its close mark). */
    method DialogOpenChanged(open: bool)
      modifies this`isDialogOpen
      ensures isDialogOpen == open
    {
      isDialogOpen := open;
    }

    /** The "Cancelar" button, which is disabled while a save is running. */
    method CancelClicked()
      modifies this`isDialogOpen
      ensures isDialogOpen == (old(isDialogOpen) && saving)
    {
      if !saving {
        isDialogOpen := false;
      }
    }

    /** The "active" switch. */
    method ActiveChanged(value: bool)
      modifies this`form
      ensures form == old(form).(active := value)
    {
      form := form.(active := value);
    }

    /** The title input. */
    method TitleChanged(value: string)
      modifies this`form
      ensures form == old(form).(title := value)
    {
      form := form.(title := value);
    }

    /** The image URL input. */
    method ImageUrlChanged(value: string)
      modifies this`form
      ensures form == old(form).(imageUrl := value)
    {
      form := form.(imageUrl := value);
    }

    /** The description input. */
    method DescriptionChanged(value: string)
      modifies this`form
      ensures form == old(form).(description := value)
    {
      form := form.(description := value);
    }

    /** The link URL input. */
    method LinkUrlChanged(value: string)
      modifies this`form
      ensures form == old(form).(linkUrl := value)
    {
      form := form.(linkUrl := value);
    }

    method OrderChanged(text: string)
      modifies this`form
      ensures form == old(form).(displayOrder := OrderField(text))
    {
      form := form.(displayOrder := OrderField(text));
    }

    /** The save button, with the store's answer to the write. An empty image
        URL stops it before any request. */
    method HandleSave(answer: Outcome)
      modifies this`saving, this`isDialogOpen, this`loading, this`requests, this`alerts
      ensures form.imageUrl == "" ==>
        alerts == old(alerts) + [ImageRequired] && requests == old(requests) &&
        saving == old(saving) && isDialogOpen == old(isDialogOpen) && loading == old(loading)
      ensures form.imageUrl != "" ==>
        requests == old(requests) + SaveRequests(editing, AnnouncementId, form, answer) && !saving
      ensures form.imageUrl != "" && answer.Ok? ==> !isDialogOpen && loading && alerts == old(alerts)
      ensures form.imageUrl != "" && answer.Failed? ==>
        isDialogOpen == old(isDialogOpen) && loading == old(loading) &&
        alerts == old(alerts) + [SaveFailedPrefix + answer.message]
    {
      if form.imageUrl == "" {
        alerts := alerts + [ImageRequired];
        return;
      }
      saving := true;
      requests := requests + [SaveCall(editing, AnnouncementId, form)];
      if answer.Ok? {
        isDialogOpen := false;
        loading := true;
        requests := requests + [Select];
      } else {
        alerts := alerts + [SaveFailedPrefix + answer.message];
      }
      saving := false;
    }

    /** A row's delete button: the confirm dialog's answer, then the store's
        answer to the delete. */
    method HandleDelete(id: string, confirmed: bool, answer: Outcome)
      modifies this`announcements, this`requests, this`alerts, this`confirms
      ensures confirms == old(confirms) + [DeletePrompt]
      ensures !confirmed ==> requests == old(requests) && announcements == old(announcements) && alerts == old(alerts)
      ensures confirmed ==> requests == old(requests) + [Delete(id)]
      ensures confirmed && answer.Ok? ==>
        announcements == RemoveById(old(announcements), id, AnnouncementId) && alerts == old(alerts)
      ensures confirmed && answer.Failed? ==>
        announcements == old(announcements) && alerts == old(alerts) + [DeleteFailed]
    {
      confirms := confirms + [DeletePrompt];
      if !confirmed {
        return;
      }
      requests := requests + [Delete(id)];
      if answer.Failed? {
        alerts := alerts + [DeleteFailed];
      } else {
        announcements := RemoveById(announcements, id, AnnouncementId);
      }
    }
  }
}
