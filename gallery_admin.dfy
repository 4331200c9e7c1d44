/**
 * The admin page for the photo gallery: the images fetched from the store, a
 * search box, an add/edit dialog and per-row delete.
 */
module GalleryAdmin {
  import opened Wrappers
  import opened JsText
  import opened SeqOps
  import opened Store
  import opened Records
  import opened AdminCommon

  /** The dialog's fields, as they are sent to the store. */
  datatype ImageForm = ImageForm(title: string, src: string, alt: string, displayOrder: int)

  const ImageRequired := "Por favor ingresa la URL de la imagen"
  const SaveFailedPrefix := "Error al guardar imagen: "
  const DeletePrompt := "¿Eliminar esta imagen de la galería?"

  function ImageId(i: GalleryImage): string { i.id }

  /** The add dialog: empty text, placed after the current list. */
  function AddForm(count: nat): (f: ImageForm)
    ensures f.title == "" && f.src == "" && f.alt == "" && f.displayOrder == count + 1
  {
    ImageForm("", "", "", count + 1)
  }

  /** The edit dialog: the record's fields, a missing text field as `""`. */
  function EditForm(i: GalleryImage): (f: ImageForm)
    ensures f.title == OrEmpty(i.title) && f.alt == OrEmpty(i.alt)
    ensures f.src == i.src && f.displayOrder == i.displayOrder
  {
    ImageForm(OrEmpty(i.title), i.src, OrEmpty(i.alt), i.displayOrder)
  }

  /** The row an update with this form leaves in the store for record `id`. */
  function Stored(id: string, f: ImageForm): GalleryImage {
    GalleryImage(id, f.src, Some(f.alt), Some(f.title), f.displayOrder)
  }

  /** Saving the edit dialog unchanged writes the record back as it was, except
      that a missing text field is now stored as `""`. */
  lemma EditFormRoundTrip(i: GalleryImage)
    ensures Stored(i.id, EditForm(i)) == i.(title := Some(OrEmpty(i.title)), alt := Some(OrEmpty(i.alt)))
    ensures i.title.Some? && i.alt.Some? ==> Stored(i.id, EditForm(i)) == i
  {
  }

  predicate Matches(i: GalleryImage, term: string) {
    IncludesIgnoringCase(OrEmpty(i.title), term) || IncludesIgnoringCase(OrEmpty(i.alt), term)
  }

  /** The search box: title or alt text, a missing one read as `""`. */
  function SearchImages(xs: seq<GalleryImage>, term: string): (r: seq<GalleryImage>)
    ensures forall i :: i in r <==> (i in xs &&
      (IncludesIgnoringCase(OrEmpty(i.title), term) || IncludesIgnoringCase(OrEmpty(i.alt), term)))
    ensures IsSubsequence(r, xs)
    ensures forall i :: multiset(r)[i] == if Matches(i, term) then multiset(xs)[i] else 0
  {
    var keep := (i: GalleryImage) => Matches(i, term);
    FilterIsSubsequence(xs, keep);
    FilterMultiplicity(xs, keep);
    Filter(xs, keep)
  }

  lemma EmptySearchKeepsAll(xs: seq<GalleryImage>)
    ensures SearchImages(xs, "") == xs
  {
    forall k | 0 <= k < |xs| ensures Matches(xs[k], "") {
      EmptyQueryMatches(OrEmpty(xs[k].title));
    }
    FilterAll(xs, (i: GalleryImage) => Matches(i, ""));
  }

  class GalleryPage {
    var images: seq<GalleryImage>
    var loading: bool
    var searchTerm: string
    var isDialogOpen: bool
    var editing: Option<GalleryImage>
    var saving: bool
    var form: ImageForm
    var requests: seq<Call<ImageForm>>
    var alerts: seq<string>
    var confirms: seq<string>

    /** The initial state, and the mount effect's fetch. */
    constructor ()
      ensures images == [] && loading && searchTerm == "" && !isDialogOpen
      ensures editing.None? && !saving && form == ImageForm("", "", "", 0)
      ensures requests == [Select] && alerts == [] && confirms == []
    {
      images := [];
      loading := true;
      searchTerm := "";
      isDialogOpen := false;
      editing := None;
      saving := false;
      form := ImageForm("", "", "", 0);
      requests := [Select];
      alerts := [];
      confirms := [];
    }

    /** What the table shows. */
    function Shown(): seq<GalleryImage>
      reads this
    {
      SearchImages(images, searchTerm)
    }

    /** The answer to the last fetch: a failure is only logged. */
    method Fetched(answer: Fetch<GalleryImage>)
      modifies this`images, this`loading
      ensures images == AfterFetch(old(images), answer) && !loading
    {
      images := AfterFetch(images, answer);
      loading := false;
    }

    method SearchChanged(term: string)
      modifies this`searchTerm
      ensures searchTerm == term
    {
      searchTerm := term;
    }

    /** The add button (`None`) or a row's edit button. */
    method HandleOpenDialog(image: Option<GalleryImage>)
      modifies this`editing, this`form, this`isDialogOpen
      ensures editing == image && isDialogOpen
      ensures image.None? ==> form == AddForm(|images|)
      ensures image.Some? ==> form == EditForm(image.value)
    {
      editing := image;
      if image.Some? {
        form := EditForm(image.value);
      } else {
        form := AddForm(|images|);
      }
      isDialogOpen := true;
    }

    /** The dialog's own close (overlay, Escape, its close mark). */
    method DialogOpenChanged(open: bool)
      modifies this`isDialogOpen
      ensures isDialogOpen == open
    {
      isDialogOpen := open;
    }

    /** The "Cancelar" button, which is disabled while a save is running. */
    method CancelClicked()
      modifies this`isDialogOpen
      ensures isDialogOpen == (old(isDialogOpen) && saving)
    {
      if !saving {
        isDialogOpen := false;
      }
    }

    /** The title input. */
    method TitleChanged(value: string)
      modifies this`form
      ensures form == old(form).(title := value)
    {
      form := form.(title := value);
    }

    /** The image URL input. */
    method SrcChanged(value: string)
      modifies this`form
      ensures form == old(form).(src := value)
    {
      form := form.(src := value);
    }

    /** The alternative text input. */
    method AltChanged(value: string)
      modifies this`form
      ensures form == old(form).(alt := value)
    {
      form := form.(alt := value);
    }

    method OrderChanged(text: string)
      modifies this`form
      ensures form == old(form).(displayOrder := OrderField(text))
    {
      form := form.(displayOrder := OrderField(text));
    }

    /** The save button, with the store's answer to the write. An empty image
        source stops it before any request. */
    method HandleSave(answer: Outcome)
      modifies this`saving, this`isDialogOpen, this`loading, this`requests, this`alerts
      ensures form.src == "" ==>
        alerts == old(alerts) + [ImageRequired] && requests == old(requests) &&
        saving == old(saving) && isDialogOpen == old(isDialogOpen) && loading == old(loading)
      ensures form.src != "" ==>
        requests == old(requests) + SaveRequests(editing, ImageId, form, answer) && !saving
      ensures form.src != "" && answer.Ok? ==> !isDialogOpen && loading && alerts == old(alerts)
      ensures form.src != "" && answer.Failed? ==>
        isDialogOpen == old(isDialogOpen) && loading == old(loading) &&
        alerts == old(alerts) + [SaveFailedPrefix + answer.message]
    {
      if form.src == "" {
        alerts := alerts + [ImageRequired];
        return;
      }
      saving := true;
      requests := requests + [SaveCall(editing, ImageId, form)];
      if answer.Ok? {
        isDialogOpen := false;
        loading := true;
        requests := requests + [Select];
      } else {
        alerts := alerts + [SaveFailedPrefix + answer.message];
      }
      saving := false;
    }

    /** A row's delete button: the confirm dialog's answer, then the store's
        answer to the delete. */
    method HandleDelete(id: string, confirmed: bool, answer: Outcome)
      modifies this`images, this`requests, this`alerts, this`confirms
      ensures confirms == old(confirms) + [DeletePrompt]
      ensures !confirmed ==> requests == old(requests) && images == old(images) && alerts == old(alerts)
      ensures confirmed ==> requests == old(requests) + [Delete(id)]
      ensures confirmed && answer.Ok? ==>
        images == RemoveById(old(images), id, ImageId) && alerts == old(alerts)
      ensures confirmed && answer.Failed? ==>
        images == old(images) && alerts == old(alerts) + [DeleteFailed]
    {
      confirms := confirms + [DeletePrompt];
      if !confirmed {
        return;
      }
      requests := requests + [Delete(id)];
      if answer.Failed? {
        alerts := alerts + [DeleteFailed];
      } else {
        images := RemoveById(images, id, ImageId);
      }
    }
  }
}
