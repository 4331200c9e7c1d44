/**
 * The admin page for the home page's videos: the list fetched from the store,
 * a search box, an add/edit dialog, per-row delete, and the YouTube thumbnail
 * and watch links built from each video's id.
 */
module VideosAdmin {
  import opened Wrappers
  import opened JsText
  import opened SeqOps
  import opened Store
  import opened Records
  import opened AdminCommon

  /** The dialog's fields, as they are sent to the store. */
  datatype VideoForm = VideoForm(title: string, youtubeId: string)

  const FieldsRequired := "Por favor completa todos los campos"
  const SaveFailedPrefix := "Error al guardar video: "
  const DeletePrompt := "¿Eliminar este video de la lista?"

  const ThumbnailPrefix := "https://img.youtube.com/vi/"
  const ThumbnailSuffix := "/mqdefault.jpg"
  const WatchPrefix := "https://youtube.com/watch?v="

  function VideoId(v: Video): string { v.id }

  /** `getThumbnail(id)`. */
  function Thumbnail(youtubeId: string): (url: string)
    ensures |url| == |ThumbnailPrefix| + |youtubeId| + |ThumbnailSuffix|
    ensures url[..|ThumbnailPrefix|] == ThumbnailPrefix
    ensures url[|ThumbnailPrefix|..|ThumbnailPrefix| + |youtubeId|] == youtubeId
    ensures url[|ThumbnailPrefix| + |youtubeId|..] == ThumbnailSuffix
  {
    ThumbnailPrefix + youtubeId + ThumbnailSuffix
  }

  /** The "Ver en YouTube" link. */
  function WatchUrl(youtubeId: string): (url: string)
    ensures |url| == |WatchPrefix| + |youtubeId|
    ensures url[..|WatchPrefix|] == WatchPrefix && url[|WatchPrefix|..] == youtubeId
  {
    WatchPrefix + youtubeId
  }

  /** Distinct videos get distinct thumbnails and distinct links. */
  lemma ThumbnailInjective(a: string, b: string)
    ensures Thumbnail(a) == Thumbnail(b) <==> a == b
  {
    if Thumbnail(a) == Thumbnail(b) {
      assert |a| == |b|;
    }
  }

  lemma WatchUrlInjective(a: string, b: string)
    ensures WatchUrl(a) == WatchUrl(b) <==> a == b
  {
  }

  /** The add dialog clears both fields. */
  const AddForm := VideoForm("", "")

  /** The edit dialog: the record's id and title, a missing title as `""`. */
  function EditForm(v: Video): (f: VideoForm)
    ensures f.title == OrEmpty(v.title) && f.youtubeId == v.youtubeId
  {
    VideoForm(OrEmpty(v.title), v.youtubeId)
  }

  /** The save check: both fields filled in. */
  predicate Complete(f: VideoForm) {
    f.title != "" && f.youtubeId != ""
  }

  /** A record opened for editing passes the check exactly when it has a
      non-empty title and id; a new one never does until both are typed. */
  lemma EditFormComplete(v: Video)
    ensures Complete(EditForm(v)) <==> v.title.Some? && v.title.value != "" && v.youtubeId != ""
    ensures !Complete(AddForm)
  {
  }

  predicate Matches(v: Video, term: string) {
    IncludesIgnoringCase(OrEmpty(v.title), term)
  }

  /** The search box: the title only, a missing one read as `""`. */
  function SearchVideos(xs: seq<Video>, term: string): (r: seq<Video>)
    ensures forall v :: v in r <==> (v in xs && IncludesIgnoringCase(OrEmpty(v.title), term))
    ensures IsSubsequence(r, xs)
    ensures forall v :: multiset(r)[v] == if Matches(v, term) then multiset(xs)[v] else 0
  {
    var keep := (v: Video) => Matches(v, term);
    FilterIsSubsequence(xs, keep);
    FilterMultiplicity(xs, keep);
    Filter(xs, keep)
  }

  lemma EmptySearchKeepsAll(xs: seq<Video>)
    ensures SearchVideos(xs, "") == xs
  {
    forall k | 0 <= k < |xs| ensures Matches(xs[k], "") {
      EmptyQueryMatches(OrEmpty(xs[k].title));
    }
    FilterAll(xs, (v: Video) => Matches(v, ""));
  }

  class VideosPage {
    var videos: seq<Video>
    var loading: bool
    var searchTerm: string
    var isDialogOpen: bool
    var editing: Option<Video>
    var saving: bool
    var form: VideoForm
    var requests: seq<Call<VideoForm>>
    var alerts: seq<string>
    var confirms: seq<string>

    /** The initial state, and the mount effect's fetch. */
    constructor ()
      ensures videos == [] && loading && searchTerm == "" && !isDialogOpen
      ensures editing.None? && !saving && form == VideoForm("", "")
      ensures requests == [Select] && alerts == [] && confirms == []
    {
      videos := [];
      loading := true;
      searchTerm := "";
      isDialogOpen := false;
      editing := None;
      saving := false;
      form := VideoForm("", "");
      requests := [Select];
      alerts := [];
      confirms := [];
    }

    /** What the table shows. */
    function Shown(): seq<Video>
      reads this
    {
      SearchVideos(videos, searchTerm)
    }

    /** The answer to the last fetch: a failure is only logged. */
    method Fetched(answer: Fetch<Video>)
      modifies this`videos, this`loading
      ensures videos == AfterFetch(old(videos), answer) && !loading
    {
      videos := AfterFetch(videos, answer);
      loading := false;
    }

    method SearchChanged(term: string)
      modifies this`searchTerm
      ensures searchTerm == term
    {
      searchTerm := term;
    }

    /** The add button (`None`) or a row's edit button. */
    method HandleOpenDialog(video: Option<Video>)
      modifies this`editing, this`form, this`isDialogOpen
      ensures editing == video && isDialogOpen
      ensures video.None? ==> form == AddForm
      ensures video.Some? ==> form == EditForm(video.value)
    {
      editing := video;
      if video.Some? {
        form := EditForm(video.value);
      } else {
        form := AddForm;
      }
      isDialogOpen := true;
    }

    /** The dialog's own close (overlay, Escape, its close mark). */
    method DialogOpenChanged(open: bool)
      modifies this`isDialogOpen
      ensures isDialogOpen == open
    {
      isDialogOpen := open;
    }

    /** The "Cancelar" button, which is disabled while a save is running. */
    method CancelClicked()
      modifies this`isDialogOpen
      ensures isDialogOpen == (old(isDialogOpen) && saving)
    {
      if !saving {
        isDialogOpen := false;
      }
    }

    /** The title input. */
    method TitleChanged(value: string)
      modifies this`form
      ensures form == old(form).(title := value)
    {
      form := form.(title := value);
    }

    /** The YouTube id input. */
    method YoutubeIdChanged(value: string)
      modifies this`form
      ensures form == old(form).(youtubeId := value)
    {
      form := form.(youtubeId := value);
    }

    /** The save button, with the store's answer to the write. A missing title
        or video id stops it before any request. */
    method HandleSave(answer: Outcome)
      modifies this`saving, this`isDialogOpen, this`loading, this`requests, this`alerts
      ensures !Complete(form) ==>
        alerts == old(alerts) + [FieldsRequired] && requests == old(requests) &&
        saving == old(saving) && isDialogOpen == old(isDialogOpen) && loading == old(loading)
      ensures Complete(form) ==>
        requests == old(requests) + SaveRequests(editing, VideoId, form, answer) && !saving
      ensures Complete(form) && answer.Ok? ==> !isDialogOpen && loading && alerts == old(alerts)
      ensures Complete(form) && answer.Failed? ==>
        isDialogOpen == old(isDialogOpen) && loading == old(loading) &&
        alerts == old(alerts) + [SaveFailedPrefix + answer.message]
    {
      if !Complete(form) {
        alerts := alerts + [FieldsRequired];
        return;
      }
      saving := true;
      requests := requests + [SaveCall(editing, VideoId, form)];
      if answer.Ok? {
        isDialogOpen := false;
        loading := true;
        requests := requests + [Select];
      } else {
        alerts := alerts + [SaveFailedPrefix + answer.message];
      }
      saving := false;
    }

    /** A row's delete button: the confirm dialog's answer, then the store's
        answer to the delete. */
    method HandleDelete(id: string, confirmed: bool, answer: Outcome)
      modifies this`videos, this`requests, this`alerts, this`confirms
      ensures confirms == old(confirms) + [DeletePrompt]
      ensures !confirmed ==> requests == old(requests) && videos == old(videos) && alerts == old(alerts)
      ensures confirmed ==> requests == old(requests) + [Delete(id)]
      ensures confirmed && answer.Ok? ==>
        videos == RemoveById(old(videos), id, VideoId) && alerts == old(alerts)
      ensures confirmed && answer.Failed? ==>
        videos == old(videos) && alerts == old(alerts) + [DeleteFailed]
    {
      confirms := confirms + [DeletePrompt];
      if !confirmed {
        return;
      }
      requests := requests + [Delete(id)];
      if answer.Failed? {
        alerts := alerts + [DeleteFailed];
      } else {
        videos := RemoveById(videos, id, VideoId);
      }
    }
  }
}
