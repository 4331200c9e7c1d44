/**
 * The home page's photo gallery: a fixed table of six images and a lightbox
 * that opens on one of them, steps through them with wrap-around and locks
 * page scrolling while it is open.
 */
module GalleryLightbox {
  import opened Wrappers
  import Cycle

  datatype Image = Image(id: nat, src: string, alt: string, title: string)

  const GalleryImages: seq<Image> := [
    Image(1, "https://images.unsplash.com/photo-1478147427282-58a87a120781?w=800&h=600&fit=crop",
      "Equipo de locutores en cabina", "Nuestro Equipo"),
    Image(2, "https://images.unsplash.com/photo-1516280440614-37939bbacd81?w=800&h=600&fit=crop",
      "Estudio de grabación", "Estudio Principal"),
    Image(3, "https://images.unsplash.com/photo-1507838153414-b4b713384a76?w=800&h=600&fit=crop",
      "Concierto de adoración", "Evento de Alabanza"),
    Image(4, "https://images.unsplash.com/photo-1493225457124-a3eb161ffa5f?w=800&h=600&fit=crop",
      "Coro en presentación", "Ministerio de Música"),
    Image(5, "https://images.unsplash.com/photo-1508700115892-45ecd05ae2ad?w=800&h=600&fit=crop",
      "Reunión de oración", "Intercesión"),
    Image(6, "https://images.unsplash.com/photo-1470019693664-1d202d2c0907?w=800&h=600&fit=crop",
      "Equipos de transmisión", "Tecnología")
  ]

  /** The table holds six images, numbered 1 to 6 in order, so the grid's
      `key`s are distinct. */
  lemma GalleryTable()
    ensures |GalleryImages| == 6
    ensures forall i :: 0 <= i < |GalleryImages| ==> GalleryImages[i].id == i + 1
  {
  }

  /** `goToNext` on a selected index `i` of a table of `n` images. */
  function NextIndex(i: nat, n: nat): (r: nat)
    requires i < n
    ensures r < n
    ensures i == n - 1 ==> r == 0
    ensures i < n - 1 ==> r == i + 1
  {
    if i == n - 1 then 0 else i + 1
  }

  /** `goToPrevious` on a selected index `i` of a table of `n` images. */
  function PrevIndex(i: nat, n: nat): (r: nat)
    requires i < n
    ensures r < n
    ensures i == 0 ==> r == n - 1
    ensures 0 < i ==> r == i - 1
  {
    if i == 0 then n - 1 else i - 1
  }

  lemma PrevUndoesNext(i: nat, n: nat)
    requires i < n
    ensures PrevIndex(NextIndex(i, n), n) == i
    ensures NextIndex(PrevIndex(i, n), n) == i
  {
  }

  /** The `goToNext` button as a step on indices of a table of `n` images. */
  function NextStep(n: nat): nat -> nat {
    (i: nat) => if i < n then NextIndex(i, n) else i
  }

  /** Six `goToNext` clicks on the gallery are the identity. */
  lemma SixNextsAreIdentity(i: nat)
    requires i < |GalleryImages|
    ensures Cycle.Iterate(NextStep(|GalleryImages|), i, 6) == i
  {
    assert Cycle.Rotates(NextStep(|GalleryImages|), |GalleryImages|);
    Cycle.AllTheWayRound(NextStep(|GalleryImages|), |GalleryImages|, i);
  }

  /** `document.body.style`, of which the lightbox writes `overflow`. */
  class BodyStyle {
    var overflow: string

    constructor (overflow: string)
      ensures this.overflow == overflow
    {
      this.overflow := overflow;
    }
  }

  class GallerySection {
    var selectedImage: Option<nat>
    const body: BodyStyle

    /** A selected image is one of the table's. */
    ghost predicate Valid()
      reads this
    {
      selectedImage.Some? ==> selectedImage.value < |GalleryImages|
    }

    constructor (body: BodyStyle)
      ensures Valid()
      ensures selectedImage.None? && this.body == body
    {
      selectedImage := None;
      this.body := body;
    }

    /** The image the open lightbox shows, if any. */
    function Shown(): (r: Option<Image>)
      requires Valid()
      reads this
      ensures r.None? <==> selectedImage.None?
      ensures r.Some? ==> r.value == GalleryImages[selectedImage.value]
    {
      if selectedImage.None? then None else Some(GalleryImages[selectedImage.value])
    }

    /** A click on grid tile `index`; one tile is rendered per image. */
    method OpenLightbox(index: nat)
      requires Valid() && index < |GalleryImages|
      modifies this`selectedImage, body`overflow
      ensures Valid()
      ensures selectedImage == Some(index)
      ensures body.overflow == "hidden"
    {
      selectedImage := Some(index);
      body.overflow := "hidden";
    }

    method CloseLightbox()
      requires Valid()
      modifies this`selectedImage, body`overflow
      ensures Valid()
      ensures selectedImage.None?
      ensures body.overflow == "auto"
    {
      selectedImage := None;
      body.overflow := "auto";
    }

    /** With the lightbox closed nothing changes. */
    method GoToPrevious()
      requires Valid()
      modifies this`selectedImage
      ensures Valid()
      ensures old(selectedImage).None? ==> selectedImage.None?
      ensures old(selectedImage).Some? ==> selectedImage == Some(PrevIndex(old(selectedImage).value, |GalleryImages|))
    {
      if selectedImage.None? {
        return;
      }
      selectedImage := Some(PrevIndex(selectedImage.value, |GalleryImages|));
    }

    /** With the lightbox closed nothing changes. */
    method GoToNext()
      requires Valid()
      modifies this`selectedImage
      ensures Valid()
      ensures old(selectedImage).None? ==> selectedImage.None?
      ensures old(selectedImage).Some? ==> selectedImage == Some(NextIndex(old(selectedImage).value, |GalleryImages|))
    {
      if selectedImage.None? {
        return;
      }
      selectedImage := Some(NextIndex(selectedImage.value, |GalleryImages|));
    }
  }
}
