/**
 * The image gallery (app/gallery/page.tsx): an index into a fixed list of six
 * images that wraps around at both ends, moved by the previous/next buttons, by
 * the slideshow timer and by a click on a thumbnail, and a play/pause flag.
 */
module GalleryPage {

  datatype GalleryImage = GalleryImage(id: int, src: string, title: string, description: string)

  /** `images`. */
  const Images: seq<GalleryImage> := [
    GalleryImage(1, "https://images.unsplash.com/photo-1506905925346-21bda4d32df4?w=600&h=400&fit=crop",
                 "Planinski vrh", "Prekrasni pejza\U{017E} s planinama u magli"),
    GalleryImage(2, "https://images.unsplash.com/photo-1439066615861-d1af74d74000?w=600&h=400&fit=crop",
                 "Mirno jezero", "Kristalno \U{010D}isto jezero u \U{0161}umi"),
    GalleryImage(3, "https://images.unsplash.com/photo-1507525428034-b723cf961d3e?w=600&h=400&fit=crop",
                 "Tropska pla\U{017E}a", "Zalazak sunca na tropskoj obali"),
    GalleryImage(4, "https://images.unsplash.com/photo-1500382017468-9049fed747ef?w=600&h=400&fit=crop",
                 "Cvijetno polje", "\U{0160}areno cvijetno polje u prolje\U{0107}e"),
    GalleryImage(5, "https://images.unsplash.com/photo-1551632811-561732d1e306?w=600&h=400&fit=crop",
                 "Snje\U{017E}ne planine", "Majesti\U{010D}ne snje\U{017E}ne planine zimi"),
    GalleryImage(6, "https://images.unsplash.com/photo-1441974231531-c6227db76b6e?w=600&h=400&fit=crop",
                 "\U{0160}umska staza", "Misti\U{010D}na \U{0161}umska staza u jesenjim bojama")
  ]

  /** The index after `i` among `n` images: one on, and back to 0 after the last. */
  function Next(i: nat, n: nat): (r: nat)
    requires i < n
    ensures r < n
    ensures r == (i + 1) % n
  {
    if i == n - 1 then 0 else i + 1
  }

  /** The index before `i` among `n` images: one back, and on to the last before 0. */
  function Previous(i: nat, n: nat): (r: nat)
    requires i < n
    ensures r < n
    ensures r == (i - 1) % n
  {
    if i == 0 then n - 1 else i - 1
  }

  /** Previous undoes Next, and Next undoes Previous. */
  lemma NextPreviousInverse(i: nat, n: nat)
    requires i < n
    ensures Previous(Next(i, n), n) == i
    ensures Next(Previous(i, n), n) == i
  {
  }

  /** `k` steps forward from `i`. */
  function Advance(i: nat, n: nat, k: nat): (r: nat)
    requires i < n
    ensures r < n
  {
    if k == 0 then i else Next(Advance(i, n, k - 1), n)
  }

  /**
   * `k` steps forward from `i` through the gallery land on `(i + k) mod 6`: after
   * six ticks the slideshow is back where it started.
   */
  lemma {:induction false} AdvanceIsModular(i: nat, k: nat)
    requires i < |Images|
    ensures Advance(i, |Images|, k) == (i + k) % |Images|
  {
    assert |Images| == 6;
    if k > 0 {
      AdvanceIsModular(i, k - 1);
    }
  }

  class Gallery {
    var currentImageIndex: nat
    var isPlaying: bool

    /** The index always names an image. */
    predicate Valid()
      reads this
    {
      currentImageIndex < |Images|
    }

    /** The first image, slideshow paused. */
    constructor ()
      ensures Valid() && currentImageIndex == 0 && !isPlaying
    {
      currentImageIndex := 0;
      isPlaying := false;
    }

    /** `goToPrevious`. */
    method GoToPrevious()
      requires Valid()
      modifies this`currentImageIndex
      ensures Valid()
      ensures currentImageIndex == Previous(old(currentImageIndex), |Images|)
    {
      currentImageIndex := if currentImageIndex == 0 then |Images| - 1 else currentImageIndex - 1;
    }

    /** `goToNext`. */
    method GoToNext()
      requires Valid()
      modifies this`currentImageIndex
      ensures Valid()
      ensures currentImageIndex == Next(old(currentImageIndex), |Images|)
    {
      currentImageIndex := if currentImageIndex == |Images| - 1 then 0 else currentImageIndex + 1;
    }

    /** The slideshow timer's callback; the interval only exists while the slideshow plays. */
    method Tick()
      requires Valid() && isPlaying
      modifies this`currentImageIndex
      ensures Valid()
      ensures currentImageIndex == Next(old(currentImageIndex), |Images|)
    {
      var prevIndex := currentImageIndex;
      currentImageIndex := if prevIndex == |Images| - 1 then 0 else prevIndex + 1;
    }

    /** A click on the thumbnail at `index`. */
    method SelectThumbnail(index: nat)
      requires Valid() && index < |Images|
      modifies this`currentImageIndex
      ensures Valid() && currentImageIndex == index
    {
      currentImageIndex := index;
    }

    /** `toggleSlideshow`. */
    method ToggleSlideshow()
      modifies this`isPlaying
      ensures isPlaying == !old(isPlaying)
    {
      isPlaying := !isPlaying;
    }
  }

  /**
   * A session: starting on the first image, `ticks` timer steps while playing
   * leave the index at `ticks mod 6`, and Next then Previous returns to it.
   */
  method Slideshow(ticks: nat) returns (index: nat, afterNextPrevious: nat, playing: bool)
    ensures index == ticks % 6 && afterNextPrevious == index && playing
  {
    var gallery := new Gallery();
    gallery.ToggleSlideshow();
    var k := 0;
    while k < ticks
      invariant 0 <= k <= ticks
      invariant gallery.Valid() && gallery.isPlaying
      invariant gallery.currentImageIndex == Advance(0, |Images|, k)
    {
      gallery.Tick();
      k := k + 1;
    }
    AdvanceIsModular(0, ticks);
    index := gallery.currentImageIndex;
    gallery.GoToNext();
    gallery.GoToPrevious();
    NextPreviousInverse(index, |Images|);
    afterNextPrevious, playing := gallery.currentImageIndex, gallery.isPlaying;
  }
}
