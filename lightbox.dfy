/** The gallery viewer: opening a category's gallery and stepping through its
    images in the lightbox with wraparound. */
module Gallery {

  /** A photo category: its image folder, its title and its image file names. */
  datatype Category = Category(folder: string, title: string, images: seq<string>)

  /** The index after `i` in a list of `n` images, wrapping to the first. */
  function NextIndex(i: int, n: int): (j: int)
    requires n > 0 && i >= 0
    ensures 0 <= j < n
    ensures i < n ==> j == (if i == n - 1 then 0 else i + 1)
  {
    (i + 1) % n
  }

  /** The index before `i` in a list of `n` images, wrapping to the last. */
  function PrevIndex(i: int, n: int): (j: int)
    requires n > 0 && i >= 0
    ensures 0 <= j < n
    ensures i < n ==> j == (if i == 0 then n - 1 else i - 1)
  {
    (i - 1 + n) % n
  }

  /** The index reached from `i` by `k` presses of "next". */
  function StepForward(i: int, n: int, k: nat): (j: int)
    requires n > 0 && 0 <= i < n
    ensures 0 <= j < n
  {
    if k == 0 then i else NextIndex(StepForward(i, n, k - 1), n)
  }

  /** "next" and "prev" undo each other. */
  lemma NextPrevInverse(i: int, n: int)
    requires n > 0 && 0 <= i < n
    ensures PrevIndex(NextIndex(i, n), n) == i
    ensures NextIndex(PrevIndex(i, n), n) == i
  {
  }

  /** `k` presses of "next" move `k` places around the ring of `n` images. */
  lemma {:induction false} StepForwardMoves(i: int, n: int, k: nat)
    requires n > 0 && 0 <= i < n
    ensures StepForward(i, n, k) == (i + k) % n
  {
    if k == 0 {
      assert i == 0 * n + i;
      ModUnique(i, n, 0, i);
    } else {
      var a: nat := i + k - 1;
      StepForwardMoves(i, n, k - 1);
      assert StepForward(i, n, k - 1) == a % n;
      ModSucc(a, n);
      assert StepForward(i, n, k) == (a % n + 1) % n;
    }
  }

  /** Pressing "next" once per image brings the lightbox back to where it
      started. */
  lemma FullCycleReturns(i: int, n: int)
    requires n > 0 && 0 <= i < n
    ensures StepForward(i, n, n) == i
  {
    StepForwardMoves(i, n, n);
    assert i + n == 1 * n + i;
    ModUnique(i + n, n, 1, i);
  }

  /** Taking the remainder before or after adding one gives the same index. */
  lemma ModSucc(a: nat, n: int)
    requires n > 0
    ensures (a % n + 1) % n == (a + 1) % n
  {
    var q, r := a / n, a % n;
    assert a == q * n + r;
    if r + 1 < n {
      assert a + 1 == q * n + (r + 1);
      ModUnique(a + 1, n, q, r + 1);
    } else {
      assert a + 1 == (q + 1) * n;
      ModUnique(a + 1, n, q + 1, 0);
    }
  }

  /** The remainder is the unique r in [0, n) with x == q * n + r. */
  lemma ModUnique(x: int, n: int, q: int, r: int)
    requires n > 0 && 0 <= r < n && x == q * n + r
    ensures x % n == r
  {
    var q', r' := x / n, x % n;
    assert x == q' * n + r';
    assert (q - q') * n == r' - r by {
      assert q * n - q' * n == (q - q') * n;
    }
    if q > q' {
      MulAtLeast(q - q', n);
    } else if q < q' {
      assert (q' - q) * n == r - r';
      MulAtLeast(q' - q, n);
    }
  }

  lemma {:induction false} MulAtLeast(d: int, n: int)
    requires d >= 1 && n > 0
    ensures d * n >= n
    decreases d
  {
    if d > 1 {
      MulAtLeast(d - 1, n);
      assert d * n == (d - 1) * n + n;
    }
  }

  /** The gallery modal and the lightbox over it. */
  class Lightbox {
    var currentImages: seq<string>
    var currentIndex: int
    var title: string
    var galleryOpen: bool
    var lightboxOpen: bool
    var shownImage: string

    /** The index is never negative; `openLightbox` is only given indexes of
        the gallery's images and the arithmetic keeps it non-negative. */
    ghost predicate Valid()
      reads this
    {
      currentIndex >= 0
    }

    constructor ()
      ensures Valid()
      ensures currentImages == [] && currentIndex == 0 && !galleryOpen && !lightboxOpen
    {
      currentImages := [];
      currentIndex := 0;
      title := "";
      galleryOpen := false;
      lightboxOpen := false;
      shownImage := "";
    }

    /** `openGallery`: an unknown category or one without images is ignored;
        otherwise its images, prefixed with the folder, become the list. The
        index is left as it was. */
    method OpenGallery(categories: map<string, Category>, key: string) returns (didOpen: bool)
      requires Valid()
      modifies this`currentImages, this`title, this`galleryOpen
      ensures Valid()
      ensures didOpen <==> key in categories && |categories[key].images| > 0
      ensures didOpen ==> galleryOpen && title == categories[key].title
      ensures didOpen ==> |currentImages| == |categories[key].images|
      ensures didOpen ==> forall k :: 0 <= k < |currentImages| ==>
        currentImages[k] == categories[key].folder + "/" + categories[key].images[k]
      ensures !didOpen ==> currentImages == old(currentImages)
      ensures !didOpen ==> title == old(title) && galleryOpen == old(galleryOpen)
    {
      if key !in categories || |categories[key].images| == 0 {
        return false;
      }
      var cat := categories[key];
      title := cat.title;
      var paths := [];
      var k := 0;
      while k < |cat.images|
        invariant 0 <= k <= |cat.images|
        invariant |paths| == k
        invariant forall m :: 0 <= m < k ==> paths[m] == cat.folder + "/" + cat.images[m]
      {
        paths := paths + [cat.folder + "/" + cat.images[k]];
        k := k + 1;
      }
      currentImages := paths;
      galleryOpen := true;
      didOpen := true;
    }

    /** `closeGallery`. */
    method CloseGallery()
      modifies this`galleryOpen
      ensures !galleryOpen
    {
      galleryOpen := false;
    }

    /** `openLightbox`: show the image at `index` of the open gallery. */
    method OpenLightbox(index: int)
      requires Valid() && 0 <= index < |currentImages|
      modifies this`currentIndex, this`shownImage, this`lightboxOpen
      ensures Valid()
      ensures currentIndex == index && shownImage == currentImages[index] && lightboxOpen
    {
      currentIndex := index;
      shownImage := currentImages[currentIndex];
      lightboxOpen := true;
    }

    /** `closeLightbox`. */
    method CloseLightbox()
      modifies this`lightboxOpen
      ensures !lightboxOpen
    {
      lightboxOpen := false;
    }

    /** `prevImage`: step back one image, wrapping to the last. */
    method PrevImage()
      requires Valid() && |currentImages| > 0
      modifies this`currentIndex, this`shownImage
      ensures Valid()
      ensures currentIndex == PrevIndex(old(currentIndex), |currentImages|)
      ensures 0 <= currentIndex < |currentImages| && shownImage == currentImages[currentIndex]
    {
      currentIndex := (currentIndex - 1 + |currentImages|) % |currentImages|;
      shownImage := currentImages[currentIndex];
    }

    /** `nextImage`: step forward one image, wrapping to the first. */
    method NextImage()
      requires Valid() && |currentImages| > 0
      modifies this`currentIndex, this`shownImage
      ensures Valid()
      ensures currentIndex == NextIndex(old(currentIndex), |currentImages|)
      ensures 0 <= currentIndex < |currentImages| && shownImage == currentImages[currentIndex]
    {
      currentIndex := (currentIndex + 1) % |currentImages|;
      shownImage := currentImages[currentIndex];
    }
  }
}
