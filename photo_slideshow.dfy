/**
 * The photo slideshow's position: an index into the loaded photos that the
 * arrows, the thumbnails and a five-second timer move around a cycle.
 */
module PhotoSlideshow {
  import opened JsValues

  datatype Photo = Photo(id: string, url: string, caption: string, date: string)

  /** `goToNext`'s step: `(i + 1) % n`. */
  function Next(i: int, n: int): (j: int)
    requires n > 0
    ensures 0 <= i < n ==> 0 <= j < n
    ensures 0 <= i < n - 1 ==> j == i + 1
    ensures i == n - 1 ==> j == 0
  {
    JsRem(i + 1, n)
  }

  /** `goToPrevious`'s step: 0 wraps to the last photo. */
  function Previous(i: int, n: int): (j: int)
    requires n > 0
    ensures 0 <= i < n ==> 0 <= j < n
  {
    if i == 0 then n - 1 else i - 1
  }

  /** Within range, stepping back undoes stepping forward and vice versa. */
  lemma PreviousUndoesNext(i: int, n: int)
    requires 0 <= i < n
    ensures Previous(Next(i, n), n) == i
    ensures Next(Previous(i, n), n) == i
  {
  }

  /** The index after `k` forward steps from `i`. */
  function Steps(i: int, n: int, k: nat): int
    requires n > 0
  {
    if k == 0 then i else Next(Steps(i, n, k - 1), n)
  }

  /** Short of the end, `k` steps move the index up by `k`. */
  lemma {:induction false} StepsUp(i: int, n: int, k: nat)
    requires 0 <= i && i + k < n
    ensures Steps(i, n, k) == i + k
  {
    if k > 0 {
      StepsUp(i, n, k - 1);
    }
  }

  /** Steps compose: `a + b` steps are `a` steps followed by `b` more. */
  lemma {:induction false} StepsAdd(i: int, n: int, a: nat, b: nat)
    requires n > 0
    ensures Steps(i, n, a + b) == Steps(Steps(i, n, a), n, b)
  {
    if b > 0 {
      StepsAdd(i, n, a, b - 1);
    }
  }

  /** A full round of `n` steps comes back to where it started. */
  lemma FullCycle(i: int, n: int)
    requires 0 <= i < n
    ensures Steps(i, n, n) == i
  {
    StepsUp(i, n, n - 1 - i);
    assert Steps(i, n, n - i) == 0;
    StepsAdd(i, n, n - i, i);
    StepsUp(0, n, i);
  }

  /** The placeholder photos the slideshow loads; their date is the load time. */
  function MockPhotos(now: string): (photos: seq<Photo>)
    ensures |photos| == 10
  {
    [ Photo("1", "https://via.placeholder.com/800x600/4a90e2/ffffff?text=Family+Photo+1", "Family fun at the park", now),
      Photo("2", "https://via.placeholder.com/800x600/f5a623/ffffff?text=Family+Photo+2", "Cooking together", now),
      Photo("3", "https://via.placeholder.com/800x600/7ed321/ffffff?text=Family+Photo+3", "Beach day adventure", now),
      Photo("4", "https://via.placeholder.com/800x600/bd10e0/ffffff?text=Family+Photo+4", "Movie night", now),
      Photo("5", "https://via.placeholder.com/800x600/f8e71c/ffffff?text=Family+Photo+5", "Garden adventures", now),
      Photo("6", "https://via.placeholder.com/800x600/50e3c2/ffffff?text=Family+Photo+6", "Birthday celebration", now),
      Photo("7", "https://via.placeholder.com/800x600/ff6b6b/ffffff?text=Family+Photo+7", "Arts and crafts time", now),
      Photo("8", "https://via.placeholder.com/800x600/4ecdc4/ffffff?text=Family+Photo+8", "Weekend breakfast", now),
      Photo("9", "https://via.placeholder.com/800x600/45b7d1/ffffff?text=Family+Photo+9", "Playing in the backyard", now),
      Photo("10", "https://via.placeholder.com/800x600/f39c12/ffffff?text=Family+Photo+10", "Story time before bed", now) ]
  }

  /** The component's `photos` and `currentPhotoIndex` state. */
  class Slideshow {
    var photos: seq<Photo>
    var currentPhotoIndex: int

    /** The index points at a photo whenever there is one. */
    predicate Valid()
      reads this
    {
      0 <= currentPhotoIndex && (photos != [] ==> currentPhotoIndex < |photos|)
    }

    constructor ()
      ensures Valid() && photos == [] && currentPhotoIndex == 0
    {
      photos := [];
      currentPhotoIndex := 0;
    }

    /** The loader's `setPhotos`: the index is left where it is. */
    method LoadPhotos(loaded: seq<Photo>)
      requires Valid() && (loaded != [] ==> currentPhotoIndex < |loaded|)
      modifies this
      ensures Valid()
      ensures photos == loaded && currentPhotoIndex == old(currentPhotoIndex)
    {
      photos := loaded;
    }

    /** `goToNext`; the controls exist only while there are photos. */
    method GoToNext()
      requires Valid() && |photos| > 0
      modifies this
      ensures Valid() && photos == old(photos)
      ensures currentPhotoIndex == Next(old(currentPhotoIndex), |photos|)
    {
      currentPhotoIndex := (currentPhotoIndex + 1) % |photos|;
    }

    /** `goToPrevious`. */
    method GoToPrevious()
      requires Valid() && |photos| > 0
      modifies this
      ensures Valid() && photos == old(photos)
      ensures currentPhotoIndex == Previous(old(currentPhotoIndex), |photos|)
    {
      currentPhotoIndex := if currentPhotoIndex == 0 then |photos| - 1 else currentPhotoIndex - 1;
    }

    /** `goToPhoto(index)` from a thumbnail, whose index is always a photo's. */
    method GoToPhoto(index: int)
      requires Valid() && 0 <= index < |photos|
      modifies this
      ensures Valid() && photos == old(photos)
      ensures currentPhotoIndex == index
    {
      currentPhotoIndex := index;
    }

    /** The interval callback, scheduled only while there are photos: the same step as `goToNext`. */
    method Tick()
      requires Valid() && |photos| > 0
      modifies this
      ensures Valid() && photos == old(photos)
      ensures currentPhotoIndex == Next(old(currentPhotoIndex), |photos|)
    {
      currentPhotoIndex := (currentPhotoIndex + 1) % |photos|;
    }

    /** The photo on show. */
    function CurrentPhoto(): (p: Photo)
      reads this
      requires Valid() && |photos| > 0
      ensures p in photos
    {
      photos[currentPhotoIndex]
    }

    /** The counter "k of n": a 1-based position that never exceeds the count. */
    function Counter(): (shown: (int, int))
      reads this
      requires Valid() && |photos| > 0
      ensures 1 <= shown.0 <= shown.1 == |photos|
      ensures shown.0 - 1 == currentPhotoIndex
    {
      (currentPhotoIndex + 1, |photos|)
    }
  }

  /** Loading the placeholders, stepping forward and back returns to the first photo. */
  method NavigationExample(now: string)
  {
    var show := new Slideshow();
    show.LoadPhotos(MockPhotos(now));
    show.GoToNext();
    assert show.currentPhotoIndex == 1;
    show.GoToPrevious();
    assert show.currentPhotoIndex == 0;
    show.GoToPrevious();
    assert show.Counter() == (10, 10);
  }
}
