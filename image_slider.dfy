/** The slide index of components/image-slider.tsx. */
module ImageSliders {

  /** `goToNext`: from the last slide back to 0, otherwise one on. */
  function Next(i: int, n: nat): int {
    if i == n - 1 then 0 else i + 1
  }

  /** `goToPrevious`: from slide 0 to the last slide, otherwise one back. */
  function Previous(i: int, n: nat): int {
    if i == 0 then n - 1 else i - 1
  }

  /** Both moves keep a valid index valid. */
  lemma MovesStayInRange(i: int, n: nat)
    requires 0 <= i < n
    ensures 0 <= Next(i, n) < n
    ensures 0 <= Previous(i, n) < n
  {
  }

  /** Next undoes Previous and Previous undoes Next. */
  lemma MovesAreInverse(i: int, n: nat)
    requires 0 <= i < n
    ensures Next(Previous(i, n), n) == i
    ensures Previous(Next(i, n), n) == i
  {
  }

  /** `k` presses of the next button. */
  function Advance(i: int, n: nat, k: nat): int {
    if k == 0 then i else Next(Advance(i, n, k - 1), n)
  }

  lemma {:induction false} MulAtLeast(d: nat, n: nat)
    requires d >= 1
    ensures d * n >= n
  {
    if d > 1 {
      MulAtLeast(d - 1, n);
      assert d * n == (d - 1) * n + n;
    }
  }

  /** The remainder is determined by any quotient-remainder decomposition. */
  lemma ModUnique(x: int, n: nat, q: int, r: int)
    requires n > 0 && 0 <= r < n && x == q * n + r
    ensures x % n == r
  {
    var q', r' := x / n, x % n;
    assert x == q' * n + r';
    if q > q' {
      var d := q - q';
      assert d * n == q * n - q' * n;
      MulAtLeast(d, n);
    } else if q < q' {
      var d := q' - q;
      assert d * n == q' * n - q * n;
      MulAtLeast(d, n);
    }
  }

  /** One step modulo `n`. */
  lemma ModStep(a: int, n: nat)
    requires n > 0
    ensures (a + 1) % n == if a % n == n - 1 then 0 else a % n + 1
  {
    var q, r := a / n, a % n;
    if r == n - 1 {
      ModUnique(a + 1, n, q + 1, 0);
    } else {
      ModUnique(a + 1, n, q, r + 1);
    }
  }

  /** Pressing next `k` times moves `k` slides on, cyclically. */
  lemma {:induction false} AdvanceIsModular(i: int, n: nat, k: nat)
    requires 0 <= i < n
    ensures Advance(i, n, k) == (i + k) % n
  {
    if k == 0 {
      ModUnique(i, n, 0, i);
    } else {
      AdvanceIsModular(i, n, k - 1);
      ModStep(i + k - 1, n);
    }
  }

  /** The image shown when there is no usable URL at the index. */
  const Placeholder := "/placeholder.svg?height=500&width=800"

  /** What the component renders: the empty state, or one slide with its counter
      `position / total`; the arrows, the counter and the dots only for more than one image. */
  datatype View = NoImages | Slide(src: string, controls: bool, position: int, total: nat)

  function Render(images: seq<string>, currentIndex: int): (v: View)
    ensures images == [] <==> v == NoImages
    ensures v.Slide? ==> v.controls == (|images| > 1) && v.position == currentIndex + 1 && v.total == |images|
    ensures v.Slide? && 0 <= currentIndex < |images| && images[currentIndex] != "" ==> v.src == images[currentIndex]
    ensures v.Slide? && !(0 <= currentIndex < |images| && images[currentIndex] != "") ==> v.src == Placeholder
  {
    if |images| == 0 then NoImages
    else
      var src := if 0 <= currentIndex < |images| && images[currentIndex] != "" then images[currentIndex] else Placeholder;
      Slide(src, |images| > 1, currentIndex + 1, |images|)
  }

  /** From a valid index the slider shows a slide, never the empty state: its
      counter lies between 1 and the number of images, and its picture is the
      current URL, or the placeholder when that URL is empty. */
  lemma ValidIndexShowsSlide(images: seq<string>, i: int)
    requires 0 <= i < |images|
    ensures var v := Render(images, i);
            && v.Slide?
            && 1 <= v.position <= v.total == |images|
            && (v.controls <==> |images| > 1)
            && v.src == (if images[i] != "" then images[i] else Placeholder)
  {
  }

  /** After `k` presses of next from a valid index, the counter reads
      `(i + k) % n + 1`: it runs through 1 to n and starts over. */
  lemma CounterAfterNextPresses(images: seq<string>, i: int, k: nat)
    requires 0 <= i < |images|
    ensures var v := Render(images, Advance(i, |images|, k));
            v.Slide? && v.position == (i + k) % |images| + 1 && (v.controls <==> |images| > 1)
  {
    AdvanceIsModular(i, |images|, k);
  }

  /** One press of previous from a valid index moves the counter one back, from 1 to n. */
  lemma CounterAfterPrevious(images: seq<string>, i: int)
    requires 0 <= i < |images|
    ensures var v := Render(images, Previous(i, |images|));
            v.Slide? && v.position == (if i == 0 then |images| else i) && (v.controls <==> |images| > 1)
  {
    MovesStayInRange(i, |images|);
  }

  class ImageSlider {
    const images: seq<string>
    var currentIndex: int

    /** The index is within the images. */
    ghost predicate Valid()
      reads this
    {
      0 <= currentIndex < |images|
    }

    /** The slider starts on the first image. */
    constructor (images: seq<string>)
      ensures this.images == images && currentIndex == 0
      ensures images != [] ==> Valid()
    {
      this.images := images;
      currentIndex := 0;
    }

    method GoToPrevious()
      modifies this
      ensures currentIndex == Previous(old(currentIndex), |images|)
      ensures old(Valid()) ==> Valid()
      ensures old(Valid()) ==> Render(images, currentIndex).Slide?
    {
      var isFirstSlide := currentIndex == 0;
      var newIndex := if isFirstSlide then |images| - 1 else currentIndex - 1;
      currentIndex := newIndex;
    }

    method GoToNext()
      modifies this
      ensures currentIndex == Next(old(currentIndex), |images|)
      ensures old(Valid()) ==> Valid()
      ensures old(Valid()) ==> Render(images, currentIndex).Slide?
    {
      var isLastSlide := currentIndex == |images| - 1;
      var newIndex := if isLastSlide then 0 else currentIndex + 1;
      currentIndex := newIndex;
    }

    /** A dot sets the index to exactly its own position; no bound is checked. */
    method GoToSlide(index: int)
      modifies this
      ensures currentIndex == index
      ensures 0 <= index < |images| ==> Valid()
    {
      currentIndex := index;
    }
  }
}
