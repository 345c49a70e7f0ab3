/** The slogan carousel of `src/components/WelcomeBanner.tsx`: an index into
    four slogans (each with its own four gallery images) moved forward and back
    with modular arithmetic, by the arrows and by the rotation timer. */
module WelcomeBanner {

  datatype Slogan = Slogan(title: string, highlight: string, subtitle: string)

  const SLOGANS: seq<Slogan> := [
    Slogan("Get your next", "breakthrough prompt idea", "Discover and share AI prompts that actually work"),
    Slogan("Unlock the power of", "AI conversations", "Curated prompts from the world's best prompt engineers"),
    Slogan("Transform your", "AI workflow", "Premium prompt packs for every use case"),
    Slogan("Build better with", "proven prompts", "Save time with ready-to-use prompt templates")
  ]

  const GALLERY_IMAGES: seq<seq<string>> := [
    ["/gallery/creative1.jpg", "/gallery/creative2.jpg", "/gallery/creative3.jpg", "/gallery/creative4.jpg"],
    ["/gallery/business1.jpg", "/gallery/business2.jpg", "/gallery/business3.jpg", "/gallery/business4.jpg"],
    ["/gallery/tech1.jpg", "/gallery/tech2.jpg", "/gallery/tech3.jpg", "/gallery/tech4.jpg"],
    ["/gallery/art1.jpg", "/gallery/art2.jpg", "/gallery/art3.jpg", "/gallery/art4.jpg"]
  ]

  /** JavaScript's `a % n` for a positive `n`: the remainder takes the sign of
      `a` (Dafny's own `%` never goes negative). */
  function JsRemainder(a: int, n: int): (r: int)
    requires n > 0
    ensures a >= 0 ==> r == a % n
    ensures a < 0 ==> -n < r <= 0
  {
    if a >= 0 then a % n else -((-a) % n)
  }

  /** `handleNext`'s updater (also the rotation timer's). */
  function Next(i: int): (r: int)
    ensures 0 <= i < |SLOGANS| ==> 0 <= r < |SLOGANS|
    ensures 0 <= i < |SLOGANS| - 1 ==> r == i + 1
    ensures i == |SLOGANS| - 1 ==> r == 0
  {
    JsRemainder(i + 1, |SLOGANS|)
  }

  /** `handlePrev`'s updater. */
  function Prev(i: int): (r: int)
    ensures 0 <= i < |SLOGANS| ==> 0 <= r < |SLOGANS|
    ensures 0 < i < |SLOGANS| ==> r == i - 1
    ensures i == 0 ==> r == |SLOGANS| - 1
  {
    JsRemainder(i - 1 + |SLOGANS|, |SLOGANS|)
  }

  /** Forward and back undo each other. */
  lemma NextPrevInverse(i: int)
    requires 0 <= i < |SLOGANS|
    ensures Next(Prev(i)) == i && Prev(Next(i)) == i
  {
  }

  /** `k` steps forward. */
  function NextN(i: int, k: nat): int {
    if k == 0 then i else Next(NextN(i, k - 1))
  }

  lemma {:induction false} NextNIsShift(i: int, k: nat)
    requires 0 <= i < |SLOGANS|
    ensures NextN(i, k) == (i + k) % |SLOGANS|
  {
    if k > 0 {
      NextNIsShift(i, k - 1);
      RemainderStep(i + k - 1);
    }
  }

  /** One more step forward from a remainder is the remainder of one more. */
  lemma RemainderStep(a: nat)
    ensures Next(a % 4) == (a + 1) % 4
  {
    var q, m := a / 4, a % 4;
    assert a == 4 * q + m;
    if m == 3 {
      assert a + 1 == 4 * (q + 1);
    } else {
      assert a + 1 == 4 * q + (m + 1);
    }
  }

  /** As many steps forward as there are slogans come back to the start. */
  lemma FullRotation(i: int)
    requires 0 <= i < |SLOGANS|
    ensures NextN(i, |SLOGANS|) == i
  {
    NextNIsShift(i, |SLOGANS|);
  }

  /** One press of an arrow. */
  datatype Arrow = Forward | Back

  function Press(i: int, a: Arrow): int {
    match a
    case Forward => Next(i)
    case Back => Prev(i)
  }

  function PressAll(i: int, arrows: seq<Arrow>): int
    decreases arrows
  {
    if arrows == [] then i else PressAll(Press(i, arrows[0]), arrows[1..])
  }

  /** No run of presses takes the index out of the slogan list. */
  lemma {:induction false} PressAllInRange(i: int, arrows: seq<Arrow>)
    requires 0 <= i < |SLOGANS|
    ensures 0 <= PressAll(i, arrows) < |SLOGANS|
    decreases arrows
  {
    if arrows != [] {
      PressAllInRange(Press(i, arrows[0]), arrows[1..]);
    }
  }

  /** Every slogan has its row of gallery images. */
  lemma GalleryMatchesSlogans()
    ensures |GALLERY_IMAGES| == |SLOGANS|
    ensures forall i :: 0 <= i < |GALLERY_IMAGES| ==> |GALLERY_IMAGES[i]| == 4
  {
  }

  /** What the banner shows for index `i`. */
  datatype Slide = Slide(slogan: Slogan, gallery: seq<string>)

  function SlideAt(i: int): (s: Slide)
    requires 0 <= i < |SLOGANS|
    ensures s.slogan == SLOGANS[i] && s.gallery == GALLERY_IMAGES[i] && |s.gallery| == 4
  {
    Slide(SLOGANS[i], GALLERY_IMAGES[i])
  }

  class Banner {
    var currentSlogan: int
    var isTransitioning: bool

    predicate Valid()
      reads this
    {
      0 <= currentSlogan < |SLOGANS|
    }

    constructor ()
      ensures Valid() && currentSlogan == 0 && !isTransitioning
    {
      currentSlogan := 0;
      isTransitioning := false;
    }

    method HandleNext()
      requires Valid()
      modifies this
      ensures Valid()
      ensures currentSlogan == Next(old(currentSlogan)) && isTransitioning == old(isTransitioning)
    {
      currentSlogan := Next(currentSlogan);
    }

    method HandlePrev()
      requires Valid()
      modifies this
      ensures Valid()
      ensures currentSlogan == Prev(old(currentSlogan)) && isTransitioning == old(isTransitioning)
    {
      currentSlogan := Prev(currentSlogan);
    }

    /** The rotation interval fires: the text starts fading out. */
    method RotationStart()
      requires Valid()
      modifies this
      ensures Valid() && isTransitioning && currentSlogan == old(currentSlogan)
    {
      isTransitioning := true;
    }

    /** Half a second later: the next slogan, faded back in. */
    method RotationEnd()
      requires Valid()
      modifies this
      ensures Valid() && !isTransitioning && currentSlogan == Next(old(currentSlogan))
    {
      currentSlogan := Next(currentSlogan);
      isTransitioning := false;
    }
  }
}
