/** The projects page's preview panel: the container slides in while the
    pointer is over the project list, and hovering a row crossfades between
    two image elements, loading the row's image into the hidden one and
    swapping their roles. */
module ProjectPreview {
  import opened Pages

  /** One image element: its source and its class list. */
  datatype Slot = Slot(src: string, classes: set<string>)

  /** Both image elements, which of them is currently the active one, the
      last source shown and the container's class list. */
  datatype Preview = Preview(
    first: Slot,
    second: Slot,
    firstActive: bool,
    current: string,
    container: set<string>)

  function ActiveSlot(s: Preview): Slot
  {
    if s.firstActive then s.first else s.second
  }

  function InactiveSlot(s: Preview): Slot
  {
    if s.firstActive then s.second else s.first
  }

  /** The row's `mouseenter` listener. */
  function Hovered(s: Preview, imgSrc: string): Preview
  {
    if s.current == imgSrc then s
    else if s.firstActive then
      s.(second := Slot(imgSrc, s.second.classes + {Active}),
         first := s.first.(classes := s.first.classes - {Active}),
         firstActive := false,
         current := imgSrc)
    else
      s.(first := Slot(imgSrc, s.first.classes + {Active}),
         second := s.second.(classes := s.second.classes - {Active}),
         firstActive := true,
         current := imgSrc)
  }

  /** The list's `mouseenter` and `mouseleave` listeners. */
  function ListEntered(s: Preview): Preview
  {
    s.(container := s.container + {Active})
  }

  function ListLeft(s: Preview): Preview
  {
    s.(container := s.container - {Active})
  }

  /** Exactly one image carries `active`, and it shows the last source. */
  predicate OneShown(s: Preview)
  {
    Active in ActiveSlot(s).classes && Active !in InactiveSlot(s).classes &&
    ActiveSlot(s).src == s.current
  }

  /** Hovering the row already shown changes nothing at all. */
  lemma RepeatHoverIgnored(s: Preview)
    ensures Hovered(s, s.current) == s
  {
  }

  /** An effective hover writes the new source only into the image that was
      hidden, makes that image the active one, takes `active` off the other
      and records the source as the one shown. */
  lemma EffectiveHoverSwaps(s: Preview, imgSrc: string)
    requires s.current != imgSrc
    ensures var r := Hovered(s, imgSrc);
      && r.firstActive == !s.firstActive
      && ActiveSlot(r) == Slot(imgSrc, InactiveSlot(s).classes + {Active})
      && InactiveSlot(r) == ActiveSlot(s).(classes := ActiveSlot(s).classes - {Active})
      && r.current == imgSrc
      && r.container == s.container
      && OneShown(r)
  {
  }

  /** Once an effective hover has happened, every later hover keeps exactly
      one image active, the one showing the last source. */
  lemma HoverKeepsOneShown(s: Preview, imgSrc: string)
    requires OneShown(s)
    ensures OneShown(Hovered(s, imgSrc))
  {
  }

  /** The container is active after entering the list and not after leaving
      it; neither touches the images. */
  lemma ContainerFollowsList(s: Preview)
    ensures Active in ListEntered(s).container
    ensures Active !in ListLeft(s).container
    ensures ListEntered(s).(container := s.container) == s
    ensures ListLeft(s).(container := s.container) == s
  {
  }

  /** An image element of the page. */
  class ImageElement {
    var src: string
    var classList: set<string>

    constructor (src: string, classList: set<string>)
      ensures this.src == src && this.classList == classList
    {
      this.src := src;
      this.classList := classList;
    }
  }

  /** The handler's variables: the two image elements under their current
      roles, the last source shown and the container's class list. */
  class Crossfade {
    const img1: ImageElement
    const img2: ImageElement
    var activeImg: ImageElement
    var inactiveImg: ImageElement
    var currentImgSrc: string
    var containerClasses: set<string>

    ghost predicate Valid()
      reads this
    {
      img1 != img2 &&
      ((activeImg == img1 && inactiveImg == img2) || (activeImg == img2 && inactiveImg == img1))
    }

    function View(): Preview
      reads this, img1, img2
    {
      Preview(Slot(img1.src, img1.classList), Slot(img2.src, img2.classList),
              activeImg == img1, currentImgSrc, containerClasses)
    }

    /** The first element takes the active role and the last source starts
        as the empty string, so a first hover over a row whose `data-img` is
        empty is ignored. Which element carries the `active` class is up to
        the markup. */
    constructor (img1: ImageElement, img2: ImageElement, containerClasses: set<string>)
      requires img1 != img2
      ensures this.img1 == img1 && this.img2 == img2 && Valid()
      ensures View() == Preview(Slot(img1.src, img1.classList), Slot(img2.src, img2.classList),
                                true, "", containerClasses)
    {
      this.img1 := img1;
      this.img2 := img2;
      activeImg := img1;
      inactiveImg := img2;
      currentImgSrc := "";
      this.containerClasses := containerClasses;
    }

    method RowMouseEnter(imgSrc: string)
      requires Valid()
      modifies this, img1, img2
      ensures Valid()
      ensures View() == Hovered(old(View()), imgSrc)
    {
      if currentImgSrc == imgSrc {
        return;
      }
      currentImgSrc := imgSrc;
      inactiveImg.src := imgSrc;
      inactiveImg.classList := inactiveImg.classList + {Active};
      activeImg.classList := activeImg.classList - {Active};
      var temp := activeImg;
      activeImg := inactiveImg;
      inactiveImg := temp;
    }

    /** The list's listeners touch only the container: the two role
        variables, and so `Valid()`, are kept. */
    method ListMouseEnter()
      requires Valid()
      modifies this
      ensures Valid()
      ensures activeImg == old(activeImg) && inactiveImg == old(inactiveImg)
      ensures View() == ListEntered(old(View()))
    {
      containerClasses := containerClasses + {Active};
    }

    method ListMouseLeave()
      requires Valid()
      modifies this
      ensures Valid()
      ensures activeImg == old(activeImg) && inactiveImg == old(inactiveImg)
      ensures View() == ListLeft(old(View()))
    {
      containerClasses := containerClasses - {Active};
    }
  }
}
