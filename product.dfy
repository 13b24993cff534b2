/** The product catalogue page: each product card's image carousel, which
    advances by itself while the card has more than one image, the card's
    size preview, and the product-detail modal.

    The size preview and the carousel dots are comparisons made while
    rendering and are modelled as functions; the carousel index and the
    modal's state are fields changed in place by an interval and by handlers. */
module Product {
  import Carousel

  datatype Option<T> = None | Some(value: T)

  /** A catalogue entry, with the attributes the page's handlers carry around. */
  datatype ProductInfo = ProductInfo(
    id: int, name: string, brands: seq<string>, sizes: seq<string>,
    price: string, images: seq<string>, description: string,
    features: seq<string>, bestFor: seq<string>)

  // ---------------------------------------------------------- size preview

  /** How many sizes a card lists before the "+N more" tag. */
  const PreviewLength := 4

  /** A card's size row: the sizes listed, and the count on the "+N more" tag
      if the tag is rendered. */
  datatype SizePreview = SizePreview(shown: seq<string>, more: Option<int>)

  function HiddenCount(p: SizePreview): int {
    if p.more.Some? then p.more.value else 0
  }

  /** `sizes.slice(0, 4)` followed by the tag when more than four remain. */
  function PreviewOf(sizes: seq<string>): (p: SizePreview)
    ensures p.shown <= sizes
    ensures |p.shown| <= PreviewLength
    ensures |p.shown| < PreviewLength ==> p.shown == sizes
    ensures p.more.Some? <==> |p.shown| < |sizes|
    ensures p.more.Some? ==> p.more.value > 0
    ensures |p.shown| + HiddenCount(p) == |sizes|
  {
    if |sizes| > PreviewLength then
      SizePreview(sizes[..PreviewLength], Some(|sizes| - PreviewLength))
    else
      SizePreview(sizes, None)
  }

  // ------------------------------------------------------------ dot strip

  /** The dots under a card's image: none when there is at most one image,
      otherwise one per image, lit exactly at the current index. */
  function Dots(imageCount: int, index: int): (dots: seq<bool>)
    ensures imageCount <= 1 ==> dots == []
    ensures imageCount > 1 ==> |dots| == imageCount
    ensures forall i :: 0 <= i < |dots| ==> (dots[i] <==> i == index)
  {
    if imageCount > 1 then seq(imageCount, i => i == index) else []
  }

  function CountLit(dots: seq<bool>): nat {
    if dots == [] then 0 else (if dots[0] then 1 else 0) + CountLit(dots[1..])
  }

  lemma {:induction false} NoneLit(dots: seq<bool>)
    requires forall i :: 0 <= i < |dots| ==> !dots[i]
    ensures CountLit(dots) == 0
  {
    if dots != [] {
      assert forall i :: 0 <= i < |dots[1..]| ==> !dots[1..][i] by {
        forall i | 0 <= i < |dots[1..]| ensures !dots[1..][i] {
          assert dots[1..][i] == dots[i + 1];
        }
      }
      NoneLit(dots[1..]);
    }
  }

  lemma {:induction false} OneLit(dots: seq<bool>, k: int)
    requires 0 <= k < |dots|
    requires forall i :: 0 <= i < |dots| ==> (dots[i] <==> i == k)
    ensures CountLit(dots) == 1
  {
    var rest := dots[1..];
    assert forall i :: 0 <= i < |rest| ==> rest[i] == dots[i + 1];
    if k == 0 {
      NoneLit(rest);
    } else {
      OneLit(rest, k - 1);
    }
  }

  /** With more than one image and the index on an image, exactly one dot is
      lit, and it is the current image's. */
  lemma ExactlyOneDot(imageCount: int, index: int)
    requires imageCount > 1 && 0 <= index < imageCount
    ensures CountLit(Dots(imageCount, index)) == 1
    ensures Dots(imageCount, index)[index]
  {
    OneLit(Dots(imageCount, index), index);
  }

  // ------------------------------------------------------- image carousel

  /** One card's image carousel. The interval exists only while the card has
      more than one image. */
  class ProductImageCarousel {
    const images: seq<string>
    var index: int

    ghost predicate Valid()
      reads this
    {
      && 0 <= index
      && (|images| > 0 ==> index < |images|)
      && (|images| <= 1 ==> index == 0)
    }

    predicate IntervalScheduled() {
      |images| > 1
    }

    constructor (images: seq<string>)
      ensures Valid() && this.images == images && index == 0
    {
      this.images := images;
      index := 0;
    }

    /** One tick of the interval: the next image, wrapping to the first. */
    method Tick()
      requires Valid() && IntervalScheduled()
      modifies this
      ensures Valid()
      ensures index == if old(index) == |images| - 1 then 0 else old(index) + 1
    {
      index := Carousel.Next(index, |images|);
    }

    /** The image on display; with no images, `images[0]` is undefined. */
    function Current(): (img: Option<string>)
      reads this
      requires Valid()
      ensures img.Some? <==> |images| > 0
      ensures img.Some? ==> img.value == images[index]
    {
      if |images| > 0 then Some(images[index]) else None
    }

    function DotStrip(): seq<bool>
      reads this
    {
      Dots(|images|, index)
    }
  }

  /** A card whose interval is scheduled shows each of its images in turn and
      is back at its first image after one round. */
  lemma CardRound(imageCount: int, index: int, k: nat)
    requires imageCount > 1 && 0 <= index < imageCount
    ensures Carousel.Advance(index, imageCount, k) == (index + k) % imageCount
    ensures Carousel.Advance(index, imageCount, imageCount) == index
  {
    Carousel.AdvanceIsModular(index, imageCount, k);
    Carousel.FullRound(index, imageCount);
  }

  // ------------------------------------------------------------ the modal

  datatype DetailState = DetailState(selectedProduct: Option<ProductInfo>, showProductDetail: bool)

  /** `showProductDetail && selectedProduct`: the product the modal shows, if any. */
  function ModalProduct(s: DetailState): (p: Option<ProductInfo>)
    ensures p.Some? <==> s.showProductDetail && s.selectedProduct.Some?
    ensures p.Some? ==> p == s.selectedProduct
  {
    if s.showProductDetail then s.selectedProduct else None
  }

  const InitialDetail := DetailState(None, false)

  function OnView(s: DetailState, p: ProductInfo): DetailState {
    DetailState(Some(p), true)
  }

  function OnClose(s: DetailState): DetailState {
    s.(showProductDetail := false)
  }

  datatype DetailEvent = View(product: ProductInfo) | Close

  function Apply(s: DetailState, e: DetailEvent): DetailState {
    match e
    case View(p) => OnView(s, p)
    case Close => OnClose(s)
  }

  function RunDetail(s: DetailState, events: seq<DetailEvent>): DetailState
    decreases |events|
  {
    if events == [] then s else RunDetail(Apply(s, events[0]), events[1..])
  }

  /** "View Details" opens the modal on that product; closing hides it and
      keeps the selection. */
  lemma ViewAndClose(s: DetailState, p: ProductInfo)
    ensures ModalProduct(OnView(s, p)) == Some(p)
    ensures ModalProduct(OnClose(s)) == None
    ensures OnClose(s).selectedProduct == s.selectedProduct
    ensures OnClose(OnView(s, p)).selectedProduct == Some(p)
  {
  }

  /** From the page's initial state, whatever the visitor clicks, the flag is
      never set without a selection: the modal is shown exactly when the flag
      is set. */
  lemma {:induction false} FlagImpliesSelection(s: DetailState, events: seq<DetailEvent>)
    requires s.showProductDetail ==> s.selectedProduct.Some?
    ensures var t := RunDetail(s, events);
      (ModalProduct(t).Some? <==> t.showProductDetail)
    decreases |events|
  {
    if events != [] {
      FlagImpliesSelection(Apply(s, events[0]), events[1..]);
    }
  }

  lemma InitialModalHidden(events: seq<DetailEvent>)
    ensures ModalProduct(InitialDetail) == None
    ensures ModalProduct(RunDetail(InitialDetail, events)).Some? <==>
      RunDetail(InitialDetail, events).showProductDetail
  {
    FlagImpliesSelection(InitialDetail, events);
  }

  /** The page's modal state in place. */
  class ProductPage {
    var selectedProduct: Option<ProductInfo>
    var showProductDetail: bool

    function State(): DetailState
      reads this
    {
      DetailState(selectedProduct, showProductDetail)
    }

    constructor ()
      ensures State() == InitialDetail
    {
      selectedProduct := None;
      showProductDetail := false;
    }

    method ViewProductDetail(p: ProductInfo)
      modifies this
      ensures State() == OnView(old(State()), p)
      ensures ModalProduct(State()) == Some(p)
    {
      selectedProduct := Some(p);
      showProductDetail := true;
    }

    /** The modal's close button. */
    method CloseDetail()
      modifies this
      ensures State() == OnClose(old(State()))
      ensures ModalProduct(State()) == None
    {
      showProductDetail := false;
    }
  }
}
