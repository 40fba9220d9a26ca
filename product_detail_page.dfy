/**
 * The product page, `frontend/src/pages/ProductDetail.js`: the quantity
 * stepper, the image carousel and the review form's guards.
 */
module ProductDetailPage {

  import opened Wrappers
  import RecordStore
  import ReviewRoutes

  /** What the main image falls back to when there is neither an image at the index nor a thumbnail. */
  const PlaceholderUrl := "https://via.placeholder.com/600x600/f3f4f6/9ca3af?text=No+Image"

  /** One entry of the carousel. */
  datatype Image = Image(url: string, isThumbnail: bool)

  /** `product?.thumbnail_url` is truthy. */
  predicate HasThumbnail(thumbnail: Option<string>) {
    thumbnail.Some? && thumbnail.value != ""
  }

  /** The carousel: the thumbnail, if any, then every gallery image in order. */
  function AllImages(thumbnail: Option<string>, gallery: seq<string>): (r: seq<Image>)
    ensures HasThumbnail(thumbnail) ==>
      && |r| == |gallery| + 1 && r[0] == Image(thumbnail.value, true)
      && forall i :: 0 <= i < |gallery| ==> r[i + 1] == Image(gallery[i], false)
    ensures !HasThumbnail(thumbnail) ==>
      && |r| == |gallery|
      && forall i :: 0 <= i < |gallery| ==> r[i] == Image(gallery[i], false)
  {
    if HasThumbnail(thumbnail) then [Image(thumbnail.value, true)] + GalleryImages(gallery)
    else GalleryImages(gallery)
  }

  function GalleryImages(gallery: seq<string>): (r: seq<Image>)
    ensures |r| == |gallery| && forall i :: 0 <= i < |gallery| ==> r[i] == Image(gallery[i], false)
  {
    seq(|gallery|, i requires 0 <= i < |gallery| => Image(gallery[i], false))
  }

  /** Only the thumbnail is marked as one. */
  lemma OnlyFirstIsThumbnail(thumbnail: Option<string>, gallery: seq<string>, i: nat)
    requires i < |AllImages(thumbnail, gallery)|
    ensures AllImages(thumbnail, gallery)[i].isThumbnail <==> i == 0 && HasThumbnail(thumbnail)
  {
    if HasThumbnail(thumbnail) && i > 0 {
      assert AllImages(thumbnail, gallery)[(i - 1) + 1] == Image(gallery[i - 1], false);
    }
  }

  /** `getAllImages`: push the thumbnail, then each gallery image. */
  method GetAllImages(thumbnail: Option<string>, gallery: seq<string>) returns (images: seq<Image>)
    ensures images == AllImages(thumbnail, gallery)
  {
    images := [];
    if HasThumbnail(thumbnail) {
      images := images + [Image(thumbnail.value, true)];
    }
    ghost var head := images;
    for i := 0 to |gallery|
      invariant images == head + GalleryImages(gallery[..i])
    {
      GalleryImagesSnoc(gallery, i);
      images := images + [Image(gallery[i], false)];
    }
    assert gallery[..|gallery|] == gallery;
    AllImagesSplit(thumbnail, gallery);
  }

  lemma GalleryImagesSnoc(gallery: seq<string>, i: nat)
    requires i < |gallery|
    ensures GalleryImages(gallery[..i + 1]) == GalleryImages(gallery[..i]) + [Image(gallery[i], false)]
  {
  }

  lemma AllImagesSplit(thumbnail: Option<string>, gallery: seq<string>)
    ensures AllImages(thumbnail, gallery) ==
            (if HasThumbnail(thumbnail) then [Image(thumbnail.value, true)] else []) + GalleryImages(gallery)
  {
    if !HasThumbnail(thumbnail) {
      assert [] + GalleryImages(gallery) == GalleryImages(gallery);
    }
  }

  /** `(i + 1) % n`. */
  function NextIndex(i: nat, n: nat): (r: nat)
    requires n > 0
    ensures r < n
  {
    (i + 1) % n
  }

  /** `(i - 1 + n) % n`; the dividend is never negative, so JavaScript's `%` agrees. */
  function PrevIndex(i: nat, n: nat): (r: nat)
    requires n > 0
    ensures r < n
  {
    (i - 1 + n) % n
  }

  /** Each arrow undoes the other one. */
  lemma NextPrevInverse(i: nat, n: nat)
    requires i < n
    ensures PrevIndex(NextIndex(i, n), n) == i
    ensures NextIndex(PrevIndex(i, n), n) == i
  {
    if i + 1 == n {
      ModUnique(n, 1, 0, n);
      ModUnique(n - 1, 0, n - 1, n);
    } else {
      ModUnique(i + 1, 0, i + 1, n);
      ModUnique(i + n, 1, i, n);
    }
    if i == 0 {
      ModUnique(n - 1, 0, n - 1, n);
      ModUnique(n, 1, 0, n);
    } else {
      ModUnique(i - 1 + n, 1, i - 1, n);
      ModUnique(i, 0, i, n);
    }
  }

  /** `k` presses of the next arrow from `i` land on `(i + k) % n`. */
  lemma {:induction false} NextCycles(i: nat, n: nat, k: nat)
    requires i < n
    ensures Iterate(i, n, k) == (i + k) % n
    decreases k
  {
    if k == 0 {
      ModUnique(i, 0, i, n);
    } else {
      NextCycles(i, n, k - 1);
      NextOfRemainder(i + k - 1, n);
    }
  }

  /** `n` presses of the next arrow come back to the start. */
  lemma NextCyclesBack(i: nat, n: nat)
    requires i < n
    ensures Iterate(i, n, n) == i
  {
    NextCycles(i, n, n);
    ModUnique(i + n, 1, i, n);
  }

  lemma MulMono(q: int, k: int, n: int)
    requires n > 0 && q >= k
    ensures q * n >= k * n
  {
    assert q * n - k * n == (q - k) * n;
  }

  /** The remainder is the only value below `n` that `x` differs from by a multiple of `n`. */
  lemma ModUnique(x: int, q: int, r: int, n: int)
    requires n > 0 && 0 <= r < n && x == q * n + r
    ensures x % n == r
  {
    var q', r' := x / n, x % n;
    assert (q - q') * n == r' - r;
    if q - q' >= 1 {
      MulMono(q - q', 1, n);
      assert false;
    } else if q - q' <= -1 {
      MulMono(-1, q - q', n);
      assert false;
    }
  }

  lemma NextOfRemainder(x: nat, n: nat)
    requires n > 0
    ensures NextIndex(x % n, n) == (x + 1) % n
  {
    ModSucc(x, n);
  }

  lemma ModSucc(x: nat, n: nat)
    requires n > 0
    ensures (x % n + 1) % n == (x + 1) % n
  {
    var q, r := x / n, x % n;
    if r + 1 < n {
      ModUnique(x + 1, q, r + 1, n);
      ModUnique(r + 1, 0, r + 1, n);
    } else {
      ModUnique(x + 1, q + 1, 0, n);
      ModUnique(r + 1, 1, 0, n);
    }
  }

  /** `k` presses of the next arrow from index `i`. */
  function Iterate(i: nat, n: nat, k: nat): (r: nat)
    requires i < n
    ensures r < n
  {
    if k == 0 then i else NextIndex(Iterate(i, n, k - 1), n)
  }

  /** The arrows are rendered only when there is more than one image. */
  predicate ShowNavigation(images: seq<Image>) {
    |images| > 1
  }

  /** `(allImages[i] || { url: thumbnail || placeholder }).url`. */
  function CurrentImageUrl(images: seq<Image>, i: nat, thumbnail: Option<string>): (url: string)
    ensures i < |images| ==> url == images[i].url
    ensures i >= |images| && HasThumbnail(thumbnail) ==> url == thumbnail.value
    ensures i >= |images| && !HasThumbnail(thumbnail) ==> url == PlaceholderUrl
  {
    if i < |images| then images[i].url
    else if HasThumbnail(thumbnail) then thumbnail.value
    else PlaceholderUrl
  }

  /** A rating picked from the five stars passes the server's rating rule. */
  lemma StarRatingAccepted(rating: int)
    requires 1 <= rating <= 5
    ensures ReviewRoutes.RatingAccepted(Some(rating as real))
  {
  }

  /** The page refuses only a zero rating; any other rating outside 1 to 5 is left to the server to refuse. */
  lemma OutOfRangeLeftToServer(rating: int)
    requires rating != 0 && (rating < 1 || rating > 5)
    ensures !ReviewRoutes.RatingAccepted(Some(rating as real))
  {
  }

  /** The body of the review request. */
  datatype ReviewRequest = ReviewRequest(rating: int, comment: string)

  /** The page's state for one loaded product. */
  class ProductDetail {
    const productId: RecordStore.Id
    const stock: int
    const thumbnail: Option<string>
    const gallery: seq<string>
    var quantity: int
    var selectedImageIndex: nat
    var reviewRating: int
    var reviewComment: string
    var showReviewForm: bool

    /** The quantity is at least one, and at most the stock when there is any. */
    ghost predicate Valid()
      reads this
    {
      1 <= quantity && (stock >= 1 ==> quantity <= stock)
    }

    constructor (productId: RecordStore.Id, stock: int, thumbnail: Option<string>, gallery: seq<string>)
      ensures Valid()
      ensures this.productId == productId && this.stock == stock
      ensures this.thumbnail == thumbnail && this.gallery == gallery
      ensures quantity == 1 && selectedImageIndex == 0
      ensures reviewRating == 0 && reviewComment == "" && !showReviewForm
    {
      this.productId := productId;
      this.stock := stock;
      this.thumbnail := thumbnail;
      this.gallery := gallery;
      quantity := 1;
      selectedImageIndex := 0;
      reviewRating, reviewComment, showReviewForm := 0, "", false;
    }

    /** `handleQuantityChange`: the step is taken only when it lands in `[1, stock]`. */
    method HandleQuantityChange(change: int)
      requires Valid()
      modifies this`quantity
      ensures Valid()
      ensures 1 <= old(quantity) + change <= stock ==> quantity == old(quantity) + change
      ensures !(1 <= old(quantity) + change <= stock) ==> quantity == old(quantity)
    {
      var next := quantity + change;
      if next >= 1 && next <= stock {
        quantity := next;
      }
    }

    /** `handleAddToCart`: nothing is added for a visitor who is not signed in. */
    method HandleAddToCart(authenticated: bool) returns (added: Option<(RecordStore.Id, int)>)
      requires Valid()
      ensures authenticated ==> added == Some((productId, quantity))
      ensures !authenticated ==> added.None?
      ensures added.Some? ==> added.value.1 >= 1
    {
      if !authenticated {
        return None;
      }
      added := Some((productId, quantity));
    }

    /** `handleImageSelect`. */
    method HandleImageSelect(index: nat)
      modifies this`selectedImageIndex
      ensures selectedImageIndex == index
    {
      selectedImageIndex := index;
    }

    /** `handleNextImage`, behind an arrow rendered only when there is more than one image. */
    method HandleNextImage()
      requires ShowNavigation(AllImages(thumbnail, gallery))
      modifies this`selectedImageIndex
      ensures selectedImageIndex == NextIndex(old(selectedImageIndex), |AllImages(thumbnail, gallery)|)
    {
      var images := GetAllImages(thumbnail, gallery);
      selectedImageIndex := NextIndex(selectedImageIndex, |images|);
    }

    /** `handlePrevImage`, behind the other arrow. */
    method HandlePrevImage()
      requires ShowNavigation(AllImages(thumbnail, gallery))
      modifies this`selectedImageIndex
      ensures selectedImageIndex == PrevIndex(old(selectedImageIndex), |AllImages(thumbnail, gallery)|)
    {
      var images := GetAllImages(thumbnail, gallery);
      selectedImageIndex := PrevIndex(selectedImageIndex, |images|);
    }

    /** The "Write a Review" button: shows the form when hidden, hides it when shown. */
    method ToggleReviewForm()
      modifies this`showReviewForm
      ensures showReviewForm == !old(showReviewForm)
    {
      showReviewForm := !showReviewForm;
    }

    /** The form's "Cancel" button: hides the form and keeps what was typed. */
    method CancelReviewForm()
      modifies this`showReviewForm
      ensures !showReviewForm
    {
      showReviewForm := false;
    }

    /** `handleReviewFormChange` on the rating. */
    method SetReviewRating(rating: int)
      modifies this`reviewRating
      ensures reviewRating == rating
    {
      reviewRating := rating;
    }

    /** `handleReviewFormChange` on the comment. */
    method SetReviewComment(comment: string)
      modifies this`reviewComment
      ensures reviewComment == comment
    {
      reviewComment := comment;
    }

    /**
     * `handleReviewSubmit`: nothing is sent for a visitor who is not signed in
     * or without a rating; after a successful request the form is reset and
     * hidden, after a failed one it is kept.
     */
    method HandleReviewSubmit(authenticated: bool, succeeded: bool) returns (sent: Option<ReviewRequest>)
      modifies this`reviewRating, this`reviewComment, this`showReviewForm
      ensures !authenticated || old(reviewRating) == 0 ==> sent.None?
      ensures authenticated && old(reviewRating) != 0 ==>
        sent == Some(ReviewRequest(old(reviewRating), old(reviewComment)))
      ensures sent.Some? && succeeded ==> reviewRating == 0 && reviewComment == "" && !showReviewForm
      ensures sent.None? || !succeeded ==>
        reviewRating == old(reviewRating) && reviewComment == old(reviewComment) &&
        showReviewForm == old(showReviewForm)
    {
      if !authenticated || reviewRating == 0 {
        return None;
      }
      sent := Some(ReviewRequest(reviewRating, reviewComment));
      if succeeded {
        ResetReviewForm();
      }
    }

    method ResetReviewForm()
      modifies this`reviewRating, this`reviewComment, this`showReviewForm
      ensures reviewRating == 0 && reviewComment == "" && !showReviewForm
    {
      reviewRating, reviewComment, showReviewForm := 0, "", false;
    }
  }
}
