/** The exploration notebook's ingestion transforms: Amazon metadata and
    review records become product, review, user and category documents
    with sanitized keys, and variant edges link products to their parents.
    A call that would raise an uncaught exception (joining a list that
    holds a non-string) yields `Raised`. */
module NotebookIngest {
  import opened Common
  import opened Keys
  import opened PyValues

  /** What becomes of one input record. */
  datatype Outcome<T> = Skipped | Built(value: T) | Raised

  // ---------------------------------------------------------------------
  // Images

  /** `img[field]` when `img` is a dict holding a truthy `field`. */
  function ImageAt(img: PyVal, field: string): (r: Option<PyVal>)
    ensures r.Some? <==> img.PDict? && Has(img.fields, field) && Truthy(Get(img.fields, field, PNone))
    ensures r.Some? ==> r.value == Get(img.fields, field, PNone)
  {
    if img.PDict? && Has(img.fields, field) && Truthy(Get(img.fields, field, PNone))
    then Some(Get(img.fields, field, PNone)) else None
  }

  /** Every usable image entry's `field`, in order. */
  function AllImages(imgs: seq<PyVal>, field: string): (r: seq<PyVal>)
    ensures |r| <= |imgs|
    decreases |imgs|
  {
    if imgs == [] then []
    else
      var n := |imgs| - 1;
      var found := ImageAt(imgs[n], field);
      AllImages(imgs[..n], field) + (if found.Some? then [found.value] else [])
  }

  /** Every image found is the truthy `field` of one of the entries. */
  lemma {:induction false} AllImagesFrom(imgs: seq<PyVal>, field: string)
    ensures forall v :: v in AllImages(imgs, field) ==>
      Truthy(v) && exists img :: img in imgs && ImageAt(img, field) == Some(v)
    decreases |imgs|
  {
    if imgs != [] {
      var n := |imgs| - 1;
      AllImagesFrom(imgs[..n], field);
      assert forall img :: img in imgs[..n] ==> img in imgs;
      assert imgs[n] in imgs;
    }
  }

  /** Scanning fewer entries finds a prefix of the images. */
  lemma {:induction false} AllImagesPrefix(imgs: seq<PyVal>, field: string, i: nat)
    requires i <= |imgs|
    ensures |AllImages(imgs[..i], field)| <= |AllImages(imgs, field)|
    ensures AllImages(imgs, field)[..|AllImages(imgs[..i], field)|] == AllImages(imgs[..i], field)
    decreases |imgs|
  {
    if i < |imgs| {
      var n := |imgs| - 1;
      assert imgs[..n][..i] == imgs[..i];
      AllImagesPrefix(imgs[..n], field, i);
    } else {
      assert imgs[..i] == imgs;
    }
  }

  /** One more entry adds its image, when it has one, at the end. */
  lemma AllImagesStep(imgs: seq<PyVal>, field: string, i: nat)
    requires i < |imgs|
    ensures var found := ImageAt(imgs[i], field);
      AllImages(imgs[..i + 1], field) == AllImages(imgs[..i], field) + (if found.Some? then [found.value] else [])
  {
    assert imgs[..i + 1][..i] == imgs[..i];
  }

  /** Once `limit` images are found among the first `i` entries, they are
      the first `limit` images of all entries. */
  lemma LimitReached(imgs: seq<PyVal>, field: string, i: nat, limit: nat)
    requires i <= |imgs| && |AllImages(imgs[..i], field)| == limit
    ensures Take(AllImages(imgs, field), limit) == AllImages(imgs[..i], field)
  {
    AllImagesPrefix(imgs, field, i);
  }

  /** The image loop: collects the `field` of each usable entry and, with a
      limit, stops once that many are collected. */
  method CollectImages(imgs: seq<PyVal>, field: string, limit: Option<nat>) returns (images: seq<PyVal>)
    requires limit.Some? ==> limit.value >= 1
    ensures limit.None? ==> images == AllImages(imgs, field)
    ensures limit.Some? ==> images == Take(AllImages(imgs, field), limit.value)
  {
    images := [];
    var i := 0;
    while i < |imgs|
      invariant 0 <= i <= |imgs|
      invariant images == AllImages(imgs[..i], field)
      invariant limit.Some? ==> |images| < limit.value
    {
      AllImagesStep(imgs, field, i);
      var found := ImageAt(imgs[i], field);
      if found.Some? {
        images := images + [found.value];
        assert images == AllImages(imgs[..i + 1], field);
        if limit.Some? && |images| >= limit.value {
          LimitReached(imgs, field, i + 1, limit.value);
          return;
        }
      }
      assert images == AllImages(imgs[..i + 1], field);
      i := i + 1;
    }
    assert imgs[..|imgs|] == imgs;
  }

  /** The entries under `images`, when that is a list. */
  function ImageEntries(item: Dict): seq<PyVal> {
    var v := Get(item, "images", PList([]));
    if v.PList? then v.items else []
  }

  // ---------------------------------------------------------------------
  // Products

  datatype NbProduct = NbProduct(
    key: string,
    originalId: PyVal,
    title: string,
    mainCategory: PyVal,
    description: string,
    features: seq<PyVal>,
    featuresText: string,
    price: real,
    averageRating: real,
    ratingCount: int,
    store: string,
    details: PyVal,
    parentAsin: string,
    boughtTogether: PyVal,
    images: seq<PyVal>)

  /** The description: the truthy entries of a list joined with spaces
      (`None` if one is not a string), or `str()` of anything else. */
  function DescriptionOf(conv: Conv, item: Dict): (r: Option<string>)
    ensures !Get(item, "description", PList([])).PList? ==> r == Some(Str(conv, Get(item, "description", PList([]))))
  {
    var d := Get(item, "description", PList([]));
    if d.PList? then JoinStrs(Filter(d.items, Truthy), " ") else Some(Str(conv, d))
  }

  /** The truthy entries of `features` when it is a list. */
  function FeaturesOf(item: Dict): (r: seq<PyVal>)
    ensures forall f :: f in r ==> Truthy(f)
  {
    var f := Get(item, "features", PList([]));
    if f.PList? then Filter(f.items, Truthy) else []
  }

  /** A truthy `main_category` is sanitized (spaces allowed); a falsy one is
      kept as it is. */
  function MainCategoryOf(conv: Conv, item: Dict): (r: PyVal)
    ensures Truthy(r) <==> Truthy(Get(item, "main_category", PStr("")))
    ensures Truthy(r) ==> r.PStr? && IsValidKey(r.s)
  {
    var mc := Get(item, "main_category", PStr(""));
    if Truthy(mc) then PStr(SanitizeValue(conv, mc, true)) else mc
  }

  /** One metadata record: skipped without a truthy `parent_asin`, which
      otherwise becomes both `_key` and `parent_asin` once sanitized. */
  function ProductOf(conv: Conv, item: Dict): (o: Outcome<NbProduct>)
    ensures o.Skipped? <==> !Truthy(Get(item, "parent_asin", PNone))
    ensures o.Raised? <==> Truthy(Get(item, "parent_asin", PNone))
                           && (DescriptionOf(conv, item).None? || JoinStrs(FeaturesOf(item), " ").None?)
    ensures o.Built? ==>
      && o.value.key == o.value.parentAsin == SanitizeValue(conv, Get(item, "parent_asin", PNone), false)
      && IsValidKey(o.value.key)
      && o.value.originalId == Get(item, "parent_asin", PNone)
      && |o.value.images| <= 3
      && (forall v :: v in o.value.images ==> Truthy(v) && exists img :: img in ImageEntries(item) && ImageAt(img, "large") == Some(v))
  {
    var id := Get(item, "parent_asin", PNone);
    if !Truthy(id) then Skipped
    else
      var asin := SanitizeValue(conv, id, false);
      var description := DescriptionOf(conv, item);
      var features := FeaturesOf(item);
      var featuresText := JoinStrs(features, " ");
      if description.None? || featuresText.None? then Raised
      else
        var all := AllImages(ImageEntries(item), "large");
        var images := Take(all, 3);
        AllImagesFrom(ImageEntries(item), "large");
        assert forall v :: v in images ==> v in all;
        Built(NbProduct(
          asin, id, Str(conv, Get(item, "title", PStr(""))), MainCategoryOf(conv, item),
          description.value, features, featuresText.value,
          FloatOr0(conv, Get(item, "price", PNone)),
          FloatOr0(conv, Get(item, "average_rating", PNone)),
          IntOr0(conv, Get(item, "rating_number", PNone)),
          Str(conv, Get(item, "store", PStr(""))),
          Get(item, "details", PDict([])), asin,
          Get(item, "bought_together", PList([])), images))
  }

  /** The body of the product loop for one record. */
  method PrepareProduct(conv: Conv, item: Dict) returns (o: Outcome<NbProduct>)
    ensures o == ProductOf(conv, item)
  {
    var id := Get(item, "parent_asin", PNone);
    if !Truthy(id) {
      return Skipped;
    }
    var asin := SanitizeValue(conv, id, false);
    var description := DescriptionOf(conv, item);
    var features := FeaturesOf(item);
    var featuresText := JoinStrs(features, " ");
    if description.None? || featuresText.None? {
      return Raised;
    }
    var images := CollectImages(ImageEntries(item), "large", Some(3));
    o := Built(NbProduct(
      asin, id, Str(conv, Get(item, "title", PStr(""))), MainCategoryOf(conv, item),
      description.value, features, featuresText.value,
      FloatOr0(conv, Get(item, "price", PNone)),
      FloatOr0(conv, Get(item, "average_rating", PNone)),
      IntOr0(conv, Get(item, "rating_number", PNone)),
      Str(conv, Get(item, "store", PStr(""))),
      Get(item, "details", PDict([])), asin,
      Get(item, "bought_together", PList([])), images));
  }

  /** The products built from `items`, in order; `None` when a record
      raises. */
  function ProductsOf(conv: Conv, items: seq<Dict>): Option<seq<NbProduct>>
    decreases |items|
  {
    if items == [] then Some([])
    else
      var n := |items| - 1;
      match ProductsOf(conv, items[..n])
      case None => None
      case Some(ps) =>
        match ProductOf(conv, items[n])
        case Raised => None
        case Skipped => Some(ps)
        case Built(p) => Some(ps + [p])
  }

  /** The number of records skipped. */
  function SkippedProducts(conv: Conv, items: seq<Dict>): nat
    decreases |items|
  {
    if items == [] then 0
    else
      var n := |items| - 1;
      SkippedProducts(conv, items[..n]) + (if ProductOf(conv, items[n]).Skipped? then 1 else 0)
  }

  /** `prepare_products_data`: every record is either built or counted as
      skipped, unless one raises. */
  method PrepareProductsData(conv: Conv, items: seq<Dict>) returns (products: Option<seq<NbProduct>>, skipped: nat)
    ensures products == ProductsOf(conv, items)
    ensures products.Some? ==> skipped == SkippedProducts(conv, items)
    ensures products.Some? ==> |products.value| + skipped == |items|
  {
    var built: seq<NbProduct> := [];
    skipped := 0;
    var i := 0;
    while i < |items|
      invariant 0 <= i <= |items|
      invariant ProductsOf(conv, items[..i]) == Some(built)
      invariant skipped == SkippedProducts(conv, items[..i])
      invariant |built| + skipped == i
    {
      var o := PrepareProduct(conv, items[i]);
      ProductsStep(conv, items, i);
      match o {
        case Raised =>
          RaisedStaysRaised(conv, items, i + 1);
          return None, skipped;
        case Skipped =>
          skipped := skipped + 1;
        case Built(p) =>
          built := built + [p];
      }
      i := i + 1;
    }
    assert items[..|items|] == items;
    products := Some(built);
  }

  /** One more record adds its product, counts a skip, or raises. */
  lemma ProductsStep(conv: Conv, items: seq<Dict>, i: nat)
    requires i < |items| && ProductsOf(conv, items[..i]).Some?
    ensures var o := ProductOf(conv, items[i]);
      var before := ProductsOf(conv, items[..i]).value;
      && ProductsOf(conv, items[..i + 1]) ==
           (if o.Raised? then None else if o.Skipped? then Some(before) else Some(before + [o.value]))
      && SkippedProducts(conv, items[..i + 1])
           == SkippedProducts(conv, items[..i]) + (if o.Skipped? then 1 else 0)
  {
    assert items[..i + 1][..i] == items[..i];
  }

  /** Once a record raises, the whole run raises. */
  lemma {:induction false} RaisedStaysRaised(conv: Conv, items: seq<Dict>, i: nat)
    requires i <= |items| && ProductsOf(conv, items[..i]).None?
    ensures ProductsOf(conv, items).None?
    decreases |items| - i
  {
    if i < |items| {
      assert items[..i + 1][..i] == items[..i];
      RaisedStaysRaised(conv, items, i + 1);
    } else {
      assert items[..i] == items;
    }
  }

  /** Each product is built from one of the records, and so carries the
      record's sanitized `parent_asin` as both keys and at most 3 images. */
  lemma {:induction false} ProductsComeFromItems(conv: Conv, items: seq<Dict>, k: int)
    requires ProductsOf(conv, items).Some? && 0 <= k < |ProductsOf(conv, items).value|
    ensures exists j :: 0 <= j < |items| && ProductOf(conv, items[j]) == Built(ProductsOf(conv, items).value[k])
    decreases |items|
  {
    var n := |items| - 1;
    var ps := ProductsOf(conv, items[..n]).value;
    if k < |ps| {
      ProductsComeFromItems(conv, items[..n], k);
      var j :| 0 <= j < n && ProductOf(conv, items[..n][j]) == Built(ps[k]);
      assert items[j] == items[..n][j];
    } else {
      assert ProductOf(conv, items[n]) == Built(ProductsOf(conv, items).value[k]);
    }
  }

  // ---------------------------------------------------------------------
  // Reviews

  datatype NbReview = NbReview(
    key: string,
    asin: string,
    originalAsin: PyVal,
    userId: string,
    originalUserId: PyVal,
    parentAsin: string,
    originalParentAsin: PyVal,
    rating: real,
    title: string,
    text: string,
    timestamp: int,
    helpfulVotes: int,
    verifiedPurchase: bool,
    images: seq<PyVal>)

  /** `sort_timestamp` as an integer: 0 when missing, falsy or not
      convertible. */
  function TimestampOf(conv: Conv, item: Dict): (t: int)
    ensures !Truthy(Get(item, "sort_timestamp", PInt(0))) ==> t == 0
    ensures conv.toInt(Get(item, "sort_timestamp", PInt(0))).None? ==> t == 0
    ensures Truthy(Get(item, "sort_timestamp", PInt(0))) && conv.toInt(Get(item, "sort_timestamp", PInt(0))).Some?
            ==> t == conv.toInt(Get(item, "sort_timestamp", PInt(0))).value
  {
    var ts := Get(item, "sort_timestamp", PInt(0));
    if !Truthy(ts) then 0
    else match conv.toInt(ts)
      case None => 0
      case Some(t) => t
  }

  /** Sanitizing a key composed of two valid keys and a decimal number
      changes nothing: every character is already allowed and the first is
      the first of a valid key. */
  lemma ComposedKeyIsValid(asin: string, userId: string, t: int)
    requires IsValidKey(asin) && IsValidKey(userId)
    ensures var s := asin + "_" + userId + "_" + IntToString(t);
      IsValidKey(s) && PySanitizeKey(s, false) == s
  {
    var s := asin + "_" + userId + "_" + IntToString(t);
    var n := IntToString(t);
    forall i | 0 <= i < |s| ensures IsKeyChar(s[i]) {
      if i < |asin| {
        assert s[i] == asin[i];
      } else if i == |asin| {
      } else if i < |asin| + 1 + |userId| {
        assert s[i] == userId[i - |asin| - 1];
      } else if i == |asin| + 1 + |userId| {
      } else {
        assert s[i] == n[i - |asin| - 2 - |userId|];
      }
    }
    assert s[0] == asin[0];
    KeyCharsAreBmp(s);
    PySanitizeKeyAgrees(s, false);
    SanitizeKeyFixpoint(s);
  }

  /** One review record: skipped without a truthy `asin` and `user_id`;
      otherwise keyed by the sanitized ASIN, user and timestamp. */
  function ReviewOf(conv: Conv, item: Dict): (r: Option<NbReview>)
  {
    var asinValue := Get(item, "asin", PNone);
    var userValue := Get(item, "user_id", PNone);
    if !Truthy(asinValue) || !Truthy(userValue) then None
    else
      var asin := SanitizeValue(conv, asinValue, false);
      var userId := SanitizeValue(conv, userValue, false);
      var timestamp := TimestampOf(conv, item);
      var key := PySanitizeKey(asin + "_" + userId + "_" + IntToString(timestamp), false);
      Some(NbReview(
        key, asin, asinValue, userId, userValue,
        SanitizeValue(conv, Get(item, "parent_asin", PStr("")), false),
        Get(item, "parent_asin", PStr("")),
        FloatOr0(conv, Get(item, "rating", PNone)),
        Str(conv, Get(item, "title", PStr(""))),
        Str(conv, Get(item, "text", PStr(""))),
        timestamp,
        IntOr0(conv, Get(item, "helpful_votes", PNone)),
        Truthy(Get(item, "verified_purchase", PBool(false))),
        AllImages(ImageEntries(item), "large_image_url")))
  }
  /** A review is built exactly when `asin` and `user_id` are truthy; its
      ASIN and user are sanitized, its key joins them with the timestamp
      and is a valid key, and its images are truthy image URLs of the
      record. */
  lemma ReviewOfProperties(conv: Conv, item: Dict)
    ensures var r := ReviewOf(conv, item);
      && (r.Some? <==> Truthy(Get(item, "asin", PNone)) && Truthy(Get(item, "user_id", PNone)))
      && (r.Some? ==>
            && r.value.asin == SanitizeValue(conv, Get(item, "asin", PNone), false)
            && r.value.userId == SanitizeValue(conv, Get(item, "user_id", PNone), false)
            && r.value.timestamp == TimestampOf(conv, item)
            && r.value.key == r.value.asin + "_" + r.value.userId + "_" + IntToString(r.value.timestamp)
            && IsValidKey(r.value.key) && IsValidKey(r.value.asin) && IsValidKey(r.value.userId)
            && forall v :: v in r.value.images ==>
                 Truthy(v) && exists img :: img in ImageEntries(item) && ImageAt(img, "large_image_url") == Some(v))
  {
    var r := ReviewOf(conv, item);
    if r.Some? {
      ComposedKeyIsValid(r.value.asin, r.value.userId, r.value.timestamp);
      AllImagesFrom(ImageEntries(item), "large_image_url");
    }
  }


  /** The body of the review loop for one record. */
  method PrepareReview(conv: Conv, item: Dict) returns (r: Option<NbReview>)
    ensures r == ReviewOf(conv, item)
  {
    var asinValue := Get(item, "asin", PNone);
    var userValue := Get(item, "user_id", PNone);
    if !Truthy(asinValue) || !Truthy(userValue) {
      return None;
    }
    var asin := SanitizeValue(conv, asinValue, false);
    var userId := SanitizeValue(conv, userValue, false);
    var timestamp := TimestampOf(conv, item);
    var key := PySanitizeKey(asin + "_" + userId + "_" + IntToString(timestamp), false);
    var images := CollectImages(ImageEntries(item), "large_image_url", None);
    r := Some(NbReview(
      key, asin, asinValue, userId, userValue,
      SanitizeValue(conv, Get(item, "parent_asin", PStr("")), false),
      Get(item, "parent_asin", PStr("")),
      FloatOr0(conv, Get(item, "rating", PNone)),
      Str(conv, Get(item, "title", PStr(""))),
      Str(conv, Get(item, "text", PStr(""))),
      timestamp,
      IntOr0(conv, Get(item, "helpful_votes", PNone)),
      Truthy(Get(item, "verified_purchase", PBool(false))),
      images));
  }

  /** The reviews built from `items`, in order. */
  function ReviewsOf(conv: Conv, items: seq<Dict>): (rs: seq<NbReview>)
    ensures |rs| <= |items|
  {
    Somes(Each(items, item => ReviewOf(conv, item)))
  }

  /** Each review is built from one of the records. */
  lemma ReviewsComeFromItems(conv: Conv, items: seq<Dict>, k: int)
    requires 0 <= k < |ReviewsOf(conv, items)|
    ensures exists j :: 0 <= j < |items| && ReviewOf(conv, items[j]) == Some(ReviewsOf(conv, items)[k])
  {
    var os := Each(items, item => ReviewOf(conv, item));
    SomesFrom(os, k);
    var j :| 0 <= j < |os| && os[j] == Some(Somes(os)[k]);
    EachAt(items, item => ReviewOf(conv, item), j);
  }

  /** `prepare_reviews_data`: every record is either a review or counted
      as skipped. */
  method PrepareReviewsData(conv: Conv, items: seq<Dict>) returns (reviews: seq<NbReview>, skipped: nat)
    ensures reviews == ReviewsOf(conv, items)
    ensures |reviews| + skipped == |items|
  {
    ghost var os := Each(items, item => ReviewOf(conv, item));
    reviews := [];
    skipped := 0;
    var i := 0;
    while i < |items|
      invariant 0 <= i <= |items|
      invariant reviews == Somes(os[..i])
      invariant |reviews| + skipped == i
    {
      SomesStep(os, i);
      EachAt(items, item => ReviewOf(conv, item), i);
      var r := PrepareReview(conv, items[i]);
      if r.None? {
        skipped := skipped + 1;
      } else {
        reviews := reviews + [r.value];
      }
      i := i + 1;
    }
    assert os[..|items|] == os;
  }

  // ---------------------------------------------------------------------
  // Users

  datatype NbUser = NbUser(key: string, originalUserId: PyVal, reviewCount: nat)

  /** The (user, original user) pairs of the reviews with a non-empty
      user, in order. */
  function UserPairs(reviews: seq<NbReview>): (r: seq<(string, PyVal)>)
    ensures forall k :: 0 <= k < |r| ==> r[k].0 != ""
    decreases |reviews|
  {
    if reviews == [] then []
    else
      var n := |reviews| - 1;
      UserPairs(reviews[..n])
        + (if reviews[n].userId != "" then [(reviews[n].userId, reviews[n].originalUserId)] else [])
  }

  function UserOf(e: Counted<string, PyVal>): NbUser {
    NbUser(e.key, e.first, e.count)
  }

  /** `extract_users`: one user per distinct non-empty user id, in order of
      first review, counting that user's reviews and keeping the original
      id of the first one. */
  method ExtractUsers(reviews: seq<NbReview>) returns (users: seq<NbUser>)
    ensures Map(users, (u: NbUser) => u.key) == Dedup(KeysOf(UserPairs(reviews)))
    ensures forall u :: u in users ==> u.key != "" && u.reviewCount == Occurrences(KeysOf(UserPairs(reviews)), u.key)
    ensures forall u :: u in users ==>
      exists p :: (0 <= p < |UserPairs(reviews)|
                   && UserPairs(reviews)[p] == (u.key, u.originalUserId)
                   && forall q :: 0 <= q < p ==> UserPairs(reviews)[q].0 != u.key)
  {
    var pairs := UserPairs(reviews);
    var entries := Tally(pairs);
    users := Map(entries, UserOf);
    assert Map(users, (u: NbUser) => u.key) == CountedKeys(entries);
    forall u | u in users
      ensures u.key != "" && u.reviewCount == Occurrences(KeysOf(pairs), u.key)
      ensures exists p :: 0 <= p < |pairs| && pairs[p] == (u.key, u.originalUserId)
                          && forall q :: 0 <= q < p ==> pairs[q].0 != u.key
    {
      var t :| 0 <= t < |users| && users[t] == u;
      assert entries[t] in entries;
      TallyFirst(pairs, t);
    }
  }

  // ---------------------------------------------------------------------
  // Categories

  datatype NbCategory = NbCategory(key: string, name: PyVal, level: nat)

  /** The truthy entries of one hierarchy list, each with its level (its
      position plus one). */
  function Levels(cs: seq<PyVal>, from: nat): (r: seq<(PyVal, nat)>)
    ensures forall e :: e in r ==> Truthy(e.0) && e.1 >= from + 1
    decreases |cs|
  {
    if cs == [] then []
    else (if Truthy(cs[0]) then [(cs[0], from + 1)] else []) + Levels(cs[1..], from + 1)
  }

  /** The names met in the hierarchy lists of `categories`, in order. */
  function Hierarchy(lists: seq<PyVal>): (r: seq<(PyVal, nat)>)
    ensures forall e :: e in r ==> Truthy(e.0) && e.1 >= 1
    decreases |lists|
  {
    if lists == [] then []
    else
      (if lists[0].PList? && lists[0].items != [] then Levels(lists[0].items, 0) else [])
        + Hierarchy(lists[1..])
  }

  /** The names one product contributes, with their levels: its truthy
      `main_category` at level 0, then its hierarchy. */
  function ProductCategories(product: Dict): (r: seq<(PyVal, nat)>)
    ensures forall e :: e in r ==> Truthy(e.0)
    ensures !Has(product, "categories") ==> forall e :: e in r ==> e.1 == 0
  {
    var main := Get(product, "main_category", PStr(""));
    var cats := Get(product, "categories", PNone);
    (if Truthy(main) then [(main, 0 as nat)] else [])
      + (if Has(product, "categories") && cats.PList? && cats.items != [] then Hierarchy(cats.items) else [])
  }

  /** The names all products contribute, in order. */
  function CategoryStream(products: seq<Dict>): seq<(PyVal, nat)>
    decreases |products|
  {
    if products == [] then []
    else
      var n := |products| - 1;
      CategoryStream(products[..n]) + ProductCategories(products[n])
  }

  function CategoryOf(conv: Conv, e: (PyVal, nat)): NbCategory {
    NbCategory(SanitizeValue(conv, e.0, false), e.0, e.1)
  }

  /** The category dictionary `extract_categories` builds, name to level.
      The two nested loops over a product's hierarchy are walked as the one
      sequence `ProductCategories`. */
  method CategoryEntries(products: seq<Dict>) returns (entries: seq<(PyVal, nat)>)
    ensures entries == FirstOccurrences(CategoryStream(products))
  {
    entries := [];
    var i := 0;
    while i < |products|
      invariant 0 <= i <= |products|
      invariant entries == FirstOccurrences(CategoryStream(products[..i]))
    {
      assert products[..i + 1][..i] == products[..i];
      entries := InsertAllIfAbsent(entries, CategoryStream(products[..i]), ProductCategories(products[i]));
      i := i + 1;
    }
    assert products[..|products|] == products;
  }

  /** `extract_categories`: each name's category with its sanitized key. */
  method ExtractCategories(conv: Conv, products: seq<Dict>) returns (categories: seq<NbCategory>)
    ensures categories == Map(FirstOccurrences(CategoryStream(products)), e => CategoryOf(conv, e))
  {
    var entries := CategoryEntries(products);
    categories := Map(entries, e => CategoryOf(conv, e));
  }

  /** The categories have distinct names; each is the first time its name
      was met, with that first level and its sanitized key; and every
      truthy name met has a category. */
  lemma CategoriesProperties(conv: Conv, products: seq<Dict>)
    ensures var entries := FirstOccurrences(CategoryStream(products));
      && DistinctKeys(entries)
      && (forall e :: e in CategoryStream(products) ==> e.0 in KeysOf(entries))
      && forall i :: 0 <= i < |entries| ==>
           IsValidKey(CategoryOf(conv, entries[i]).key)
           && exists p :: 0 <= p < |CategoryStream(products)| && CategoryStream(products)[p] == entries[i]
                         && forall q :: 0 <= q < p ==> CategoryStream(products)[q].0 != entries[i].0
  {
    var stream := CategoryStream(products);
    var entries := FirstOccurrences(stream);
    forall e | e in stream ensures e.0 in KeysOf(entries) {
      var p :| 0 <= p < |stream| && stream[p] == e;
      assert KeysOf(stream)[p] == e.0;
    }
    forall i | 0 <= i < |entries|
      ensures IsValidKey(CategoryOf(conv, entries[i]).key)
      ensures exists p :: 0 <= p < |stream| && stream[p] == entries[i]
                          && forall q :: 0 <= q < p ==> stream[q].0 != entries[i].0
    {
      assert entries[i] in entries;
      CategoryStreamTruthy(products, entries[i]);
      FirstOccurrenceWins(stream, i);
    }
  }

  lemma {:induction false} CategoryStreamTruthy(products: seq<Dict>, e: (PyVal, nat))
    requires e in CategoryStream(products)
    ensures Truthy(e.0)
    decreases |products|
  {
    var n := |products| - 1;
    if e !in ProductCategories(products[n]) {
      CategoryStreamTruthy(products[..n], e);
    }
  }

  /** Products without a `categories` field (as `prepare_products_data`
      builds them) contribute only their main categories, all at level 0. */
  lemma {:induction false} MainCategoriesOnly(products: seq<Dict>)
    requires forall k :: 0 <= k < |products| ==> !Has(products[k], "categories")
    ensures forall e :: e in CategoryStream(products) ==> e.1 == 0
    decreases |products|
  {
    if products != [] {
      var n := |products| - 1;
      MainCategoriesOnly(products[..n]);
      assert !Has(products[n], "categories");
    }
  }

  // ---------------------------------------------------------------------
  // Variant edges

  datatype Edge = Edge(from: string, to: string)

  /** A product is linked to its parent when the parent is set, differs
      from the product, and both are stored products. */
  predicate IsVariant(p: NbProduct, productKeys: set<string>) {
    p.parentAsin != "" && p.parentAsin != p.key && p.key in productKeys && p.parentAsin in productKeys
  }

  function VariantEdgesOf(products: seq<NbProduct>, productKeys: set<string>): (edges: seq<Edge>)
    ensures |edges| <= |products|
    decreases |products|
  {
    if products == [] then []
    else
      var n := |products| - 1;
      var p := products[n];
      VariantEdgesOf(products[..n], productKeys)
        + (if IsVariant(p, productKeys) then [Edge("Products/" + p.key, "Products/" + p.parentAsin)] else [])
  }

  /** `create_variant_of_edges`, given the keys of the stored products. */
  method CreateVariantOfEdges(products: seq<NbProduct>, productKeys: set<string>) returns (edges: seq<Edge>)
    ensures edges == VariantEdgesOf(products, productKeys)
  {
    edges := [];
    var i := 0;
    while i < |products|
      invariant 0 <= i <= |products|
      invariant edges == VariantEdgesOf(products[..i], productKeys)
    {
      assert products[..i + 1][..i] == products[..i];
      var p := products[i];
      if p.parentAsin != "" && p.parentAsin != p.key && p.key in productKeys && p.parentAsin in productKeys {
        edges := edges + [Edge("Products/" + p.key, "Products/" + p.parentAsin)];
      }
      i := i + 1;
    }
    assert products[..|products|] == products;
  }

  /** Every edge joins two distinct stored products. */
  lemma {:induction false} VariantEdgesJoinStoredProducts(products: seq<NbProduct>, productKeys: set<string>, e: Edge)
    requires e in VariantEdgesOf(products, productKeys)
    ensures exists p :: p in products && IsVariant(p, productKeys)
                        && e == Edge("Products/" + p.key, "Products/" + p.parentAsin)
    decreases |products|
  {
    var n := |products| - 1;
    if e in VariantEdgesOf(products[..n], productKeys) {
      VariantEdgesJoinStoredProducts(products[..n], productKeys, e);
      var p :| p in products[..n] && IsVariant(p, productKeys)
               && e == Edge("Products/" + p.key, "Products/" + p.parentAsin);
      assert p in products;
    } else {
      assert products[n] in products;
    }
  }

  /** Products whose parent is themselves yield no edges. */
  lemma {:induction false} NoSelfVariants(products: seq<NbProduct>, productKeys: set<string>)
    requires forall k :: 0 <= k < |products| ==> products[k].parentAsin == products[k].key
    ensures VariantEdgesOf(products, productKeys) == []
    decreases |products|
  {
    if products != [] {
      NoSelfVariants(products[..|products| - 1], productKeys);
    }
  }

  /** So the products `prepare_products_data` builds never yield a variant
      edge: each one's `parent_asin` is its own key. */
  lemma PreparedProductsHaveNoVariants(conv: Conv, items: seq<Dict>, productKeys: set<string>)
    requires ProductsOf(conv, items).Some?
    ensures VariantEdgesOf(ProductsOf(conv, items).value, productKeys) == []
  {
    var ps := ProductsOf(conv, items).value;
    forall k | 0 <= k < |ps| ensures ps[k].parentAsin == ps[k].key {
      ProductsComeFromItems(conv, items, k);
    }
    NoSelfVariants(ps, productKeys);
  }
}
