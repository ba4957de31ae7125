/** The implementation notebook's ingestion transforms.  Unlike the
    exploration notebook they keep the raw values, build one document per
    record, and raise (`None` here) where Python would: joining a
    non-string, iterating a non-iterable, indexing or calling `.replace`
    on the wrong type.  Reading the download-links file is replaced by its
    lines. */
module ImplementationIngest {
  import opened Common
  import opened PyValues
  import NotebookIngest

  // ---------------------------------------------------------------------
  // `line.strip().split(': ')`

  const Separator := ": "

  predicate SeparatorAt(s: string, i: int) {
    0 <= i && i + 2 <= |s| && s[i] == ':' && s[i + 1] == ' '
  }

  predicate HasSeparator(s: string) {
    exists i :: 0 <= i < |s| && SeparatorAt(s, i)
  }

  /** The leftmost separator at or after `i`. */
  function FirstSeparatorFrom(s: string, i: nat): (r: Option<nat>)
    ensures r.Some? ==> i <= r.value && SeparatorAt(s, r.value)
    ensures r.Some? ==> forall j :: i <= j < r.value ==> !SeparatorAt(s, j)
    ensures r.None? ==> forall j :: i <= j ==> !SeparatorAt(s, j)
    decreases |s| - i
  {
    if i + 2 > |s| then None
    else if SeparatorAt(s, i) then Some(i)
    else FirstSeparatorFrom(s, i + 1)
  }

  /** A separator with none before it is the first one. */
  lemma {:induction false} FirstSeparatorAt(s: string, i: nat, j: nat)
    requires i <= j && SeparatorAt(s, j) && forall k :: i <= k < j ==> !SeparatorAt(s, k)
    ensures FirstSeparatorFrom(s, i) == Some(j)
    decreases j - i
  {
    if i < j {
      FirstSeparatorAt(s, i + 1, j);
    }
  }

  /** `s.split(': ')`. */
  function Split(s: string): (parts: seq<string>)
    ensures |parts| >= 1
    ensures !HasSeparator(s) ==> parts == [s]
    ensures HasSeparator(s) ==> |parts| >= 2
    decreases |s|
  {
    match FirstSeparatorFrom(s, 0)
    case None => [s]
    case Some(j) => [s[..j]] + Split(s[j + 2..])
  }

  /** A line that splits into exactly two parts is the two parts around
      its only separator. */
  lemma SplitPair(s: string)
    requires |Split(s)| == 2
    ensures Split(s)[0] + Separator + Split(s)[1] == s
    ensures !HasSeparator(Split(s)[0]) && !HasSeparator(Split(s)[1])
  {
    var j := FirstSeparatorFrom(s, 0).value;
    var rest := s[j + 2..];
    assert Split(s) == [s[..j], rest];
    assert s[..j] + Separator + rest == s;
    forall i | 0 <= i < |s[..j]| ensures !SeparatorAt(s[..j], i) {
      assert SeparatorAt(s[..j], i) ==> SeparatorAt(s, i);
    }
  }

  /** And any two separator-free parts joined by the separator split back
      into themselves. */
  lemma SplitJoin(category: string, url: string)
    requires !HasSeparator(category) && !HasSeparator(url)
    ensures Split(category + Separator + url) == [category, url]
  {
    var s := category + Separator + url;
    forall j | 0 <= j < |category| ensures !SeparatorAt(s, j) {
      if j + 1 < |category| {
        assert s[j] == category[j] && s[j + 1] == category[j + 1];
        assert !SeparatorAt(category, j);
      } else {
        assert s[j + 1] == ':';
      }
    }
    assert SeparatorAt(s, |category|);
    FirstSeparatorAt(s, 0, |category|);
    assert s[|category| + 2..] == url;
    assert s[..|category|] == category;
    assert Split(s) == [category] + Split(url);
  }

  /** The (category, URL) pair of a line that splits into exactly two
      parts. */
  function LinkOf(line: string): Option<(string, string)> {
    var parts := Split(Strip(line));
    if |parts| == 2 then Some((parts[0], parts[1])) else None
  }

  /** A link line is its category and URL around the separator, neither
      holding another separator; and every such line is a link line. */
  lemma LinkOfParts(line: string)
    ensures LinkOf(line).Some? ==>
      && LinkOf(line).value.0 + Separator + LinkOf(line).value.1 == Strip(line)
      && !HasSeparator(LinkOf(line).value.0) && !HasSeparator(LinkOf(line).value.1)
    ensures forall c, u :: (!HasSeparator(c) && !HasSeparator(u) && Strip(line) == c + Separator + u
                            ==> LinkOf(line) == Some((c, u)))
  {
    if LinkOf(line).Some? {
      SplitPair(Strip(line));
    }
    forall c, u | !HasSeparator(c) && !HasSeparator(u) && Strip(line) == c + Separator + u
      ensures LinkOf(line) == Some((c, u))
    {
      SplitJoin(c, u);
    }
  }

  /** The download links file, line by line: a line that splits into
      exactly two parts maps its category to its URL, and a later line
      overwrites an earlier one. */
  function LinksOf(lines: seq<string>): map<string, string> {
    Links(Parsed(lines))
  }

  /** Each line with its link, if it is a link line. */
  function Parsed(lines: seq<string>): (r: seq<Option<(string, string)>>)
    ensures |r| == |lines|
    ensures forall i :: 0 <= i < |lines| ==> r[i] == LinkOf(lines[i])
    decreases |lines|
  {
    if lines == [] then [] else Parsed(lines[..|lines| - 1]) + [LinkOf(lines[|lines| - 1])]
  }

  /** The map built from the parsed lines, a later link overwriting an
      earlier one. */
  function Links(parsed: seq<Option<(string, string)>>): map<string, string>
    decreases |parsed|
  {
    if parsed == [] then map[]
    else
      var n := |parsed| - 1;
      var link := parsed[n];
      if link.Some? then Links(parsed[..n])[link.value.0 := link.value.1] else Links(parsed[..n])
  }

  /** The parsed line is a link for `category`. */
  predicate LinkFor(link: Option<(string, string)>, category: string) {
    link.Some? && link.value.0 == category
  }

  /** `line` is a link line for `category`. */
  predicate LinkLine(line: string, category: string) {
    LinkFor(LinkOf(line), category)
  }

  lemma {:induction false} LinksFromCover(parsed: seq<Option<(string, string)>>, category: string)
    ensures category in Links(parsed) <==> exists i :: 0 <= i < |parsed| && LinkFor(parsed[i], category)
    decreases |parsed|
  {
    if parsed != [] {
      var n := |parsed| - 1;
      LinksFromCover(parsed[..n], category);
      assert forall i :: 0 <= i < n ==> parsed[..n][i] == parsed[i];
    }
  }

  lemma {:induction false} LinksFromLastWins(parsed: seq<Option<(string, string)>>, category: string)
    requires category in Links(parsed)
    ensures exists i :: 0 <= i < |parsed| && LinkFor(parsed[i], category)
                        && parsed[i].value.1 == Links(parsed)[category]
                        && forall j :: i < j < |parsed| ==> !LinkFor(parsed[j], category)
    decreases |parsed|
  {
    var n := |parsed| - 1;
    var prev := Links(parsed[..n]);
    if !LinkFor(parsed[n], category) {
      LinksFromLastWins(parsed[..n], category);
      var i :| 0 <= i < n && LinkFor(parsed[..n][i], category)
               && parsed[..n][i].value.1 == prev[category]
               && forall j :: i < j < n ==> !LinkFor(parsed[..n][j], category);
      assert parsed[i] == parsed[..n][i];
      forall j | i < j < |parsed| ensures !LinkFor(parsed[j], category) {
        if j < n { assert parsed[j] == parsed[..n][j]; }
      }
    }
  }

  /** A category has a link exactly when some line is a link line for it. */
  lemma LinksCover(lines: seq<string>, category: string)
    ensures category in LinksOf(lines) <==> exists i :: 0 <= i < |lines| && LinkLine(lines[i], category)
  {
    LinksFromCover(Parsed(lines), category);
  }

  /** The URL of a category is the one on the last link line for it. */
  lemma LinksLastWins(lines: seq<string>, category: string)
    requires category in LinksOf(lines)
    ensures exists i :: 0 <= i < |lines| && LinkLine(lines[i], category)
                        && LinkOf(lines[i]).value.1 == LinksOf(lines)[category]
                        && forall j :: i < j < |lines| ==> !LinkLine(lines[j], category)
  {
    var parsed := Parsed(lines);
    LinksFromLastWins(parsed, category);
    var i :| 0 <= i < |parsed| && LinkFor(parsed[i], category)
             && parsed[i].value.1 == Links(parsed)[category]
             && forall j :: i < j < |parsed| ==> !LinkFor(parsed[j], category);
    assert LinkLine(lines[i], category);
  }

  /** `parse_download_links`, given the lines of the file. */
  method ParseDownloadLinks(lines: seq<string>) returns (links: map<string, string>)
    ensures links == LinksOf(lines)
  {
    links := map[];
    var i := 0;
    while i < |lines|
      invariant 0 <= i <= |lines|
      invariant links == LinksOf(lines[..i])
    {
      ghost var before := Parsed(lines[..i]);
      assert lines[..i + 1][..i] == lines[..i];
      assert Parsed(lines[..i + 1]) == before + [LinkOf(lines[i])];
      assert (before + [LinkOf(lines[i])])[..i] == before;
      var parts := Split(Strip(lines[i]));
      if |parts| == 2 {
        links := links[parts[0] := parts[1]];
      }
      i := i + 1;
    }
    assert lines[..|lines|] == lines;
  }

  // ---------------------------------------------------------------------
  // Images

  /** One entry of the image loop: kept when it holds `field`, dropped when
      it does not, a failure where the membership test or the lookup
      raises. */
  datatype Step = Keep(value: PyVal) | Drop | Fail

  function StepOf(img: PyVal, field: string): (r: Step)
    ensures r.Keep? <==> img.PDict? && Has(img.fields, field)
    ensures r.Keep? ==> r.value == Get(img.fields, field, PStr(""))
  {
    match ContainsText(img, field)
    case None => Fail
    case Some(false) => Drop
    case Some(true) => if img.PDict? then Keep(Get(img.fields, field, PStr(""))) else Fail
  }

  /** The `field` of every entry holding it, in order; `None` if an entry
      raises. */
  function FieldValues(imgs: seq<PyVal>, field: string): (r: Option<seq<PyVal>>)
    ensures r.Some? <==> forall k :: 0 <= k < |imgs| ==> !StepOf(imgs[k], field).Fail?
    ensures r.Some? ==> forall v :: v in r.value ==>
      exists img :: img in imgs && img.PDict? && Has(img.fields, field) && v == Get(img.fields, field, PStr(""))
    decreases |imgs|
  {
    if imgs == [] then Some([])
    else
      var n := |imgs| - 1;
      var step := StepOf(imgs[n], field);
      assert forall img :: img in imgs[..n] ==> img in imgs;
      assert forall k :: 0 <= k < n ==> imgs[..n][k] == imgs[k];
      match FieldValues(imgs[..n], field)
      case None => None
      case Some(vs) =>
        match step
        case Fail => None
        case Drop => Some(vs)
        case Keep(v) => Some(vs + [v])
  }

  /** The images of a product record: at most 3, each the `large` entry of
      an image dict that has one. */
  function ProductImages(item: Dict): (r: Option<seq<PyVal>>)
    ensures r.Some? ==> |r.value| <= 3
    ensures r.Some? ==> Iterate(Get(item, "images", PList([]))).Some?
    ensures r.Some? ==> forall v :: v in r.value ==>
      exists img :: img in Iterate(Get(item, "images", PList([]))).value
                    && img.PDict? && Has(img.fields, "large") && v == Get(img.fields, "large", PStr(""))
  {
    match Iterate(Get(item, "images", PList([])))
    case None => None
    case Some(imgs) =>
      match FieldValues(imgs, "large")
      case None => None
      case Some(vs) =>
        var r := Take(vs, 3);
        assert forall v :: v in r ==> v in vs;
        Some(r)
  }

  /** The loop collecting a review's images. */
  method CollectFieldValues(imgs: seq<PyVal>, field: string) returns (r: Option<seq<PyVal>>)
    ensures r == FieldValues(imgs, field)
  {
    var values: seq<PyVal> := [];
    var i := 0;
    while i < |imgs|
      invariant 0 <= i <= |imgs|
      invariant FieldValues(imgs[..i], field) == Some(values)
    {
      assert imgs[..i + 1][..i] == imgs[..i];
      var step := StepOf(imgs[i], field);
      if step.Fail? {
        FieldValuesFailStays(imgs, field, i);
        return None;
      }
      if step.Keep? {
        values := values + [step.value];
      }
      i := i + 1;
    }
    assert imgs[..|imgs|] == imgs;
    r := Some(values);
  }

  lemma FieldValuesFailStays(imgs: seq<PyVal>, field: string, i: nat)
    requires i < |imgs| && StepOf(imgs[i], field).Fail?
    ensures FieldValues(imgs, field).None?
  {
  }

  // ---------------------------------------------------------------------
  // Products

  datatype ImplProduct = ImplProduct(
    key: PyVal,
    title: PyVal,
    mainCategory: PyVal,
    description: PyVal,
    features: PyVal,
    featuresText: string,
    price: PyVal,
    averageRating: PyVal,
    ratingCount: PyVal,
    store: PyVal,
    details: PyVal,
    parentAsin: PyVal,
    boughtTogether: PyVal,
    images: seq<PyVal>)

  /** A list description joined with spaces; anything else kept as it is. */
  function DescriptionOf(item: Dict): (r: Option<PyVal>)
    ensures !Get(item, "description", PList([])).PList? ==> r == Some(Get(item, "description", PList([])))
  {
    var d := Get(item, "description", PList([]));
    if d.PList? then
      match JoinStrs(d.items, " ")
      case None => None
      case Some(s) => Some(PStr(s))
    else Some(d)
  }

  /** `' '.join(features) if features else ''`. */
  function FeaturesTextOf(item: Dict): (r: Option<string>)
    ensures !Truthy(Get(item, "features", PList([]))) ==> r == Some("")
  {
    var f := Get(item, "features", PList([]));
    if !Truthy(f) then Some("")
    else
      match Iterate(f)
      case None => None
      case Some(parts) => JoinStrs(parts, " ")
  }

  /** One metadata record becomes one product keyed by its raw `asin`. */
  function ProductOf(item: Dict): (r: Option<ImplProduct>)
    ensures r.Some? <==> DescriptionOf(item).Some? && FeaturesTextOf(item).Some? && ProductImages(item).Some?
    ensures r.Some? ==>
      && r.value.key == Get(item, "asin", PStr(""))
      && r.value.mainCategory == Get(item, "main_category", PStr(""))
      && r.value.parentAsin == Get(item, "parent_asin", PStr(""))
      && r.value.images == ProductImages(item).value
  {
    match (DescriptionOf(item), FeaturesTextOf(item), ProductImages(item))
    case (Some(description), Some(featuresText), Some(images)) =>
      Some(ImplProduct(
        Get(item, "asin", PStr("")), Get(item, "title", PStr("")),
        Get(item, "main_category", PStr("")), description,
        Get(item, "features", PList([])), featuresText,
        Get(item, "price", PInt(0)), Get(item, "average_rating", PInt(0)),
        Get(item, "rating_number", PInt(0)), Get(item, "store", PStr("")),
        Get(item, "details", PDict([])), Get(item, "parent_asin", PStr("")),
        Get(item, "bought_together", PList([])), images))
    case _ => None
  }

  /** The products of all records, one per record; `None` if one raises. */
  function ProductsOf(items: seq<Dict>): (r: Option<seq<ImplProduct>>)
    ensures r.Some? ==> |r.value| == |items|
  {
    Collect(Map(items, ProductOf))
  }

  /** The product at position `k` is the one built from record `k`. */
  lemma ProductAt(items: seq<Dict>, k: int)
    requires ProductsOf(items).Some? && 0 <= k < |items|
    ensures ProductOf(items[k]) == Some(ProductsOf(items).value[k])
  {
    CollectAt(Map(items, ProductOf), k);
  }

  /** The run raises exactly when some record raises. */
  lemma ProductsRaise(items: seq<Dict>)
    ensures ProductsOf(items).None? <==> exists k :: 0 <= k < |items| && ProductOf(items[k]).None?
  {
    var os := Map(items, ProductOf);
    CollectRaises(os);
    if Collect(os).None? {
      var k :| 0 <= k < |os| && os[k].None?;
      assert ProductOf(items[k]).None?;
    }
  }

  /** `prepare_products_data`. */
  method PrepareProductsData(items: seq<Dict>) returns (products: Option<seq<ImplProduct>>)
    ensures products == ProductsOf(items)
  {
    ghost var os := Map(items, ProductOf);
    var built: seq<ImplProduct> := [];
    var i := 0;
    assert os[..0] == [];
    while i < |items|
      invariant 0 <= i <= |items|
      invariant Collect(os[..i]) == Some(built)
    {
      var p := ProductOf(items[i]);
      CollectSnoc(os, i);
      if p.None? {
        CollectRaisedStays(os, i + 1);
        return None;
      }
      built := built + [p.value];
      i := i + 1;
    }
    assert os[..|items|] == os;
    products := Some(built);
  }

  // ---------------------------------------------------------------------
  // Reviews

  datatype ImplReview = ImplReview(
    key: string,
    asin: PyVal,
    userId: PyVal,
    parentAsin: PyVal,
    rating: PyVal,
    title: PyVal,
    text: PyVal,
    timestamp: PyVal,
    helpfulVotes: PyVal,
    verifiedPurchase: PyVal,
    images: seq<PyVal>)

  /** `f"{asin}-{user_id}-{timestamp}"` with the raw values. */
  function ReviewKey(conv: Conv, item: Dict): string {
    Str(conv, Get(item, "asin", PStr(""))) + "-" + Str(conv, Get(item, "user_id", PStr(""))) + "-"
      + Str(conv, Get(item, "sort_timestamp", PStr("")))
  }

  predicate DashFree(s: string) {
    forall i :: 0 <= i < |s| ==> s[i] != '-'
  }

  /** The position of the first `-` in `s`, or `|s|`. */
  function DashIndex(s: string): (k: nat)
    ensures k <= |s|
    decreases |s|
  {
    if s == [] || s[0] == '-' then 0 else 1 + DashIndex(s[1..])
  }

  lemma {:induction false} DashIndexAfter(x: string, rest: string)
    requires DashFree(x)
    ensures DashIndex(x + "-" + rest) == |x|
    decreases |x|
  {
    if x != [] {
      assert (x + "-" + rest)[1..] == x[1..] + "-" + rest;
      DashIndexAfter(x[1..], rest);
    }
  }

  /** Review keys identify their parts when the ASIN and the user hold no
      dash. */
  lemma ReviewKeyInjective(a: string, u: string, t: string, a': string, u': string, t': string)
    requires DashFree(a) && DashFree(u) && DashFree(a') && DashFree(u')
    requires a + "-" + u + "-" + t == a' + "-" + u' + "-" + t'
    ensures a == a' && u == u' && t == t'
  {
    var s := a + "-" + (u + "-" + t);
    assert a + "-" + u + "-" + t == s;
    assert a' + "-" + u' + "-" + t' == a' + "-" + (u' + "-" + t');
    DashIndexAfter(a, u + "-" + t);
    DashIndexAfter(a', u' + "-" + t');
    assert a == s[..|a|] == a';
    var rest := s[|a| + 1..];
    assert rest == u + "-" + t && rest == u' + "-" + t';
    DashIndexAfter(u, t);
    DashIndexAfter(u', t');
    assert u == rest[..|u|] == u';
    assert t == rest[|u| + 1..] == t';
  }

  /** One review record becomes one review keyed by its raw ASIN, user and
      timestamp. */
  function ReviewOf(conv: Conv, item: Dict): (r: Option<ImplReview>)
    ensures r.Some? <==> Iterate(Get(item, "images", PList([]))).Some?
                         && FieldValues(Iterate(Get(item, "images", PList([]))).value, "large_image_url").Some?
    ensures r.Some? ==>
      && r.value.key == ReviewKey(conv, item)
      && r.value.asin == Get(item, "asin", PStr(""))
      && r.value.userId == Get(item, "user_id", PStr(""))
      && r.value.timestamp == Get(item, "sort_timestamp", PStr(""))
  {
    match Iterate(Get(item, "images", PList([])))
    case None => None
    case Some(imgs) =>
      match FieldValues(imgs, "large_image_url")
      case None => None
      case Some(images) =>
        Some(ImplReview(
          ReviewKey(conv, item), Get(item, "asin", PStr("")), Get(item, "user_id", PStr("")),
          Get(item, "parent_asin", PStr("")), Get(item, "rating", PInt(0)),
          Get(item, "title", PStr("")), Get(item, "text", PStr("")),
          Get(item, "sort_timestamp", PStr("")), Get(item, "helpful_votes", PInt(0)),
          Get(item, "verified_purchase", PBool(false)), images))
  }

  /** The body of the review loop for one record. */
  method PrepareReview(conv: Conv, item: Dict) returns (r: Option<ImplReview>)
    ensures r == ReviewOf(conv, item)
  {
    var imgs := Iterate(Get(item, "images", PList([])));
    if imgs.None? {
      return None;
    }
    var images := CollectFieldValues(imgs.value, "large_image_url");
    if images.None? {
      return None;
    }
    r := Some(ImplReview(
      ReviewKey(conv, item), Get(item, "asin", PStr("")), Get(item, "user_id", PStr("")),
      Get(item, "parent_asin", PStr("")), Get(item, "rating", PInt(0)),
      Get(item, "title", PStr("")), Get(item, "text", PStr("")),
      Get(item, "sort_timestamp", PStr("")), Get(item, "helpful_votes", PInt(0)),
      Get(item, "verified_purchase", PBool(false)), images.value));
  }

  /** The reviews of all records, one per record; `None` if one raises. */
  function ReviewsOf(conv: Conv, items: seq<Dict>): (r: Option<seq<ImplReview>>)
    ensures r.Some? ==> |r.value| == |items|
  {
    Collect(Map(items, item => ReviewOf(conv, item)))
  }

  /** The review at position `k` is the one built from record `k`. */
  lemma ReviewAt(conv: Conv, items: seq<Dict>, k: int)
    requires ReviewsOf(conv, items).Some? && 0 <= k < |items|
    ensures ReviewOf(conv, items[k]) == Some(ReviewsOf(conv, items).value[k])
  {
    CollectAt(Map(items, item => ReviewOf(conv, item)), k);
  }

  /** The run raises exactly when some record raises. */
  lemma ReviewsRaise(conv: Conv, items: seq<Dict>)
    ensures ReviewsOf(conv, items).None? <==> exists k :: 0 <= k < |items| && ReviewOf(conv, items[k]).None?
  {
    var os := Map(items, item => ReviewOf(conv, item));
    CollectRaises(os);
    if Collect(os).None? {
      var k :| 0 <= k < |os| && os[k].None?;
      assert ReviewOf(conv, items[k]).None?;
    }
  }

  /** `prepare_reviews_data`. */
  method PrepareReviewsData(conv: Conv, items: seq<Dict>) returns (reviews: Option<seq<ImplReview>>)
    ensures reviews == ReviewsOf(conv, items)
  {
    ghost var os := Map(items, item => ReviewOf(conv, item));
    var built: seq<ImplReview> := [];
    var i := 0;
    assert os[..0] == [];
    while i < |items|
      invariant 0 <= i <= |items|
      invariant Collect(os[..i]) == Some(built)
    {
      var r := PrepareReview(conv, items[i]);
      CollectSnoc(os, i);
      if r.None? {
        CollectRaisedStays(os, i + 1);
        return None;
      }
      built := built + [r.value];
      i := i + 1;
    }
    assert os[..|items|] == os;
    reviews := Some(built);
  }

  // ---------------------------------------------------------------------
  // Users and categories

  datatype ImplUser = ImplUser(key: PyVal, reviewCount: nat)

  /** The truthy user ids of the reviews, in order. */
  function UserIds(reviews: seq<ImplReview>): (r: seq<(PyVal, ())>)
    ensures forall k :: 0 <= k < |r| ==> Truthy(r[k].0)
    ensures forall rv :: rv in reviews && Truthy(rv.userId) ==> rv.userId in KeysOf(r)
    decreases |reviews|
  {
    if reviews == [] then []
    else
      var n := |reviews| - 1;
      var rest := UserIds(reviews[..n]);
      var r := rest + (if Truthy(reviews[n].userId) then [(reviews[n].userId, ())] else []);
      assert forall x :: x in KeysOf(rest) ==> x in KeysOf(r) by {
        forall x | x in KeysOf(rest) ensures x in KeysOf(r) {
          var k :| 0 <= k < |rest| && KeysOf(rest)[k] == x;
          assert KeysOf(r)[k] == x;
        }
      }
      assert Truthy(reviews[n].userId) ==> KeysOf(r)[|r| - 1] == reviews[n].userId;
      r
  }

  function UserOf(e: Counted<PyVal, ()>): ImplUser {
    ImplUser(e.key, e.count)
  }

  /** `extract_users`: one user per distinct truthy user id, in order of
      first review, counting that user's reviews; every review with a user
      id has its user. */
  method ExtractUsers(reviews: seq<ImplReview>) returns (users: seq<ImplUser>)
    ensures Map(users, (u: ImplUser) => u.key) == Dedup(KeysOf(UserIds(reviews)))
    ensures forall u :: u in users ==> Truthy(u.key) && u.reviewCount == Occurrences(KeysOf(UserIds(reviews)), u.key)
    ensures forall rv :: rv in reviews && Truthy(rv.userId) ==> exists u :: u in users && u.key == rv.userId
  {
    var pairs := UserIds(reviews);
    var entries := Tally(pairs);
    users := Map(entries, UserOf);
    assert Map(users, (u: ImplUser) => u.key) == CountedKeys(entries);
    forall u | u in users ensures Truthy(u.key) {
      var t :| 0 <= t < |users| && users[t] == u;
      assert u.key in Dedup(KeysOf(pairs)) by { assert CountedKeys(entries)[t] == u.key; }
      var k :| 0 <= k < |pairs| && KeysOf(pairs)[k] == u.key;
    }
    forall u | u in users ensures u.reviewCount == Occurrences(KeysOf(pairs), u.key) {
      var t :| 0 <= t < |users| && users[t] == u;
      assert entries[t] in entries;
    }
    forall rv | rv in reviews && Truthy(rv.userId) ensures exists u :: u in users && u.key == rv.userId {
      assert rv.userId in Dedup(KeysOf(pairs));
      var t :| 0 <= t < |users| && CountedKeys(entries)[t] == rv.userId;
      assert users[t] in users;
    }
  }

  datatype ImplCategory = ImplCategory(key: string, name: string, level: nat)

  /** The categories of the dictionary entries; `None` where a name is not
      a string and `.replace` raises. */
  function CategoriesOf(entries: seq<(PyVal, nat)>): (r: Option<seq<ImplCategory>>)
    ensures r.Some? <==> forall k :: 0 <= k < |entries| ==> entries[k].0.PStr?
    ensures r.Some? ==> |r.value| == |entries| && forall k :: 0 <= k < |entries| ==>
      r.value[k] == ImplCategory(ReplaceSpaces(entries[k].0.s), entries[k].0.s, entries[k].1)
    decreases |entries|
  {
    if entries == [] then Some([])
    else
      var n := |entries| - 1;
      var e := entries[n];
      assert forall k :: 0 <= k < n ==> entries[..n][k] == entries[k];
      match CategoriesOf(entries[..n])
      case None => None
      case Some(cs) =>
        if e.0.PStr? then Some(cs + [ImplCategory(ReplaceSpaces(e.0.s), e.0.s, e.1)]) else None
  }

  /** `extract_categories`: the names met, first occurrence winning, with
      spaces in the key replaced by `_`.  The names and levels met are those
      of the exploration notebook: its extra emptiness tests only skip empty
      lists, which contribute nothing anyway. */
  method ExtractCategories(products: seq<Dict>) returns (categories: Option<seq<ImplCategory>>)
    ensures categories == CategoriesOf(FirstOccurrences(NotebookIngest.CategoryStream(products)))
  {
    var entries := NotebookIngest.CategoryEntries(products);
    categories := CategoriesFrom(entries);
  }

  /** The loop over the dictionary's entries, building one category each. */
  method CategoriesFrom(entries: seq<(PyVal, nat)>) returns (categories: Option<seq<ImplCategory>>)
    ensures categories == CategoriesOf(entries)
  {
    var built: seq<ImplCategory> := [];
    var k := 0;
    while k < |entries|
      invariant 0 <= k <= |entries|
      invariant |built| == k
      invariant forall j :: 0 <= j < k ==> entries[j].0.PStr?
      invariant forall j :: 0 <= j < k ==>
        built[j] == ImplCategory(ReplaceSpaces(entries[j].0.s), entries[j].0.s, entries[j].1)
    {
      var e := entries[k];
      if !e.0.PStr? {
        return None;
      }
      built := built + [ImplCategory(ReplaceSpaces(e.0.s), e.0.s, e.1)];
      k := k + 1;
    }
    assert CategoriesOf(entries).Some?;
    assert CategoriesOf(entries).value == built;
    categories := Some(built);
  }

  // ---------------------------------------------------------------------
  // Edges

  datatype Edge = Edge(from: string, to: string)

  function HasReviewEdge(conv: Conv, r: ImplReview): Edge {
    Edge("Products/" + Str(conv, r.asin), "Reviews/" + r.key)
  }

  function WrittenByEdge(conv: Conv, r: ImplReview): Edge {
    Edge("Reviews/" + r.key, "Users/" + Str(conv, r.userId))
  }

  /** `create_has_review_edges`: one edge per review, in order, from the
      review's product to the review. */
  method CreateHasReviewEdges(conv: Conv, reviews: seq<ImplReview>) returns (edges: seq<Edge>)
    ensures |edges| == |reviews|
    ensures forall k :: 0 <= k < |reviews| ==> edges[k] == HasReviewEdge(conv, reviews[k])
  {
    edges := [];
    var i := 0;
    while i < |reviews|
      invariant 0 <= i <= |reviews|
      invariant |edges| == i
      invariant forall k :: 0 <= k < i ==> edges[k] == HasReviewEdge(conv, reviews[k])
    {
      edges := edges + [Edge("Products/" + Str(conv, reviews[i].asin), "Reviews/" + reviews[i].key)];
      i := i + 1;
    }
  }

  /** `create_written_by_edges`: one edge per review, in order, from the
      review to its user. */
  method CreateWrittenByEdges(conv: Conv, reviews: seq<ImplReview>) returns (edges: seq<Edge>)
    ensures |edges| == |reviews|
    ensures forall k :: 0 <= k < |reviews| ==> edges[k] == WrittenByEdge(conv, reviews[k])
  {
    edges := [];
    var i := 0;
    while i < |reviews|
      invariant 0 <= i <= |reviews|
      invariant |edges| == i
      invariant forall k :: 0 <= k < i ==> edges[k] == WrittenByEdge(conv, reviews[k])
    {
      edges := edges + [Edge("Reviews/" + reviews[i].key, "Users/" + Str(conv, reviews[i].userId))];
      i := i + 1;
    }
  }

  /** The two edges of a review meet at the review, whose key names the
      product's raw ASIN first, so the product edge starts where the key
      says. */
  lemma ReviewEdgesMeet(conv: Conv, item: Dict, r: ImplReview)
    requires ReviewOf(conv, item) == Some(r)
    ensures HasReviewEdge(conv, r).to == WrittenByEdge(conv, r).from == "Reviews/" + r.key
    ensures StartsWith(r.key, Str(conv, r.asin) + "-")
    ensures HasReviewEdge(conv, r).from == "Products/" + Str(conv, Get(item, "asin", PStr("")))
  {
    var p := Str(conv, r.asin) + "-";
    assert r.key == p + (Str(conv, r.userId) + "-" + Str(conv, r.timestamp));
    assert r.key[..|p|] == p;
  }

  /** `create_belongs_to_category_edges`: one edge per product with a
      truthy main category, to that category's key; `None` where the main
      category is not a string. */
  function BelongsToEdgesOf(conv: Conv, products: seq<ImplProduct>): (r: Option<seq<Edge>>)
    ensures r.Some? <==> forall k :: 0 <= k < |products| && Truthy(products[k].mainCategory) ==> products[k].mainCategory.PStr?
    decreases |products|
  {
    if products == [] then Some([])
    else
      var n := |products| - 1;
      var p := products[n];
      assert forall k :: 0 <= k < n ==> products[..n][k] == products[k];
      match BelongsToEdgesOf(conv, products[..n])
      case None => None
      case Some(edges) =>
        if !Truthy(p.mainCategory) then Some(edges)
        else if !p.mainCategory.PStr? then None
        else Some(edges + [Edge("Products/" + Str(conv, p.key), "Categories/" + ReplaceSpaces(p.mainCategory.s))])
  }

  method CreateBelongsToCategoryEdges(conv: Conv, products: seq<ImplProduct>) returns (edges: Option<seq<Edge>>)
    ensures edges == BelongsToEdgesOf(conv, products)
  {
    var built: seq<Edge> := [];
    var i := 0;
    while i < |products|
      invariant 0 <= i <= |products|
      invariant BelongsToEdgesOf(conv, products[..i]) == Some(built)
    {
      assert products[..i + 1][..i] == products[..i];
      var p := products[i];
      if Truthy(p.mainCategory) {
        if !p.mainCategory.PStr? {
          assert products[..|products|] == products;
          return None;
        }
        built := built + [Edge("Products/" + Str(conv, p.key), "Categories/" + ReplaceSpaces(p.mainCategory.s))];
      }
      i := i + 1;
    }
    assert products[..|products|] == products;
    edges := Some(built);
  }

  /** Every category edge has a product with a truthy main category as its
      source and that category's key as its target. */
  lemma {:induction false} BelongsToEdgesFromProducts(conv: Conv, products: seq<ImplProduct>, e: Edge)
    requires BelongsToEdgesOf(conv, products).Some? && e in BelongsToEdgesOf(conv, products).value
    ensures exists p :: p in products && Truthy(p.mainCategory) && p.mainCategory.PStr?
                        && e == Edge("Products/" + Str(conv, p.key), "Categories/" + ReplaceSpaces(p.mainCategory.s))
    decreases |products|
  {
    var n := |products| - 1;
    var edges := BelongsToEdgesOf(conv, products[..n]).value;
    if e in edges {
      BelongsToEdgesFromProducts(conv, products[..n], e);
      var p :| p in products[..n] && Truthy(p.mainCategory) && p.mainCategory.PStr?
               && e == Edge("Products/" + Str(conv, p.key), "Categories/" + ReplaceSpaces(p.mainCategory.s));
      assert p in products;
    } else {
      assert products[n] in products;
    }
  }

  /** A product that `create_belongs_to_category_edges` links to a category. */
  predicate HasMainCategory(p: ImplProduct) {
    Truthy(p.mainCategory)
  }

  /** The edges are exactly those of the products with a truthy main
      category, one each and in the products' order. */
  lemma {:induction false} BelongsToEdgesExactly(conv: Conv, products: seq<ImplProduct>)
    requires BelongsToEdgesOf(conv, products).Some?
    ensures var edges := BelongsToEdgesOf(conv, products).value;
      var linked := Filter(products, HasMainCategory);
      && |edges| == |linked|
      && forall k :: 0 <= k < |linked| ==>
           && linked[k].mainCategory.PStr?
           && edges[k] == Edge("Products/" + Str(conv, linked[k].key),
                               "Categories/" + ReplaceSpaces(linked[k].mainCategory.s))
    decreases |products|
  {
    if products != [] {
      var n := |products| - 1;
      var p := products[n];
      BelongsToEdgesExactly(conv, products[..n]);
      assert products == products[..n] + [p];
      FilterSnoc(products[..n], p, HasMainCategory);
    }
  }

  /** A product's truthy main category is a category `extract_categories`
      creates: the edge's target key is that category's key. */
  lemma MainCategoryIsExtracted(products: seq<Dict>, k: int)
    requires 0 <= k < |products|
    requires Truthy(Get(products[k], "main_category", PStr("")))
    requires CategoriesOf(FirstOccurrences(NotebookIngest.CategoryStream(products))).Some?
    ensures var name := Get(products[k], "main_category", PStr(""));
      name.PStr? && exists c :: c in CategoriesOf(FirstOccurrences(NotebookIngest.CategoryStream(products))).value
                                && c.name == name.s && c.key == ReplaceSpaces(name.s)
  {
    var name := Get(products[k], "main_category", PStr(""));
    var entries := FirstOccurrences(NotebookIngest.CategoryStream(products));
    MainCategoryEntry(products, k);
    var t :| 0 <= t < |entries| && entries[t].0 == name;
    CategoryOfEntry(entries, t);
  }

  lemma CategoryOfEntry(entries: seq<(PyVal, nat)>, t: int)
    requires 0 <= t < |entries| && CategoriesOf(entries).Some?
    ensures entries[t].0.PStr?
    ensures var c := CategoriesOf(entries).value[t];
      c in CategoriesOf(entries).value && c.name == entries[t].0.s && c.key == ReplaceSpaces(entries[t].0.s)
  {
  }

  lemma MainCategoryEntry(products: seq<Dict>, k: int)
    requires 0 <= k < |products|
    requires Truthy(Get(products[k], "main_category", PStr("")))
    ensures var entries := FirstOccurrences(NotebookIngest.CategoryStream(products));
      exists t :: 0 <= t < |entries| && entries[t].0 == Get(products[k], "main_category", PStr(""))
  {
    var name := Get(products[k], "main_category", PStr(""));
    StreamHasMainCategory(products, k);
    KeyHasEntry(NotebookIngest.CategoryStream(products), (name, 0));
  }

  /** A key of the stream has an entry among its first occurrences. */
  lemma KeyHasEntry<K(!new), V>(stream: seq<(K, V)>, e: (K, V))
    requires e in stream
    ensures exists t :: 0 <= t < |FirstOccurrences(stream)| && FirstOccurrences(stream)[t].0 == e.0
  {
    var entries := FirstOccurrences(stream);
    var p :| 0 <= p < |stream| && stream[p] == e;
    assert KeysOf(stream)[p] == e.0;
    assert e.0 in KeysOf(entries);
    var t :| 0 <= t < |entries| && KeysOf(entries)[t] == e.0;
  }

  lemma {:induction false} StreamHasMainCategory(products: seq<Dict>, k: int)
    requires 0 <= k < |products|
    requires Truthy(Get(products[k], "main_category", PStr("")))
    ensures (Get(products[k], "main_category", PStr("")), 0) in NotebookIngest.CategoryStream(products)
    decreases |products|
  {
    var n := |products| - 1;
    if k < n {
      assert products[..n][k] == products[k];
      StreamHasMainCategory(products[..n], k);
    } else {
      assert NotebookIngest.ProductCategories(products[n])[0] == (Get(products[n], "main_category", PStr("")), 0);
    }
  }

  /** A product is linked to a parent when the parent is truthy and is not
      the product itself. */
  predicate IsVariant(p: ImplProduct) {
    Truthy(p.parentAsin) && p.parentAsin != p.key
  }

  function VariantEdge(conv: Conv, p: ImplProduct): Edge {
    Edge("Products/" + Str(conv, p.key), "Products/" + Str(conv, p.parentAsin))
  }

  function VariantEdgesOf(conv: Conv, products: seq<ImplProduct>): (edges: seq<Edge>)
    ensures |edges| <= |products|
    decreases |products|
  {
    if products == [] then []
    else
      var n := |products| - 1;
      VariantEdgesOf(conv, products[..n]) + (if IsVariant(products[n]) then [VariantEdge(conv, products[n])] else [])
  }

  /** `create_variant_of_edges`. */
  method CreateVariantOfEdges(conv: Conv, products: seq<ImplProduct>) returns (edges: seq<Edge>)
    ensures edges == VariantEdgesOf(conv, products)
  {
    edges := [];
    var i := 0;
    while i < |products|
      invariant 0 <= i <= |products|
      invariant edges == VariantEdgesOf(conv, products[..i])
    {
      assert products[..i + 1][..i] == products[..i];
      var p := products[i];
      if Truthy(p.parentAsin) && p.parentAsin != p.key {
        edges := edges + [Edge("Products/" + Str(conv, p.key), "Products/" + Str(conv, p.parentAsin))];
      }
      i := i + 1;
    }
    assert products[..|products|] == products;
  }

  /** Each variant product has its edge, and every edge is a variant
      product's edge. */
  lemma {:induction false} VariantEdgesExactly(conv: Conv, products: seq<ImplProduct>)
    ensures forall p :: p in products && IsVariant(p) ==> VariantEdge(conv, p) in VariantEdgesOf(conv, products)
    ensures forall e :: e in VariantEdgesOf(conv, products) ==>
      exists p :: p in products && IsVariant(p) && e == VariantEdge(conv, p)
    decreases |products|
  {
    if products != [] {
      var n := |products| - 1;
      VariantEdgesExactly(conv, products[..n]);
      forall p | p in products && IsVariant(p) ensures VariantEdge(conv, p) in VariantEdgesOf(conv, products) {
        if p != products[n] {
          var k :| 0 <= k < |products| && products[k] == p;
          assert p in products[..n];
        }
      }
      forall e | e in VariantEdgesOf(conv, products)
        ensures exists p :: p in products && IsVariant(p) && e == VariantEdge(conv, p)
      {
        if e in VariantEdgesOf(conv, products[..n]) {
          var p :| p in products[..n] && IsVariant(p) && e == VariantEdge(conv, p);
          assert p in products;
        } else {
          assert products[n] in products;
        }
      }
    }
  }
}
