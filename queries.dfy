/** The other query tools of the server: look-up by name, popular and
    best-rated listings, search by description and the review summary of one
    product.  Each answers with a JSON text, modelled as the value it
    serialises; an exception caught by the tool becomes its fixed error
    object. */
module Queries {
  import opened Common
  import opened Catalog
  import opened Stages

  /** `{error}` or `{error, hint}`. */
  datatype ToolError = ToolError(error: string, hint: Option<string>)

  // ---------------------------------------------------------------------
  // Shared orders

  function CountDesc(): (Product, Product) -> bool {
    (a: Product, b: Product) => a.rating_count >= b.rating_count
  }

  function PairCountDesc(): ((Product, Category), (Product, Category)) -> bool {
    (a: (Product, Category), b: (Product, Category)) => a.0.rating_count >= b.0.rating_count
  }

  function PairRatingThenCountDesc(): ((Product, Category), (Product, Category)) -> bool {
    (a: (Product, Category), b: (Product, Category)) =>
      a.0.average_rating > b.0.average_rating
      || (a.0.average_rating == b.0.average_rating && a.0.rating_count >= b.0.rating_count)
  }

  /** `SORT review.helpful_votes DESC, review.rating DESC`. */
  function HelpfulThenRatingDesc(): (Review, Review) -> bool {
    (a: Review, b: Review) =>
      a.helpful_votes > b.helpful_votes || (a.helpful_votes == b.helpful_votes && a.rating >= b.rating)
  }

  function LevelAsc(): (Category, Category) -> bool {
    (a: Category, b: Category) => a.level <= b.level
  }

  function DistanceAsc(scores: Scores): (Product, Product) -> bool {
    (a: Product, b: Product) => scores.productDistance(a) <= scores.productDistance(b)
  }

  lemma CountDescPreorder()
    ensures TotalPreorder(CountDesc())
  {
  }

  lemma PairCountDescPreorder()
    ensures TotalPreorder(PairCountDesc())
  {
  }

  lemma HelpfulThenRatingPreorder()
    ensures TotalPreorder(HelpfulThenRatingDesc())
  {
  }

  lemma LevelAscPreorder()
    ensures TotalPreorder(LevelAsc())
  {
  }

  lemma DistanceAscPreorder(scores: Scores)
    ensures TotalPreorder(DistanceAsc(scores))
  {
  }

  lemma PairRatingThenCountPreorder()
    ensures TotalPreorder(PairRatingThenCountDesc())
  {
  }

  // ---------------------------------------------------------------------
  // Popular and best-rated listings (shared by the query module and the
  // tool implementations)

  /** One listed product with the category the query reports for it. */
  datatype CatalogRow = CatalogRow(
    product_id: string,
    title: string,
    average_rating: real,
    rating_count: int,
    price: real,
    category: Option<string>)

  /** The product with each of its categories matching `category`
      (`FOR edge ... FOR cat ... FILTER CONTAINS(...)`). */
  function CategoryPairs(st: Store, ps: seq<Product>, category: string): seq<(Product, Category)> {
    FlatMap(ps, (p: Product) => Map(MatchingCategories(st, p, category), (c: Category) => (p, c)))
  }

  lemma {:induction false} CategoryPairsMember(st: Store, ps: seq<Product>, category: string, pc: (Product, Category))
    requires pc in CategoryPairs(st, ps, category)
    ensures pc.0 in ps && pc.1 in CategoriesOf(st, pc.0) && pc.1 in st.categories && NameMatches(pc.1, category)
  {
    var f := (p: Product) => Map(MatchingCategories(st, p, category), (c: Category) => (p, c));
    FlatMapMember(ps, f, pc);
    var p :| p in ps && pc in f(p);
    var i :| 0 <= i < |f(p)| && f(p)[i] == pc;
    assert MatchingCategories(st, p, category)[i] in MatchingCategories(st, p, category);
  }

  /** Every listed product is paired with each of its matching categories. */
  lemma CategoryPairsComplete(st: Store, ps: seq<Product>, category: string, p: Product, c: Category)
    requires p in ps && c in MatchingCategories(st, p, category)
    ensures (p, c) in CategoryPairs(st, ps, category)
  {
    var f := (p: Product) => Map(MatchingCategories(st, p, category), (c: Category) => (p, c));
    var i :| 0 <= i < |MatchingCategories(st, p, category)| && MatchingCategories(st, p, category)[i] == c;
    assert f(p)[i] == (p, c);
    FlatMapHas(ps, f, p, (p, c));
  }

  /** `FIRST(categories)` with the categories sorted by level: the name of a
      lowest-level category of the product, or `null`. */
  function FirstCategoryName(st: Store, p: Product): Option<string> {
    var sorted := SortBy(CategoriesOf(st, p), LevelAsc());
    if sorted == [] then None else Some(sorted[0].name)
  }

  lemma FirstCategoryNameProperties(st: Store, p: Product)
    ensures var cats := CategoriesOf(st, p);
      match FirstCategoryName(st, p)
      case None => cats == []
      case Some(name) =>
        exists c :: c in cats && c.name == name && forall c' :: c' in cats ==> c.level <= c'.level
  {
    var cats := CategoriesOf(st, p);
    var sorted := SortBy(cats, LevelAsc());
    LevelAscPreorder();
    SortByPermutes(cats, LevelAsc());
    SortBySorted(cats, LevelAsc());
    if sorted != [] {
      assert sorted[0] in multiset(cats);
      forall c' | c' in cats ensures sorted[0].level <= c'.level {
        assert c' in multiset(sorted);
        var k :| 0 <= k < |sorted| && sorted[k] == c';
        if k > 0 { assert LevelAsc()(sorted[0], sorted[k]); }
      }
    } else {
      assert |multiset(cats)| == 0;
    }
  }

  function PairRow(pc: (Product, Category)): CatalogRow {
    CatalogRow(pc.0.id, pc.0.title, pc.0.average_rating, pc.0.rating_count, pc.0.price, Some(pc.1.name))
  }

  function ProductRowWithFirstCategory(st: Store, p: Product): CatalogRow {
    CatalogRow(p.id, p.title, p.average_rating, p.rating_count, p.price, FirstCategoryName(st, p))
  }

  function FirstCategoryRow(st: Store): Product -> CatalogRow {
    (p: Product) => ProductRowWithFirstCategory(st, p)
  }

  /** Each row of a listing describes a product of the store: with a
      category, under one of the product's own categories (a
      `BelongsToCategory` edge joins them) whose name matches;
      without one, under the product's first category. */
  predicate RowsDescribe(st: Store, category: Option<string>, rows: seq<CatalogRow>) {
    match category
    case Some(c) => forall row :: row in rows ==>
      exists p, cat :: p in st.products && cat in CategoriesOf(st, p) && NameMatches(cat, c) && row == PairRow((p, cat))
    case None => forall row :: row in rows ==> exists p :: p in st.products && row == ProductRowWithFirstCategory(st, p)
  }

  /** The popularity query: with a category, one row per (product, matching
      category) pair; without, one row per product with its first category;
      both by rating count, descending, at most `limit`. */
  function PopularQuery(st: Store, category: Option<string>, limit: int): seq<CatalogRow> {
    match category
    case Some(c) => Map(TopBy(CategoryPairs(st, st.products, c), PairCountDesc(), limit), PairRow)
    case None => Map(TopBy(st.products, CountDesc(), limit), FirstCategoryRow(st))
  }

  /** What the popularity query promises: `limit` rows, or every candidate
      when there are fewer (a candidate is a product, or with a category a
      product paired with one of its matching categories), each the row of
      a candidate and none listed more often than its candidate occurs; the
      most rated first; and no candidate left out has more ratings than a
      row listed. */
  predicate PopularListing(st: Store, category: Option<string>, limit: int, rows: seq<CatalogRow>) {
    && RowsDescribe(st, category, rows)
    && (forall i, j :: 0 <= i < j < |rows| ==> rows[i].rating_count >= rows[j].rating_count)
    && (category.Some? ==>
          var pairs := CategoryPairs(st, st.products, category.value);
          && |rows| == LimitCount(limit, |pairs|)
          && multiset(rows) <= multiset(Map(pairs, PairRow))
          && forall pc, row :: pc in pairs && PairRow(pc) !in rows && row in rows ==>
               row.rating_count >= pc.0.rating_count)
    && (category.None? ==>
          && |rows| == LimitCount(limit, |st.products|)
          && multiset(rows) <= multiset(Map(st.products, FirstCategoryRow(st)))
          && forall p, row :: p in st.products && ProductRowWithFirstCategory(st, p) !in rows && row in rows ==>
               row.rating_count >= p.rating_count)
  }

  lemma PopularQueryProperties(st: Store, category: Option<string>, limit: int)
    ensures PopularListing(st, category, limit, PopularQuery(st, category, limit))
  {
    match category {
      case Some(c) => PopularInCategory(st, c, limit);
      case None => PopularOverall(st, limit);
    }
  }

  lemma PopularInCategory(st: Store, c: string, limit: int)
    ensures PopularListing(st, Some(c), limit, PopularQuery(st, Some(c), limit))
  {
    var rows := PopularQuery(st, Some(c), limit);
    var pairs := CategoryPairs(st, st.products, c);
    var le := PairCountDesc();
    var top := TopBy(pairs, le, limit);
    PairCountDescPreorder();
    TopBySelects(pairs, le, limit);
    TopByMapped(pairs, le, limit, PairRow);
    CategoryRowsDescribe(st, st.products, c, le, limit);
    forall i, j | 0 <= i < j < |rows| ensures rows[i].rating_count >= rows[j].rating_count {
      assert le(top[i], top[j]);
    }
    forall pc, row | pc in pairs && PairRow(pc) !in rows && row in rows
      ensures row.rating_count >= pc.0.rating_count
    {
      PairCountLeftOut(pairs, limit, pc, row);
    }
  }

  /** A pair left out of a popular category listing has no more ratings
      than any row listed. */
  lemma PairCountLeftOut(pairs: seq<(Product, Category)>, limit: int, pc: (Product, Category), row: CatalogRow)
    requires pc in pairs
    requires var rows := Map(TopBy(pairs, PairCountDesc(), limit), PairRow);
      PairRow(pc) !in rows && row in rows
    ensures row.rating_count >= pc.0.rating_count
  {
    var le := PairCountDesc();
    PairCountDescPreorder();
    var top := TopBy(pairs, le, limit);
    var rows := Map(top, PairRow);
    TopBySelects(pairs, le, limit);
    MapHas(top, PairRow);
    var i :| 0 <= i < |rows| && rows[i] == row;
    assert pc !in top;
    assert le(top[i], pc);
  }

  lemma PopularOverall(st: Store, limit: int)
    ensures PopularListing(st, None, limit, PopularQuery(st, None, limit))
  {
    var rows := PopularQuery(st, None, limit);
    var le := CountDesc();
    var top := TopBy(st.products, le, limit);
    var f := FirstCategoryRow(st);
    CountDescPreorder();
    TopBySelects(st.products, le, limit);
    TopByMapped(st.products, le, limit, f);
    OverallRowsDescribe(st, st.products, le, limit);
    MapHas(top, f);
    forall i, j | 0 <= i < j < |rows| ensures rows[i].rating_count >= rows[j].rating_count {
      assert le(top[i], top[j]);
    }
    forall p, row | p in st.products && ProductRowWithFirstCategory(st, p) !in rows && row in rows
      ensures row.rating_count >= p.rating_count
    {
      var i :| 0 <= i < |rows| && rows[i] == row;
      assert p !in top;
      assert le(top[i], p);
    }
  }

  /** The products with at least `minReviews` ratings. */
  function Enough(st: Store, minReviews: int): seq<Product> {
    Filter(st.products, (p: Product) => p.rating_count >= minReviews)
  }

  /** The best-rated query: at least `minReviews` ratings; with a category,
      one row per matching (product, category) pair; by average rating and
      then rating count, descending, at most `limit`. */
  function BestRatedQuery(st: Store, category: Option<string>, minReviews: int, limit: int): seq<CatalogRow> {
    match category
    case Some(c) => Map(TopBy(CategoryPairs(st, Enough(st, minReviews), c), PairRatingThenCountDesc(), limit), PairRow)
    case None =>
      Map(TopBy(Enough(st, minReviews), RatingThenCountDesc(), limit), FirstCategoryRow(st))
  }

  /** `row` ranks at least as high as `p`: a better average rating, or the
      same one and at least as many ratings. */
  predicate RanksAtLeast(row: CatalogRow, p: Product) {
    row.average_rating > p.average_rating
    || (row.average_rating == p.average_rating && row.rating_count >= p.rating_count)
  }

  /** What the best-rated query promises: rows with enough ratings, `limit`
      of them or every candidate when there are fewer, each the row of a
      candidate and none listed more often than its candidate occurs, from the best
      average rating down with ties broken by rating count, and no candidate
      left out ranks above a row listed. */
  predicate BestRatedListing(st: Store, category: Option<string>, minReviews: int, limit: int, rows: seq<CatalogRow>) {
    && RowsDescribe(st, category, rows)
    && (forall row :: row in rows ==> row.rating_count >= minReviews)
    && (forall i, j :: 0 <= i < j < |rows| ==>
          rows[i].average_rating > rows[j].average_rating
          || (rows[i].average_rating == rows[j].average_rating && rows[i].rating_count >= rows[j].rating_count))
    && (category.Some? ==>
          && |rows| == LimitCount(limit, |CategoryPairs(st, Enough(st, minReviews), category.value)|)
          && multiset(rows) <= multiset(Map(CategoryPairs(st, Enough(st, minReviews), category.value), PairRow))
          && forall pc, row ::
               (pc in CategoryPairs(st, st.products, category.value) && pc.0.rating_count >= minReviews
                && PairRow(pc) !in rows && row in rows) ==> RanksAtLeast(row, pc.0))
    && (category.None? ==>
          && |rows| == LimitCount(limit, |Enough(st, minReviews)|)
          && multiset(rows) <= multiset(Map(Enough(st, minReviews), FirstCategoryRow(st)))
          && forall p, row ::
               (p in st.products && p.rating_count >= minReviews
                && ProductRowWithFirstCategory(st, p) !in rows && row in rows) ==> RanksAtLeast(row, p))
  }

  lemma BestRatedQueryProperties(st: Store, category: Option<string>, minReviews: int, limit: int)
    ensures BestRatedListing(st, category, minReviews, limit, BestRatedQuery(st, category, minReviews, limit))
  {
    match category {
      case Some(c) => BestRatedInCategory(st, c, minReviews, limit);
      case None => BestRatedOverall(st, minReviews, limit);
    }
  }

  lemma BestRatedInCategory(st: Store, c: string, minReviews: int, limit: int)
    ensures BestRatedListing(st, Some(c), minReviews, limit, BestRatedQuery(st, Some(c), minReviews, limit))
  {
    var rows := BestRatedQuery(st, Some(c), minReviews, limit);
    var enough := Enough(st, minReviews);
    var le := PairRatingThenCountDesc();
    PairRatingThenCountPreorder();
    var pairs := CategoryPairs(st, enough, c);
    var top := TopBy(pairs, le, limit);
    TopBySelects(pairs, le, limit);
    TopByMapped(pairs, le, limit, PairRow);
    forall i, j | 0 <= i < j < |rows|
      ensures RatingThenCountDesc()(top[i].0, top[j].0)
    {
      assert le(top[i], top[j]);
    }
    CategoryRowsDescribe(st, enough, c, le, limit);
    forall row | row in rows ensures row.rating_count >= minReviews {
      var i :| 0 <= i < |rows| && rows[i] == row;
      CategoryRowAt(st, enough, c, le, limit, i);
    }
    BestRatedInCategorySelects(st, c, minReviews, limit);
  }

  /** No matching pair with enough ratings left out of the category listing
      ranks above a row listed. */
  lemma BestRatedInCategorySelects(st: Store, c: string, minReviews: int, limit: int)
    ensures var rows := BestRatedQuery(st, Some(c), minReviews, limit);
      forall pc, row ::
        (pc in CategoryPairs(st, st.products, c) && pc.0.rating_count >= minReviews
         && PairRow(pc) !in rows && row in rows) ==> RanksAtLeast(row, pc.0)
  {
    var rows := BestRatedQuery(st, Some(c), minReviews, limit);
    forall pc, row | pc in CategoryPairs(st, st.products, c) && pc.0.rating_count >= minReviews
                     && PairRow(pc) !in rows && row in rows
      ensures RanksAtLeast(row, pc.0)
    {
      CategoryPairsAgain(st, c, minReviews, pc);
      PairLeftOut(CategoryPairs(st, Enough(st, minReviews), c), limit, pc, row);
    }
  }

  /** A pair left out of a best-rated category listing ranks no higher than
      any row listed. */
  lemma PairLeftOut(pairs: seq<(Product, Category)>, limit: int, pc: (Product, Category), row: CatalogRow)
    requires pc in pairs
    requires var rows := Map(TopBy(pairs, PairRatingThenCountDesc(), limit), PairRow);
      PairRow(pc) !in rows && row in rows
    ensures RanksAtLeast(row, pc.0)
  {
    var le := PairRatingThenCountDesc();
    PairRatingThenCountPreorder();
    var top := TopBy(pairs, le, limit);
    var rows := Map(top, PairRow);
    TopBySelects(pairs, le, limit);
    MapHas(top, PairRow);
    var i :| 0 <= i < |rows| && rows[i] == row;
    assert pc !in top;
    assert le(top[i], pc);
  }

  /** A matching pair of a product with enough ratings is a pair of the
      products with enough ratings. */
  lemma CategoryPairsAgain(st: Store, c: string, minReviews: int, pc: (Product, Category))
    requires pc in CategoryPairs(st, st.products, c) && pc.0.rating_count >= minReviews
    ensures pc in CategoryPairs(st, Enough(st, minReviews), c)
  {
    var f := (p: Product) => Map(MatchingCategories(st, p, c), (cat: Category) => (p, cat));
    FlatMapMember(st.products, f, pc);
    var p :| p in st.products && pc in f(p);
    var i :| 0 <= i < |f(p)| && f(p)[i] == pc;
    CategoryPairsComplete(st, Enough(st, minReviews), c, p, MatchingCategories(st, p, c)[i]);
  }

  /** Every row of a category listing is the row of a product of the store
      under one of its own matching categories. */
  lemma CategoryRowsDescribe(st: Store, ps: seq<Product>, c: string,
                             le: ((Product, Category), (Product, Category)) -> bool, limit: int)
    requires TotalPreorder(le)
    requires forall p :: p in ps ==> p in st.products
    ensures RowsDescribe(st, Some(c), Map(TopBy(CategoryPairs(st, ps, c), le, limit), PairRow))
  {
    var top := TopBy(CategoryPairs(st, ps, c), le, limit);
    var rows := Map(top, PairRow);
    forall row | row in rows
      ensures exists p, cat :: p in st.products && cat in CategoriesOf(st, p) && NameMatches(cat, c) && row == PairRow((p, cat))
    {
      var i :| 0 <= i < |rows| && rows[i] == row;
      CategoryRowAt(st, ps, c, le, limit, i);
      assert row == PairRow((top[i].0, top[i].1));
    }
  }

  /** Every row of an overall listing is the row of a product of the store
      under its first category. */
  lemma OverallRowsDescribe(st: Store, ps: seq<Product>, le: (Product, Product) -> bool, limit: int)
    requires TotalPreorder(le)
    requires forall p :: p in ps ==> p in st.products
    ensures RowsDescribe(st, None, Map(TopBy(ps, le, limit), FirstCategoryRow(st)))
  {
    var top := TopBy(ps, le, limit);
    var rows := Map(top, FirstCategoryRow(st));
    TopBySelects(ps, le, limit);
    forall row | row in rows ensures exists p :: p in st.products && row == ProductRowWithFirstCategory(st, p) {
      var i :| 0 <= i < |rows| && rows[i] == row;
      assert top[i] in top;
    }
  }

  /** A row of a category listing comes from one of the listed products and
      names one of that product's own categories that matches. */
  lemma CategoryRowAt(st: Store, ps: seq<Product>, c: string,
                      le: ((Product, Category), (Product, Category)) -> bool, limit: int, i: nat)
    requires TotalPreorder(le)
    requires i < |TopBy(CategoryPairs(st, ps, c), le, limit)|
    ensures var pc := TopBy(CategoryPairs(st, ps, c), le, limit)[i];
      && pc.0 in ps
      && pc.1 in CategoriesOf(st, pc.0) && NameMatches(pc.1, c)
      && PairRow(pc).rating_count == pc.0.rating_count
      && PairRow(pc).category.Some? && Contains(Lower(PairRow(pc).category.value), Lower(c))
  {
    var pairs := CategoryPairs(st, ps, c);
    var top := TopBy(pairs, le, limit);
    TopBySelects(pairs, le, limit);
    assert top[i] in top;
    CategoryPairsMember(st, ps, c, top[i]);
  }

  lemma BestRatedOverall(st: Store, minReviews: int, limit: int)
    ensures BestRatedListing(st, None, minReviews, limit, BestRatedQuery(st, None, minReviews, limit))
  {
    var rows := BestRatedQuery(st, None, minReviews, limit);
    var enough := Enough(st, minReviews);
    var le := RatingThenCountDesc();
    RatingThenCountPreorder();
    TopBySelects(enough, le, limit);
    TopByMapped(enough, le, limit, FirstCategoryRow(st));
    OverallRowsDescribe(st, enough, le, limit);
    var top := TopBy(enough, le, limit);
    forall i, j | 0 <= i < j < |rows| ensures le(top[i], top[j]) {
    }
    forall row | row in rows ensures row.rating_count >= minReviews {
      var i :| 0 <= i < |rows| && rows[i] == row;
      assert top[i] in top;
    }
    forall p, row | p in st.products && p.rating_count >= minReviews
                    && ProductRowWithFirstCategory(st, p) !in rows && row in rows
      ensures RanksAtLeast(row, p)
    {
      ProductLeftOut(st, enough, limit, p, row);
    }
  }

  /** A product left out of an overall best-rated listing ranks no higher
      than any row listed. */
  lemma ProductLeftOut(st: Store, ps: seq<Product>, limit: int, p: Product, row: CatalogRow)
    requires p in ps
    requires var rows := Map(TopBy(ps, RatingThenCountDesc(), limit), FirstCategoryRow(st));
      ProductRowWithFirstCategory(st, p) !in rows && row in rows
    ensures RanksAtLeast(row, p)
  {
    var le := RatingThenCountDesc();
    var f := FirstCategoryRow(st);
    RatingThenCountPreorder();
    var top := TopBy(ps, le, limit);
    var rows := Map(top, f);
    TopBySelects(ps, le, limit);
    MapHas(top, f);
    var i :| 0 <= i < |rows| && rows[i] == row;
    assert p !in top;
    assert le(top[i], p);
  }

  /** The listing a popular / best-rated tool returns. */
  datatype Listed = Listed(category: string, min_reviews: Option<real>, count: int, products: seq<CatalogRow>)

  datatype PopularInput = PopularInput(category: Option<string>, limit: Option<real>)
  datatype BestRatedInput = BestRatedInput(category: Option<string>, limit: Option<real>, min_reviews: Option<real>)

  /** The bind parameters of the popular / best-rated query: `@category`
      appears only in the category query, while `category` is sent whenever
      it is defined, even as `""`. */
  function ListingDeclared(category: Option<string>, others: set<string>): set<string> {
    if Truthy(category) then {"category"} + others else others
  }

  function ListingBound(category: Option<string>, others: set<string>): set<string> {
    BoundIf("category", category) + others
  }

  /** The binding is refused exactly for the empty category, which is sent
      but not declared. */
  lemma ListingBindsAcceptedIff(category: Option<string>, others: set<string>)
    requires "category" !in others
    ensures BindsAccepted(ListingDeclared(category, others), ListingBound(category, others)) <==> category != Some("")
  {
    if category == Some("") {
      assert "category" in ListingBound(category, others);
    }
  }

  /** `getPopularProducts` of the query module: any non-empty category, even
      a blank one, selects the category query. */
  function GetPopularProducts(st: Store, input: PopularInput): (r: Result<Listed>)
    ensures r.Err? <==> Popular in st.failing || input.category == Some("")
    ensures r.Ok? ==> r.value.count == |r.value.products| && r.value.min_reviews == None
    ensures r.Ok? ==> r.value.category == if Truthy(input.category) then input.category.value else "All categories"
    ensures r.Ok? ==> PopularListing(st, if Truthy(input.category) then input.category else None,
                                     ParamOrDefault(input.limit, 10), r.value.products)
  {
    ListingBindsAcceptedIff(input.category, {"limit"});
    PopularQueryProperties(st, if Truthy(input.category) then input.category else None, ParamOrDefault(input.limit, 10));
    if Popular in st.failing || !BindsAccepted(ListingDeclared(input.category, {"limit"}),
                                               ListingBound(input.category, {"limit"})) then
      Err(ToolError("Failed to retrieve popular products", None))
    else
      var rows := PopularQuery(st, if Truthy(input.category) then input.category else None,
                               ParamOrDefault(input.limit, 10));
      Ok(Listed(if Truthy(input.category) then input.category.value else "All categories", None, |rows|, rows))
  }

  /** `getBestRatedProducts` of the query module; `min_reviews` is echoed
      as given (default 5). */
  function GetBestRatedProducts(st: Store, input: BestRatedInput): (r: Result<Listed>)
    ensures r.Err? <==> BestRated in st.failing || input.category == Some("")
    ensures r.Ok? ==> r.value.count == |r.value.products|
    ensures r.Ok? ==> r.value.min_reviews == Some(if input.min_reviews.Some? then input.min_reviews.value else 5.0)
    ensures r.Ok? ==> r.value.category == if Truthy(input.category) then input.category.value else "All categories"
    ensures r.Ok? ==>
      var minReviews := if input.min_reviews.Some? then input.min_reviews.value else 5.0;
      BestRatedListing(st, if Truthy(input.category) then input.category else None,
                       ParamOrDefault(Some(minReviews), 5), ParamOrDefault(input.limit, 10), r.value.products)
  {
    ListingBindsAcceptedIff(input.category, {"limit", "min_reviews"});
    BestRatedQueryProperties(st, if Truthy(input.category) then input.category else None,
                             ParamOrDefault(Some(if input.min_reviews.Some? then input.min_reviews.value else 5.0), 5),
                             ParamOrDefault(input.limit, 10));
    if BestRated in st.failing || !BindsAccepted(ListingDeclared(input.category, {"limit", "min_reviews"}),
                                                 ListingBound(input.category, {"limit", "min_reviews"})) then
      Err(ToolError("Failed to retrieve best rated products", None))
    else
      var minReviews := if input.min_reviews.Some? then input.min_reviews.value else 5.0;
      var rows := BestRatedQuery(st, if Truthy(input.category) then input.category else None,
                                 ParamOrDefault(Some(minReviews), 5), ParamOrDefault(input.limit, 10));
      Ok(Listed(if Truthy(input.category) then input.category.value else "All categories",
                Some(minReviews), |rows|, rows))
  }

  datatype Result<T> = Ok(value: T) | Err(err: ToolError)

  // ---------------------------------------------------------------------
  // findProductByName

  /** A product as the name search returns it.  Rows of the vector
      fallback carry no `asin`, `images` or `store`; their other stage
      fields are not kept, since such a look-up never answers. */
  datatype NamedProduct = NamedProduct(product_id: string, asin: Option<string>, title: string,
                                       description: string, price: real,
                                       average_rating: real, rating_count: int, features: string,
                                       images: Option<seq<string>>, store: Option<string>)

  datatype ReviewRow = ReviewRow(rating: real, title: string, text: string, helpful_votes: int,
                                 verified_purchase: bool)

  datatype NameAnswer = NameAnswer(product: NamedProduct, reviews: seq<ReviewRow>, alternatives: seq<NamedProduct>)

  const NameRequired := "Product name is required"
  const NameFailed := "Failed to find product information"

  function NamedOf(p: Product): NamedProduct {
    NamedProduct(p.id, Some(p.parent_asin), p.title, p.description, p.price, p.average_rating, p.rating_count,
                 p.features_text, Some(p.images), Some(p.store))
  }

  function NamedOfRow(row: ProductRow): NamedProduct {
    NamedProduct(row.listing.product_id, None, row.listing.title, row.listing.description, row.listing.price,
                 row.listing.average_rating, row.listing.rating_count, row.listing.features, None, None)
  }

  function ReviewRowOf(r: Review): ReviewRow {
    ReviewRow(r.rating, r.title, r.text, r.helpful_votes, r.verified_purchase)
  }

  /** `FILTER CONTAINS(LOWER(product.title), LOWER(@productName))
       SORT product.rating_count DESC  LIMIT 5`. */
  function TitleMatches(st: Store, name: string): seq<Product> {
    TopBy(Filter(st.products, (p: Product) => Contains(Lower(p.title), Lower(name))), CountDesc(), 5)
  }

  /** `FILTER review.parent_asin == @asin`. */
  function ReviewsOfAsin(st: Store, asin: string): seq<Review> {
    Filter(st.reviews, (r: Review) => r.parent_asin == asin)
  }

  /** The reviews of one parent ASIN, most helpful first, at most `limit`. */
  function TopReviews(st: Store, asin: string, limit: int): seq<ReviewRow> {
    Map(TopBy(ReviewsOfAsin(st, asin), HelpfulThenRatingDesc(), limit), ReviewRowOf)
  }

  /** `row` is at least as helpful as `r`: more helpful votes, or as many
      and at least the same rating. */
  predicate HelpfulAtLeast(row: ReviewRow, r: Review) {
    row.helpful_votes > r.helpful_votes || (row.helpful_votes == r.helpful_votes && row.rating >= r.rating)
  }

  /** What the review query promises: `limit` reviews of the product, or
      all of them when there are fewer, each the row of one of its reviews
      and none listed more often than it occurs; the most helpful first,
      ties broken by rating; and no review of the product left out is more
      helpful than one listed. */
  predicate TopReviewRows(st: Store, asin: string, limit: int, rows: seq<ReviewRow>) {
    var own := ReviewsOfAsin(st, asin);
    && |rows| == LimitCount(limit, |own|)
    && multiset(rows) <= multiset(Map(own, ReviewRowOf))
    && (forall row :: row in rows ==> exists r :: r in st.reviews && r.parent_asin == asin && row == ReviewRowOf(r))
    && (forall i, j :: 0 <= i < j < |rows| ==>
          rows[i].helpful_votes > rows[j].helpful_votes
          || (rows[i].helpful_votes == rows[j].helpful_votes && rows[i].rating >= rows[j].rating))
    && (forall r, row ::
          (r in st.reviews && r.parent_asin == asin && ReviewRowOf(r) !in rows && row in rows) ==> HelpfulAtLeast(row, r))
  }

  lemma TopReviewsProperties(st: Store, asin: string, limit: int)
    ensures TopReviewRows(st, asin, limit, TopReviews(st, asin, limit))
  {
    var own := ReviewsOfAsin(st, asin);
    var le := HelpfulThenRatingDesc();
    HelpfulThenRatingPreorder();
    var top := TopBy(own, le, limit);
    var rows := Map(top, ReviewRowOf);
    TopBySelects(own, le, limit);
    TopByMapped(own, le, limit, ReviewRowOf);
    forall row | row in rows ensures exists r :: r in st.reviews && r.parent_asin == asin && row == ReviewRowOf(r) {
      var i :| 0 <= i < |rows| && rows[i] == row;
      assert top[i] in top;
    }
    forall i, j | 0 <= i < j < |rows|
      ensures rows[i].helpful_votes > rows[j].helpful_votes
              || (rows[i].helpful_votes == rows[j].helpful_votes && rows[i].rating >= rows[j].rating)
    {
      assert le(top[i], top[j]);
    }
    forall r, row | r in st.reviews && r.parent_asin == asin && ReviewRowOf(r) !in rows && row in rows
      ensures HelpfulAtLeast(row, r)
    {
      ReviewLeftOut(own, limit, r, row);
    }
  }

  /** A review left out of the listing is no more helpful than any review
      listed. */
  lemma ReviewLeftOut(own: seq<Review>, limit: int, r: Review, row: ReviewRow)
    requires r in own
    requires var rows := Map(TopBy(own, HelpfulThenRatingDesc(), limit), ReviewRowOf);
      ReviewRowOf(r) !in rows && row in rows
    ensures HelpfulAtLeast(row, r)
  {
    var le := HelpfulThenRatingDesc();
    HelpfulThenRatingPreorder();
    var top := TopBy(own, le, limit);
    var rows := Map(top, ReviewRowOf);
    TopBySelects(own, le, limit);
    MapHas(top, ReviewRowOf);
    var i :| 0 <= i < |rows| && rows[i] == row;
    assert r !in top;
    assert le(top[i], r);
  }

  /** `findProductByName` of the query module.  When no title matches, the
      vector product stage is tried; its rows have no `asin`, and a review
      query sent without a value for `@asin` is rejected by the database, so
      such a look-up ends in the caught error.  When neither search finds
      anything, `products[0].asin` throws and the caught error is returned
      too. */
  function FindProductByName(st: Store, embed: string -> Option<Scores>, name: string): Result<NameAnswer> {
    if name == "" then Err(ToolError(NameRequired, None))
    else if NameMatch in st.failing then Err(ToolError(NameFailed, None))
    else
      var byTitle := Map(TitleMatches(st, name), NamedOf);
      var products :=
        if byTitle != [] then Some(byTitle)
        else match embed(name)
          case None => None
          case Some(scores) =>
            var similarity := VectorProductStage(st, scores, NoClause, Params(name, None, 0, 5));
            Some(if similarity.Match? then Map(similarity.payload.products, NamedOfRow) else []);
      if products.None? || products.value == []
         || !BindsAccepted({"asin"}, BoundIf("asin", products.value[0].asin)) || NameReviews in st.failing then
        Err(ToolError(NameFailed, None))
      else
        var best := products.value[0];
        Ok(NameAnswer(best, TopReviews(st, best.asin.value, 10), products.value[1..]))
  }

  /** A name that some title contains is answered unless one of its two
      queries fails, and an answer always comes from the title search: its
      best match is the most-rated product whose title contains the name,
      with its ten most helpful reviews and at most four alternatives. */
  lemma FindProductByNameProperties(st: Store, embed: string -> Option<Scores>, name: string)
    ensures var r := FindProductByName(st, embed, name);
      && (name == "" ==> r == Err(ToolError(NameRequired, None)))
      && (name != "" && NameMatch in st.failing ==> r == Err(ToolError(NameFailed, None)))
      && ((name != "" && NameMatch !in st.failing && NameReviews !in st.failing
           && exists p :: p in st.products && Contains(Lower(p.title), Lower(name))) ==> r.Ok?)
      && (r.Ok? ==>
            var titles := TitleMatches(st, name);
            && titles != []
            && r.value.product == NamedOf(titles[0])
            && Contains(Lower(titles[0].title), Lower(name))
            && (forall p :: p in st.products && Contains(Lower(p.title), Lower(name)) ==>
                  p in titles || titles[0].rating_count >= p.rating_count)
            && |r.value.reviews| <= 10
            && r.value.reviews == TopReviews(st, titles[0].parent_asin, 10)
            && TopReviewRows(st, titles[0].parent_asin, 10, r.value.reviews)
            && |r.value.alternatives| <= 4
            && r.value.alternatives == Map(titles[1..], NamedOf))
  {
    var r := FindProductByName(st, embed, name);
    AnswerFromTitles(st, embed, name);
    if name != "" && NameMatch !in st.failing && NameReviews !in st.failing {
      NameAnswered(st, embed, name);
    }
    if r.Ok? {
      var titles := TitleMatches(st, name);
      var matching := Filter(st.products, (p: Product) => Contains(Lower(p.title), Lower(name)));
      CountDescPreorder();
      TopBySelects(matching, CountDesc(), 5);
      assert titles[0] in titles;
      assert Map(titles, NamedOf)[1..] == Map(titles[1..], NamedOf);
      TopReviewsProperties(st, titles[0].parent_asin, 10);
    }
  }

  /** A name that some title contains, with both queries succeeding, gets
      an answer. */
  lemma NameAnswered(st: Store, embed: string -> Option<Scores>, name: string)
    requires name != "" && NameMatch !in st.failing && NameReviews !in st.failing
    ensures (exists p :: p in st.products && Contains(Lower(p.title), Lower(name))) ==> FindProductByName(st, embed, name).Ok?
  {
    var matching := Filter(st.products, (p: Product) => Contains(Lower(p.title), Lower(name)));
    EmptyIffNoMember(matching);
    if matching != [] {
      CountDescPreorder();
      TopBySelects(matching, CountDesc(), 5);
      assert TitleMatches(st, name) != [];
      assert Map(TitleMatches(st, name), NamedOf)[0].asin == Some(TitleMatches(st, name)[0].parent_asin);
    }
  }

  /** An answer is built from the title matches: the vector fallback never
      yields one, since its rows carry no ASIN. */
  lemma AnswerFromTitles(st: Store, embed: string -> Option<Scores>, name: string)
    ensures var r := FindProductByName(st, embed, name);
      r.Ok? ==>
        var titles := TitleMatches(st, name);
        && titles != []
        && r.value == NameAnswer(NamedOf(titles[0]), TopReviews(st, titles[0].parent_asin, 10),
                                 Map(titles, NamedOf)[1..])
  {
    var titles := TitleMatches(st, name);
    if titles == [] && name != "" && NameMatch !in st.failing && embed(name).Some? {
      var scores := embed(name).value;
      var similarity := VectorProductStage(st, scores, NoClause, Params(name, None, 0, 5));
      var fallback := if similarity.Match? then Map(similarity.payload.products, NamedOfRow) else [];
      assert forall k :: 0 <= k < |fallback| ==> fallback[k].asin == None;
    }
  }

  // ---------------------------------------------------------------------
  // findProductByDescription

  /** A scored product in a description search: the vector distance in the
      query module, the keyword score in the tool implementation. */
  datatype ScoredProduct = ScoredProduct(listing: Listing, score: real)

  datatype DescriptionAnswer =
    | NoMatches(message: string)
    | Matches(search_method: Option<string>, matches_found: int, best_match: ScoredProduct,
              other_matches: seq<ScoredProduct>)

  const DescriptionRequired := "Product description is required"
  const DescriptionFailed := "Failed to find products matching description"
  const NoDescriptionMatch := "No products found matching the description"

  /** The answer built from the rows of a description query. */
  function DescriptionAnswerOf(rows: seq<ScoredProduct>, searchMethod: Option<string>): (r: DescriptionAnswer)
    ensures rows == [] <==> r.NoMatches?
    ensures r.NoMatches? ==> r.message == NoDescriptionMatch
    ensures r.Matches? ==> r.matches_found == |rows| && [r.best_match] + r.other_matches == rows
  {
    if rows == [] then NoMatches(NoDescriptionMatch)
    else Matches(searchMethod, |rows|, rows[0], rows[1..])
  }

  /** The products closer to the description than the threshold. */
  function CloseProducts(st: Store, scores: Scores): seq<Product> {
    Filter(st.products, (p: Product) => scores.productDistance(p) < VectorThreshold)
  }

  /** The vector query: products closer than the threshold, nearest first,
      at most five. */
  function NearestByDescription(st: Store, scores: Scores): seq<Product> {
    TopBy(CloseProducts(st, scores), DistanceAsc(scores), 5)
  }

  /** A row of the description query: the listing and its vector distance. */
  function Scored(scores: Scores, p: Product): ScoredProduct {
    ScoredProduct(ListingOf(p), scores.productDistance(p))
  }

  function ScoredBy(scores: Scores): Product -> ScoredProduct {
    (p: Product) => Scored(scores, p)
  }

  /** The rows the description query returns. */
  function DescriptionRows(st: Store, scores: Scores): seq<ScoredProduct> {
    Map(NearestByDescription(st, scores), ScoredBy(scores))
  }

  /** What the description query promises: the five nearest products closer
      than the threshold (all of them when fewer), none listed more often
      than it occurs, nearest first, and no close product left out nearer
      than one listed. */
  predicate NearestRows(st: Store, scores: Scores, rows: seq<ScoredProduct>) {
    && |rows| == LimitCount(5, |CloseProducts(st, scores)|)
    && multiset(rows) <= multiset(Map(CloseProducts(st, scores), ScoredBy(scores)))
    && (forall m :: m in rows ==>
          m.score < VectorThreshold && exists p :: p in st.products && m == Scored(scores, p))
    && (forall i, j :: 0 <= i < j < |rows| ==> rows[i].score <= rows[j].score)
    && (forall p, m ::
          (p in st.products && scores.productDistance(p) < VectorThreshold
           && Scored(scores, p) !in rows && m in rows) ==> m.score <= scores.productDistance(p))
  }

  lemma DescriptionRowsProperties(st: Store, scores: Scores)
    ensures NearestRows(st, scores, DescriptionRows(st, scores))
    ensures DescriptionRows(st, scores) == [] <==>
      forall p :: p in st.products ==> scores.productDistance(p) >= VectorThreshold
  {
    var close := CloseProducts(st, scores);
    var le := DistanceAsc(scores);
    var f := ScoredBy(scores);
    DistanceAscPreorder(scores);
    TopBySelects(close, le, 5);
    TopByMapped(close, le, 5, f);
    var near := NearestByDescription(st, scores);
    var rows := DescriptionRows(st, scores);
    MapHas(near, f);
    EmptyIffNoMember(close);
    forall m | m in rows
      ensures m.score < VectorThreshold && exists p :: p in st.products && m == Scored(scores, p)
    {
      var i :| 0 <= i < |rows| && rows[i] == m;
      assert near[i] in near;
    }
    forall i, j | 0 <= i < j < |rows| ensures rows[i].score <= rows[j].score {
      assert le(near[i], near[j]);
    }
    forall p, m | p in st.products && scores.productDistance(p) < VectorThreshold && Scored(scores, p) !in rows
                  && m in rows
      ensures m.score <= scores.productDistance(p)
    {
      var i :| 0 <= i < |rows| && rows[i] == m;
      assert p in close && p !in near;
      assert le(near[i], p);
    }
  }

  /** `findProductByDescription` of the query module. */
  function FindProductByDescription(st: Store, embed: string -> Option<Scores>, description: string)
    : Result<DescriptionAnswer>
  {
    if description == "" then Err(ToolError(DescriptionRequired, None))
    else match embed(description)
      case None => Err(ToolError(DescriptionFailed, None))
      case Some(scores) =>
        if DescriptionVector in st.failing then Err(ToolError(DescriptionFailed, None))
        else Ok(DescriptionAnswerOf(DescriptionRows(st, scores), Some("vector")))
  }

  /** An empty description is rejected and a failed embedding or query gives
      the caught error; otherwise "no match" exactly when no product is
      closer than the threshold, and the matches are the nearest rows. */
  lemma FindProductByDescriptionProperties(st: Store, embed: string -> Option<Scores>, description: string)
    ensures var r := FindProductByDescription(st, embed, description);
      && (description == "" ==> r == Err(ToolError(DescriptionRequired, None)))
      && (r.Err? <==> description == "" || embed(description).None? || DescriptionVector in st.failing)
      && (r.Ok? ==>
            var scores := embed(description).value;
            && (r.value.NoMatches? <==>
                  forall p :: p in st.products ==> scores.productDistance(p) >= VectorThreshold)
            && (r.value.Matches? ==>
                  && r.value.search_method == Some("vector")
                  && r.value.matches_found == LimitCount(5, |CloseProducts(st, scores)|)
                  && NearestRows(st, scores, [r.value.best_match] + r.value.other_matches)))
  {
    var r := FindProductByDescription(st, embed, description);
    if r.Ok? {
      DescriptionRowsProperties(st, embed(description).value);
    }
  }

  // ---------------------------------------------------------------------
  // getProductReviewsSummary

  datatype SummaryInput = SummaryInput(product_id: Option<string>, asin: Option<string>, limit: Option<real>)

  datatype ProductBrief = ProductBrief(asin: string, title: string, average_rating: real, rating_count: int)

  /** One bucket of the rating distribution. */
  datatype RatingBucket = RatingBucket(rating: real, count: nat)

  datatype Summary = Summary(product: ProductBrief, rating_distribution: seq<RatingBucket>,
                             top_reviews: seq<ReviewRow>)

  const SummaryArgsMissing := "Either product_id or asin must be provided"
  const ProductNotFound := "Product not found"
  const SummaryFailed := "Failed to retrieve product reviews summary"

  function RealDesc(): (real, real) -> bool { (a: real, b: real) => a >= b }

  /** `COLLECT rating = review.rating WITH COUNT INTO count  SORT rating DESC`. */
  function RatingDistribution(reviews: seq<Review>): seq<RatingBucket> {
    var ratings := Map(reviews, (r: Review) => r.rating);
    Map(SortBy(Dedup(ratings), RealDesc()), (x: real) => RatingBucket(x, multiset(ratings)[x]))
  }

  /** The number of reviews with rating `x`. */
  function ReviewsRated(reviews: seq<Review>, x: real): nat {
    |Filter(reviews, (r: Review) => r.rating == x)|
  }

  /** Each bucket holds the number of reviews with its rating, which is at
      least one. */
  lemma RatingBucketsCount(reviews: seq<Review>)
    ensures forall b :: b in RatingDistribution(reviews) ==> b.count >= 1 && b.count == ReviewsRated(reviews, b.rating)
  {
    var ratings := Map(reviews, (r: Review) => r.rating);
    var distinct := Dedup(ratings);
    var sorted := SortBy(distinct, RealDesc());
    var d := RatingDistribution(reviews);
    SortByPermutes(distinct, RealDesc());
    forall b | b in d ensures b.count >= 1 && b.count == ReviewsRated(reviews, b.rating) {
      var i :| 0 <= i < |d| && d[i] == b;
      var x := sorted[i];
      assert b == RatingBucket(x, multiset(ratings)[x]);
      assert x in multiset(distinct);
      assert x in ratings;
      CountRating(reviews, x);
    }
  }

  /** Every rating that occurs has a bucket. */
  lemma RatingBucketsCover(reviews: seq<Review>)
    ensures forall r :: r in reviews ==> exists b :: b in RatingDistribution(reviews) && b.rating == r.rating
  {
    var ratings := Map(reviews, (r: Review) => r.rating);
    var sorted := SortBy(Dedup(ratings), RealDesc());
    var d := RatingDistribution(reviews);
    SortByPermutes(Dedup(ratings), RealDesc());
    forall r | r in reviews ensures exists b :: b in d && b.rating == r.rating {
      var k :| 0 <= k < |reviews| && reviews[k] == r;
      assert ratings[k] == r.rating;
      assert r.rating in Dedup(ratings);
      assert r.rating in multiset(sorted);
      var i :| 0 <= i < |sorted| && sorted[i] == r.rating;
      assert d[i].rating == r.rating;
    }
  }

  /** The buckets are in strictly descending rating order, so no rating has
      two buckets. */
  lemma RatingBucketsDescending(reviews: seq<Review>)
    ensures var d := RatingDistribution(reviews);
      forall i, j :: 0 <= i < j < |d| ==> d[i].rating > d[j].rating
  {
    var ratings := Map(reviews, (r: Review) => r.rating);
    var distinct := Dedup(ratings);
    var sorted := SortBy(distinct, RealDesc());
    SortByPermutes(distinct, RealDesc());
    SortBySorted(distinct, RealDesc());
    forall i, j | 0 <= i < j < |sorted| ensures sorted[i] > sorted[j] {
      DistinctSubmultiset(distinct, sorted, i, j);
    }
  }

  /** What the distribution query promises: one bucket per rating that
      occurs, in strictly descending rating order, each counting the reviews
      with its rating. */
  predicate DistributionOf(reviews: seq<Review>, d: seq<RatingBucket>) {
    && (forall b :: b in d ==> b.count >= 1 && b.count == ReviewsRated(reviews, b.rating))
    && (forall r :: r in reviews ==> exists b :: b in d && b.rating == r.rating)
    && (forall i, j :: 0 <= i < j < |d| ==> d[i].rating > d[j].rating)
  }

  lemma RatingDistributionProperties(reviews: seq<Review>)
    ensures DistributionOf(reviews, RatingDistribution(reviews))
  {
    RatingBucketsCount(reviews);
    RatingBucketsCover(reviews);
    RatingBucketsDescending(reviews);
  }

  /** The number of occurrences of a rating is the number of reviews with it. */
  lemma {:induction false} CountRating(reviews: seq<Review>, x: real)
    ensures multiset(Map(reviews, (r: Review) => r.rating))[x]
         == |Filter(reviews, (r: Review) => r.rating == x)|
    decreases |reviews|
  {
    if reviews != [] {
      CountRating(reviews[1..], x);
      assert Map(reviews, (r: Review) => r.rating)
          == [reviews[0].rating] + Map(reviews[1..], (r: Review) => r.rating);
    }
  }

  /** The product query of the summary declares `@product_id` when a
      product id is given and `@asin` otherwise, and is sent every
      identifier that is defined. */
  function SummaryDeclared(input: SummaryInput): set<string> {
    if Truthy(input.product_id) then {"product_id"} else {"asin"}
  }

  function SummaryBound(input: SummaryInput): set<string> {
    BoundIf("product_id", input.product_id) + BoundIf("asin", input.asin)
  }

  /** With an identifier given, the binding is accepted exactly when the
      identifier the query does not use is left undefined. */
  lemma SummaryBindsAcceptedIff(input: SummaryInput)
    requires Truthy(input.product_id) || Truthy(input.asin)
    ensures BindsAccepted(SummaryDeclared(input), SummaryBound(input))
        <==> if Truthy(input.product_id) then input.asin.None? else input.product_id.None?
  {
    if Truthy(input.product_id) {
      if input.asin.Some? { assert "asin" in SummaryBound(input); }
    } else if input.product_id.Some? {
      assert "product_id" in SummaryBound(input);
    }
  }

  /** The product filter of the summary: `product._key == @product_id`
      when a product id is given, `product.parent_asin == @asin` otherwise. */
  predicate SummaryKeeps(input: SummaryInput, p: Product) {
    if Truthy(input.product_id) then p.key == input.product_id.value
    else input.asin.Some? && p.parent_asin == input.asin.value
  }

  function SummaryMatches(st: Store, input: SummaryInput): seq<Product> {
    Filter(st.products, (p: Product) => SummaryKeeps(input, p))
  }

  /** `getProductReviewsSummary`: `product_id` (matched against the
      document key) selects the product when it is non-empty, `asin`
      otherwise. */
  function GetProductReviewsSummary(st: Store, input: SummaryInput): Result<Summary> {
    if !Truthy(input.product_id) && !Truthy(input.asin) then Err(ToolError(SummaryArgsMissing, None))
    else if SummaryProduct in st.failing || !BindsAccepted(SummaryDeclared(input), SummaryBound(input)) then
      Err(ToolError(SummaryFailed, None))
    else
      var found := Take(SummaryMatches(st, input), 1);
      if found == [] then Err(ToolError(ProductNotFound, None))
      else if SummaryReviews in st.failing || SummaryRatings in st.failing then Err(ToolError(SummaryFailed, None))
      else
        var p := found[0];
        Ok(Summary(ProductBrief(p.parent_asin, p.title, p.average_rating, p.rating_count),
                   RatingDistribution(ReviewsOfAsin(st, p.parent_asin)),
                   TopReviews(st, p.parent_asin, ParamOrDefault(input.limit, 10))))
  }

  /** Neither identifier gives the argument error; sending both a product id
      and an `asin`, or an empty product id beside an `asin`, is refused by
      the database and ends in the caught error; an identifier no product
      has gives "Product not found"; one identifier that some product has,
      with no query failing, gives a summary; and a summary describes a
      product with the identifier the query used, the distribution of its
      reviews' ratings and its most helpful reviews. */
  lemma GetProductReviewsSummaryProperties(st: Store, input: SummaryInput)
    ensures var r := GetProductReviewsSummary(st, input);
      && (!Truthy(input.product_id) && !Truthy(input.asin) <==> r == Err(ToolError(SummaryArgsMissing, None)))
      && ((Truthy(input.product_id) && input.asin.Some?) ==> r == Err(ToolError(SummaryFailed, None)))
      && ((!Truthy(input.product_id) && input.product_id.Some? && Truthy(input.asin))
            ==> r == Err(ToolError(SummaryFailed, None)))
      && ((Truthy(input.product_id) && input.asin.None? && SummaryProduct !in st.failing
             && (forall p :: p in st.products ==> p.key != input.product_id.value))
            ==> r == Err(ToolError(ProductNotFound, None)))
      && ((input.product_id.None? && Truthy(input.asin) && SummaryProduct !in st.failing
             && (forall p :: p in st.products ==> p.parent_asin != input.asin.value))
            ==> r == Err(ToolError(ProductNotFound, None)))
      && (((if Truthy(input.product_id) then input.asin.None? else input.product_id.None? && Truthy(input.asin))
           && SummaryProduct !in st.failing && SummaryReviews !in st.failing && SummaryRatings !in st.failing
           && exists p :: p in st.products && SummaryKeeps(input, p)) ==> r.Ok?)
      && (r.Ok? ==>
            && (if Truthy(input.product_id) then input.asin.None? else input.product_id.None?)
            && (exists p :: (p in st.products
              && (if Truthy(input.product_id) then p.key == input.product_id.value else p.parent_asin == input.asin.value)
              && r.value.product == ProductBrief(p.parent_asin, p.title, p.average_rating, p.rating_count)))
            && r.value.rating_distribution == RatingDistribution(ReviewsOfAsin(st, r.value.product.asin))
            && DistributionOf(ReviewsOfAsin(st, r.value.product.asin), r.value.rating_distribution)
            && r.value.top_reviews == TopReviews(st, r.value.product.asin, ParamOrDefault(input.limit, 10))
            && TopReviewRows(st, r.value.product.asin, ParamOrDefault(input.limit, 10), r.value.top_reviews))
  {
    var r := GetProductReviewsSummary(st, input);
    if Truthy(input.product_id) || Truthy(input.asin) {
      SummaryBindsAcceptedIff(input);
      var matching := SummaryMatches(st, input);
      EmptyIffNoMember(matching);
      if matching != [] {
        assert matching[0] in matching;
        RatingDistributionProperties(ReviewsOfAsin(st, matching[0].parent_asin));
        TopReviewsProperties(st, matching[0].parent_asin, ParamOrDefault(input.limit, 10));
      }
    }
  }
}
