/** The search stages of the product-search cascade: the category clause,
    the vector search over reviews, the vector search over products and the
    best-rated fallback.  Each stage runs one query (two for the review
    stage), reports `NoMatch` when the query yields no rows or throws, and
    otherwise reports the payload it serialises.  A stage binds `@category`
    whenever the category argument is truthy, while its text declares it
    only when the category clause is spliced in, so a blank category makes
    the database refuse the query. */
module Stages {
  import opened Common
  import opened Catalog

  // ---------------------------------------------------------------------
  // Category clause

  /** The clause spliced into a query: nothing, or the
      `BelongsToCategory`/`Categories` join filtering on `@category`.  The
      clause text holds no category; the value compared is the one bound to
      `@category`. */
  datatype CategoryClause = NoClause | CategoryJoin

  datatype CategoryFilter = CategoryFilter(filter: CategoryClause, hasCategory: bool)

  /** `buildCategoryFilter`: no clause for a missing, empty or blank
      category, the join clause otherwise. */
  function BuildCategoryFilter(category: Option<string>): (r: CategoryFilter)
    ensures r.hasCategory <==> r.filter == CategoryJoin
    ensures !r.hasCategory <==>
      (category == None || forall i :: 0 <= i < |category.value| ==> IsJsSpace(category.value[i]))
  {
    var text := if category.Some? then category.value else "";
    TrimEmptyIffAllSpace(text, IsJsSpace);
    if category == None || category.value == "" || Trim(category.value) == "" then
      CategoryFilter(NoClause, false)
    else
      CategoryFilter(CategoryJoin, true)
  }

  /** The rows a product stream keeps after the clause, with `category`
      bound to `@category`. */
  function ApplyClause(st: Store, ps: seq<Product>, clause: CategoryClause, category: string): seq<Product> {
    match clause
    case NoClause => ps
    case CategoryJoin => ExpandByCategory(st, ps, category)
  }

  /** The clause never adds a product: a product is kept exactly as often as
      before when there is no clause, and once per matching category when
      there is one. */
  lemma ApplyClauseCount(st: Store, ps: seq<Product>, clause: CategoryClause, category: string, p: Product)
    ensures multiset(ApplyClause(st, ps, clause, category))[p] ==
      match clause
      case NoClause => multiset(ps)[p]
      case CategoryJoin => multiset(ps)[p] * |MatchingCategories(st, p, category)|
  {
    if clause.CategoryJoin? {
      ExpandByCategoryCount(st, ps, category, p);
    }
  }

  /** A product passes the clause when there is none or when one of its
      categories matches. */
  predicate PassesClause(st: Store, p: Product, clause: CategoryClause, category: string) {
    clause.CategoryJoin? ==> |MatchingCategories(st, p, category)| > 0
  }

  lemma ApplyClauseMember(st: Store, ps: seq<Product>, clause: CategoryClause, category: string, p: Product)
    ensures p in ApplyClause(st, ps, clause, category) <==> p in ps && PassesClause(st, p, clause, category)
  {
    if clause.CategoryJoin? {
      var kept := ApplyClause(st, ps, clause, category);
      ApplyClauseCount(st, ps, clause, category, p);
      PositiveProduct(multiset(ps)[p], |MatchingCategories(st, p, category)|);
      assert p in kept <==> multiset(kept)[p] > 0;
      assert p in ps <==> multiset(ps)[p] > 0;
    }
  }

  lemma PositiveProduct(a: nat, b: nat)
    ensures a * b > 0 <==> a > 0 && b > 0
  {
  }

  // ---------------------------------------------------------------------
  // Stage inputs and outputs

  /** The parameters the cascade hands to every stage. */
  datatype Params = Params(example_review: string, category: Option<string>, min_rating: int, limit: int)

  /** The `COLLECT` keys of the review stage, and the product fields every
      stage returns. */
  datatype Listing = Listing(
    product_id: string,
    title: string,
    description: string,
    features: string,
    price: real,
    average_rating: real,
    rating_count: int)

  function ListingOf(p: Product): (l: Listing)
    ensures l.product_id == p.id && l.average_rating == p.average_rating
    ensures l.rating_count == p.rating_count
  {
    Listing(p.id, p.title, p.description, p.features_text, p.price, p.average_rating, p.rating_count)
  }

  datatype ReviewSample = ReviewSample(rating: real, title: string, text: string, helpful_votes: int)

  /** One element of `products` in a stage payload. */
  datatype ProductRow = ProductRow(
    listing: Listing,
    matching_reviews_count: Option<nat>,
    search_method: string,
    sample_matching_reviews: Option<seq<ReviewSample>>)

  /** The JSON object a successful stage serialises into `result`; an absent
      `user_requirements` or `note` is a key `JSON.stringify` drops. */
  datatype Payload = Payload(
    search_method: string,
    user_requirements: Option<string>,
    note: Option<string>,
    matches_found: int,
    products: seq<ProductRow>)

  /** `{success:false}` or `{success:true, result}`. */
  datatype StageResult = NoMatch | Match(payload: Payload)

  // ---------------------------------------------------------------------
  // Bind parameters

  /** JavaScript truthiness of an optional string. */
  predicate Truthy(s: Option<string>) { s.Some? && s.value != "" }

  /** The value bound to `@category` when there is one. */
  function CategoryArg(params: Params): string {
    if params.category.Some? then params.category.value else ""
  }

  /** The parameters a vector stage's main query always declares and binds,
      and those of the best-rated fallback. */
  const VectorParams: set<string> := {"embedding", "min_rating", "limit"}
  const FallbackParams: set<string> := {"min_rating", "limit"}

  /** What the stage text declares: `base`, plus `@category` with the clause. */
  function StageDeclared(base: set<string>, clause: CategoryClause): set<string> {
    base + (if clause.CategoryJoin? then {"category"} else {})
  }

  /** What the stage binds: `base`, plus `category` when it is truthy
      (`if (params.category) queryParams.category = params.category`). */
  function StageBound(base: set<string>, params: Params): set<string> {
    base + (if Truthy(params.category) then {"category"} else {})
  }

  predicate StageAccepted(base: set<string>, clause: CategoryClause, params: Params) {
    BindsAccepted(StageDeclared(base, clause), StageBound(base, params))
  }

  /** The database runs a stage query exactly when the clause is present
      precisely for a truthy category. */
  lemma StageAcceptedIff(base: set<string>, clause: CategoryClause, params: Params)
    requires "category" !in base
    ensures StageAccepted(base, clause, params) <==> (clause.CategoryJoin? <==> Truthy(params.category))
  {
    if clause.CategoryJoin? && !Truthy(params.category) {
      assert "category" in StageDeclared(base, clause);
    }
    if !clause.CategoryJoin? && Truthy(params.category) {
      assert "category" in StageBound(base, params);
    }
  }

  // ---------------------------------------------------------------------
  // Orders

  function ReviewScoreAsc(scores: Scores): (Review, Review) -> bool {
    (a: Review, b: Review) => scores.reviewSimilarity(a) <= scores.reviewSimilarity(b)
  }

  function ProductScoreAsc(scores: Scores): (Product, Product) -> bool {
    (a: Product, b: Product) => scores.productSimilarity(a) <= scores.productSimilarity(b)
  }

  /** `SORT review_count DESC, average_rating DESC` over the groups of `rows`. */
  function CountThenRatingDesc(rows: seq<Listing>): (Listing, Listing) -> bool {
    (a: Listing, b: Listing) =>
      multiset(rows)[a] > multiset(rows)[b]
      || (multiset(rows)[a] == multiset(rows)[b] && a.average_rating >= b.average_rating)
  }

  /** `SORT product.average_rating DESC, product.rating_count DESC`. */
  function RatingThenCountDesc(): (Product, Product) -> bool {
    (a: Product, b: Product) =>
      a.average_rating > b.average_rating
      || (a.average_rating == b.average_rating && a.rating_count >= b.rating_count)
  }

  lemma CountThenRatingPreorder(rows: seq<Listing>)
    ensures TotalPreorder(CountThenRatingDesc(rows))
  {
  }

  lemma ReviewScorePreorder(scores: Scores)
    ensures TotalPreorder(ReviewScoreAsc(scores))
  {
  }

  lemma ProductScorePreorder(scores: Scores)
    ensures TotalPreorder(ProductScoreAsc(scores))
  {
  }

  lemma RatingThenCountPreorder()
    ensures TotalPreorder(RatingThenCountDesc())
  {
  }

  // ---------------------------------------------------------------------
  // Vector search over reviews

  /** `SEARCH ... < 0.3  FILTER review.rating >= @min_rating`. */
  predicate EligibleReview(scores: Scores, minRating: int, r: Review) {
    scores.reviewSimilarity(r) < VectorThreshold && r.rating >= minRating as real
  }

  function EligibleReviews(st: Store, scores: Scores, minRating: int): seq<Review> {
    Filter(st.reviews, (r: Review) => EligibleReview(scores, minRating, r))
  }

  /** `... SORT ... ASC  LIMIT 20`. */
  function ReviewCandidates(st: Store, scores: Scores, minRating: int): seq<Review> {
    TopBy(EligibleReviews(st, scores, minRating), ReviewScoreAsc(scores), 20)
  }

  /** Twenty reviews, or all eligible ones when fewer, each taken from the
      eligible reviews and none more often than it occurs there, each rated
      at least `min_rating` and scoring below the threshold, lowest scores
      first, and no eligible review left out scores lower than one kept. */
  lemma ReviewCandidatesProperties(st: Store, scores: Scores, minRating: int)
    ensures var c := ReviewCandidates(st, scores, minRating);
      && |c| == LimitCount(20, |EligibleReviews(st, scores, minRating)|)
      && multiset(c) <= multiset(EligibleReviews(st, scores, minRating))
      && (forall r :: r in c ==> r in st.reviews && EligibleReview(scores, minRating, r))
      && SortedBy(c, ReviewScoreAsc(scores))
      && (forall r, r' :: r in c && r' in st.reviews && r' !in c && EligibleReview(scores, minRating, r')
            ==> scores.reviewSimilarity(r) <= scores.reviewSimilarity(r'))
  {
    ReviewScorePreorder(scores);
    TopBySelects(EligibleReviews(st, scores, minRating), ReviewScoreAsc(scores), 20);
    TopByWithin(EligibleReviews(st, scores, minRating), ReviewScoreAsc(scores), 20);
  }

  /** The products a review joins:
      `product.parent_asin == review.parent_asin OR product.parent_asin == review.asin`. */
  function ProductsOfReview(st: Store, r: Review): seq<Product> {
    Filter(st.products, (p: Product) => p.parent_asin == r.parent_asin || p.parent_asin == r.asin)
  }

  /** The rows reaching `COLLECT`: one per (candidate review, joined product,
      matching category). */
  function ReviewJoinRows(st: Store, candidates: seq<Review>, clause: CategoryClause, category: string): seq<Listing> {
    Map(FlatMap(candidates, (r: Review) => ApplyClause(st, ProductsOfReview(st, r), clause, category)), ListingOf)
  }

  /** The joined rows of the review stage. */
  function StageJoinRows(st: Store, scores: Scores, clause: CategoryClause, params: Params): seq<Listing> {
    ReviewJoinRows(st, ReviewCandidates(st, scores, params.min_rating), clause, CategoryArg(params))
  }

  /** `COLLECT ... WITH COUNT INTO review_count  SORT review_count DESC,
       average_rating DESC  LIMIT @limit`. */
  function RankedReviewGroups(st: Store, scores: Scores, clause: CategoryClause, params: Params): seq<Listing> {
    var rows := StageJoinRows(st, scores, clause, params);
    TopBy(Dedup(rows), CountThenRatingDesc(rows), params.limit)
  }

  /** The groups are distinct, `limit` of them or every group when there
      are fewer, each backed by at least one joined row, ordered by count
      and then rating, and no group left out outranks one kept; there are
      none exactly when `limit` is not positive or no row was joined. */
  lemma RankedReviewGroupsProperties(st: Store, scores: Scores, clause: CategoryClause, params: Params)
    ensures var rows := StageJoinRows(st, scores, clause, params);
      var g := RankedReviewGroups(st, scores, clause, params);
      && |g| == LimitCount(params.limit, |Dedup(rows)|)
      && (g == [] <==> params.limit <= 0 || rows == [])
      && (forall i, j :: 0 <= i < j < |g| ==> g[i] != g[j])
      && (forall l :: l in g ==> multiset(rows)[l] >= 1)
      && SortedBy(g, CountThenRatingDesc(rows))
      && (forall l, l' :: l in g && l' in rows && l' !in g ==> CountThenRatingDesc(rows)(l, l'))
  {
    var rows := StageJoinRows(st, scores, clause, params);
    var groups := Dedup(rows);
    var le := CountThenRatingDesc(rows);
    var g := TopBy(groups, le, params.limit);
    CountThenRatingPreorder(rows);
    TopBySelects(groups, le, params.limit);
    TopByProperties(groups, le, params.limit);
    if rows != [] {
      assert rows[0] in groups;
    }
    forall i, j | 0 <= i < j < |g| ensures g[i] != g[j] {
      DistinctSubmultiset(groups, g, i, j);
    }
  }

  /** In a sequence without repeats every value occurs at most once. */
  lemma {:induction false} DistinctCount<T>(s: seq<T>, x: T)
    requires forall a, b :: 0 <= a < b < |s| ==> s[a] != s[b]
    ensures multiset(s)[x] <= 1
    decreases |s|
  {
    if s != [] {
      DistinctCount(s[1..], x);
      assert s == [s[0]] + s[1..];
      assert s[0] !in s[1..];
    }
  }

  /** A sub-multiset of a sequence without repeats has no repeats. */
  lemma DistinctSubmultiset<T>(s: seq<T>, t: seq<T>, i: int, j: int)
    requires forall a, b :: 0 <= a < b < |s| ==> s[a] != s[b]
    requires multiset(t) <= multiset(s)
    requires 0 <= i < j < |t|
    ensures t[i] != t[j]
  {
    DistinctCount(s, t[i]);
    assert t == t[..i] + [t[i]] + t[i + 1..j] + [t[j]] + t[j + 1..];
    assert multiset(t)[t[i]] >= multiset([t[i]] + [t[j]])[t[i]];
  }

  /** The reviews scoring below the threshold (`SEARCH … < 0.3`). */
  function CloseReviews(st: Store, scores: Scores): seq<Review> {
    Filter(st.reviews, (r: Review) => scores.reviewSimilarity(r) < VectorThreshold)
  }

  /** A review once per store product with id `productId` that it joins. */
  function JoinedTo(st: Store, productId: string): Review -> seq<Review> {
    (r: Review) => Map(Filter(ProductsOfReview(st, r), (p: Product) => p.id == productId), (_: Product) => r)
  }

  /** The rows the sample query sorts: every review below the threshold
      once per product with id `productId` that it joins (no rating floor,
      no category clause). */
  function SampleJoined(st: Store, scores: Scores, productId: string): seq<Review> {
    FlatMap(CloseReviews(st, scores), JoinedTo(st, productId))
  }

  /** `r` reaches the sample query's `SORT` for `productId`. */
  predicate SampleJoins(st: Store, scores: Scores, productId: string, r: Review) {
    && r in st.reviews
    && scores.reviewSimilarity(r) < VectorThreshold
    && exists p :: p in ProductsOfReview(st, r) && p.id == productId
  }

  /** The fields a sample keeps of a review. */
  function Sampled(): Review -> ReviewSample {
    (r: Review) => ReviewSample(r.rating, r.title, r.text, r.helpful_votes)
  }

  /** The sample query for one product: the joined reviews, lowest scores
      first, at most three. */
  function SampleReviewsFor(st: Store, scores: Scores, productId: string): (r: seq<ReviewSample>)
    ensures |r| <= 3
  {
    Map(TopBy(SampleJoined(st, scores, productId), ReviewScoreAsc(scores), 3), Sampled())
  }

  /** A review is among the sorted rows exactly when it joins the product. */
  lemma SampleJoinedMember(st: Store, scores: Scores, productId: string, r: Review)
    ensures r in SampleJoined(st, scores, productId) <==> SampleJoins(st, scores, productId, r)
  {
    if r in SampleJoined(st, scores, productId) {
      SampleJoinedSound(st, scores, productId, r);
    }
    if SampleJoins(st, scores, productId, r) {
      SampleJoinedComplete(st, scores, productId, r);
    }
  }

  lemma SampleJoinedSound(st: Store, scores: Scores, productId: string, r: Review)
    requires r in SampleJoined(st, scores, productId)
    ensures SampleJoins(st, scores, productId, r)
  {
    var f := JoinedTo(st, productId);
    FlatMapMember(CloseReviews(st, scores), f, r);
    var t :| t in CloseReviews(st, scores) && r in f(t);
    var own := Filter(ProductsOfReview(st, t), (p: Product) => p.id == productId);
    var i :| 0 <= i < |f(t)| && f(t)[i] == r;
    assert own[i] in own;
  }

  lemma SampleJoinedComplete(st: Store, scores: Scores, productId: string, r: Review)
    requires SampleJoins(st, scores, productId, r)
    ensures r in SampleJoined(st, scores, productId)
  {
    var f := JoinedTo(st, productId);
    var own := Filter(ProductsOfReview(st, r), (p: Product) => p.id == productId);
    var p :| p in ProductsOfReview(st, r) && p.id == productId;
    assert p in own;
    var i :| 0 <= i < |own| && own[i] == p;
    assert f(r)[i] == r;
    FlatMapHas(CloseReviews(st, scores), f, r, r);
  }

  /** The samples are the three lowest-scoring reviews joined to the product
      (all when fewer), none more often than it is joined, lowest score
      first, and no joined review left out scores lower than one kept. */
  lemma SampleReviewsProperties(st: Store, scores: Scores, productId: string)
    ensures var joined := SampleJoined(st, scores, productId);
      var top := TopBy(joined, ReviewScoreAsc(scores), 3);
      && SampleReviewsFor(st, scores, productId) == Map(top, Sampled())
      && |top| == LimitCount(3, |joined|)
      && multiset(top) <= multiset(joined)
      && (forall r :: r in top ==> SampleJoins(st, scores, productId, r))
      && (forall i, j :: 0 <= i < j < |top| ==> scores.reviewSimilarity(top[i]) <= scores.reviewSimilarity(top[j]))
      && (forall r, r' :: r in top && r' !in top && SampleJoins(st, scores, productId, r')
            ==> scores.reviewSimilarity(r) <= scores.reviewSimilarity(r'))
  {
    var joined := SampleJoined(st, scores, productId);
    var le := ReviewScoreAsc(scores);
    var top := TopBy(joined, le, 3);
    ReviewScorePreorder(scores);
    TopBySelects(joined, le, 3);
    TopByWithin(joined, le, 3);
    forall r | r in top ensures SampleJoins(st, scores, productId, r) {
      SampleJoinedMember(st, scores, productId, r);
    }
    forall i, j | 0 <= i < j < |top| ensures scores.reviewSimilarity(top[i]) <= scores.reviewSimilarity(top[j]) {
      assert le(top[i], top[j]);
    }
    forall r, r' | r in top && r' !in top && SampleJoins(st, scores, productId, r')
      ensures scores.reviewSimilarity(r) <= scores.reviewSimilarity(r')
    {
      SampleJoinedMember(st, scores, productId, r');
      assert le(r, r');
    }
  }

  /** `product.sample_matching_reviews = matchingReviews` for every row. */
  function AttachSamples(st: Store, scores: Scores, rows: seq<ProductRow>): (r: seq<ProductRow>)
    ensures |r| == |rows|
    ensures forall i :: 0 <= i < |rows| ==>
      r[i] == rows[i].(sample_matching_reviews := Some(SampleReviewsFor(st, scores, rows[i].listing.product_id)))
  {
    Map(rows, (row: ProductRow) =>
      row.(sample_matching_reviews := Some(SampleReviewsFor(st, scores, row.listing.product_id))))
  }

  /** The sample query as a function of the product id. */
  function SamplesFor(st: Store, scores: Scores): string -> seq<ReviewSample> {
    (productId: string) => SampleReviewsFor(st, scores, productId)
  }

  /** The loop of the review stage, for any per-product query `samples`: row
      `i` receives the samples of its own product and nothing else changes. */
  method AttachEach(rows: array<ProductRow>, samples: string -> seq<ReviewSample>)
    modifies rows
    ensures forall k :: 0 <= k < rows.Length ==>
      rows[k] == old(rows[k]).(sample_matching_reviews := Some(samples(old(rows[k]).listing.product_id)))
  {
    var i := 0;
    while i < rows.Length
      invariant 0 <= i <= rows.Length
      invariant forall k :: 0 <= k < i ==>
        rows[k] == old(rows[k]).(sample_matching_reviews := Some(samples(old(rows[k]).listing.product_id)))
      invariant forall k :: i <= k < rows.Length ==> rows[k] == old(rows[k])
    {
      var product := rows[i];
      rows[i] := product.(sample_matching_reviews := Some(samples(product.listing.product_id)));
      i := i + 1;
    }
  }

  /** The loop of the review stage with the sample query: the rows become
      `AttachSamples` of the old rows. */
  method AttachSamplesInPlace(st: Store, scores: Scores, rows: array<ProductRow>)
    modifies rows
    ensures rows[..] == AttachSamples(st, scores, old(rows[..]))
  {
    AttachEach(rows, SamplesFor(st, scores));
    assert forall k :: 0 <= k < rows.Length ==> rows[..][k] == AttachSamples(st, scores, old(rows[..]))[k];
  }

  function ReviewRow(rows: seq<Listing>, l: Listing): ProductRow {
    ProductRow(l, Some(multiset(rows)[l]), "vector_review_similarity", None)
  }

  /** `findByVectorReviewSimilarity`. */
  function VectorReviewStage(st: Store, scores: Scores, clause: CategoryClause, params: Params): StageResult {
    if ReviewMatch in st.failing || !StageAccepted(VectorParams, clause, params) then NoMatch
    else
      var rows := StageJoinRows(st, scores, clause, params);
      var groups := RankedReviewGroups(st, scores, clause, params);
      if |groups| == 0 then NoMatch
      else if SampleReviews in st.failing then NoMatch
      else
        var found := AttachSamples(st, scores, Map(groups, (l: Listing) => ReviewRow(rows, l)));
        Match(Payload("vector_review_similarity", Some(params.example_review), None, |found|, found))
  }

  /** What a successful review stage reports: the ranked groups in order,
      each with its matching-review count and the samples of its product, echoing
      the user's text.  A failing query, a refused `@category` binding or
      an empty result is `NoMatch`. */
  lemma VectorReviewStageResult(st: Store, scores: Scores, clause: CategoryClause, params: Params)
    ensures var res := VectorReviewStage(st, scores, clause, params);
      var rows := StageJoinRows(st, scores, clause, params);
      var groups := RankedReviewGroups(st, scores, clause, params);
      && (res.NoMatch? <==>
            || ReviewMatch in st.failing
            || !(clause.CategoryJoin? <==> Truthy(params.category))
            || params.limit <= 0 || rows == []
            || SampleReviews in st.failing)
      && (res.Match? ==>
            && res.payload.search_method == "vector_review_similarity"
            && res.payload.user_requirements == Some(params.example_review)
            && res.payload.note == None
            && res.payload.matches_found == |res.payload.products| == |groups|
            && 1 <= |groups| <= params.limit
            && forall i :: 0 <= i < |groups| ==>
                 var row := res.payload.products[i];
                 && row.listing == groups[i]
                 && row.matching_reviews_count == Some(multiset(rows)[groups[i]])
                 && row.matching_reviews_count.value >= 1
                 && row.search_method == "vector_review_similarity"
                 && row.sample_matching_reviews == Some(SampleReviewsFor(st, scores, groups[i].product_id))
                 && |row.sample_matching_reviews.value| <= 3)
  {
    RankedReviewGroupsProperties(st, scores, clause, params);
    StageAcceptedIff(VectorParams, clause, params);
    var res := VectorReviewStage(st, scores, clause, params);
    if res.Match? {
      var rows := StageJoinRows(st, scores, clause, params);
      var groups := RankedReviewGroups(st, scores, clause, params);
      var counted := Map(groups, (l: Listing) => ReviewRow(rows, l));
      assert res.payload.products == AttachSamples(st, scores, counted);
    }
  }

  // ---------------------------------------------------------------------
  // Vector search over products

  /** `SEARCH ... < 0.3  FILTER product.average_rating >= @min_rating`. */
  predicate EligibleProduct(scores: Scores, minRating: int, p: Product) {
    scores.productSimilarity(p) < VectorThreshold && p.average_rating >= minRating as real
  }

  /** The rows reaching `SORT`: each eligible product, once per matching
      category when the clause is present. */
  function ProductCandidates(st: Store, scores: Scores, clause: CategoryClause, params: Params): seq<Product> {
    var eligible := Filter(st.products, (p: Product) => EligibleProduct(scores, params.min_rating, p));
    ApplyClause(st, eligible, clause, CategoryArg(params))
  }

  /** `... <clause>  SORT ... ASC  LIMIT @limit`. */
  function ProductMatches(st: Store, scores: Scores, clause: CategoryClause, params: Params): seq<Product> {
    TopBy(ProductCandidates(st, scores, clause, params), ProductScoreAsc(scores), params.limit)
  }

  /** A product of the store that is eligible and passes the clause. */
  predicate ProductQualifies(st: Store, scores: Scores, clause: CategoryClause, params: Params, p: Product) {
    p in st.products && EligibleProduct(scores, params.min_rating, p) && PassesClause(st, p, clause, CategoryArg(params))
  }

  /** A product reaches `SORT` exactly when it qualifies. */
  lemma ProductCandidatesMember(st: Store, scores: Scores, clause: CategoryClause, params: Params)
    ensures forall p :: p in ProductCandidates(st, scores, clause, params) <==> ProductQualifies(st, scores, clause, params, p)
  {
    var eligible := Filter(st.products, (p: Product) => EligibleProduct(scores, params.min_rating, p));
    forall p ensures p in ProductCandidates(st, scores, clause, params) <==> ProductQualifies(st, scores, clause, params, p) {
      ApplyClauseMember(st, eligible, clause, CategoryArg(params), p);
    }
  }

  /** Every match qualifies; `limit` rows, or all when fewer reach `SORT`,
      lowest score first, and no qualifying product left out scores lower
      than one kept; there are none exactly when `limit` is not positive or
      no product qualifies. */
  lemma ProductMatchesRanked(st: Store, scores: Scores, clause: CategoryClause, params: Params)
    ensures var m := ProductMatches(st, scores, clause, params);
      && |m| == LimitCount(params.limit, |ProductCandidates(st, scores, clause, params)|)
      && (m == [] <==> params.limit <= 0 || forall p :: !ProductQualifies(st, scores, clause, params, p))
      && (forall p :: p in m ==> ProductQualifies(st, scores, clause, params, p))
      && SortedBy(m, ProductScoreAsc(scores))
      && (forall p, p' :: p in m && p' !in m && ProductQualifies(st, scores, clause, params, p')
            ==> scores.productSimilarity(p) <= scores.productSimilarity(p'))
  {
    var rows := ProductCandidates(st, scores, clause, params);
    var m := ProductMatches(st, scores, clause, params);
    var le := ProductScoreAsc(scores);
    ProductScorePreorder(scores);
    TopBySelects(rows, le, params.limit);
    ProductCandidatesMember(st, scores, clause, params);
    assert m == [] <==> params.limit <= 0 || forall p :: !ProductQualifies(st, scores, clause, params, p) by {
      EmptyIffNoMember(rows);
    }
    forall p, p' | p in m && p' !in m && ProductQualifies(st, scores, clause, params, p')
      ensures scores.productSimilarity(p) <= scores.productSimilarity(p')
    {
      assert le(p, p');
    }
  }

  /** The ranked matches, and none more often than it reaches `SORT` (a
      product once per matching category with the clause). */
  lemma ProductMatchesProperties(st: Store, scores: Scores, clause: CategoryClause, params: Params)
    ensures var m := ProductMatches(st, scores, clause, params);
      && |m| == LimitCount(params.limit, |ProductCandidates(st, scores, clause, params)|)
      && multiset(m) <= multiset(ProductCandidates(st, scores, clause, params))
      && (m == [] <==> params.limit <= 0 || forall p :: !ProductQualifies(st, scores, clause, params, p))
      && (forall p :: p in m ==> ProductQualifies(st, scores, clause, params, p))
      && SortedBy(m, ProductScoreAsc(scores))
      && (forall p, p' :: p in m && p' !in m && ProductQualifies(st, scores, clause, params, p')
            ==> scores.productSimilarity(p) <= scores.productSimilarity(p'))
  {
    ProductMatchesRanked(st, scores, clause, params);
    ProductScorePreorder(scores);
    TopByWithin(ProductCandidates(st, scores, clause, params), ProductScoreAsc(scores), params.limit);
  }

  /** A sequence is empty exactly when nothing is in it. */
  lemma EmptyIffNoMember<T>(s: seq<T>)
    ensures s == [] <==> forall x :: x !in s
  {
    if s != [] {
      assert s[0] in s;
    }
  }

  function PlainRow(p: Product, searchMethod: string): ProductRow {
    ProductRow(ListingOf(p), None, searchMethod, None)
  }

  /** `findByVectorProductSimilarity`.  Its payload echoes
      `params.product_description`, a field the callers never set, so
      `user_requirements` is always absent. */
  function VectorProductStage(st: Store, scores: Scores, clause: CategoryClause, params: Params): StageResult {
    if ProductMatch in st.failing || !StageAccepted(VectorParams, clause, params) then NoMatch
    else
      var m := ProductMatches(st, scores, clause, params);
      if |m| == 0 then NoMatch
      else
        var found := Map(m, (p: Product) => PlainRow(p, "vector_product_similarity"));
        Match(Payload("vector_product_similarity", None, None, |found|, found))
  }

  /** The stage finds nothing exactly when its query fails, the
      `@category` binding is refused, `limit` is not positive or no product
      qualifies; otherwise it lists the matches in order. */
  lemma VectorProductStageResult(st: Store, scores: Scores, clause: CategoryClause, params: Params)
    ensures var res := VectorProductStage(st, scores, clause, params);
      var m := ProductMatches(st, scores, clause, params);
      && (res.NoMatch? <==>
            || ProductMatch in st.failing
            || !(clause.CategoryJoin? <==> Truthy(params.category))
            || params.limit <= 0
            || forall p :: !ProductQualifies(st, scores, clause, params, p))
      && (res.Match? ==>
            && res.payload.search_method == "vector_product_similarity"
            && res.payload.user_requirements == None
            && res.payload.note == None
            && res.payload.matches_found == |res.payload.products| == |m|
            && 1 <= |m| <= params.limit
            && forall i :: 0 <= i < |m| ==>
                 && res.payload.products[i].listing == ListingOf(m[i])
                 && res.payload.products[i].listing.average_rating >= params.min_rating as real
                 && res.payload.products[i].search_method == "vector_product_similarity")
  {
    ProductMatchesRanked(st, scores, clause, params);
    StageAcceptedIff(VectorParams, clause, params);
    var m := ProductMatches(st, scores, clause, params);
    assert forall i :: 0 <= i < |m| ==> m[i] in m;
  }

  // ---------------------------------------------------------------------
  // Best-rated fallback

  /** A product the fallback query may list: rated at least `min_rating`
      and, with a category, passing the clause, without one, holding at
      least 10 ratings. */
  predicate BestRatedEligible(st: Store, filter: CategoryFilter, params: Params, p: Product) {
    && p.average_rating >= params.min_rating as real
    && (filter.hasCategory ==> PassesClause(st, p, filter.filter, CategoryArg(params)))
    && (!filter.hasCategory ==> p.rating_count >= 10)
  }

  /** The rows reaching `SORT`: with a category, the rating floor and the
      clause (a product once per matching category); without one, the
      rating floor and at least 10 ratings. */
  function BestRatedCandidates(st: Store, filter: CategoryFilter, params: Params): seq<Product> {
    if filter.hasCategory then
      ApplyClause(st, Filter(st.products, (p: Product) => p.average_rating >= params.min_rating as real),
                  filter.filter, CategoryArg(params))
    else
      Filter(st.products, (p: Product) => p.average_rating >= params.min_rating as real && p.rating_count >= 10)
  }

  /** Both fallback queries sort by rating and then rating count, descending. */
  function BestRatedMatches(st: Store, filter: CategoryFilter, params: Params): seq<Product> {
    TopBy(BestRatedCandidates(st, filter, params), RatingThenCountDesc(), params.limit)
  }

  lemma BestRatedCandidatesMember(st: Store, filter: CategoryFilter, params: Params, p: Product)
    ensures p in BestRatedCandidates(st, filter, params) <==> p in st.products && BestRatedEligible(st, filter, params, p)
  {
    if filter.hasCategory {
      var rated := Filter(st.products, (p: Product) => p.average_rating >= params.min_rating as real);
      ApplyClauseMember(st, rated, filter.filter, CategoryArg(params), p);
    }
  }

  /** The best-rated `limit` eligible rows (all of them when fewer), from
      the best average rating down, ties broken by rating count, and no
      eligible product left out outranks one kept; there are none exactly
      when `limit` is not positive or no product is eligible. */
  lemma BestRatedMatchesRanked(st: Store, filter: CategoryFilter, params: Params)
    ensures var m := BestRatedMatches(st, filter, params);
      && |m| == LimitCount(params.limit, |BestRatedCandidates(st, filter, params)|)
      && (m == [] <==>
            params.limit <= 0 || forall p :: p in st.products ==> !BestRatedEligible(st, filter, params, p))
      && (forall p :: p in m ==> p in st.products && BestRatedEligible(st, filter, params, p))
      && SortedBy(m, RatingThenCountDesc())
      && (forall q, p :: q in m && p in st.products && p !in m && BestRatedEligible(st, filter, params, p)
            ==> RatingThenCountDesc()(q, p))
  {
    var rows := BestRatedCandidates(st, filter, params);
    RatingThenCountPreorder();
    TopBySelects(rows, RatingThenCountDesc(), params.limit);
    forall p ensures p in rows <==> p in st.products && BestRatedEligible(st, filter, params, p) {
      BestRatedCandidatesMember(st, filter, params, p);
    }
    EmptyIffNoMember(rows);
  }

  /** The ranked rows, and none more often than it reaches `SORT`. */
  lemma BestRatedMatchesProperties(st: Store, filter: CategoryFilter, params: Params)
    ensures var m := BestRatedMatches(st, filter, params);
      && |m| == LimitCount(params.limit, |BestRatedCandidates(st, filter, params)|)
      && multiset(m) <= multiset(BestRatedCandidates(st, filter, params))
      && (m == [] <==>
            params.limit <= 0 || forall p :: p in st.products ==> !BestRatedEligible(st, filter, params, p))
      && (forall p :: p in m ==> p in st.products && BestRatedEligible(st, filter, params, p))
      && SortedBy(m, RatingThenCountDesc())
      && (forall q, p :: q in m && p in st.products && p !in m && BestRatedEligible(st, filter, params, p)
            ==> RatingThenCountDesc()(q, p))
  {
    BestRatedMatchesRanked(st, filter, params);
    RatingThenCountPreorder();
    TopByWithin(BestRatedCandidates(st, filter, params), RatingThenCountDesc(), params.limit);
  }

  const FallbackNote := "No direct matches found, showing best rated products instead"

  /** What the fallback text declares: `@category` only in the category
      query, and there only through the clause. */
  function FallbackClause(filter: CategoryFilter): CategoryClause {
    if filter.hasCategory then filter.filter else NoClause
  }

  /** `findBestRatedProducts`. */
  function BestRatedStage(st: Store, filter: CategoryFilter, params: Params): StageResult {
    if BestRatedFallback in st.failing || !StageAccepted(FallbackParams, FallbackClause(filter), params) then NoMatch
    else
      var m := BestRatedMatches(st, filter, params);
      if |m| == 0 then NoMatch
      else
        var tag := if filter.hasCategory then "fallback_category_best" else "fallback_overall_best";
        var found := Map(m, (p: Product) => PlainRow(p, tag));
        Match(Payload("fallback_best_rated", Some(params.example_review), Some(FallbackNote), |found|, found))
  }

  /** Without a category every fallback row has at least 10 ratings and is
      tagged `fallback_overall_best`; with one, rows pass the clause and are
      tagged `fallback_category_best`; the payload carries the note.  The
      stage finds nothing exactly when its query fails, the `@category`
      binding is refused or no row is selected. */
  lemma BestRatedStageResult(st: Store, filter: CategoryFilter, params: Params)
    ensures var res := BestRatedStage(st, filter, params);
      var m := BestRatedMatches(st, filter, params);
      && (res.NoMatch? <==>
            || BestRatedFallback in st.failing
            || !(FallbackClause(filter).CategoryJoin? <==> Truthy(params.category))
            || m == [])
      && (res.Match? ==>
            && res.payload.search_method == "fallback_best_rated"
            && res.payload.user_requirements == Some(params.example_review)
            && res.payload.note == Some(FallbackNote)
            && res.payload.matches_found == |res.payload.products| == |m|
            && 1 <= |m| <= params.limit
            && forall i :: 0 <= i < |m| ==>
                 var row := res.payload.products[i];
                 && row.listing == ListingOf(m[i])
                 && row.listing.average_rating >= params.min_rating as real
                 && (!filter.hasCategory ==>
                       row.listing.rating_count >= 10 && row.search_method == "fallback_overall_best")
                 && (filter.hasCategory ==> row.search_method == "fallback_category_best"))
  {
    BestRatedMatchesRanked(st, filter, params);
    StageAcceptedIff(FallbackParams, FallbackClause(filter), params);
    var m := BestRatedMatches(st, filter, params);
    assert forall i :: 0 <= i < |m| ==> m[i] in m;
  }
}
