/** The tool implementations the agent calls with a JSON argument string:
    popular and best-rated listings and the keyword-scored description
    search.  Parsing the argument text is not modelled; an argument that is
    not valid JSON arrives as `None`. */
module GraphTools {
  import opened Common
  import opened Catalog
  import opened Stages
  import opened Queries

  const PopularHint := "Make sure to provide a valid JSON with optional 'category' and 'limit' fields"
  const BestRatedHint := "Make sure to provide a valid JSON with optional 'category', 'limit', and 'min_reviews' fields"

  /** `category && category.trim() !== ""`. */
  predicate SelectsCategory(category: Option<string>) {
    category.Some? && category.value != "" && Trim(category.value) != ""
  }

  /** A blank category selects the overall query, and only a category with a
      non-space character selects the category query. */
  lemma SelectsCategoryIffNonBlank(category: Option<string>)
    ensures SelectsCategory(category) <==>
      category.Some? && exists i :: 0 <= i < |category.value| && !IsJsSpace(category.value[i])
  {
    if category.Some? {
      TrimEmptyIffAllSpace(category.value, IsJsSpace);
    }
  }

  /** The popular-products tool. */
  function PopularTool(st: Store, args: Option<PopularInput>): (r: Result<Listed>)
    ensures args.None? || ToolPopular in st.failing <==> r.Err?
    ensures r.Err? ==> r.err == ToolError("Failed to retrieve popular products", Some(PopularHint))
  {
    match args
    case None => Err(ToolError("Failed to retrieve popular products", Some(PopularHint)))
    case Some(input) =>
      if ToolPopular in st.failing then Err(ToolError("Failed to retrieve popular products", Some(PopularHint)))
      else
        var rows := PopularQuery(st, if SelectsCategory(input.category) then input.category else None,
                                 ParamOrDefault(input.limit, 10));
        Ok(Listed(if Truthy(input.category) then input.category.value else "All categories", None, |rows|, rows))
  }

  /** The listing holds `limit` rows (10 by default), or every candidate
      when there are fewer, most rated first, with no candidate left out
      rated more often than a row listed; it is a category listing only when
      the category has a non-space character, and a blank category is still
      echoed as given. */
  lemma PopularToolProperties(st: Store, input: PopularInput)
    requires ToolPopular !in st.failing
    ensures var r := PopularTool(st, Some(input));
      var limit := ParamOrDefault(input.limit, 10);
      var category := if SelectsCategory(input.category) then input.category else None;
      && r.Ok?
      && r.value.count == |r.value.products|
      && PopularListing(st, category, limit, r.value.products)
      && (input.limit == None ==> limit == 10)
      && (!SelectsCategory(input.category) ==> r.value.products == PopularQuery(st, None, limit))
      && r.value.category == (if Truthy(input.category) then input.category.value else "All categories")
  {
    PopularQueryProperties(st, if SelectsCategory(input.category) then input.category else None,
                           ParamOrDefault(input.limit, 10));
  }

  /** The best-rated tool; `min_reviews` is echoed as given (default 5). */
  function BestRatedTool(st: Store, args: Option<BestRatedInput>): (r: Result<Listed>)
    ensures args.None? || ToolBestRated in st.failing <==> r.Err?
    ensures r.Err? ==> r.err == ToolError("Failed to retrieve best rated products", Some(BestRatedHint))
  {
    match args
    case None => Err(ToolError("Failed to retrieve best rated products", Some(BestRatedHint)))
    case Some(input) =>
      if ToolBestRated in st.failing then Err(ToolError("Failed to retrieve best rated products", Some(BestRatedHint)))
      else
        var minReviews := if input.min_reviews.Some? then input.min_reviews.value else 5.0;
        var rows := BestRatedQuery(st, if SelectsCategory(input.category) then input.category else None,
                                   ParamOrDefault(Some(minReviews), 5), ParamOrDefault(input.limit, 10));
        Ok(Listed(if Truthy(input.category) then input.category.value else "All categories",
                  Some(minReviews), |rows|, rows))
  }

  /** Every listed product has at least `min_reviews` ratings (5 by
      default); the listing holds `limit` rows (10 by default), or every
      candidate when there are fewer, from the best average rating down with
      ties broken by rating count, and no candidate left out ranks above a
      row listed. */
  lemma BestRatedToolProperties(st: Store, input: BestRatedInput)
    requires ToolBestRated !in st.failing
    ensures var r := BestRatedTool(st, Some(input));
      var minReviews := ParamOrDefault(Some(if input.min_reviews.Some? then input.min_reviews.value else 5.0), 5);
      var limit := ParamOrDefault(input.limit, 10);
      var category := if SelectsCategory(input.category) then input.category else None;
      && r.Ok?
      && (input.min_reviews == None ==> minReviews == 5 && r.value.min_reviews == Some(5.0))
      && (input.limit == None ==> limit == 10)
      && r.value.count == |r.value.products|
      && BestRatedListing(st, category, minReviews, limit, r.value.products)
      && r.value.category == (if Truthy(input.category) then input.category.value else "All categories")
  {
    var minReviews := if input.min_reviews.Some? then input.min_reviews.value else 5.0;
    BestRatedQueryProperties(st, if SelectsCategory(input.category) then input.category else None,
                             ParamOrDefault(Some(minReviews), 5), ParamOrDefault(input.limit, 10));
    if input.min_reviews == None {
      assert TruncToInt(5.0) == 5;
    }
  }

  /** The server module and the tool choose the category query alike except
      for a blank category, which the module still treats as a category. */
  lemma BlankCategoryDiffers(st: Store, category: string, limit: Option<real>)
    requires category != "" && forall i :: 0 <= i < |category| ==> IsJsSpace(category[i])
    requires Popular !in st.failing && ToolPopular !in st.failing
    ensures GetPopularProducts(st, PopularInput(Some(category), limit)).value.products
         == PopularQuery(st, Some(category), ParamOrDefault(limit, 10))
    ensures PopularTool(st, Some(PopularInput(Some(category), limit))).value.products
         == PopularQuery(st, None, ParamOrDefault(limit, 10))
  {
    SelectsCategoryIffNonBlank(Some(category));
  }

  // ---------------------------------------------------------------------
  // Keyword-scored description search

  /** `CONTAINS(LOWER(field), LOWER(@description)) ? weight : 0`. */
  function FieldScore(field: string, description: string, weight: int): int {
    if Contains(Lower(field), Lower(description)) then weight else 0
  }

  /** `total_score`: 3 for the title, 2 for the description, 2 for the
      features. */
  function MatchScore(p: Product, description: string): (s: int)
    ensures s == 0 || s == 2 || s == 3 || s == 4 || s == 5 || s == 7
    ensures s > 0 <==>
      Contains(Lower(p.title), Lower(description)) || Contains(Lower(p.description), Lower(description))
      || Contains(Lower(p.features_text), Lower(description))
    ensures s % 2 == 1 <==> Contains(Lower(p.title), Lower(description))
  {
    FieldScore(p.title, description, 3) + FieldScore(p.description, description, 2)
    + FieldScore(p.features_text, description, 2)
  }

  /** `SORT total_score DESC, product.average_rating DESC`. */
  function ScoreThenRatingDesc(description: string): (Product, Product) -> bool {
    (a: Product, b: Product) =>
      MatchScore(a, description) > MatchScore(b, description)
      || (MatchScore(a, description) == MatchScore(b, description) && a.average_rating >= b.average_rating)
  }

  /** The products that mention the description (`FILTER total_score > 0`). */
  function Hits(st: Store, description: string): seq<Product> {
    Filter(st.products, (p: Product) => MatchScore(p, description) > 0)
  }

  function KeywordMatches(st: Store, description: string): seq<Product> {
    TopBy(Hits(st, description), ScoreThenRatingDesc(description), 5)
  }

  /** A row of the keyword search: the listing and its score. */
  function KeywordRow(description: string, p: Product): ScoredProduct {
    ScoredProduct(ListingOf(p), MatchScore(p, description) as real)
  }

  function KeywordScored(description: string): Product -> ScoredProduct {
    (p: Product) => KeywordRow(description, p)
  }

  /** `findProductByDescription` of the tool implementation. */
  function DescriptionTool(st: Store, description: string): Result<DescriptionAnswer> {
    if description == "" then Err(ToolError(DescriptionRequired, None))
    else if DescriptionScore in st.failing then Err(ToolError(DescriptionFailed, None))
    else
      var m := KeywordMatches(st, description);
      Ok(DescriptionAnswerOf(Map(m, KeywordScored(description)), None))
  }

  lemma ScoreOrderIsPreorder(description: string)
    ensures TotalPreorder(ScoreThenRatingDesc(description))
  {
  }

  /** Five products, or every product with a positive score when there are
      fewer, none more often than it occurs in the store, all with a
      positive score, best first, and no product with a positive score left
      out outscores one kept. */
  lemma KeywordMatchesProperties(st: Store, description: string)
    ensures var m := KeywordMatches(st, description);
      && |m| == LimitCount(5, |Hits(st, description)|)
      && multiset(m) <= multiset(Hits(st, description))
      && (forall p :: p in m ==> p in st.products && MatchScore(p, description) > 0)
      && SortedBy(m, ScoreThenRatingDesc(description))
      && (forall p, p' :: p in m && p' in st.products && p' !in m && MatchScore(p', description) > 0
            ==> MatchScore(p, description) >= MatchScore(p', description))
  {
    var hits := Hits(st, description);
    var le := ScoreThenRatingDesc(description);
    var m := KeywordMatches(st, description);
    ScoreOrderIsPreorder(description);
    TopBySelects(hits, le, 5);
    TopByWithin(hits, le, 5);
    forall p, p' | p in m && p' in st.products && p' !in m && MatchScore(p', description) > 0
      ensures MatchScore(p, description) >= MatchScore(p', description)
    {
      assert p' in hits;
      assert le(p, p');
    }
  }

  /** What the keyword search answers with: five rows, or one per product
      mentioning the description when there are fewer, none more often
      than its product occurs, every score positive, the best score first,
      and no product mentioning the description left out outscores a row
      listed. */
  predicate KeywordRows(st: Store, description: string, rows: seq<ScoredProduct>) {
    var hits := Hits(st, description);
    && |rows| == LimitCount(5, |hits|)
    && multiset(rows) <= multiset(Map(hits, KeywordScored(description)))
    && (forall m :: m in rows ==> m.score > 0.0)
    && (forall i, j :: 0 <= i < j < |rows| ==> rows[i].score >= rows[j].score)
    && (forall p, m ::
          (p in st.products && MatchScore(p, description) > 0 && KeywordRow(description, p) !in rows && m in rows)
          ==> m.score >= MatchScore(p, description) as real)
  }

  lemma KeywordRowsProperties(st: Store, description: string)
    ensures KeywordRows(st, description, Map(KeywordMatches(st, description), KeywordScored(description)))
  {
    var hits := Hits(st, description);
    var le := ScoreThenRatingDesc(description);
    var f := KeywordScored(description);
    var top := KeywordMatches(st, description);
    var rows := Map(top, f);
    ScoreOrderIsPreorder(description);
    TopBySelects(hits, le, 5);
    TopByMapped(hits, le, 5, f);
    MapHas(top, f);
    forall m | m in rows ensures m.score > 0.0 {
      var i :| 0 <= i < |rows| && rows[i] == m;
      assert top[i] in top;
    }
    forall i, j | 0 <= i < j < |rows| ensures rows[i].score >= rows[j].score {
      assert le(top[i], top[j]);
    }
    forall p, m | p in st.products && MatchScore(p, description) > 0 && KeywordRow(description, p) !in rows && m in rows
      ensures m.score >= MatchScore(p, description) as real
    {
      var i :| 0 <= i < |rows| && rows[i] == m;
      assert p in hits && p !in top;
      assert le(top[i], p);
    }
  }

  /** The search comes back empty exactly when no product mentions the
      description in its title, description or features. */
  lemma KeywordMatchesEmpty(st: Store, description: string)
    ensures KeywordMatches(st, description) == [] <==>
      forall p :: p in st.products ==> MatchScore(p, description) == 0
  {
    var hits := Hits(st, description);
    ScoreOrderIsPreorder(description);
    TopByProperties(hits, ScoreThenRatingDesc(description), 5);
    if hits != [] {
      assert hits[0] in hits;
    }
  }

  /** An empty description is rejected; otherwise the answer is the empty
      answer exactly when no product mentions the description, and else its
      best match followed by the other matches are the keyword rows. */
  lemma DescriptionToolProperties(st: Store, description: string)
    requires DescriptionScore !in st.failing
    ensures var r := DescriptionTool(st, description);
      var m := KeywordMatches(st, description);
      && (description == "" ==> r == Err(ToolError(DescriptionRequired, None)))
      && (description != "" ==>
            && r.Ok?
            && (r.value.NoMatches? <==> forall p :: p in st.products ==> MatchScore(p, description) == 0)
            && (r.value.Matches? ==>
                  && r.value.matches_found == |m| <= 5
                  && r.value.search_method == None
                  && r.value.best_match.listing == ListingOf(m[0])
                  && r.value.best_match.score == MatchScore(m[0], description) as real
                  && MatchScore(m[0], description) > 0
                  && KeywordRows(st, description, [r.value.best_match] + r.value.other_matches)))
  {
    KeywordRowsProperties(st, description);
    KeywordMatchesEmpty(st, description);
    var m := KeywordMatches(st, description);
    if m != [] {
      assert m[0] in m;
    }
  }
}
