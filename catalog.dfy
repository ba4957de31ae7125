/** The graph the server queries: products, reviews and categories joined by
    `BelongsToCategory` edges.  A query is read as a function of this data.
    Whether the database rejects a query for a reason outside its text and
    bind values (a malformed `SEARCH`, a dropped connection) is given as the
    set `failing` of queries that throw; a rejection caused by the bind
    values the server sends is derived from them (`BindsAccepted`). */
module Catalog {
  import opened Common

  /** A document of the `Products` collection; `id` is its `_id`
      (`Products/<key>`). */
  datatype Product = Product(
    id: string,
    key: string,
    parent_asin: string,
    title: string,
    description: string,
    features_text: string,
    price: real,
    average_rating: real,
    rating_count: int,
    store: string,
    images: seq<string>)

  /** A document of the `Reviews` collection. */
  datatype Review = Review(
    asin: string,
    parent_asin: string,
    rating: real,
    title: string,
    text: string,
    helpful_votes: int,
    verified_purchase: bool)

  /** A document of the `Categories` collection. */
  datatype Category = Category(id: string, name: string, level: int)

  /** A `BelongsToCategory` edge from a product `_id` to a category `_id`. */
  datatype Edge = Edge(from: string, to: string)

  /** The queries the server sends, named by where they are issued. */
  datatype Query =
    | ReviewMatch        // vector review stage, main query
    | SampleReviews      // vector review stage, sample reviews per product
    | ProductMatch       // vector product stage
    | BestRatedFallback  // best-rated fallback stage
    | NameMatch          // findProductByName, title search
    | NameReviews        // findProductByName, reviews of the best match
    | Popular            // getPopularProducts
    | BestRated          // getBestRatedProducts
    | DescriptionVector  // findProductByDescription (arango-queries)
    | DescriptionScore   // findProductByDescription (tool implementation)
    | SummaryProduct     // getProductReviewsSummary, product lookup
    | SummaryReviews     // getProductReviewsSummary, top reviews
    | SummaryRatings     // getProductReviewsSummary, rating distribution
    | ToolPopular        // getPopularProducts (tool implementation)
    | ToolBestRated      // getBestRatedProducts (tool implementation)
    | NetworkPopular     // analyze_product_network, popularity listing

  datatype Store = Store(
    products: seq<Product>,
    reviews: seq<Review>,
    categories: seq<Category>,
    belongsTo: seq<Edge>,
    failing: set<Query>)

  /** Whether ArangoDB runs a query whose text declares the bind parameters
      `declared` when it is sent values for `bound`: it refuses a value for
      a parameter the text does not use (error 1552) and a parameter the
      text uses without a value (error 1551).  An `undefined` entry of the
      bind object is dropped before it is sent. */
  predicate BindsAccepted(declared: set<string>, bound: set<string>) {
    declared == bound
  }

  /** The parameter name an optional bind value contributes. */
  function BoundIf<T>(name: string, value: Option<T>): (r: set<string>)
    ensures name in r <==> value.Some?
    ensures r <= {name}
  {
    if value.Some? then {name} else {}
  }

  /** The similarity values the vector queries compute for one query text:
      `COSINE_SIMILARITY` against a review or a product embedding and
      `VECTOR_DISTANCE` against a product embedding. */
  datatype Scores = Scores(
    reviewSimilarity: Review -> real,
    productSimilarity: Product -> real,
    productDistance: Product -> real)

  /** The threshold every vector query compares its score with. */
  const VectorThreshold: real := 0.3

  /** The categories a product reaches through `BelongsToCategory`, one entry
      per (edge, category) pair, in edge order:
      `FOR edge IN BelongsToCategory FILTER edge._from == product._id
       FOR cat IN Categories FILTER cat._id == edge._to`. */
  function CategoriesOf(st: Store, p: Product): (r: seq<Category>)
    ensures forall c :: c in r ==> c in st.categories
  {
    var edges := Filter(st.belongsTo, (e: Edge) => e.from == p.id);
    var r := FlatMap(edges, (e: Edge) => Filter(st.categories, (c: Category) => c.id == e.to));
    assert forall c :: c in r ==> c in st.categories by {
      forall c | c in r ensures c in st.categories {
        FlatMapMember(edges, (e: Edge) => Filter(st.categories, (c: Category) => c.id == e.to), c);
      }
    }
    r
  }

  /** `CONTAINS(LOWER(cat.name), LOWER(@category))`. */
  predicate NameMatches(c: Category, category: string) {
    Contains(Lower(c.name), Lower(category))
  }

  /** The categories of `p` whose name contains `category`; the category
      clause emits the product once for each of them. */
  function MatchingCategories(st: Store, p: Product, category: string): (r: seq<Category>)
    ensures forall c :: c in r ==> c in st.categories && NameMatches(c, category)
  {
    Filter(CategoriesOf(st, p), (c: Category) => NameMatches(c, category))
  }

  /** The rows the category clause leaves: each product repeated once per
      matching category, in product order. */
  function ExpandByCategory(st: Store, ps: seq<Product>, category: string): (r: seq<Product>)
    decreases |ps|
  {
    if ps == [] then []
    else
      Repeat(ps[0], |MatchingCategories(st, ps[0], category)|)
      + ExpandByCategory(st, ps[1..], category)
  }

  /** The category clause emits each product once per matching category:
      it survives exactly when one of its categories matches. */
  lemma {:induction false} ExpandByCategoryCount(st: Store, ps: seq<Product>, category: string, p: Product)
    ensures multiset(ExpandByCategory(st, ps, category))[p]
      == multiset(ps)[p] * |MatchingCategories(st, p, category)|
    decreases |ps|
  {
    if ps != [] {
      ExpandByCategoryCount(st, ps[1..], category, p);
      var m := |MatchingCategories(st, ps[0], category)|;
      HeadCount(ps[0], m, p);
      CountStep(st, ps, category, p);
      Distribute(if p == ps[0] then 1 else 0, multiset(ps[1..])[p], |MatchingCategories(st, p, category)|);
    }
  }

  /** How the first product contributes to the counts. */
  lemma CountStep(st: Store, ps: seq<Product>, category: string, p: Product)
    requires ps != []
    ensures multiset(ps)[p] == (if p == ps[0] then 1 else 0) + multiset(ps[1..])[p]
    ensures multiset(ExpandByCategory(st, ps, category))[p]
      == multiset(Repeat(ps[0], |MatchingCategories(st, ps[0], category)|))[p]
         + multiset(ExpandByCategory(st, ps[1..], category))[p]
  {
    assert ps == [ps[0]] + ps[1..];
  }

  lemma Distribute(b: int, t: int, k: int)
    requires b == 0 || b == 1
    ensures (b + t) * k == (if b == 1 then k else 0) + t * k
  {
  }

  /** `n` copies of `x`. */
  function Repeat<T>(x: T, n: nat): (r: seq<T>)
    ensures |r| == n
    decreases n
  {
    if n == 0 then [] else Repeat(x, n - 1) + [x]
  }

  lemma {:induction false} HeadCount<T>(x: T, n: nat, y: T)
    ensures multiset(Repeat(x, n))[y] == if y == x then n else 0
    decreases n
  {
    if n > 0 {
      HeadCount(x, n - 1, y);
    }
  }
}
