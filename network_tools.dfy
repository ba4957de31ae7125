/** The `analyze_product_network` tool: the query text chooses between a
    popularity listing, an analysis of one product's variants and similar
    products, and a summary of the collection sizes.  The database reads are
    given: the popularity listing is a query over the store, the product
    analysis and the collection counts are oracle inputs. */
module NetworkTools {
  import opened Common
  import opened Catalog
  import opened Keys
  import opened Queries

  // ---------------------------------------------------------------------
  // Dispatch

  datatype Branch = PopularBranch | SimilarBranch | StatsBranch

  /** The popularity keywords are checked first, so they win over the
      similarity keywords; both tests look at the lower-cased query. */
  function Dispatch(query: string): Branch {
    var q := Lower(query);
    if Contains(q, "popular") || Contains(q, "best selling") then PopularBranch
    else if Contains(q, "similar") || Contains(q, "related") then SimilarBranch
    else StatsBranch
  }

  /** The branch depends only on the lower-cased query. */
  lemma DispatchIgnoresCase(query: string, other: string)
    requires Lower(query) == Lower(other)
    ensures Dispatch(query) == Dispatch(other)
  {
  }

  // ---------------------------------------------------------------------
  // ASIN extraction: `query.match(/[A-Z0-9]{10}/)`

  predicate IsAsinChar(c: char) { IsAsciiUpper(c) || IsDigit(c) }

  /** Ten characters of `[A-Z0-9]` start at `i`. */
  predicate AsinAt(s: string, i: int) {
    0 <= i && i + 10 <= |s| && forall k :: i <= k < i + 10 ==> IsAsinChar(s[k])
  }

  /** The leftmost position at or after `from` where an ASIN starts. */
  function FirstAsinFrom(s: string, from: nat): (r: Option<nat>)
    ensures r.Some? ==> from <= r.value && AsinAt(s, r.value)
    ensures r.Some? ==> forall j :: from <= j < r.value ==> !AsinAt(s, j)
    ensures r.None? ==> forall j :: from <= j ==> !AsinAt(s, j)
    decreases |s| - from
  {
    if from + 10 > |s| then None
    else if AsinAt(s, from) then Some(from)
    else FirstAsinFrom(s, from + 1)
  }

  /** The matched text, searched case-sensitively in the original query. */
  function FindAsin(query: string): Option<string> {
    match FirstAsinFrom(query, 0)
    case None => None
    case Some(i) => Some(query[i..i + 10])
  }

  /** A match is ten upper-case letters or digits found in the query at the
      leftmost position where such a run starts; no match means there is no
      such run anywhere. */
  lemma FindAsinProperties(query: string)
    ensures FindAsin(query).None? <==> forall j :: 0 <= j ==> !AsinAt(query, j)
    ensures FindAsin(query).Some? ==>
      exists i :: AsinAt(query, i) && FindAsin(query).value == query[i..i + 10]
                 && forall j :: 0 <= j < i ==> !AsinAt(query, j)
    ensures FindAsin(query).Some? ==>
      |FindAsin(query).value| == 10 && forall k :: 0 <= k < 10 ==> IsAsinChar(FindAsin(query).value[k])
  {
    var r := FirstAsinFrom(query, 0);
    if r.Some? {
      var i := r.value;
      assert AsinAt(query, i) && FindAsin(query).value == query[i..i + 10];
    }
  }

  /** The key looked up for a matched ASIN: the ASIN itself, or `a` before
      it when it starts with a digit, the same key the ingestion gives. */
  lemma AsinKey(asin: string)
    requires AsinAt(asin, 0) && |asin| == 10
    ensures SanitizeKey(asin) == (if IsDigit(asin[0]) then "a" + asin else asin)
    ensures SanitizeKey(asin) == PySanitizeKey(asin, false)
  {
    assert forall k :: 0 <= k < |asin| ==> IsKeyChar(asin[k]);
    KeyCharsAreBmp(asin);
    JsReplaceDisallowedBmp(asin);
    assert ReplaceDisallowed(asin) == asin;
    PySanitizeKeyAgrees(asin, false);
  }

  // ---------------------------------------------------------------------
  // Numbered blocks: `items.forEach((x, i) => response += ...)`

  /** The blocks of `xs` in order, the one for `xs[i]` numbered `i + 1`. */
  function Numbered<T>(xs: seq<T>, block: (nat, T) -> string): string
    decreases |xs|
  {
    if xs == [] then "" else Numbered(xs[..|xs| - 1], block) + block(|xs|, xs[|xs| - 1])
  }
  /** One more item adds its block, numbered by its position, at the end. */
  lemma NumberedStep<T>(xs: seq<T>, i: nat, block: (nat, T) -> string)
    requires i < |xs|
    ensures Numbered(xs[..i + 1], block) == Numbered(xs[..i], block) + block(i + 1, xs[i])
  {
    assert xs[..i + 1][..i] == xs[..i];
  }


  function Concat(parts: seq<string>): string
    decreases |parts|
  {
    if parts == [] then "" else parts[0] + Concat(parts[1..])
  }

  lemma {:induction false} ConcatAppend(parts: seq<string>, last: string)
    ensures Concat(parts + [last]) == Concat(parts) + last
    decreases |parts|
  {
    if parts == [] {
      assert [] + [last] == [last];
    } else {
      assert (parts + [last])[1..] == parts[1..] + [last];
      ConcatAppend(parts[1..], last);
    }
  }

  /** The block of each element, `block(i + 1, xs[i])` at index `i`. */
  function Blocks<T>(xs: seq<T>, block: (nat, T) -> string): (r: seq<string>)
    ensures |r| == |xs|
  {
    seq(|xs|, i requires 0 <= i < |xs| => block(i + 1, xs[i]))
  }

  /** One block per element, in the order of `xs`, numbered from 1. */
  lemma {:induction false} NumberedBlocks<T>(xs: seq<T>, block: (nat, T) -> string)
    ensures Numbered(xs, block) == Concat(Blocks(xs, block))
    decreases |xs|
  {
    if xs != [] {
      var n := |xs| - 1;
      NumberedBlocks(xs[..n], block);
      assert Blocks(xs, block) == Blocks(xs[..n], block) + [block(n + 1, xs[n])];
      ConcatAppend(Blocks(xs[..n], block), block(n + 1, xs[n]));
    }
  }

  /** Appends one block per element to `prefix`, the one for `xs[i]`
      numbered `i + 1`. */
  method AppendNumbered<T>(prefix: string, xs: seq<T>, block: (nat, T) -> string) returns (response: string)
    ensures response == prefix + Numbered(xs, block)
    ensures response == prefix + Concat(Blocks(xs, block))
  {
    response := prefix;
    var i := 0;
    while i < |xs|
      invariant 0 <= i <= |xs|
      invariant response == prefix + Numbered(xs[..i], block)
    {
      NumberedStep(xs, i, block);
      response := response + block(i + 1, xs[i]);
      i := i + 1;
    }
    assert xs[..|xs|] == xs;
    NumberedBlocks(xs, block);
  }

  // ---------------------------------------------------------------------
  // Popularity listing

  const PopularHeader := "Most popular products based on number of reviews:\n\n"

  /** `SORT product.rating_count DESC LIMIT 5`. */
  function PopularRows(st: Store): seq<Product> {
    TopBy(st.products, CountDesc(), 5)
  }

  /** Five products of the store, or all of them when there are fewer, none
      more often than it occurs in the store, the most rated first, and none
      left out has more ratings than one listed. */
  lemma PopularRowsProperties(st: Store)
    ensures var r := PopularRows(st);
      && |r| == LimitCount(5, |st.products|)
      && multiset(r) <= multiset(st.products)
      && (forall p :: p in r ==> p in st.products)
      && (forall i, j :: 0 <= i < j < |r| ==> r[i].rating_count >= r[j].rating_count)
      && (forall p, q :: p in r && q in st.products && q !in r ==> p.rating_count >= q.rating_count)
  {
    CountDescPreorder();
    TopBySelects(st.products, CountDesc(), 5);
    TopByWithin(st.products, CountDesc(), 5);
  }

  /** One product's block; `show` renders a JavaScript number. */
  function PopularBlock(show: real -> string): (nat, Product) -> string {
    (n: nat, p: Product) =>
      IntToString(n) + ". " + p.title + "\n"
      + "   Total reviews: " + IntToString(p.rating_count) + "\n"
      + "   Average rating: " + show(p.average_rating) + "/5.0\n\n"
  }

  function PopularText(rows: seq<Product>, show: real -> string): string {
    PopularHeader + Numbered(rows, PopularBlock(show))
  }

  /** Builds the listing by appending one block per row. */
  method RenderPopular(rows: seq<Product>, show: real -> string) returns (response: string)
    ensures response == PopularHeader + Concat(Blocks(rows, PopularBlock(show)))
    ensures response == PopularText(rows, show)
  {
    response := AppendNumbered(PopularHeader, rows, PopularBlock(show));
  }

  // ---------------------------------------------------------------------
  // Product analysis

  /** A returned document, with the attributes the text reads; an absent
      attribute is `None`. */
  datatype Doc = Doc(title: Option<string>, price: Option<real>, key: Option<string>)

  /** The single row of the analysis query; `original` is `None` when
      `DOCUMENT` finds no product under the key. */
  datatype Analysis = Analysis(variants: seq<Doc>, similar: seq<Doc>, original: Option<Doc>)

  /** `x || "Unknown"` for a string attribute. */
  function OrUnknown(s: Option<string>): (r: string)
    ensures r == "Unknown" <==> s.None? || s.value == "" || s.value == "Unknown"
  {
    if s.Some? && s.value != "" then s.value else "Unknown"
  }

  /** `price || 0`: a missing price is shown as the number 0. */
  function PriceOf(d: Doc): real {
    if d.price.Some? then d.price.value else 0.0
  }

  function DocBlock(show: real -> string): (nat, Doc) -> string {
    (n: nat, d: Doc) =>
      IntToString(n) + ". " + OrUnknown(d.title) + "\n"
      + "   Price: $" + show(PriceOf(d)) + "\n"
      + "   ASIN: " + OrUnknown(d.key) + "\n\n"
  }

  const VariantsHeader := "Product variants:\n"
  const SimilarHeader := "Similar products by price and category:\n"

  /** A section appears only when it has at least one document. */
  function Section(header: string, docs: seq<Doc>, show: real -> string): string {
    if |docs| > 0 then header + Numbered(docs, DocBlock(show)) else ""
  }

  function AnalysisText(title: Option<string>, a: Analysis, show: real -> string): string {
    "Analysis for product: " + OrUnknown(title) + "\n\n"
    + Section(VariantsHeader, a.variants, show)
    + Section(SimilarHeader, a.similar, show)
  }

  /** Appends the blocks of `docs` to `prefix`, one per document. */
  method AppendBlocks(prefix: string, docs: seq<Doc>, show: real -> string) returns (response: string)
    ensures response == prefix + Numbered(docs, DocBlock(show))
  {
    response := prefix;
    var i := 0;
    while i < |docs|
      invariant 0 <= i <= |docs|
      invariant response == prefix + Numbered(docs[..i], DocBlock(show))
    {
      NumberedStep(docs, i, DocBlock(show));
      response := response + DocBlock(show)(i + 1, docs[i]);
      i := i + 1;
    }
    assert docs[..|docs|] == docs;
  }

  method RenderAnalysis(title: Option<string>, a: Analysis, show: real -> string) returns (response: string)
    ensures response == AnalysisText(title, a, show)
  {
    var head := "Analysis for product: " + OrUnknown(title) + "\n\n";
    var variants := "";
    if |a.variants| > 0 {
      variants := AppendBlocks(VariantsHeader, a.variants, show);
    }
    var similar := "";
    if |a.similar| > 0 {
      similar := AppendBlocks(SimilarHeader, a.similar, show);
    }
    response := head + variants + similar;
  }

  /** Each section is its header followed by one numbered block per
      document, or nothing when there are none. */
  lemma SectionBlocks(header: string, docs: seq<Doc>, show: real -> string)
    ensures Section(header, docs, show) ==
      if docs == [] then ""
      else header + Concat(Blocks(docs, DocBlock(show)))
  {
    NumberedBlocks(docs, DocBlock(show));
  }

  // ---------------------------------------------------------------------
  // Statistics summary

  /** The rendered results of the three collection counts. */
  datatype Counts = Counts(products: string, reviews: string, users: string)

  const Indent := "                        "

  function StatsText(c: Counts): string {
    "\n"
    + Indent + "Graph Analytics Summary:\n"
    + Indent + "\n"
    + Indent + "- Total Products: " + c.products + "\n"
    + Indent + "- Total Reviews: " + c.reviews + "\n"
    + Indent + "- Total Users: " + c.users + "\n"
    + Indent + "\n"
    + Indent + "To get more specific analytics, try asking about:\n"
    + Indent + "- Popular or best-selling products\n"
    + Indent + "- Similar or related products (with an ASIN)\n"
    + Indent + "- Category trends\n"
    + Indent
  }

  // ---------------------------------------------------------------------
  // The tool

  /** The database as the tool sees it.  `analyze(key)` is the result list
      of the analysis query for that key, `None` when the query throws;
      `counts` is `None` when a count throws. */
  datatype NetworkDb = NetworkDb(
    store: Store,
    analyze: string -> Option<seq<Analysis>>,
    counts: Option<Counts>)

  const NoAsinMessage := "To find similar products, please provide a valid ASIN (10-character Amazon product ID)."
  const Apology := "Sorry, I couldn't analyze the product network at this time due to a technical issue."

  function NotFoundMessage(asin: string): string {
    "Could not find product with ASIN " + asin + "."
  }

  /** The popularity branch: the listing, or the apology when the query
      fails. */
  function PopularReply(db: NetworkDb, show: real -> string): string {
    if NetworkPopular in db.store.failing then Apology
    else PopularText(PopularRows(db.store), show)
  }

  /** The summary branch: the counts, or the apology when a count fails. */
  function StatsReply(db: NetworkDb): string {
    if db.counts.None? then Apology else StatsText(db.counts.value)
  }

  function AnalyzeProductNetwork(db: NetworkDb, query: string, show: real -> string): string {
    match Dispatch(query)
    case PopularBranch => PopularReply(db, show)
    case SimilarBranch =>
      (match FindAsin(query)
       case None => NoAsinMessage
       case Some(asin) =>
         match db.analyze(SanitizeKey(asin))
         case None => Apology
         case Some(results) =>
           if results == [] || results[0].original.None? then NotFoundMessage(asin)
           else AnalysisText(results[0].original.value.title, results[0], show))
    case StatsBranch => StatsReply(db)
  }

  /** The tool as written: dispatch, then the listing or analysis built
      block by block. */
  method AnalyzeProductNetworkRun(db: NetworkDb, query: string, show: real -> string) returns (response: string)
    ensures response == AnalyzeProductNetwork(db, query, show)
  {
    var branch := Dispatch(query);
    if branch == PopularBranch {
      if NetworkPopular in db.store.failing {
        return Apology;
      }
      response := RenderPopular(PopularRows(db.store), show);
    } else if branch == SimilarBranch {
      var asin := FindAsin(query);
      if asin.None? {
        return NoAsinMessage;
      }
      var results := db.analyze(SanitizeKey(asin.value));
      if results.None? {
        return Apology;
      }
      if results.value == [] || results.value[0].original.None? {
        return NotFoundMessage(asin.value);
      }
      response := RenderAnalysis(results.value[0].original.value.title, results.value[0], show);
    } else {
      if db.counts.None? {
        return Apology;
      }
      response := StatsText(db.counts.value);
    }
  }

  /** The branches of the tool: a popularity keyword wins over a similarity
      keyword; a similarity query without an ASIN gets the fixed request for
      one; a query with neither keyword gets the summary; a failed read gets
      the apology. */
  lemma AnalyzeBranches(db: NetworkDb, query: string, show: real -> string)
    ensures var q := Lower(query);
      var r := AnalyzeProductNetwork(db, query, show);
      && ((Contains(q, "popular") || Contains(q, "best selling")) ==> r == PopularReply(db, show))
      && ((!Contains(q, "popular") && !Contains(q, "best selling")
           && (Contains(q, "similar") || Contains(q, "related"))
           && (forall j :: 0 <= j ==> !AsinAt(query, j))) ==> r == NoAsinMessage)
      && ((!Contains(q, "popular") && !Contains(q, "best selling")
           && !Contains(q, "similar") && !Contains(q, "related")) ==> r == StatsReply(db))
  {
    if forall j :: 0 <= j ==> !AsinAt(query, j) {
      assert FirstAsinFrom(query, 0).None?;
    }
  }

  /** A similarity query with an ASIN looks up the sanitized key; when the
      lookup finds no product the reply names the ASIN as it was written. */
  lemma AnalyzeMissingProduct(db: NetworkDb, query: string, show: real -> string)
    requires Dispatch(query) == SimilarBranch
    requires FindAsin(query).Some?
    requires var results := db.analyze(SanitizeKey(FindAsin(query).value));
      results.Some? && (results.value == [] || results.value[0].original.None?)
    ensures AnalyzeProductNetwork(db, query, show) == NotFoundMessage(FindAsin(query).value)
    ensures AnalyzeProductNetwork(db, query, show)[33..43] == FindAsin(query).value
  {
    FindAsinProperties(query);
  }
}
