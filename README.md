# ReView, modelled in Dafny

ReView is a shopping assistant. Two Python notebooks load the Amazon Reviews 2023 data into an ArangoDB graph of products, reviews, users and categories. A TypeScript server answers chat and camera requests by querying that graph. An Expo client shows product cards. This project models the parts that carry the logic and proves what they promise.

- **Graph queries** (`catalog.dfy`, `stages.dfy`, `cascade.dfy`, `queries.dfy`).
  - The AQL queries of the server's query module are read as functions of the stored graph: `FILTER`, `SORT … LIMIT`, `COLLECT … WITH COUNT` and the category join.
  - The stages of `findProductsByUserRequirements` are modelled: vector search on reviews, vector search on products, and the best-rated fallback. So is the cascade that tries them in order and stops at the first match.
  - The other lookups are modelled: popular products, best-rated products, search by name, search by description, and the review summary.
  - A query the database refuses because of the bind values it is sent (a parameter sent but not declared, or declared but not sent) fails by derivation; any other query that throws is given as the set `Store.failing`.
- **Agent tools** (`graph_tools.dfy`, `network_tools.dfy`): the tool implementations of the popular, best-rated and description look-ups, and the network analysis tool, whose text it builds block by block.
- **Product card agent** (`product_card_agent.dfy`):
  - the regular expression that guesses a product name;
  - the look-up and message enrichment;
  - the Google Lens step;
  - the error card.
- **Conversation memory** (`conversation_memory.dfy`): a class whose history field its methods update.
- **Small helpers:**
  - the server's `sanitizeKey` and the notebooks' `sanitize_key` (`keys.dfy`);
  - the Google Lens input classifier (`image_data.dfy`);
  - the Imgur upload (`imgur.dfy`);
  - the client's star rating (`stars.dfy`) and upload form (`product_api.dfy`).
- **Ingestion** (`py_values.dfy`, `notebook_ingest.dfy`, `implementation_ingest.dfy`): the transformations of both notebooks, over a model of Python values.
  - Records are dictionaries kept in insertion order.
  - An exception is modelled as `None`.
  - Dictionaries built with `if k not in d` are first-occurrence maps.
  - One property is worth knowing: the products the exploration notebook prepares can never yield a `VariantOf` edge. Each product's `_key` and its `parent_asin` are both the sanitized `parent_asin`, so the test `parent_asin != _key` always fails (`NotebookIngest.PreparedProductsHaveNoVariants`).

Loops in the source are methods with loop invariants, proved equal to a function that is then characterised by lemmas. Expression-level code is made of functions and lemmas. The sort order of equal rows is left open by the database; it is modelled as a stable insertion sort, and every ordering property is proved for any total preorder.

## Model

| member | source | states |
|---|---|---|
| Keys.ReplaceDisallowed | notebooks/amazon-graphrag-notebook.py:383 | The notebook's replacement keeps the length, leaves only key-alphabet characters, and keeps a character exactly when it is already in the alphabet |
| Keys.SanitizeKey | server/src/services/db/index.ts:28-41 | Only the empty key sanitizes to the empty key; every other key becomes a valid ArangoDB key, as long as the key in UTF-16 code units or one character longer |
| Keys.JsReplaceDisallowed | server/src/services/db/index.ts:33 | The server's replacement leaves only key-alphabet characters, is as long as the key in UTF-16 code units, and starts with the replacement of the first character |
| Keys.JsReplaceDisallowedBmp | server/src/services/db/index.ts:33 | Without characters beyond U+FFFF the server's replacement is the per-character one and the code-unit length is the length |
| Keys.SanitizeKeyPositions | server/src/services/db/index.ts:33-38 | `a` is prepended exactly when the first character is a digit, `_` or outside the alphabet, and the rest is the code-unit replacement of the key; without characters beyond U+FFFF, allowed characters stay in place and each other character becomes exactly one `_` |
| Keys.SanitizeKeyFixpoint | server/src/services/db/index.ts:28-41 | The keys left unchanged are exactly the empty key and the valid keys |
| Keys.SanitizeKeyIdempotent | server/src/services/db/index.ts:28-41 | Sanitizing an already sanitized key changes nothing |
| Keys.ReplaceChar | notebooks/amazon-graphrag-notebook.py:375 | Python's one-character `str.replace` keeps the length and replaces exactly the occurrences of the old character |
| Keys.PySanitizeKey | notebooks/amazon-graphrag-notebook.py:365-389 | The notebook's `sanitize_key` on a string gives the empty key only for the empty string, and a valid key otherwise |
| Keys.PySanitizeKeyAgrees | notebooks/amazon-graphrag-notebook.py:374-386 | The notebook and the server sanitize every string without characters beyond U+FFFF the same way, and `allow_spaces` has no observable effect on any string |
| Keys.AstralKeyDiffers | server/src/services/db/index.ts:33 | A character beyond U+FFFF becomes `a__` on the server and `a_` in the notebook |
| PyValues.GetFinds | notebooks/amazon-graphrag-notebook.py:406 | `dict.get` returns the value of the last field with the key, as `json.loads` keeps a repeated key, and the default when the key is absent |
| PyValues.SanitizeValue | notebooks/amazon-graphrag-notebook.py:365-389 | A falsy value gives the empty key; any truthy value gives a valid key, which is the sanitized `str()` of the value |
| PyValues.SanitizeStringValue | notebooks/amazon-graphrag-notebook.py:365-389 | A string value is sanitized as the notebook's `sanitize_key` of the string, which is the server's `sanitizeKey` when no character lies beyond U+FFFF |
| PyValues.FloatOr0 | notebooks/amazon-graphrag-notebook.py:451-459 | `None` becomes 0, and a convertible value becomes its `float()` |
| PyValues.IntOr0 | notebooks/amazon-graphrag-notebook.py:461-464 | `None` becomes 0, and a convertible value becomes its `int()` |
| PyValues.JoinStrs | notebooks/amazon-graphrag-notebook.py:424 | `' '.join` succeeds exactly when every element is a string; otherwise it raises |
| PyValues.Iterate | notebooks/amazon-graphrag-implementation.py:355 | Iterating a list gives its items; only lists, strings and dicts can be iterated, and anything else raises |
| PyValues.ContainsText | notebooks/amazon-graphrag-implementation.py:356 | `x in d` for a dict tests its keys; only lists, strings and dicts support the test, and anything else raises |
| PyValues.ReplaceSpaces | notebooks/amazon-graphrag-implementation.py:399 | `replace(' ', '_')` keeps the length and turns exactly the spaces into `_` |
| PyValues.FirstOccurrences | notebooks/amazon-graphrag-notebook.py:598-625 | The `if k not in d: d[k] = v` dictionary has distinct keys, holds only pairs of the stream, and has a key exactly when the stream has it |
| PyValues.FirstOccurrenceWins | notebooks/amazon-graphrag-notebook.py:617-625 | Each entry is the earliest pair of the stream with its key, and later pairs never overwrite it |
| PyValues.InsertIfAbsent | notebooks/amazon-graphrag-notebook.py:617-625 | A present key leaves the dictionary unchanged; an absent key is appended with its value |
| PyValues.InsertAllIfAbsent | notebooks/amazon-graphrag-notebook.py:614-625 | Inserting a whole stream pair by pair extends the first-occurrence dictionary of what came before |
| PyValues.Bump | notebooks/amazon-graphrag-notebook.py:583-590 | Counting one key: a new key is appended with count 1, a known key has only its own count raised by one, and the keys keep their order |
| PyValues.BumpInPlace | notebooks/amazon-graphrag-notebook.py:583-590 | The loop body that counts one key performs exactly that counting step |
| PyValues.TallyKeys | notebooks/amazon-graphrag-notebook.py:576-591 | The counting dictionary holds every key once, in order of first occurrence |
| PyValues.TallyCounts | notebooks/amazon-graphrag-notebook.py:576-591 | Each entry's count is the number of occurrences of its key |
| PyValues.TallyFirst | notebooks/amazon-graphrag-notebook.py:576-591 | Each entry keeps the payload of its key's first occurrence |
| PyValues.Tally | notebooks/amazon-graphrag-notebook.py:576-591 | The counting loop gives every key once, in order of first occurrence, with its number of occurrences |
| NotebookIngest.ImageAt | notebooks/amazon-graphrag-notebook.py:445 | An image entry is used exactly when it is a dict holding a truthy URL field, and the URL is that field's value |
| NotebookIngest.AllImagesFrom | notebooks/amazon-graphrag-notebook.py:443-448 | Every image collected is the truthy URL of one of the record's entries |
| NotebookIngest.LimitReached | notebooks/amazon-graphrag-notebook.py:447-448 | Once `limit` images are collected, they are the first `limit` images of all the entries |
| NotebookIngest.CollectImages | notebooks/amazon-graphrag-notebook.py:442-448 | The image loop collects the URL of each usable entry in order and, with a limit, stops after that many; the review loop at 533-537 has no limit |
| NotebookIngest.DescriptionOf | notebooks/amazon-graphrag-notebook.py:420-426 | A description that is not a list becomes its `str()` |
| NotebookIngest.FeaturesOf | notebooks/amazon-graphrag-notebook.py:429-431 | The features kept are all truthy |
| NotebookIngest.MainCategoryOf | notebooks/amazon-graphrag-notebook.py:437-439 | The main category stays truthy exactly when it was truthy, and a truthy one becomes a valid key |
| NotebookIngest.ProductOf | notebooks/amazon-graphrag-notebook.py:403-484 | A record is skipped exactly when its `parent_asin` is falsy and raises exactly when a join fails; a built product uses the sanitized `parent_asin` as both key and parent, keeps the original id, and has at most 3 images, all from the record |
| NotebookIngest.PrepareProduct | notebooks/amazon-graphrag-notebook.py:403-484 | The loop body for one record computes exactly that record's outcome |
| NotebookIngest.PrepareProductsData | notebooks/amazon-graphrag-notebook.py:392-487 | The loop builds the products of the records in order; if no record raises, every record is either built or counted as skipped |
| NotebookIngest.ProductsStep | notebooks/amazon-graphrag-notebook.py:403-417 | One more record adds its product, adds one to the skip count, or raises |
| NotebookIngest.ProductsComeFromItems | notebooks/amazon-graphrag-notebook.py:467-484 | Every product prepared is the one built from some record |
| NotebookIngest.TimestampOf | notebooks/amazon-graphrag-notebook.py:519-526 | The timestamp is 0 when it is missing, falsy or not convertible, and its `int()` otherwise |
| NotebookIngest.ComposedKeyIsValid | notebooks/amazon-graphrag-notebook.py:529-530 | A review key composed of two valid keys and a number is already valid, so sanitizing it changes nothing |
| NotebookIngest.ReviewOfProperties | notebooks/amazon-graphrag-notebook.py:501-570 | A review is built exactly when `asin` and `user_id` are truthy; its key joins the sanitized ASIN, the user and the timestamp, all three keys are valid, and its images come from the record |
| NotebookIngest.PrepareReview | notebooks/amazon-graphrag-notebook.py:501-570 | The loop body for one record computes exactly that record's review |
| NotebookIngest.ReviewsOf | notebooks/amazon-graphrag-notebook.py:498-573 | There are never more reviews than records |
| NotebookIngest.ReviewsComeFromItems | notebooks/amazon-graphrag-notebook.py:498-573 | Every review prepared is the one built from some record |
| NotebookIngest.PrepareReviewsData | notebooks/amazon-graphrag-notebook.py:490-573 | The loop builds the reviews of the records in order; every record is either a review or counted as skipped |
| NotebookIngest.UserPairs | notebooks/amazon-graphrag-notebook.py:580-583 | Only reviews with a non-empty user contribute a user |
| NotebookIngest.ExtractUsers | notebooks/amazon-graphrag-notebook.py:576-591 | One user per distinct non-empty user id, in order of first review, with that user's number of reviews and the original id of its first review |
| NotebookIngest.Levels | notebooks/amazon-graphrag-notebook.py:614-625 | Only truthy names of a hierarchy list are kept, each at its position plus one |
| NotebookIngest.Hierarchy | notebooks/amazon-graphrag-notebook.py:613-625 | Every hierarchy name is truthy and has a level of at least 1 |
| NotebookIngest.ProductCategories | notebooks/amazon-graphrag-notebook.py:600-625 | A product contributes only truthy names, and a product without `categories` contributes only level-0 names |
| NotebookIngest.CategoryEntries | notebooks/amazon-graphrag-notebook.py:598-625 | The category dictionary is the first-occurrence dictionary of the names met, in order |
| NotebookIngest.ExtractCategories | notebooks/amazon-graphrag-notebook.py:594-629 | There is one category per entry of that dictionary, with the sanitized key, the name and the level |
| NotebookIngest.CategoriesProperties | notebooks/amazon-graphrag-notebook.py:598-629 | Category names are distinct; each name met has a category, taken from the first time it was met, with a valid key |
| NotebookIngest.CategoryStreamTruthy | notebooks/amazon-graphrag-notebook.py:602-617 | Only truthy names ever become categories |
| NotebookIngest.MainCategoriesOnly | notebooks/amazon-graphrag-notebook.py:600-610 | Products without `categories` (the shape the product preparation builds) yield only level-0 categories |
| NotebookIngest.VariantEdgesOf | notebooks/amazon-graphrag-notebook.py:745-751 | There is at most one variant edge per product |
| NotebookIngest.CreateVariantOfEdges | notebooks/amazon-graphrag-notebook.py:727-754 | The loop emits exactly the variant edges of the products, in order |
| NotebookIngest.VariantEdgesJoinStoredProducts | notebooks/amazon-graphrag-notebook.py:745-751 | Every edge joins a product to a different parent, and both are stored products |
| NotebookIngest.NoSelfVariants | notebooks/amazon-graphrag-notebook.py:745 | Products whose parent is their own key yield no edges |
| NotebookIngest.PreparedProductsHaveNoVariants | notebooks/amazon-graphrag-notebook.py:480 | The products this notebook prepares never yield a variant edge, because each one's `parent_asin` is its own key |
| ImplementationIngest.FirstSeparatorFrom | notebooks/amazon-graphrag-implementation.py:123 | The leftmost `": "` at or after a position is found, and "none" means there is none |
| ImplementationIngest.Split | notebooks/amazon-graphrag-implementation.py:123 | `split(': ')` always gives at least one part: one part without a separator, two or more with one |
| ImplementationIngest.SplitPair | notebooks/amazon-graphrag-implementation.py:123-125 | A two-part split is the two parts around the one separator, and neither part holds another |
| ImplementationIngest.SplitJoin | notebooks/amazon-graphrag-implementation.py:123-125 | Two separator-free parts joined by `": "` split back into themselves |
| ImplementationIngest.LinkOfParts | notebooks/amazon-graphrag-implementation.py:123-126 | A line is a link line exactly when its stripped text is a category and a URL, both separator-free, around one `": "` |
| ImplementationIngest.Parsed | notebooks/amazon-graphrag-implementation.py:122-124 | The lines are parsed one by one, each on its own |
| ImplementationIngest.LinksCover | notebooks/amazon-graphrag-implementation.py:122-127 | A category has a link exactly when some line is a link line for it |
| ImplementationIngest.LinksLastWins | notebooks/amazon-graphrag-implementation.py:122-127 | A category's URL comes from the last link line for it |
| ImplementationIngest.ParseDownloadLinks | notebooks/amazon-graphrag-implementation.py:118-127 | The loop builds exactly the link map of the lines |
| ImplementationIngest.StepOf | notebooks/amazon-graphrag-implementation.py:339 | An image entry is kept exactly when it is a dict holding the field, and the value kept is that field |
| ImplementationIngest.FieldValues | notebooks/amazon-graphrag-implementation.py:354-357 | The loop succeeds exactly when no entry raises, and every value collected is the field of an entry that holds it |
| ImplementationIngest.CollectFieldValues | notebooks/amazon-graphrag-implementation.py:354-357 | The review image loop computes exactly those values, or raises |
| ImplementationIngest.FieldValuesFailStays | notebooks/amazon-graphrag-implementation.py:355-357 | One entry that raises makes the whole image loop raise |
| ImplementationIngest.ProductImages | notebooks/amazon-graphrag-implementation.py:339 | A product has at most 3 images, each the `large` entry of an image dict that has one |
| ImplementationIngest.DescriptionOf | notebooks/amazon-graphrag-implementation.py:318 | A description that is not a list is kept as it is |
| ImplementationIngest.FeaturesTextOf | notebooks/amazon-graphrag-implementation.py:322 | Falsy features give the empty text |
| ImplementationIngest.ProductOf | notebooks/amazon-graphrag-implementation.py:316-341 | A record gives a product exactly when its description, features and images can be computed; the product is keyed by the raw `asin` and keeps the raw main category and parent |
| ImplementationIngest.ProductsOf | notebooks/amazon-graphrag-implementation.py:313-342 | When no record raises there is exactly one product per record |
| ImplementationIngest.ProductAt | notebooks/amazon-graphrag-implementation.py:316-341 | The product at position k is the one built from record k |
| ImplementationIngest.ProductsRaise | notebooks/amazon-graphrag-implementation.py:313-342 | The preparation raises exactly when some record raises |
| ImplementationIngest.PrepareProductsData | notebooks/amazon-graphrag-implementation.py:313-342 | The loop computes exactly the products of the records, or raises |
| ImplementationIngest.DashIndex | notebooks/amazon-graphrag-implementation.py:351 | The first dash lies within the string |
| ImplementationIngest.DashIndexAfter | notebooks/amazon-graphrag-implementation.py:351 | In a dash-free prefix followed by a dash, the first dash is the one after the prefix |
| ImplementationIngest.ReviewKeyInjective | notebooks/amazon-graphrag-implementation.py:349-351 | `asin-user-timestamp` keys identify their parts when the ASIN and the user hold no dash |
| ImplementationIngest.ReviewOf | notebooks/amazon-graphrag-implementation.py:348-373 | A record gives a review exactly when its images can be iterated and read; the review is keyed `asin-user-timestamp` from the raw values |
| ImplementationIngest.PrepareReview | notebooks/amazon-graphrag-implementation.py:348-373 | The loop body for one record computes exactly that record's review |
| ImplementationIngest.ReviewsOf | notebooks/amazon-graphrag-implementation.py:345-374 | When no record raises there is exactly one review per record |
| ImplementationIngest.ReviewAt | notebooks/amazon-graphrag-implementation.py:348-373 | The review at position k is the one built from record k |
| ImplementationIngest.ReviewsRaise | notebooks/amazon-graphrag-implementation.py:345-374 | The preparation raises exactly when some record raises |
| ImplementationIngest.PrepareReviewsData | notebooks/amazon-graphrag-implementation.py:345-374 | The loop computes exactly the reviews of the records, or raises |
| ImplementationIngest.UserIds | notebooks/amazon-graphrag-implementation.py:380-388 | Only truthy user ids are counted, and each review's truthy user id is among them |
| ImplementationIngest.ExtractUsers | notebooks/amazon-graphrag-implementation.py:377-389 | One user per distinct truthy user id, in order of first review, counting that user's reviews; every review with a user id has its user |
| ImplementationIngest.CategoriesOf | notebooks/amazon-graphrag-implementation.py:394-415 | Building the categories succeeds exactly when every name is a string; each category is the name, its key with spaces replaced by `_`, and its level |
| ImplementationIngest.ExtractCategories | notebooks/amazon-graphrag-implementation.py:392-415 | The categories are those of the first-occurrence dictionary of the names met, the same names and levels as the exploration notebook |
| ImplementationIngest.CategoriesFrom | notebooks/amazon-graphrag-implementation.py:397-414 | The loop over the dictionary builds exactly those categories, or raises |
| ImplementationIngest.CreateHasReviewEdges | notebooks/amazon-graphrag-implementation.py:418-427 | One edge per review, in order, from the review's product to the review |
| ImplementationIngest.CreateWrittenByEdges | notebooks/amazon-graphrag-implementation.py:429-438 | One edge per review, in order, from the review to its user |
| ImplementationIngest.ReviewEdgesMeet | notebooks/amazon-graphrag-implementation.py:423-434 | A review's two edges meet at the review, and its key starts with the ASIN its product edge comes from |
| ImplementationIngest.BelongsToEdgesOf | notebooks/amazon-graphrag-implementation.py:440-450 | Building the edges succeeds exactly when every truthy main category is a string |
| ImplementationIngest.CreateBelongsToCategoryEdges | notebooks/amazon-graphrag-implementation.py:440-450 | The loop computes exactly those edges, or raises |
| ImplementationIngest.BelongsToEdgesFromProducts | notebooks/amazon-graphrag-implementation.py:443-449 | Every category edge runs from a product with a truthy main category to that category's key |
| ImplementationIngest.BelongsToEdgesExactly | notebooks/amazon-graphrag-implementation.py:440-450 | The edges are exactly one per product with a truthy string main category, in the products' order, from `Products/<key>` to `Categories/<category with spaces replaced>` |
| ImplementationIngest.MainCategoryIsExtracted | notebooks/amazon-graphrag-implementation.py:396-402 | A product's truthy main category is one of the extracted categories, with the key its edge points to |
| ImplementationIngest.VariantEdgesOf | notebooks/amazon-graphrag-implementation.py:452-462 | There is at most one variant edge per product |
| ImplementationIngest.CreateVariantOfEdges | notebooks/amazon-graphrag-implementation.py:452-462 | The loop emits exactly the variant edges of the products, in order |
| ImplementationIngest.VariantEdgesExactly | notebooks/amazon-graphrag-implementation.py:455-461 | Each product with a truthy parent other than itself has its edge, and every edge belongs to such a product |
| Catalog.CategoriesOf | server/src/services/arango-queries/helpers.ts:24-27 | The join reaches only categories of the store |
| Catalog.MatchingCategories | server/src/services/arango-queries/helpers.ts:23-28 | The categories kept are the product's categories whose lower-cased name contains the lower-cased category |
| Catalog.ExpandByCategoryCount | server/src/services/arango-queries/helpers.ts:23-28 | The category join emits each product once per matching category |
| Catalog.Repeat | server/src/services/arango-queries/helpers.ts:23-28 | Repeating a product n times gives n rows |
| Catalog.HeadCount | server/src/services/arango-queries/helpers.ts:23-28 | n copies of a product contain it exactly n times and nothing else |
| Common.Lower | server/src/services/arango-queries/index.ts:122 | AQL `LOWER`: the length is kept, and exactly the ASCII capitals are lowered |
| Common.TrimEmptyIffAllSpace | server/src/services/arango-queries/helpers.ts:18 | A string trims to "" exactly when every character is whitespace |
| Common.TruncToInt | server/src/services/arango-queries/index.ts:389-390 | `parseInt(String(x))`: truncation toward zero where `String` writes plain digits (0 or 1e-6 <= |x| < 1e21), and the signed leading digit where it writes exponent notation |
| Common.TruncToIntExponentExamples | server/src/services/arango-queries/index.ts:389-390 | `parseInt(String(5e-7))` is 5, `parseInt(String(-2.5e-8))` is -2, and 0.000001 still truncates to 0 |
| Common.ParamOrDefault | server/src/services/arango-queries/index.ts:374-391 | A missing number takes the default; a present one is truncated toward zero when written in plain digits, and becomes a signed digit 1-9 when written in exponent notation (the same `parseInt(String(x))` is applied to every numeric argument, index.ts:157 and :217) |
| Common.Ceil | client/components/stars/index.jsx:8 | `Math.ceil` gives the least integer not below x |
| Common.Take | server/src/services/arango-queries/index.ts:124 | `LIMIT n` keeps the first n rows: exactly n, or all of them when there are fewer, and none for n <= 0 |
| Common.TopByProperties | server/src/services/arango-queries/index.ts:123-124 | `SORT … LIMIT n` keeps exactly n rows of the input (all when fewer, none for n <= 0), sorted, and no row left out ranks before one kept |
| Common.TopBySelects | server/src/services/arango-queries/index.ts:123-124 | The same guarantee in terms of membership: exactly n rows (all when fewer), from the input, and every row left out ranks after every row kept |
| Common.TopByWithin | server/src/services/arango-queries/index.ts:123-124 | `SORT … LIMIT n` keeps only rows of its input, none more often than it occurs there |
| Common.TopByMapped | server/src/services/arango-queries/index.ts:123-131 | The rows returned for the kept inputs are among the rows of all inputs, none more often than its input occurs |
| Common.SortByPermutes | server/src/services/arango-queries/index.ts:123 | `SORT` reorders the rows without adding or dropping any |
| Common.SortBySorted | server/src/services/arango-queries/index.ts:123 | `SORT` with a total preorder yields sorted rows |
| Stages.BuildCategoryFilter | server/src/services/arango-queries/helpers.ts:17-32 | There is no clause exactly when the category is missing or all whitespace; otherwise it is the category join |
| Stages.StageAcceptedIff | server/src/services/arango-queries/helpers.ts:49-57 | A stage query runs exactly when `@category` is declared (the join clause is present) precisely when `category` is sent (it is truthy) |
| Stages.ApplyClauseCount | server/src/services/arango-queries/helpers.ts:23-28 | The clause keeps each product as often as before when there is no clause, and once per matching category when there is one |
| Stages.ApplyClauseMember | server/src/services/arango-queries/helpers.ts:23-28 | A product survives the clause exactly when it passes it: there is no clause, or one of its categories matches |
| Stages.CountThenRatingPreorder | server/src/services/arango-queries/helpers.ts:76-77 | `SORT review_count DESC, average_rating DESC` is a total preorder |
| Stages.ReviewScorePreorder | server/src/services/arango-queries/helpers.ts:64 | Ordering reviews by similarity is a total preorder |
| Stages.ProductScorePreorder | server/src/services/arango-queries/helpers.ts:170 | Ordering products by similarity is a total preorder |
| Stages.RatingThenCountPreorder | server/src/services/arango-queries/helpers.ts:252 | `SORT average_rating DESC, rating_count DESC` is a total preorder |
| Stages.ListingOf | server/src/services/arango-queries/helpers.ts:66-78 | A listing carries the product's id, average rating and rating count |
| Stages.ReviewCandidatesProperties | server/src/services/arango-queries/helpers.ts:61-65 | Twenty reviews, or all eligible ones when fewer, each an eligible review (rated at least `min_rating`, scoring below the threshold) kept no more often than it occurs, lowest score first; no eligible review left out scores lower than one kept |
| Stages.RankedReviewGroupsProperties | server/src/services/arango-queries/helpers.ts:66-78 | The groups are distinct, `limit` of them or all when fewer, each backed by a joined row, ordered by count then rating; none exactly when `limit` <= 0 or no row joined; no group left out outranks one kept |
| Stages.SampleReviewsFor | server/src/services/arango-queries/helpers.ts:101-119 | A product gets at most three sample reviews |
| Stages.SampleJoinedMember | server/src/services/arango-queries/helpers.ts:102-105 | A review reaches `SORT` of the sample query exactly when it is a stored review scoring below the threshold that joins a product with that id |
| Stages.SampleJoinedSound | server/src/services/arango-queries/helpers.ts:102-105 | Every review reaching `SORT` scores below the threshold and joins a product with that id |
| Stages.SampleJoinedComplete | server/src/services/arango-queries/helpers.ts:102-105 | Every stored review scoring below the threshold and joining a product with that id reaches `SORT` |
| Stages.SampleReviewsProperties | server/src/services/arango-queries/helpers.ts:101-119 | The samples are the rating, title, text and votes of the three lowest-scoring joined reviews (all when fewer); each kept review scores below the threshold and joins the product; none is kept more often than it joins; lowest score first; no joined review left out scores lower than one kept |
| Stages.AttachSamples | server/src/services/arango-queries/helpers.ts:99-122 | Each row gets the samples of its own product and is otherwise unchanged |
| Stages.AttachEach | server/src/services/arango-queries/helpers.ts:99-122 | The loop over the rows array gives each row the samples of its own product id and changes nothing else |
| Stages.AttachSamplesInPlace | server/src/services/arango-queries/helpers.ts:99-122 | In place, the rows become exactly `AttachSamples` of the old rows: each row gets the sample query's result for its product |
| Stages.VectorReviewStageResult | server/src/services/arango-queries/helpers.ts:37-137 | The review stage finds nothing exactly when a query fails, `@category` is sent without being declared or declared without being sent (so a whitespace-only category always fails), `limit` <= 0 or no row joins; otherwise it reports the ranked groups in order, each with its matching-review count (at least 1) and the sample query's result for its product (at most three samples), and echoes the user's text |
| Stages.ProductMatchesProperties | server/src/services/arango-queries/helpers.ts:165-171 | `limit` matches, or all qualifying products when fewer, each a qualifying product (rated at least `min_rating`, below the threshold, passing the clause) kept no more often than it qualifies, lowest score first; none exactly when `limit` <= 0 or nothing qualifies; no qualifying product left out scores lower |
| Stages.ProductMatchesRanked | server/src/services/arango-queries/helpers.ts:165-171 | The same length, membership, order, emptiness and selection, without the multiplicity bound |
| Stages.ProductCandidatesMember | server/src/services/arango-queries/helpers.ts:165-168 | A product reaches `SORT` exactly when it is below the threshold, rated at least `min_rating` and passes the clause |
| Stages.VectorProductStageResult | server/src/services/arango-queries/helpers.ts:142-203 | The product stage finds nothing exactly when its query fails, the `@category` binding is refused (always for a whitespace-only category), `limit` <= 0 or nothing qualifies; otherwise it lists the matches in order with no echoed requirements |
| Stages.BestRatedMatchesProperties | server/src/services/arango-queries/helpers.ts:229-265 | The fallback keeps the best-rated `limit` eligible products (all when fewer), each eligible (rated at least `min_rating`, with at least 10 ratings without a category and passing the clause with one) and kept no more often than it occurs, by rating then count; none exactly when `limit` <= 0 or nothing is eligible; no eligible product left out outranks one kept |
| Stages.BestRatedMatchesRanked | server/src/services/arango-queries/helpers.ts:229-265 | The same length, eligibility, order, emptiness and selection, without the multiplicity bound |
| Stages.BestRatedCandidatesMember | server/src/services/arango-queries/helpers.ts:229-265 | A product reaches `SORT` exactly when it is a store product eligible for the fallback query chosen |
| Stages.BestRatedStageResult | server/src/services/arango-queries/helpers.ts:208-287 | The fallback finds nothing exactly when its query fails, the `@category` binding is refused (always for a whitespace-only category) or no row is selected; otherwise the rows are tagged by whether a category was given and the payload carries the note |
| Cascade.ParamsOf | server/src/services/arango-queries/index.ts:374-391 | The stage parameters echo the text and the category; `min_rating` defaults to 4 and `limit` to 5 |
| Cascade.WalkProperties | server/src/services/arango-queries/index.ts:399-454 | The stages are tried in plan order and the walk stops at the first success or exception: all earlier stages found nothing, and a decision is that stage's payload |
| Cascade.CascadeIsWalk | server/src/services/arango-queries/index.ts:393-461 | For a non-empty request whose keywords can be extracted, the cascade is exactly that walk: the vector stages when an embedding exists, then the keyword stages, then the fallback |
| Cascade.ExtractionFailureAborts | server/src/services/arango-queries/index.ts:393-470 | When keyword extraction throws, no keyword stage and no fallback runs: a vector stage found products (its payload is the answer), or the answer is the error with its hint after both vector stages, or none without an embedding |
| Cascade.AsWrittenSkipsKeywordStages | server/src/services/arango-queries/index.ts:6 | With the helpers as imported, no request ever reaches a keyword stage or the fallback; the answer is vector-stage products or the error |
| Cascade.KeywordPhaseIsWalk | server/src/services/arango-queries/index.ts:422-461 | The phase after the vector stages is the walk over the keyword stages and the fallback |
| Cascade.MissingTextRejected | server/src/services/arango-queries/index.ts:382-384 | A missing or empty `example_review` is rejected before any stage runs |
| Cascade.CascadeShortCircuits | server/src/services/arango-queries/index.ts:399-454 | The stages invoked form a prefix of the plan, all but the last found nothing, and a found payload is the last stage's |
| Cascade.EmbeddingFailureSkipsVectorStages | server/src/services/arango-queries/index.ts:395-420 | Without an embedding no vector stage runs, and the keyword stages still do |
| Cascade.ExhaustedCascade | server/src/services/arango-queries/index.ts:457-461 | When every stage finds nothing, all planned stages ran and the answer is the "no products" message echoing the request |
| Cascade.MaxRatingIgnored | server/src/services/arango-queries/index.ts:374-391 | `max_rating` has no influence on the answer |
| Cascade.BlankCategoryRefused | server/src/services/arango-queries/index.ts:386-394 | A non-empty whitespace-only category selects no clause but is still bound, so both vector stages and the fallback find nothing |
| Cascade.CategoryBindingConsistent | server/src/services/arango-queries/index.ts:386-394 | A non-blank category, a missing one and "" are declared and bound alike, so no stage is refused for its binding |
| Queries.CountDescPreorder | server/src/services/arango-queries/index.ts:135 | `SORT rating_count DESC` is a total preorder |
| Queries.PairCountDescPreorder | server/src/services/arango-queries/index.ts:123 | The same order on (product, category) rows is a total preorder |
| Queries.HelpfulThenRatingPreorder | server/src/services/arango-queries/index.ts:85 | `SORT helpful_votes DESC, rating DESC` is a total preorder |
| Queries.LevelAscPreorder | server/src/services/arango-queries/index.ts:142 | `SORT cat.level` is a total preorder |
| Queries.DistanceAscPreorder | server/src/services/arango-queries/index.ts:259 | Ordering by vector distance is a total preorder |
| Queries.PairRatingThenCountPreorder | server/src/services/arango-queries/index.ts:191 | `SORT average_rating DESC, rating_count DESC` on (product, category) rows is a total preorder |
| Queries.CategoryPairsMember | server/src/services/arango-queries/index.ts:116-122 | Every (product, category) row pairs a listed product with one of that product's own categories (through a `BelongsToCategory` edge), a store category whose name matches |
| Queries.CategoryRowsDescribe | server/src/services/arango-queries/index.ts:116-131 | Every row of a category listing is the row of a store product paired with one of its own categories whose name matches |
| Queries.OverallRowsDescribe | server/src/services/arango-queries/index.ts:133-152 | Every row of the overall listing is the row of a store product naming that product's first category |
| Queries.CategoryPairsComplete | server/src/services/arango-queries/index.ts:116-122 | Every listed product is paired with each of its matching categories |
| Queries.CategoryPairsAgain | server/src/services/arango-queries/index.ts:183-190 | A matching pair of a product with enough ratings is a pair of the products with enough ratings |
| Queries.FirstCategoryNameProperties | server/src/services/arango-queries/index.ts:137-151 | `FIRST(categories)` is null exactly when the product has no category, and otherwise the name of a lowest-level category |
| Queries.PopularQueryProperties | server/src/services/arango-queries/index.ts:116-153 | `limit` rows, or every candidate when fewer, most rated first; the rows are rows of the candidates (a product, or with a category a product paired with one of its own matching categories), none listed more often than its candidate occurs; without a category each row names the product's first category; no candidate left out has more ratings than a row listed |
| Queries.PopularInCategory | server/src/services/arango-queries/index.ts:116-132 | With a category: exactly `limit` rows or all when fewer, each the row of a store product and one of its own matching categories, none more often than that pair occurs, most rated first, and no pair left out rated more often than a row listed |
| Queries.PopularOverall | server/src/services/arango-queries/index.ts:133-153 | Without a category: `limit` products or all when fewer, each a store product listed no more often than it occurs, with its first category, most rated first, and none left out rated more often than one listed |
| Queries.PairCountLeftOut | server/src/services/arango-queries/index.ts:123-124 | A pair left out of the sorted, limited pairs has no more ratings than any row listed |
| Queries.BestRatedQueryProperties | server/src/services/arango-queries/index.ts:183-222 | The rows have at least `min_reviews` ratings, are ordered by rating then count, number `limit` or every candidate when fewer, are rows of candidates with enough ratings (with a category paired with one of the product's own matching categories, without one naming its first category), none more often than its candidate occurs, and no candidate with enough ratings left out ranks above a row listed |
| Queries.BestRatedInCategory | server/src/services/arango-queries/index.ts:183-204 | With a category: exactly `limit` rows or all when fewer, each the row of a product with enough ratings and one of its own matching categories, none more often than that pair occurs, ordered and selected as above |
| Queries.BestRatedInCategorySelects | server/src/services/arango-queries/index.ts:183-204 | No matching pair with enough ratings left out of the category listing ranks above a row listed |
| Queries.PairLeftOut | server/src/services/arango-queries/index.ts:191-192 | A pair left out of the sorted, limited pairs ranks no higher than any row listed |
| Queries.CategoryRowAt | server/src/services/arango-queries/index.ts:183-204 | A category row comes from a listed product and names one of that product's own categories whose name matches |
| Queries.BestRatedOverall | server/src/services/arango-queries/index.ts:201-222 | Without a category: `limit` products with enough ratings or all when fewer, each listed no more often than it occurs, by rating then count, each with its first category, and none left out ranks above one listed |
| Queries.ProductLeftOut | server/src/services/arango-queries/index.ts:204-205 | A product left out of the sorted, limited products ranks no higher than any row listed |
| Queries.ListingBindsAcceptedIff | server/src/services/arango-queries/index.ts:155-158 | The popular / best-rated binding is refused exactly for the category "", which is sent but not declared |
| Queries.GetPopularProducts | server/src/services/arango-queries/index.ts:111-169 | Fails exactly when its query fails or the category is "" (sent as `category` but not declared by the overall query); a success lists the popular listing for the category (when truthy) and the limit (10 by default), with its length, origin, order and selection; the count is the number of rows; the category echoed is the one given, or "All categories" |
| Queries.GetBestRatedProducts | server/src/services/arango-queries/index.ts:174-240 | Fails exactly when its query fails or the category is ""; a success lists the best-rated listing for the category (when truthy), `min_reviews` (5 by default) and the limit (10 by default), with its threshold, length, origin, order and selection; the count is the number of rows; `min_reviews` is echoed, defaulting to 5; the category is echoed |
| Queries.FindProductByNameProperties | server/src/services/arango-queries/index.ts:42-106 | An empty name is rejected and a failed title query gives the error; with both queries answering, a title containing the name always gives an answer; a success is the most-rated title match with all its listed fields, its reviews are the 10 best of its own reviews by helpful votes then rating, and its at most 4 alternatives are the other title matches |
| Queries.NameAnswered | server/src/services/arango-queries/index.ts:49-100 | With a non-empty name and both queries answering, some title containing the name guarantees an answer |
| Queries.TopReviewsProperties | server/src/services/arango-queries/index.ts:82-93 | The review query keeps exactly `limit` of the product's own reviews (all when fewer), each no more often than it occurs, most helpful votes first and then highest rating, and no own review left out ranks above one kept |
| Queries.ReviewLeftOut | server/src/services/arango-queries/index.ts:85-86 | A review of the product left out of the sorted, limited reviews ranks no higher than any review kept |
| Queries.AnswerFromTitles | server/src/services/arango-queries/index.ts:42-106 | An answer always comes from the title search and never from the vector fallback |
| Queries.DescriptionAnswerOf | server/src/services/arango-queries/index.ts:273-285 | No rows give the "no match" answer; otherwise the best match and the others are the rows, counted |
| Queries.DescriptionRowsProperties | server/src/services/arango-queries/index.ts:256-260 | The description query returns the five nearest products closer than 0.3 (all when fewer), each a close product listed no more often than it occurs, nearest first, with none left out nearer than one listed, and nothing exactly when no product is that close |
| Queries.FindProductByDescriptionProperties | server/src/services/arango-queries/index.ts:245-290 | An empty description is rejected and a failed embedding or query gives the error; "no match" exactly when no product is closer than 0.3; otherwise the five nearest close products (all when fewer), each listed no more often than it occurs, nearest first, and no close product left out is nearer than one listed |
| Queries.RatingBucketsCount | server/src/services/arango-queries/index.ts:343-352 | Each rating bucket counts the reviews with its rating, at least one |
| Queries.RatingBucketsCover | server/src/services/arango-queries/index.ts:343-352 | Every rating that occurs has a bucket |
| Queries.RatingBucketsDescending | server/src/services/arango-queries/index.ts:343-352 | Buckets run in strictly descending rating, so no rating has two |
| Queries.RatingDistributionProperties | server/src/services/arango-queries/index.ts:342-351 | The rating distribution counts the reviews of each rating that occurs (at least one), covers every such rating and runs in strictly descending rating |
| Queries.CountRating | server/src/services/arango-queries/index.ts:343-352 | A rating's number of occurrences is the number of reviews with it |
| Queries.SummaryBindsAcceptedIff | server/src/services/arango-queries/index.ts:304-319 | With an identifier given, the product query is accepted exactly when the identifier it does not use is left undefined |
| Queries.GetProductReviewsSummaryProperties | server/src/services/arango-queries/index.ts:295-364 | Neither identifier gives the argument error; a product id sent beside an `asin`, or an empty product id beside an `asin`, always ends in the error; an unknown identifier gives "Product not found"; with exactly one usable identifier, the queries answering and a store product carrying it, there is a summary; a summary uses the only identifier sent, describes a product with it, gives the rating distribution of that product's reviews and, as top reviews, the `limit` (10 by default) best of them by helpful votes then rating |
| GraphTools.SelectsCategoryIffNonBlank | server/src/lib/ai/tools/implementations/graph-tools.ts:126 | The category query is chosen exactly when the category has a non-whitespace character |
| GraphTools.PopularTool | server/src/lib/ai/tools/implementations/graph-tools.ts:118-186 | The tool fails exactly when its arguments are missing or its query fails, with the fixed error and hint |
| GraphTools.PopularToolProperties | server/src/lib/ai/tools/implementations/graph-tools.ts:121-178 | `limit` rows (10 by default) or every candidate when fewer, most rated first, rows of candidates none listed more often than its candidate occurs (with a category, a product and one of its own matching categories), none left out rated more often than one listed; a category listing only for a non-blank category; the category is echoed |
| GraphTools.BestRatedTool | server/src/lib/ai/tools/implementations/graph-tools.ts:191-269 | The tool fails exactly when its arguments are missing or its query fails, with the fixed error and hint |
| GraphTools.BestRatedToolProperties | server/src/lib/ai/tools/implementations/graph-tools.ts:194-261 | Every row has at least `min_reviews` ratings (5 by default); `limit` rows (10 by default) or all candidates when fewer, rows of candidates none listed more often than its candidate occurs (with a category, a product and one of its own matching categories), by average rating then count, none left out ranking above one listed; the category is echoed |
| GraphTools.BlankCategoryDiffers | server/src/lib/ai/tools/implementations/graph-tools.ts:126 | A whitespace-only category gives a category query in the query module (index.ts:116) but the overall listing in the tool |
| GraphTools.MatchScore | server/src/lib/ai/tools/implementations/graph-tools.ts:282-285 | The keyword score is positive exactly when the title, description or features contain the text, and odd exactly when the title does |
| GraphTools.ScoreOrderIsPreorder | server/src/lib/ai/tools/implementations/graph-tools.ts:287 | `SORT total_score DESC, average_rating DESC` is a total preorder |
| GraphTools.KeywordMatchesProperties | server/src/lib/ai/tools/implementations/graph-tools.ts:280-299 | Five products, or every positive-scoring product when fewer, each a positive-scoring product kept no more often than it occurs, best first; no positive-scoring product left out outscores one kept |
| GraphTools.KeywordRowsProperties | server/src/lib/ai/tools/implementations/graph-tools.ts:280-299 | The rows reported are those of the kept products: five or all positive-scoring products when fewer, none more often than it occurs, each with a positive score, scores descending, and no positive-scoring product left out outscores a row |
| GraphTools.KeywordMatchesEmpty | server/src/lib/ai/tools/implementations/graph-tools.ts:286-306 | The search is empty exactly when no product mentions the text |
| GraphTools.DescriptionToolProperties | server/src/lib/ai/tools/implementations/graph-tools.ts:274-317 | An empty description is rejected; otherwise the answer is empty exactly when nothing mentions it, and a match reports the best-scoring product followed by the others, together the keyword rows with their length, origin, order and selection |
| NetworkTools.DispatchIgnoresCase | server/src/lib/ai/tools/network-tools.ts:19-49 | The branch chosen depends only on the lower-cased query |
| NetworkTools.FirstAsinFrom | server/src/lib/ai/tools/network-tools.ts:50-51 | The leftmost position where ten characters of `[A-Z0-9]` start is found, and "none" means there is none |
| NetworkTools.FindAsinProperties | server/src/lib/ai/tools/network-tools.ts:50-51 | A match is ten upper-case letters or digits from the leftmost such run; no match means no such run exists |
| NetworkTools.AsinKey | server/src/lib/ai/tools/network-tools.ts:78-80 | The key looked up for an ASIN is the one ingestion gives it: itself, or `a` before it when it starts with a digit |
| NetworkTools.NumberedStep | server/src/lib/ai/tools/network-tools.ts:39-43 | One more item appends its block, numbered by position |
| NetworkTools.Blocks | server/src/lib/ai/tools/network-tools.ts:39-43 | There is one block per element |
| NetworkTools.NumberedBlocks | server/src/lib/ai/tools/network-tools.ts:39-43 | The listing is one numbered block per element, in order, from 1 |
| NetworkTools.ConcatAppend | server/src/lib/ai/tools/network-tools.ts:39-43 | Appending a block appends its text |
| NetworkTools.PopularRowsProperties | server/src/lib/ai/tools/network-tools.ts:23-35 | Five store products, or all when fewer, none listed more often than it occurs in the store, most rated first; none left out has more ratings than one listed |
| NetworkTools.AppendNumbered | server/src/lib/ai/tools/network-tools.ts:39-43 | Appending one block per element gives the prefix followed by the numbered blocks, in order, from 1 |
| NetworkTools.RenderPopular | server/src/lib/ai/tools/network-tools.ts:37-45 | The listing is the header followed by one block per row |
| NetworkTools.OrUnknown | server/src/lib/ai/tools/network-tools.ts:88-96 | "Unknown" is shown exactly for a missing, empty or "Unknown" value |
| NetworkTools.AppendBlocks | server/src/lib/ai/tools/network-tools.ts:91-107 | The loop appends one numbered block per document |
| NetworkTools.RenderAnalysis | server/src/lib/ai/tools/network-tools.ts:87-109 | The analysis is the title line ("Unknown" when the title is missing), then the variants section and the similar-products section, each present only when it has documents |
| NetworkTools.SectionBlocks | server/src/lib/ai/tools/network-tools.ts:91-107 | A section is its header followed by one block per document, or nothing when there are none |
| NetworkTools.AnalyzeProductNetworkRun | server/src/lib/ai/tools/network-tools.ts:17-136 | The tool as written computes exactly the reply its branches define |
| NetworkTools.AnalyzeBranches | server/src/lib/ai/tools/network-tools.ts:19-135 | A popularity keyword wins; a similarity query without an ASIN gets the request for one; a query with neither gets the summary |
| NetworkTools.AnalyzeMissingProduct | server/src/lib/ai/tools/network-tools.ts:83-85 | When the sanitized ASIN finds no product, the reply names the ASIN as written |
| ProductCardAgent.RunLen | server/src/lib/ai/agents/product-card-agent.ts:86 | The run of matching characters is maximal and stays within the string |
| ProductCardAgent.CaptureAt | server/src/lib/ai/agents/product-card-agent.ts:86 | A capture is non-empty and holds none of `?.!,;:` |
| ProductCardAgent.CaptureAtSpan | server/src/lib/ai/agents/product-card-agent.ts:86 | A capture starts after a non-empty run of whitespace from the trigger's end and runs up to the first of `?.!,;:` or the end of the input |
| ProductCardAgent.CaptureAtNone | server/src/lib/ai/agents/product-card-agent.ts:86 | There is no capture exactly when no whitespace follows the trigger, or a single whitespace character is followed by the end of the input or one of `?.!,;:` |
| ProductCardAgent.FirstWhere | server/src/lib/ai/agents/product-card-agent.ts:86-87 | The least index satisfying the test is found, and "none" means no index in the range satisfies it |
| ProductCardAgent.FirstMatchIsLeftmost | server/src/lib/ai/agents/product-card-agent.ts:86-87 | The match used is the leftmost one, and one is found whenever the pattern matches anywhere |
| ProductCardAgent.SplitWs | server/src/lib/ai/agents/product-card-agent.ts:94 | `split(/\s+/)` gives at least one piece and no piece holds whitespace |
| ProductCardAgent.SplitWsSingle | server/src/lib/ai/agents/product-card-agent.ts:94 | A message is one piece exactly when it holds no whitespace |
| ProductCardAgent.TrimKeepsNoStop | server/src/lib/ai/agents/product-card-agent.ts:90 | Trimming a capture keeps it free of `?.!,;:` |
| ProductCardAgent.ExtractByTrigger | server/src/lib/ai/agents/product-card-agent.ts:86-91 | With a trigger match, the name is the trimmed capture at the leftmost match: it follows the whitespace after the trigger, stops at the first of `?.!,;:` or the end of the input, and holds none of them |
| ProductCardAgent.CapturedNameIsCapture | server/src/lib/ai/agents/product-card-agent.ts:86-90 | The name taken at a match is the trimmed capture of a trigger |
| ProductCardAgent.CapturedNameNoStop | server/src/lib/ai/agents/product-card-agent.ts:86-90 | The name taken at a match holds none of `?.!,;:` |
| ProductCardAgent.ExtractWithoutTrigger | server/src/lib/ai/agents/product-card-agent.ts:94-99 | Without a trigger match, fewer than five pieces give the trimmed message and more give nothing |
| ProductCardAgent.ExtractFromEmpty | server/src/lib/ai/agents/product-card-agent.ts:94-97 | An empty message gives the empty name |
| ProductCardAgent.FieldOf | server/src/lib/ai/agents/product-card-agent.ts:148 | A field is found only in an object that has a field of that name |
| ProductCardAgent.LastField | server/src/lib/ai/agents/product-card-agent.ts:148 | The field found is the last one with that name, as `JSON.parse` keeps it |
| ProductCardAgent.FindProductByName | server/src/lib/ai/agents/product-card-agent.ts:105-128 | A lookup succeeds exactly when the tool exists, answers and its answer parses; every failure becomes `null` |
| ProductCardAgent.ErrorCard | server/src/lib/ai/agents/product-card-agent.ts:179-190 | The error card has score 0, the "error" category, no references, empty prices and the error review |
| ProductCardAgent.ProcessMessage | server/src/lib/ai/agents/product-card-agent.ts:135-192 | A name is guessed and looked up, a usable result is appended to the message, and a failed model call gives the error card |
| ProductCardAgent.MessageEnhancement | server/src/lib/ai/agents/product-card-agent.ts:147-150 | The message changes exactly when the lookup result is usable, and then only by appending it |
| ProductCardAgent.ErrorResultIgnored | server/src/lib/ai/agents/product-card-agent.ts:148 | A falsy result, or one with a truthy `error`, is never appended |
| ProductCardAgent.ImageMessage | server/src/lib/ai/agents/product-card-agent.ts:216-236 | The Google Lens result is appended when there is image data and the lookup succeeds; otherwise the message is unchanged |
| ProductCardAgent.ProcessMessageWithImage | server/src/lib/ai/agents/product-card-agent.ts:200-242 | The image-enhanced message then goes through the same name lookup and model call |
| ConversationMemory.Lookup | server/src/lib/ai/memory/conversation-memory.ts:32 | A key's value is found exactly when the key is present |
| ConversationMemory.InputOf | server/src/lib/ai/memory/conversation-memory.ts:32 | The input comes from `inputKey` when it is set, and from `input` otherwise |
| ConversationMemory.OutputOf | server/src/lib/ai/memory/conversation-memory.ts:33-35 | The output comes from `outputKey` when it is set, otherwise from `output`, falling back to `response` |
| ConversationMemory.AppendExchange | server/src/lib/ai/memory/conversation-memory.ts:37-38 | Appending an exchange keeps the history alternating user and assistant messages |
| ConversationMemory.HistoryTextAppend | server/src/lib/ai/memory/conversation-memory.ts:25 | The text view gains one line per message appended |
| ConversationMemory.JoinAppend | server/src/lib/ai/memory/conversation-memory.ts:25 | Joining one more item appends the separator and the item |
| ConversationMemory.ConversationMemory.constructor | server/src/lib/ai/memory/conversation-memory.ts:9-14 | A new memory has an empty history under the key "history" and returns message objects |
| ConversationMemory.ConversationMemory.MemoryKeys | server/src/lib/ai/memory/conversation-memory.ts:16-18 | The memory provides exactly one variable, its memory key |
| ConversationMemory.ConversationMemory.LoadMemoryVariables | server/src/lib/ai/memory/conversation-memory.ts:20-26 | Loading returns the history under the memory key, as messages or as one text |
| ConversationMemory.ConversationMemory.SaveContext | server/src/lib/ai/memory/conversation-memory.ts:28-39 | Saving appends the user's input and then the assistant's output, keeps the history alternating, and changes nothing else |
| ConversationMemory.ConversationMemory.Clear | server/src/lib/ai/memory/conversation-memory.ts:41-43 | Clearing empties the history and changes nothing else |
| ImageData.ParseGoogleLensInput | server/src/lib/parsers/image-data.ts:8-19 | The value is kept; a web address is a URL exactly when it starts with `http://` or `https://`; otherwise data URLs and base64 text are image data |
| ImageData.FilePathCases | server/src/lib/parsers/image-data.ts:18 | The input is a path exactly when it is neither a web address nor image data, and the empty string is a path |
| ImageData.NonBase64IsPath | server/src/lib/parsers/image-data.ts:13-18 | Any non-web, non-data-URL input with a character outside the base64 alphabet is a path |
| Stars.ValidScore | client/components/stars/index.jsx:7 | The score is clamped to [1, 100] and left alone inside it |
| Stars.FilledCount | client/components/stars/index.jsx:8 | Between one and five stars are filled |
| Stars.StarRow | client/components/stars/index.jsx:9-11 | Five stars, filled exactly at the first `FilledCount` positions |
| Stars.StarRowPrefix | client/components/stars/index.jsx:9-11 | The filled stars come first, at least one |
| Stars.FilledCountMonotone | client/components/stars/index.jsx:7-8 | A higher score never shows fewer stars |
| Stars.FilledCountBands | client/components/stars/index.jsx:7-8 | 20 or less is one star, above 80 is five, and each further 20 points adds a star |
| ProductApi.AfterLast | client/services/api/product.js:5 | The position after the last occurrence of a character, with no occurrence after it |
| ProductApi.FileName | client/services/api/product.js:5 | The file name is the part after the last `/` and holds no `/` |
| ProductApi.FileNameWithoutSlash | client/services/api/product.js:5 | A URI without `/` is its own file name |
| ProductApi.FirstExtensionFrom | client/services/api/product.js:6 | The leftmost position where `\.(\w+)$` matches is found, and "none" means it matches nowhere |
| ProductApi.ExtensionIsLastDot | client/services/api/product.js:6-7 | The pattern can match only at the last dot, followed by word characters |
| ProductApi.ImageTypeIsLastSuffix | client/services/api/product.js:6-7 | The type is `image/` plus the text after the last dot when that is all word characters, otherwise `image` |
| ProductApi.ImageForm | client/services/api/product.js:9-15 | The form has one `image` field carrying the URI, its file name and its type |
| Imgur.Failed | server/src/services/image-hosting/imgur.ts:33-37 | A failure has no success, an empty URL and the error message |
| Imgur.WordRun | server/src/services/image-hosting/imgur.ts:51 | The run of word characters is maximal |
| Imgur.DataUrlPrefixLength | server/src/services/image-hosting/imgur.ts:51 | A prefix is found only at the start of `data:image/…;base64,` text |
| Imgur.StripDataUrl | server/src/services/image-hosting/imgur.ts:51 | Stripping only removes a prefix, and text without a data-URL prefix is unchanged |
| Imgur.StripDataUrlPrefix | server/src/services/__tests__/image-hosting/imgur.test.ts:38-43 | `data:image/<word>;base64,` text loses exactly that prefix |
| Imgur.StripOnce | server/src/services/image-hosting/imgur.ts:51 | The prefix is removed only once |
| Imgur.UploadToImgur | server/src/services/image-hosting/imgur.ts:13-39 | Success exactly when Imgur accepts, with its link; a refusal and a thrown error become failures with their messages |
| Imgur.BodyOf | server/src/services/image-hosting/imgur.ts:43-56 | No body exactly when neither base64 text nor a path is given; base64 wins and is sent stripped |
| Imgur.UploadImageProperties | server/src/services/image-hosting/imgur.ts:41-66 | Without input the upload is refused; base64 wins over a path; a success has a link and no error, and a failure has an empty URL and an error |
| Imgur.UploadDataUrl | server/src/services/__tests__/image-hosting/imgur.test.ts:35-49 | A data URL is uploaded without its prefix, and success gives the link |
| Imgur.UploadFailureExamples | server/src/services/__tests__/image-hosting/imgur.test.ts:69-100 | A refused upload and a network error give the expected failures, as the unit tests describe |

## Left out

- I/O is replaced by parameters: reading the download-links file becomes its lines, and loading JSON lines, downloading, file paths and ArangoDB inserts are not modelled.
- Logging, `console`, `print` and progress output are not modelled.
- External services are inputs:
  - the embedding model (`Scores`, `Env.embed`, `None` when it throws);
  - the LLM call, Google Lens and the Imgur HTTP request;
  - the `count()` calls of the network tool;
  - `JSON.stringify` and JavaScript number formatting.
- Query failure is partly abstracted. A rejection caused by the bind values the server sends (a parameter sent but not declared, or declared but not sent) is derived from the query. Every other failure (for example a vector `SEARCH` without a view, or a dropped connection) is the set `Store.failing`.
- Row order:
  - Equal rows under `SORT` are kept in input order; the database leaves that order open.
  - A negative `LIMIT` gives no rows.
  - The order of `COLLECT` groups before sorting is the order of first occurrence.
- Text:
  - Strings are sequences of characters. UTF-16 code units are modelled only where they change a result: the server's key sanitisation.
  - `toLowerCase`/`LOWER` are modelled on ASCII letters only.
  - `isdigit()` is applied only after the regular expression has left ASCII text.
- `parseInt(String(x))` of NaN or an infinity is not modelled: numbers are reals.
- Python values: `str()`, `float()` and `int()` of non-string values are an oracle (`Conv`). Dictionary keys compare by model equality, so `1 == 1.0 == True` and unhashable keys are not modelled.
- Unreachable branches are left out:
  - the `if not asin` check after the `parent_asin` test in the exploration notebook's product preparation (`amazon-graphrag-notebook.py` 415-417);
  - the `if not asin or not user_id` check in its review preparation (514-516);
  - the `else` throw of the Imgur upload (`imgur.ts` 54-55);
  - the outer `catch` of `processMessageWithImage`, whose inner code catches everything (`product-card-agent.ts` 243-257).
- The `categories` loops of `extract_categories` (both notebooks) are walked as one stream of (name, level) pairs. This gives the same dictionary, because the extra emptiness tests only skip empty lists.
- ImplementationIngest.ExtractCategories: it is modelled on raw records. The notebook's main flow (`amazon-graphrag-implementation.py`:468) calls it on prepared products, which have no `categories` field, so there it only sees main categories; the lemma `NotebookIngest.MainCategoriesOnly` states this for the shared stream.
- Keyword extraction and the two keyword stages: the server imports `extractKeywords`, `findByKeywordReviewMatch` and `findByKeywordProductMatch` from its helpers module, which neither defines nor exports them (see Findings). They are oracles in `Cascade.Env` standing for the definitions evidently intended; what they compute is not modelled.
- The description of the vector-product stage reads `params.product_description`, which no caller sets. The model follows the code and leaves `user_requirements` absent.
- In `findProductByName` of the query module, the vector fallback returns rows without `asin`. Its review query is then sent without the `@asin` value, which the model derives as a refused binding, so the caught error is returned.
- Keys.PySanitizeKeyAgrees: agreement with the server is promised only for strings without characters beyond U+FFFF. For such a character the server writes `__` (one `_` per UTF-16 code unit) and the notebook writes `_` (`Keys.AstralKeyDiffers`).
- PyValues.SanitizeStringValue: equality with the server's `sanitizeKey` is promised only for strings without characters beyond U+FFFF, for the same reason.
- Queries.GetProductReviewsSummaryProperties: does not promise that `product_id` takes precedence over `asin`. A request carrying both is refused by the database, so no summary is ever built from two identifiers.
- `Promise.all` and every other concurrency are ignored: the calls are taken in program order.
- Tool argument parsing (zod schemas, `JSON.parse` of tool input) is modelled as an optional input.
- ConversationMemory.ConversationMemory.SaveContext: the input and output records are modelled as maps from string to string, although the source accepts any values.
- The `getProductReviewsSummary` tool and the broken `findProductByName` of `graph-tools.ts` (from line 45 and from line 320) are not part of this model.

## Findings

| source | as written | input that shows it | evidently intended | confidence | as-written member | corrected member |
|---|---|---|---|---|---|---|
| server/src/services/arango-queries/index.ts:6 | `extractKeywords`, `findByKeywordReviewMatch` and `findByKeywordProductMatch` are imported from `helpers.ts`, whose export list (289-294) names none of them and which defines none of them; the call at line 422 throws and the outer handler answers with the error | any non-empty `example_review` for which both vector stages find nothing (or the embedding fails): the answer is the error with its hint, never keyword matches, fallback products or the "no products" message | the keyword stages and the best-rated fallback run after the vector stages | not executed | Cascade.AsWrittenSkipsKeywordStages | Cascade.CascadeIsWalk |
