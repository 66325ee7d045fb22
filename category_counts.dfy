/**
 * `GET /api/categories` (app/api/categories/route.ts): the aggregation over
 * the categories and products collections, as a pure function of the two
 * collections' documents.
 */
module CategoryCounts {
  import opened Sorting

  /** A stored category document; `version` is Mongoose's `__v`. */
  datatype StoredCategory = StoredCategory(
    id: string, name: string, slug: string,
    description: string, image: string, isActive: bool,
    createdAt: int, version: int)

  /** The two fields of a product document the lookup looks at. */
  datatype StoredProduct = StoredProduct(category: string, isActive: bool)

  /** An output record: the category without `__v` or the joined array, plus the count. */
  datatype CountedCategory = CountedCategory(
    id: string, name: string, slug: string,
    description: string, image: string, isActive: bool,
    createdAt: int, productCount: nat)

  /** The lookup's `$match`: same category id and `isActive` exactly true. */
  predicate Joins(p: StoredProduct, categoryId: string) {
    p.category == categoryId && p.isActive
  }

  /** `$size` of the joined array. */
  function ActiveCount(products: seq<StoredProduct>, categoryId: string): (n: nat)
    ensures n <= |products|
  {
    if products == [] then 0
    else ActiveCount(products[..|products| - 1], categoryId) + (if Joins(products[|products| - 1], categoryId) then 1 else 0)
  }

  /** The documents that join, by position. */
  ghost function JoinedPositions(products: seq<StoredProduct>, categoryId: string): set<int> {
    set i | 0 <= i < |products| && Joins(products[i], categoryId)
  }

  /** The count is the number of product documents that join the category. */
  lemma {:induction false} ActiveCountIsJoinedSize(products: seq<StoredProduct>, categoryId: string)
    ensures ActiveCount(products, categoryId) == |JoinedPositions(products, categoryId)|
  {
    if products != [] {
      var k := |products| - 1;
      var front := products[..k];
      ActiveCountIsJoinedSize(front, categoryId);
      assert JoinedPositions(front, categoryId) == set i | 0 <= i < k && Joins(products[i], categoryId);
      if Joins(products[k], categoryId) {
        assert JoinedPositions(products, categoryId) == JoinedPositions(front, categoryId) + {k};
      } else {
        assert JoinedPositions(products, categoryId) == JoinedPositions(front, categoryId);
      }
    }
  }

  /** Adding an inactive product, or one of another category, changes no count. */
  lemma {:induction false} NonJoiningIgnored(products: seq<StoredProduct>, p: StoredProduct, categoryId: string)
    requires !p.isActive || p.category != categoryId
    ensures ActiveCount(products + [p], categoryId) == ActiveCount(products, categoryId)
  {
    assert (products + [p])[..|products|] == products;
  }

  /** `$lookup` + `$addFields` + `$project` for one category. */
  function Counted(c: StoredCategory, products: seq<StoredProduct>): (r: CountedCategory)
    ensures r.id == c.id && r.name == c.name && r.slug == c.slug
    ensures r.description == c.description && r.image == c.image
    ensures r.isActive == c.isActive && r.createdAt == c.createdAt
    ensures r.productCount == ActiveCount(products, c.id)
  {
    CountedCategory(c.id, c.name, c.slug, c.description, c.image, c.isActive,
                    c.createdAt, ActiveCount(products, c.id))
  }

  /** Every category, in collection order, each with its count. */
  function CountAll(categories: seq<StoredCategory>, products: seq<StoredProduct>): (r: seq<CountedCategory>)
    ensures |r| == |categories|
    ensures forall i :: 0 <= i < |r| ==> r[i] == Counted(categories[i], products)
  {
    if categories == [] then []
    else [Counted(categories[0], products)] + CountAll(categories[1..], products)
  }

  function CreatedAt(c: CountedCategory): int { c.createdAt }

  /** The whole pipeline; `$sort: {createdAt: -1}`. */
  function Aggregate(categories: seq<StoredCategory>, products: seq<StoredProduct>): (r: seq<CountedCategory>)
    ensures multiset(r) == multiset(CountAll(categories, products))
    ensures |r| == |categories|
  {
    SortOn(CountAll(categories, products), CreatedAt, IntGe)
  }

  /** The output is the counted categories reordered: none lost, none repeated. */
  lemma AggregateKeepsEveryCategory(categories: seq<StoredCategory>, products: seq<StoredProduct>, c: StoredCategory)
    ensures multiset(Aggregate(categories, products))[Counted(c, products)]
         >= multiset(categories)[c]
    ensures forall r :: r in Aggregate(categories, products) ==>
      exists c' :: c' in categories && r == Counted(c', products)
  {
    var all := CountAll(categories, products);
    CountedMultiplicity(categories, products, c);
    forall r | r in Aggregate(categories, products)
      ensures exists c' :: c' in categories && r == Counted(c', products)
    {
      assert r in multiset(all);
      var i :| 0 <= i < |all| && all[i] == r;
      assert categories[i] in categories;
    }
  }

  lemma {:induction false} CountedMultiplicity(categories: seq<StoredCategory>, products: seq<StoredProduct>, c: StoredCategory)
    ensures multiset(CountAll(categories, products))[Counted(c, products)] >= multiset(categories)[c]
  {
    if categories != [] {
      CountedMultiplicity(categories[1..], products, c);
      assert categories == [categories[0]] + categories[1..];
      assert CountAll(categories, products) == [Counted(categories[0], products)] + CountAll(categories[1..], products);
    }
  }

  /** Every output record carries the active-product count of its own id. */
  lemma AggregateCounts(categories: seq<StoredCategory>, products: seq<StoredProduct>)
    ensures forall r :: r in Aggregate(categories, products) ==>
      r.productCount == |JoinedPositions(products, r.id)|
  {
    forall r | r in Aggregate(categories, products)
      ensures r.productCount == |JoinedPositions(products, r.id)|
    {
      AggregateKeepsEveryCategory(categories, products, StoredCategory("", "", "", "", "", false, 0, 0));
      var c' :| c' in categories && r == Counted(c', products);
      ActiveCountIsJoinedSize(products, r.id);
    }
  }

  /** Newest first. */
  lemma AggregateNewestFirst(categories: seq<StoredCategory>, products: seq<StoredProduct>)
    ensures forall i, j :: 0 <= i < j < |Aggregate(categories, products)| ==>
      Aggregate(categories, products)[i].createdAt >= Aggregate(categories, products)[j].createdAt
  {
    IntOrdersArePreorders();
    SortOnSorted(CountAll(categories, products), CreatedAt, IntGe);
  }

  /** The database either answers with both collections or fails with an error. */
  datatype Query = Answered(categories: seq<StoredCategory>, products: seq<StoredProduct>) | DbError(message: string)

  /** The JSON envelope, its status and the response headers. */
  datatype Reply = Reply(status: int, success: bool, data: seq<CountedCategory>, error: string,
                         headers: map<string, string>)

  /** The caching policy of a successful answer: five minutes at the edge, then ten of revalidation. */
  const CacheControl: string := "public, s-maxage=300, stale-while-revalidate=600"

  /** `GET`: 200 with the aggregate, or 500 with the error's message. */
  function Get(q: Query): (r: Reply)
    ensures r.success <==> r.status == 200
    ensures r.status == 200 || r.status == 500
    ensures q.Answered? ==> r.success && r.data == Aggregate(q.categories, q.products)
    ensures q.DbError? ==> !r.success && r.error == q.message && r.data == []
    ensures r.success ==> r.headers == map["Cache-Control" := CacheControl]
    ensures !r.success ==> r.headers == map[]
  {
    match q
    case Answered(cs, ps) => Reply(200, true, Aggregate(cs, ps), "", map["Cache-Control" := CacheControl])
    case DbError(m) => Reply(500, false, [], m, map[])
  }
}
