/**
 * The product table (app/data/page.tsx): the derived views over the fetched
 * product list (distinct categories; filter by search text and category; sort by
 * a column in either direction) and the handlers that change the page state
 * (sort header, delete, edit, save edit, add).
 */
module DataPage {
  import opened Wrappers
  import opened Text

  datatype Rating = Rating(rate: int, count: int)

  datatype Product = Product(
    id: int, title: string, price: int, category: string,
    description: string, image: string, rating: Rating)

  /** The text fields of the add and edit dialogs (`NewProduct`, `EditProduct`). */
  datatype RatingForm = RatingForm(rate: string, count: string)

  datatype ProductForm = ProductForm(
    title: string, price: string, category: string,
    description: string, image: string, rating: RatingForm)

  const EmptyForm := ProductForm("", "", "", "", "", RatingForm("", ""))

  const DefaultImage := "https://fakestoreapi.com/img/81fPKd-2AYL._AC_SL1500_.jpg"

  /** The category filter value that lets every category through. */
  const AllCategories := "all"

  /** `keyof Product`: the columns a sort can be keyed on. */
  datatype ProductKey = IdKey | TitleKey | PriceKey | CategoryKey | DescriptionKey | ImageKey | RatingKey

  datatype SortDirection = Asc | Desc

  // ---------------------------------------------------------------------------
  // Keeping the elements that pass a test (`Array.prototype.filter`)
  // ---------------------------------------------------------------------------

  /** The elements of `s` that pass `keep`, in their original order. */
  function Keep<T(==,!new)>(s: seq<T>, keep: T -> bool): (r: seq<T>)
    ensures |r| <= |s|
    ensures forall x :: multiset(r)[x] == if keep(x) then multiset(s)[x] else 0
    ensures forall x :: x in r <==> x in s && keep(x)
  {
    if s == [] then []
    else
      var rest := Keep(s[1..], keep);
      assert s == [s[0]] + s[1..];
      if keep(s[0]) then [s[0]] + rest else rest
  }

  /** Filtering a concatenation filters each part in place: the order is kept. */
  lemma {:induction false} KeepAppend<T(!new)>(a: seq<T>, b: seq<T>, keep: T -> bool)
    ensures Keep(a + b, keep) == Keep(a, keep) + Keep(b, keep)
  {
    if a == [] {
      assert a + b == b;
    } else {
      assert (a + b)[0] == a[0];
      assert (a + b)[1..] == a[1..] + b;
      KeepAppend(a[1..], b, keep);
    }
  }

  // ---------------------------------------------------------------------------
  // Ids
  // ---------------------------------------------------------------------------

  predicate UniqueIds(ps: seq<Product>) {
    forall i, j :: 0 <= i < j < |ps| ==> ps[i].id != ps[j].id
  }

  /** `Math.max(...products.map((p) => p.id))` on a non-empty list. */
  function MaxId(ps: seq<Product>): (m: int)
    requires |ps| > 0
    ensures forall i :: 0 <= i < |ps| ==> ps[i].id <= m
    ensures exists i :: 0 <= i < |ps| && ps[i].id == m
  {
    if |ps| == 1 then ps[0].id
    else
      var rest := MaxId(ps[1..]);
      assert forall i :: 1 <= i < |ps| ==> ps[i] == ps[1..][i - 1];
      if ps[0].id >= rest then ps[0].id else rest
  }

  /**
   * An id as the page computes it with `Math.max(...ids) + 1`: a finite number,
   * or -Infinity, which `Math.max` returns for no arguments and which adding 1 keeps.
   */
  datatype PageId = Finite(n: int) | NegativeInfinity

  /** `Math.max(...ids)`. */
  function MaxOfIds(ids: seq<PageId>): (m: PageId)
    ensures m.Finite? <==> exists i :: 0 <= i < |ids| && ids[i].Finite?
    ensures m.Finite? ==> forall i :: 0 <= i < |ids| && ids[i].Finite? ==> ids[i].n <= m.n
    ensures m.Finite? ==> exists i :: 0 <= i < |ids| && ids[i] == m
  {
    if ids == [] then NegativeInfinity
    else
      var rest := MaxOfIds(ids[1..]);
      assert forall i :: 1 <= i < |ids| ==> ids[i] == ids[1..][i - 1];
      if rest == NegativeInfinity then ids[0]
      else if ids[0] == NegativeInfinity then rest
      else Finite(if ids[0].n >= rest.n then ids[0].n else rest.n)
  }

  /** The id `handleAddProduct` gives a new product, as written: `Math.max(...ids) + 1`. */
  function NextIdAsWritten(ids: seq<PageId>): PageId {
    match MaxOfIds(ids)
    case Finite(m) => Finite(m + 1)
    case NegativeInfinity => NegativeInfinity
  }

  function PageIds(ps: seq<Product>): (ids: seq<PageId>)
    ensures |ids| == |ps| && forall i :: 0 <= i < |ps| ==> ids[i] == Finite(ps[i].id)
  {
    seq(|ps|, i requires 0 <= i < |ps| => Finite(ps[i].id))
  }

  /** On a non-empty list the computation as written is one past the largest id. */
  lemma {:induction false} NextIdAsWrittenOnNonEmpty(ps: seq<Product>)
    requires |ps| > 0
    ensures NextIdAsWritten(PageIds(ps)) == Finite(MaxId(ps) + 1)
  {
    if |ps| > 1 {
      NextIdAsWrittenOnNonEmpty(ps[1..]);
      assert PageIds(ps)[1..] == PageIds(ps[1..]);
    }
  }

  /**
   * Once the list is empty, the first product added gets the id -Infinity, and so
   * does the second: two products share an id.
   */
  lemma NextIdAsWrittenRepeatsAfterEmptying()
    ensures NextIdAsWritten([]) == NegativeInfinity
    ensures NextIdAsWritten([NextIdAsWritten([])]) == NextIdAsWritten([])
  {
  }

  /** The id for a new product: one past the largest id, and 1 for an empty list. */
  function NextId(ps: seq<Product>): (id: int)
    ensures forall i :: 0 <= i < |ps| ==> ps[i].id < id
    ensures ps != [] ==> Finite(id) == NextIdAsWritten(PageIds(ps))
  {
    if ps == [] then 1
    else
      NextIdAsWrittenOnNonEmpty(ps);
      MaxId(ps) + 1
  }

  /** A sub-list of a list with distinct ids has distinct ids. */
  lemma {:induction false} KeepPreservesUniqueIds(ps: seq<Product>, keep: Product -> bool)
    requires UniqueIds(ps)
    ensures UniqueIds(Keep(ps, keep))
  {
    if ps != [] {
      KeepPreservesUniqueIds(ps[1..], keep);
      var rest := Keep(ps[1..], keep);
      if keep(ps[0]) {
        forall j | 0 <= j < |rest| ensures ps[0].id != rest[j].id {
          assert rest[j] in ps[1..];
          var k :| 0 <= k < |ps[1..]| && ps[1..][k] == rest[j];
          assert ps[k + 1] == rest[j];
        }
        assert Keep(ps, keep) == [ps[0]] + rest;
      }
    }
  }

  // ---------------------------------------------------------------------------
  // Categories
  // ---------------------------------------------------------------------------

  predicate NoDuplicates(s: seq<string>) {
    forall i, j :: 0 <= i < j < |s| ==> s[i] != s[j]
  }

  /** The index of the first occurrence of `v` in `xs`. */
  function FirstIndex(xs: seq<string>, v: string): (k: nat)
    requires v in xs
    ensures k < |xs| && xs[k] == v
    ensures forall i :: 0 <= i < k ==> xs[i] != v
  {
    if xs[0] == v then 0 else 1 + FirstIndex(xs[1..], v)
  }

  /** A value's first occurrence lies in any prefix that holds the value. */
  lemma FirstIndexInPrefix(xs: seq<string>, n: nat, v: string)
    requires n <= |xs| && v in xs[..n]
    ensures v in xs && FirstIndex(xs, v) == FirstIndex(xs[..n], v)
  {
    var k, j := FirstIndex(xs, v), FirstIndex(xs[..n], v);
    assert xs[..n][j] == xs[j];
  }

  /**
   * Values listed in the order of their first occurrence in all but the last
   * element of `xs` keep that order in `xs`, and the last element, when new,
   * comes after them all.
   */
  lemma FirstOccurrenceOrderExtends(xs: seq<string>, front: seq<string>)
    requires xs != []
    requires forall x :: x in front <==> x in xs[..|xs| - 1]
    requires forall i :: 0 <= i < |front| ==> front[i] in xs[..|xs| - 1]
    requires forall i, j :: 0 <= i < j < |front| ==>
               FirstIndex(xs[..|xs| - 1], front[i]) < FirstIndex(xs[..|xs| - 1], front[j])
    ensures var last := xs[|xs| - 1];
            var r := if last in front then front else front + [last];
            forall i, j :: 0 <= i < j < |r| ==> r[i] in xs && r[j] in xs && FirstIndex(xs, r[i]) < FirstIndex(xs, r[j])
  {
    var n := |xs| - 1;
    forall i | 0 <= i < |front| ensures front[i] in xs && FirstIndex(xs, front[i]) == FirstIndex(xs[..n], front[i]) {
      FirstIndexInPrefix(xs, n, front[i]);
    }
    var last := xs[n];
    if last !in front {
      assert last !in xs[..n];
      assert FirstIndex(xs, last) == n;
    }
  }

  /** `Array.from(new Set(xs))`: each value once, in the order of first occurrence. */
  function Distinct(xs: seq<string>): (r: seq<string>)
    ensures NoDuplicates(r)
    ensures forall x :: x in r <==> x in xs
    ensures forall i, j :: 0 <= i < j < |r| ==> FirstIndex(xs, r[i]) < FirstIndex(xs, r[j])
  {
    if xs == [] then []
    else
      var front := Distinct(xs[..|xs| - 1]);
      var last := xs[|xs| - 1];
      assert xs == xs[..|xs| - 1] + [last];
      assert forall i :: 0 <= i < |front| ==> front[i] in xs[..|xs| - 1];
      FirstOccurrenceOrderExtends(xs, front);
      if last in front then front else front + [last]
  }

  /** `categories`: the distinct categories of the products. */
  /** `products.map((p) => p.category)`. */
  function CategoryList(products: seq<Product>): (cs: seq<string>)
    ensures |cs| == |products| && forall i :: 0 <= i < |products| ==> cs[i] == products[i].category
  {
    seq(|products|, i requires 0 <= i < |products| => products[i].category)
  }

  function Categories(products: seq<Product>): (r: seq<string>)
    ensures NoDuplicates(r)
    ensures forall c :: c in r <==> exists i :: 0 <= i < |products| && products[i].category == c
    ensures forall c :: c in r <==> c in CategoryList(products)
    ensures forall i, j :: 0 <= i < j < |r| ==>
              FirstIndex(CategoryList(products), r[i]) < FirstIndex(CategoryList(products), r[j])
  {
    var all := CategoryList(products);
    assert forall c :: c in all <==> exists i :: 0 <= i < |products| && products[i].category == c by {
      forall c ensures c in all <==> exists i :: 0 <= i < |products| && products[i].category == c {
        if c in all {
          var i :| 0 <= i < |all| && all[i] == c;
          assert products[i].category == c;
        }
        if exists i :: 0 <= i < |products| && products[i].category == c {
          var i :| 0 <= i < |products| && products[i].category == c;
          assert all[i] == c;
        }
      }
    }
    Distinct(all)
  }

  // ---------------------------------------------------------------------------
  // Filter
  // ---------------------------------------------------------------------------

  /**
   * The filter test: the lower-cased search term occurs in the lower-cased title
   * or description, and the category filter is "all" or the product's category.
   */
  predicate Matches(p: Product, searchTerm: string, filterCategory: string) {
    (Includes(Lower(p.title), Lower(searchTerm)) || Includes(Lower(p.description), Lower(searchTerm)))
    && (filterCategory == AllCategories || p.category == filterCategory)
  }

  /** `Matches` in terms of occurrences of the search term. */
  lemma MatchesIff(p: Product, searchTerm: string, filterCategory: string)
    ensures Matches(p, searchTerm, filterCategory) <==>
              ((exists i :: OccursAt(Lower(p.title), Lower(searchTerm), i))
               || (exists i :: OccursAt(Lower(p.description), Lower(searchTerm), i)))
              && (filterCategory == AllCategories || p.category == filterCategory)
  {
    IncludesIff(Lower(p.title), Lower(searchTerm));
    IncludesIff(Lower(p.description), Lower(searchTerm));
  }

  /** An empty search term and the "all" filter let every product through. */
  lemma EmptySearchMatchesAll(p: Product)
    ensures Matches(p, "", AllCategories)
  {
    assert Lower("") == "";
    assert "" <= Lower(p.title);
  }

  /** `products.filter(...)`: each matching product as often as in the list, in list order, and nothing else. */
  function Filter(products: seq<Product>, searchTerm: string, filterCategory: string): (r: seq<Product>)
    ensures forall p :: multiset(r)[p] == if Matches(p, searchTerm, filterCategory) then multiset(products)[p] else 0
    ensures forall p :: p in r <==> p in products && Matches(p, searchTerm, filterCategory)
  {
    Keep(products, p => Matches(p, searchTerm, filterCategory))
  }

  // ---------------------------------------------------------------------------
  // Sort
  // ---------------------------------------------------------------------------

  /** The value of one column of a product (`a[sortField]`). */
  datatype FieldValue = Num(n: int) | Str(s: string) | RatingValue(rating: Rating)

  function ValueOf(p: Product, key: ProductKey): FieldValue {
    match key
    case IdKey => Num(p.id)
    case TitleKey => Str(p.title)
    case PriceKey => Num(p.price)
    case CategoryKey => Str(p.category)
    case DescriptionKey => Str(p.description)
    case ImageKey => Str(p.image)
    case RatingKey => RatingValue(p.rating)
  }

  /**
   * The sort comparator: by `rating.rate` for the rating column, by string order
   * for text columns, numerically for number columns; reversed for `desc`.
   * Negative means `a` goes first.
   */
  function Compare(a: Product, b: Product, field: ProductKey, dir: SortDirection): int {
    if field == RatingKey then
      (if dir == Asc then a.rating.rate - b.rating.rate else b.rating.rate - a.rating.rate)
    else
      var av, bv := ValueOf(a, field), ValueOf(b, field);
      if av.Str? && bv.Str? then
        (if dir == Asc then CompareStrings(av.s, bv.s) else CompareStrings(bv.s, av.s))
      else if av.Num? && bv.Num? then
        (if dir == Asc then av.n - bv.n else bv.n - av.n)
      else 0
  }

  lemma CompareAntisymmetric(a: Product, b: Product, field: ProductKey, dir: SortDirection)
    ensures Compare(b, a, field, dir) == -Compare(a, b, field, dir)
  {
    match ValueOf(a, field)
    case Str(x) => CompareStringsAntisymmetric(x, ValueOf(b, field).s);
    case _ =>
  }

  lemma CompareTransitive(a: Product, b: Product, c: Product, field: ProductKey, dir: SortDirection)
    requires Compare(a, b, field, dir) <= 0 && Compare(b, c, field, dir) <= 0
    ensures Compare(a, c, field, dir) <= 0
  {
    match ValueOf(a, field)
    case Str(x) =>
      var y, z := ValueOf(b, field).s, ValueOf(c, field).s;
      if dir == Asc { CompareStringsTransitive(x, y, z); } else { CompareStringsTransitive(z, y, x); }
    case _ =>
  }

  /** Every product comes no later than the ones after it. */
  predicate SortedBy(s: seq<Product>, field: ProductKey, dir: SortDirection) {
    forall i, j :: 0 <= i < j < |s| ==> Compare(s[i], s[j], field, dir) <= 0
  }

  lemma InsertFrontSorted(x: Product, s: seq<Product>, field: ProductKey, dir: SortDirection)
    requires SortedBy(s, field, dir)
    requires s != [] ==> Compare(x, s[0], field, dir) <= 0
    ensures SortedBy([x] + s, field, dir)
  {
    forall j | 0 < j < |s| ensures Compare(x, s[j], field, dir) <= 0 {
      CompareTransitive(x, s[0], s[j], field, dir);
    }
  }

  lemma InsertLaterSorted(x: Product, s: seq<Product>, rest: seq<Product>, field: ProductKey, dir: SortDirection)
    requires SortedBy(s, field, dir) && s != []
    requires SortedBy(rest, field, dir)
    requires multiset(rest) == multiset(s[1..]) + multiset{x}
    requires Compare(s[0], x, field, dir) <= 0
    ensures SortedBy([s[0]] + rest, field, dir)
  {
    forall k | 0 <= k < |rest| ensures Compare(s[0], rest[k], field, dir) <= 0 {
      assert rest[k] in multiset(rest);
      if rest[k] != x {
        assert rest[k] in multiset(s[1..]);
        var j :| 0 <= j < |s[1..]| && s[1..][j] == rest[k];
        assert s[j + 1] == rest[k];
      }
    }
  }

  /** Inserts `x` before the first element it does not come after. */
  function Insert(x: Product, s: seq<Product>, field: ProductKey, dir: SortDirection): (r: seq<Product>)
    requires SortedBy(s, field, dir)
    ensures SortedBy(r, field, dir)
    ensures multiset(r) == multiset(s) + multiset{x}
  {
    if s == [] then [x]
    else if Compare(x, s[0], field, dir) <= 0 then
      InsertFrontSorted(x, s, field, dir);
      [x] + s
    else
      var rest := Insert(x, s[1..], field, dir);
      CompareAntisymmetric(x, s[0], field, dir);
      InsertLaterSorted(x, s, rest, field, dir);
      assert s == [s[0]] + s[1..];
      [s[0]] + rest
  }

  /** `filtered.sort(comparator)`: a stable insertion sort. */
  function Sort(s: seq<Product>, field: ProductKey, dir: SortDirection): (r: seq<Product>)
    ensures SortedBy(r, field, dir)
    ensures multiset(r) == multiset(s)
  {
    if s == [] then []
    else
      assert s == [s[0]] + s[1..];
      Insert(s[0], Sort(s[1..], field, dir), field, dir)
  }

  lemma SortedTail(s: seq<Product>, field: ProductKey, dir: SortDirection)
    requires SortedBy(s, field, dir) && s != []
    ensures SortedBy(s[1..], field, dir)
  {
    forall i, j | 0 <= i < j < |s| - 1 ensures Compare(s[1..][i], s[1..][j], field, dir) <= 0 {
      assert s[1..][i] == s[i + 1] && s[1..][j] == s[j + 1];
    }
  }

  /** An element that comes no later than the head of a sorted list is inserted in front of it. */
  lemma InsertAtFront(x: Product, s: seq<Product>, field: ProductKey, dir: SortDirection)
    requires SortedBy(s, field, dir)
    requires s != [] ==> Compare(x, s[0], field, dir) <= 0
    ensures Insert(x, s, field, dir) == [x] + s
  {
  }

  /** A list already in order is left exactly as it is: equal products keep their order. */
  lemma {:induction false} SortOfSortedIsIdentity(s: seq<Product>, field: ProductKey, dir: SortDirection)
    requires SortedBy(s, field, dir)
    ensures Sort(s, field, dir) == s
  {
    if s != [] {
      SortedTail(s, field, dir);
      SortOfSortedIsIdentity(s[1..], field, dir);
      var tail := s[1..];
      assert tail != [] ==> Compare(s[0], tail[0], field, dir) <= 0 by {
        if tail != [] {
          assert tail[0] == s[1];
        }
      }
      InsertAtFront(s[0], tail, field, dir);
      assert s == [s[0]] + tail;
      assert Sort(s, field, dir) == Insert(s[0], Sort(tail, field, dir), field, dir);
    }
  }

  /** Sorting twice is sorting once. */
  lemma SortIdempotent(s: seq<Product>, field: ProductKey, dir: SortDirection)
    ensures Sort(Sort(s, field, dir), field, dir) == Sort(s, field, dir)
  {
    SortOfSortedIsIdentity(Sort(s, field, dir), field, dir);
  }

  /**
   * `filteredAndSortedProducts`: the products that pass the filter, each as often
   * as in the list, ordered by the sort column and direction.
   */
  function FilteredAndSorted(
    products: seq<Product>, searchTerm: string, filterCategory: string,
    field: ProductKey, dir: SortDirection): (r: seq<Product>)
    ensures SortedBy(r, field, dir)
    ensures forall p :: multiset(r)[p] ==
              if Matches(p, searchTerm, filterCategory) then multiset(products)[p] else 0
    ensures forall p :: p in r <==> p in products && Matches(p, searchTerm, filterCategory)
    ensures products == [] ==> r == []
  {
    if |products| == 0 then []
    else
      var r := Sort(Filter(products, searchTerm, filterCategory), field, dir);
      assert forall p :: p in r <==> p in multiset(r);
      r
  }

  // ---------------------------------------------------------------------------
  // Edit and add
  // ---------------------------------------------------------------------------

  /** `handleEdit`'s form: the product's fields, numbers as text. */
  function FormOf(p: Product): (form: ProductForm)
    ensures form.title == p.title && form.category == p.category
    ensures form.description == p.description && form.image == p.image
    ensures ParseNumber(form.price) == Some(p.price)
    ensures ParseNumber(form.rating.rate) == Some(p.rating.rate)
    ensures ParseNumber(form.rating.count) == Some(p.rating.count)
  {
    IntTextRoundTrip(p.price);
    IntTextRoundTrip(p.rating.rate);
    IntTextRoundTrip(p.rating.count);
    ProductForm(p.title, IntText(p.price), p.category, p.description, p.image,
                RatingForm(IntText(p.rating.rate), IntText(p.rating.count)))
  }

  /** `handleUpdateProduct`'s test: a truthy editing id (null and 0 are not) and the required fields filled. */
  predicate UpdateGuard(editingId: Option<int>, form: ProductForm) {
    editingId.Some? && editingId.value != 0
    && form.title != "" && form.category != "" && form.description != ""
    && form.price != "" && form.rating.rate != ""
  }

  /** `handleAddProduct`'s test: the required fields filled. */
  predicate AddGuard(form: ProductForm) {
    form.title != "" && form.category != "" && form.description != ""
    && form.price != "" && form.rating.rate != ""
  }

  /** The edit dialog's numbers read as numbers (its number inputs hold numeric text or nothing). */
  predicate EditNumbersReadable(form: ProductForm) {
    ParseNumber(form.price).Some? && ParseNumber(form.rating.rate).Some? && ParseNumber(form.rating.count).Some?
  }

  /** The add dialog's price and rating read as numbers. */
  predicate AddNumbersReadable(form: ProductForm) {
    ParseNumber(form.price).Some? && ParseNumber(form.rating.rate).Some?
  }

  /** `{ ...p, title, price: Number(price), ..., rating: { rate, count } }` from the edit form. */
  function Edited(p: Product, form: ProductForm): (q: Product)
    requires EditNumbersReadable(form)
    ensures q.id == p.id
    ensures q.title == form.title && q.category == form.category
    ensures q.description == form.description && q.image == form.image
    ensures Some(q.price) == ParseNumber(form.price)
    ensures Some(q.rating.rate) == ParseNumber(form.rating.rate)
    ensures Some(q.rating.count) == ParseNumber(form.rating.count)
  {
    p.(title := form.title, price := ParseNumber(form.price).value, category := form.category,
       description := form.description, image := form.image,
       rating := Rating(ParseNumber(form.rating.rate).value, ParseNumber(form.rating.count).value))
  }

  /** The list after saving an edit: each product with the id takes the form's values, the rest stay. */
  function ApplyEdit(ps: seq<Product>, id: int, form: ProductForm): (r: seq<Product>)
    requires EditNumbersReadable(form)
    ensures |r| == |ps|
    ensures forall i :: 0 <= i < |ps| ==> r[i].id == ps[i].id
    ensures forall i :: 0 <= i < |ps| && ps[i].id != id ==> r[i] == ps[i]
    ensures forall i :: 0 <= i < |ps| && ps[i].id == id ==>
              r[i].title == form.title && r[i].category == form.category
              && r[i].description == form.description && r[i].image == form.image
              && Some(r[i].price) == ParseNumber(form.price)
              && Some(r[i].rating.rate) == ParseNumber(form.rating.rate)
              && Some(r[i].rating.count) == ParseNumber(form.rating.count)
  {
    seq(|ps|, i requires 0 <= i < |ps| => if ps[i].id == id then Edited(ps[i], form) else ps[i])
  }

  /** Opening the edit dialog on a product and saving it unchanged leaves the list as it was. */
  lemma EditThenSaveIsIdentity(ps: seq<Product>, k: nat)
    requires UniqueIds(ps) && k < |ps|
    ensures EditNumbersReadable(FormOf(ps[k]))
    ensures ApplyEdit(ps, ps[k].id, FormOf(ps[k])) == ps
  {
    var p := ps[k];
    var r := ApplyEdit(ps, p.id, FormOf(p));
    forall i | 0 <= i < |ps| ensures r[i] == ps[i] {
      if ps[i].id == p.id {
        assert i == k;
      }
    }
  }

  /** The product `handleAddProduct` appends: the default image for an empty one, 0 for an unreadable count. */
  function NewProductFrom(id: int, form: ProductForm): (p: Product)
    requires AddNumbersReadable(form)
    ensures p.id == id
    ensures form.image == "" ==> p.image == DefaultImage
    ensures form.image != "" ==> p.image == form.image
    ensures p.title == form.title && p.category == form.category && p.description == form.description
    ensures Some(p.price) == ParseNumber(form.price) && Some(p.rating.rate) == ParseNumber(form.rating.rate)
    ensures ParseNumber(form.rating.count).Some? ==> Some(p.rating.count) == ParseNumber(form.rating.count)
    ensures ParseNumber(form.rating.count).None? ==> p.rating.count == 0
  {
    Product(id, form.title, ParseNumber(form.price).value, form.category, form.description,
            if form.image == "" then DefaultImage else form.image,
            Rating(ParseNumber(form.rating.rate).value, ParseNumber(form.rating.count).GetOr(0)))
  }

  /** Appending a product with the next id keeps the ids distinct. */
  lemma AddKeepsIdsUnique(ps: seq<Product>, form: ProductForm)
    requires UniqueIds(ps) && AddNumbersReadable(form)
    ensures forall i :: 0 <= i < |ps| ==> ps[i].id != NextId(ps)
    ensures UniqueIds(ps + [NewProductFrom(NextId(ps), form)])
  {
  }

  /** Deleting by id removes exactly the products with that id and keeps the ids distinct. */
  lemma DeleteKeepsIdsUnique(ps: seq<Product>, id: int)
    requires UniqueIds(ps)
    ensures UniqueIds(Without(ps, id))
  {
    KeepPreservesUniqueIds(ps, (p: Product) => p.id != id);
  }

  /** `products.filter((p) => p.id !== id)`. */
  function Without(ps: seq<Product>, id: int): (r: seq<Product>)
    ensures forall p :: p in r <==> p in ps && p.id != id
    ensures forall p: Product :: p.id != id ==> multiset(r)[p] == multiset(ps)[p]
  {
    Keep(ps, (p: Product) => p.id != id)
  }

  /** Deleting an id no product has changes nothing. */
  lemma {:induction false} DeleteAbsentId(ps: seq<Product>, id: int)
    requires forall i :: 0 <= i < |ps| ==> ps[i].id != id
    ensures Without(ps, id) == ps
  {
    if ps != [] {
      DeleteAbsentId(ps[1..], id);
      assert ps == [ps[0]] + ps[1..];
    }
  }

  // ---------------------------------------------------------------------------
  // The page state and its handlers
  // ---------------------------------------------------------------------------

  class ProductTable {
    var products: seq<Product>
    var searchTerm: string
    var sortField: ProductKey
    var sortDirection: SortDirection
    var filterCategory: string
    var isAddDialogOpen: bool
    var isEditDialogOpen: bool
    var editingProductId: Option<int>
    var newProduct: ProductForm
    var editProduct: ProductForm

    /** The page once the fetch has delivered `fetched`: no search, sorted by title ascending, dialogs closed. */
    constructor (fetched: seq<Product>)
      ensures products == fetched && searchTerm == "" && filterCategory == AllCategories
      ensures sortField == TitleKey && sortDirection == Asc
      ensures !isAddDialogOpen && !isEditDialogOpen && editingProductId == None
      ensures newProduct == EmptyForm && editProduct == EmptyForm
    {
      products := fetched;
      searchTerm := "";
      sortField := TitleKey;
      sortDirection := Asc;
      filterCategory := AllCategories;
      isAddDialogOpen := false;
      isEditDialogOpen := false;
      editingProductId := None;
      newProduct := EmptyForm;
      editProduct := EmptyForm;
    }

    /** `handleSort`: the same column flips the direction; another column sorts ascending by it. */
    method HandleSort(field: ProductKey)
      modifies this`sortField, this`sortDirection
      ensures sortField == field
      ensures field == old(sortField) ==> sortDirection != old(sortDirection)
      ensures field != old(sortField) ==> sortDirection == Asc
    {
      if sortField == field {
        sortDirection := if sortDirection == Asc then Desc else Asc;
      } else {
        sortField := field;
        sortDirection := Asc;
      }
    }

    /** `handleDelete`: the products with that id go, the others stay in order. */
    method HandleDelete(id: int)
      modifies this`products
      ensures products == Without(old(products), id)
      ensures UniqueIds(old(products)) ==> UniqueIds(products)
    {
      if UniqueIds(products) {
        DeleteKeepsIdsUnique(products, id);
      }
      products := Without(products, id);
    }

    /** `handleEdit`: remembers the product's id, fills the edit form from it and opens the dialog. */
    method HandleEdit(product: Product)
      modifies this`editingProductId, this`editProduct, this`isEditDialogOpen
      ensures editingProductId == Some(product.id)
      ensures editProduct == FormOf(product)
      ensures isEditDialogOpen
    {
      editingProductId := Some(product.id);
      editProduct := FormOf(product);
      isEditDialogOpen := true;
    }

    /**
     * `handleUpdateProduct`: when the guard holds, the product(s) with the editing
     * id take the form's values, the editing id is cleared, the form emptied and
     * the dialog closed; otherwise nothing changes.
     */
    method HandleUpdateProduct()
      requires UpdateGuard(editingProductId, editProduct) ==> EditNumbersReadable(editProduct)
      modifies this`products, this`editingProductId, this`editProduct, this`isEditDialogOpen
      ensures UpdateGuard(old(editingProductId), old(editProduct)) ==>
                && products == ApplyEdit(old(products), old(editingProductId).value, old(editProduct))
                && editingProductId == None && editProduct == EmptyForm && !isEditDialogOpen
      ensures !UpdateGuard(old(editingProductId), old(editProduct)) ==>
                && products == old(products) && editingProductId == old(editingProductId)
                && editProduct == old(editProduct) && isEditDialogOpen == old(isEditDialogOpen)
      ensures UniqueIds(old(products)) ==> UniqueIds(products)
    {
      if UpdateGuard(editingProductId, editProduct) {
        products := ApplyEdit(products, editingProductId.value, editProduct);
        editingProductId := None;
        editProduct := EmptyForm;
        isEditDialogOpen := false;
      }
    }

    /**
     * `handleAddProduct`: when the guard holds, one product with the next id is
     * appended, the form emptied and the dialog closed; otherwise nothing changes.
     */
    method HandleAddProduct()
      requires AddGuard(newProduct) ==> AddNumbersReadable(newProduct)
      modifies this`products, this`newProduct, this`isAddDialogOpen
      ensures AddGuard(old(newProduct)) ==>
                && products == old(products) + [NewProductFrom(NextId(old(products)), old(newProduct))]
                && newProduct == EmptyForm && !isAddDialogOpen
      ensures !AddGuard(old(newProduct)) ==>
                products == old(products) && newProduct == old(newProduct) && isAddDialogOpen == old(isAddDialogOpen)
      ensures UniqueIds(old(products)) ==> UniqueIds(products)
    {
      if AddGuard(newProduct) {
        var id := NextId(products);
        products := products + [NewProductFrom(id, newProduct)];
        newProduct := EmptyForm;
        isAddDialogOpen := false;
      }
    }
  }
}
