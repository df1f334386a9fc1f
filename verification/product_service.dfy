/**
 * The product catalogue service: the paged product query (argument
 * checks, filters, sort, page) and the add, update and delete commands.
 */
module ProductService {
  import opened Common
  import opened ShopData
  import Sorting
  import opened Paging

  // ---------------------------------------------------------------------
  // GetAllAsync
  // ---------------------------------------------------------------------

  /** The arguments of GetAllAsync. */
  datatype ProductQuery = ProductQuery(
    pageNumber: Int32,
    pageSize: Int32,
    status: Option<PendingStatus>,
    categoryId: Option<string>,
    subCategoryId: Option<string>,
    nameSearch: Option<string>,
    sortBy: Option<string>,
    sortDescending: bool)

  /** The argument checks: a page number of at least 1, a page size from
      1 to 100, and category and subcategory ids that are either blank or
      GUIDs. */
  predicate QueryValid(q: ProductQuery) {
    && q.pageNumber >= 1
    && 1 <= q.pageSize <= 100
    && (BlankOpt(q.categoryId) || IsGuid(q.categoryId.value))
    && (BlankOpt(q.subCategoryId) || IsGuid(q.subCategoryId.value))
  }

  /** The filters: each applies only when its argument is given (not
      blank); the name filter is a case-insensitive substring test. */
  predicate Matches(p: Product, q: ProductQuery) {
    && (q.status.Some? ==> p.status == q.status.value)
    && (!BlankOpt(q.categoryId) ==> p.categoryId == q.categoryId)
    && (!BlankOpt(q.subCategoryId) ==> p.subCategoryId == q.subCategoryId)
    && (!BlankOpt(q.nameSearch) ==> ContainsIgnoreCase(p.name, q.nameSearch.value))
  }

  /** The Where chain: the matching products, each as often as in the
      input, in input order. */
  function Filtered(all: seq<Product>, q: ProductQuery): (r: seq<Product>)
    ensures |r| <= |all|
    ensures forall x :: multiset(r)[x] == if Matches(x, q) then multiset(all)[x] else 0
    ensures forall x :: x in r <==> x in all && Matches(x, q)
  {
    if all == [] then []
    else
      var rest := Filtered(all[1..], q);
      assert all == [all[0]] + all[1..];
      if Matches(all[0], q) then [all[0]] + rest else rest
  }

  /** The filter keeps input order: filtering a concatenation
      concatenates the filtered parts. */
  lemma {:induction false} FilteredConcat(xs: seq<Product>, ys: seq<Product>, q: ProductQuery)
    ensures Filtered(xs + ys, q) == Filtered(xs, q) + Filtered(ys, q)
  {
    if xs == [] {
      assert xs + ys == ys;
    } else {
      var x, rest := xs[0], xs[1..];
      assert xs == [x] + rest;
      assert xs + ys == [x] + (rest + ys);
      var a, b := Filtered(rest, q), Filtered(ys, q);
      var h: seq<Product> := if Matches(x, q) then [x] else [];
      FilteredConcat(rest, ys, q);
      FilteredCons(x, rest + ys, q);
      FilteredCons(x, rest, q);
      calc {
        Filtered(xs + ys, q);
        Filtered([x] + (rest + ys), q);
        h + Filtered(rest + ys, q);
        h + (a + b);
        { ConcatAssoc(h, a, b); }
        (h + a) + b;
        Filtered([x] + rest, q) + b;
        Filtered(xs, q) + b;
      }
    }
  }

  /** A single product is kept exactly when it matches. */
  lemma FilteredUnit(x: Product, q: ProductQuery)
    ensures Filtered([x], q) == if Matches(x, q) then [x] else []
  {
    FilteredCons(x, [], q);
  }

  /** Filtering a product followed by a list: the product if it matches,
      then the filtered list. */
  lemma FilteredCons(x: Product, rest: seq<Product>, q: ProductQuery)
    ensures Filtered([x] + rest, q) == (if Matches(x, q) then [x] else []) + Filtered(rest, q)
  {
    assert ([x] + rest)[0] == x && ([x] + rest)[1..] == rest;
  }

  datatype SortKey = ByPrice | ByName | ByStock | ById

  /** sortBy?.ToLower(): "price", "name" and "stock" pick their key; any
      other value, and null, sort by Id. */
  function SortKeyOf(sortBy: Option<string>): SortKey {
    if sortBy.None? then ById
    else
      var s := LowerString(sortBy.value);
      if s == "price" then ByPrice
      else if s == "name" then ByName
      else if s == "stock" then ByStock
      else ById
  }

  /** The ascending key order of each sort. */
  function KeyOrder(k: SortKey): (Product, Product) -> bool {
    match k
    case ByPrice => (a: Product, b: Product) => a.price <= b.price
    case ByName => (a: Product, b: Product) => StrLe(a.name, b.name)
    case ByStock => (a: Product, b: Product) => a.stock <= b.stock
    case ById => (a: Product, b: Product) => StrLe(a.id, b.id)
  }

  /** The order of the listing: descending applies to price, name and
      stock only; the Id order is always ascending. */
  function OrderFor(q: ProductQuery): (Product, Product) -> bool {
    var k := SortKeyOf(q.sortBy);
    if q.sortDescending && k != ById then Sorting.Flip(KeyOrder(k)) else KeyOrder(k)
  }

  lemma OrderForPreorder(q: ProductQuery)
    ensures Sorting.TotalPreorder(OrderFor(q))
  {
    var k := SortKeyOf(q.sortBy);
    var le := KeyOrder(k);
    if k == ByName {
      forall a: Product, b: Product ensures le(a, b) || le(b, a) {
        StrLeTotal(a.name, b.name);
      }
      forall a: Product, b: Product, c: Product | le(a, b) && le(b, c) ensures le(a, c) {
        StrLeTrans(a.name, b.name, c.name);
      }
    } else if k == ById {
      forall a: Product, b: Product ensures le(a, b) || le(b, a) {
        StrLeTotal(a.id, b.id);
      }
      forall a: Product, b: Product, c: Product | le(a, b) && le(b, c) ensures le(a, c) {
        StrLeTrans(a.id, b.id, c.id);
      }
    }
    assert Sorting.TotalPreorder(le);
    if q.sortDescending && k != ById {
      Sorting.FlipPreorder(le);
    }
  }

  /** The filtered products in the order of the query. */
  function Listing(all: seq<Product>, q: ProductQuery): seq<Product> {
    Sorting.SortBy(Filtered(all, q), OrderFor(q))
  }

  /** PaginatedDTO<ProductCardDTO>, with the products themselves as items. */
  datatype ProductPage = ProductPage(pageNumber: int, pageSize: int, totalItems: int, items: seq<Product>)

  /** GetAllAsync over the products the repository enumerates, in that
      order, with the page offset computed without overflow. */
  function GetAll(all: seq<Product>, q: ProductQuery): (r: Result<ProductPage>)
    ensures r.Err? <==> !QueryValid(q)
    ensures r.Err? ==> r.error == Invalid
    ensures r.Ok? ==> r.value.pageNumber == q.pageNumber && r.value.pageSize == q.pageSize
                      && r.value.totalItems == |Filtered(all, q)| && |r.value.items| <= q.pageSize
  {
    if !QueryValid(q) then Err(Invalid)
    else Ok(Paged(Listing(all, q), q, Offset(q.pageNumber, q.pageSize)))
  }

  /** The page the query returns when it skips `offset` products. */
  function Paged(listing: seq<Product>, q: ProductQuery, offset: int): ProductPage {
    ProductPage(q.pageNumber, q.pageSize, |listing|, Window(listing, offset, q.pageSize))
  }

  /** The query fails exactly on bad arguments, and then with Invalid. */
  lemma GetAllRefuses(all: seq<Product>, q: ProductQuery)
    ensures GetAll(all, q).Err? <==> !QueryValid(q)
    ensures GetAll(all, q).Err? ==> GetAll(all, q).error == Invalid
  {
  }

  /** On valid arguments the total counts every matching product before
      paging, and the items match every filter, are in the query's order
      and are at most pageSize many. */
  lemma GetAllItems(all: seq<Product>, q: ProductQuery)
    requires QueryValid(q)
    ensures GetAll(all, q).Ok?
    ensures var page := GetAll(all, q).value;
            && page.pageNumber == q.pageNumber && page.pageSize == q.pageSize
            && page.totalItems == |Filtered(all, q)|
            && (forall x :: x in page.items ==> x in all && Matches(x, q))
            && Sorting.SortedBy(page.items, OrderFor(q))
            && |page.items| <= q.pageSize
  {
    var listing := Listing(all, q);
    var items := GetAll(all, q).value.items;
    OrderForPreorder(q);
    Sorting.SortBySorted(Filtered(all, q), OrderFor(q));
    PageSlice(listing, q.pageNumber, q.pageSize);
    forall x | x in items ensures x in all && Matches(x, q) {
      assert multiset(listing)[x] > 0;
    }
  }

  /** On valid arguments the items are the run of the listing that starts
      at (pageNumber - 1) * pageSize, and they are empty exactly when the
      page is past TotalPages. */
  lemma GetAllPage(all: seq<Product>, q: ProductQuery)
    requires QueryValid(q)
    ensures GetAll(all, q).Ok?
    ensures var page := GetAll(all, q).value;
            var listing := Listing(all, q);
            var off := Offset(q.pageNumber, q.pageSize);
            && off >= 0
            && (off < |listing| ==> off + |page.items| <= |listing| && page.items == listing[off..off + |page.items|])
            && (page.items != [] <==> q.pageNumber <= TotalPages(page.totalItems, q.pageSize))
  {
    var listing := Listing(all, q);
    var page := Paged(listing, q, Offset(q.pageNumber, q.pageSize));
    assert GetAll(all, q).value == page;
    PagedSlice(listing, q);
  }

  /** GetAllPage for any listing. */
  lemma PagedSlice(listing: seq<Product>, q: ProductQuery)
    requires q.pageNumber >= 1 && q.pageSize >= 1
    ensures var page := Paged(listing, q, Offset(q.pageNumber, q.pageSize));
            var off := Offset(q.pageNumber, q.pageSize);
            && off >= 0
            && (off < |listing| ==> off + |page.items| <= |listing| && page.items == listing[off..off + |page.items|])
            && (page.items != [] <==> q.pageNumber <= TotalPages(page.totalItems, q.pageSize))
  {
    PageSlice(listing, q.pageNumber, q.pageSize);
  }

  /** GetAllAsync as written: (pageNumber - 1) * pageSize is C# int
      arithmetic, so it wraps; Skip then treats a negative count as 0. */
  function GetAllAsWritten(all: seq<Product>, q: ProductQuery): (r: Result<ProductPage>)
    ensures r.Err? <==> !QueryValid(q)
    ensures r.Err? ==> r.error == Invalid
    ensures r.Ok? ==> r.value.pageNumber == q.pageNumber && r.value.pageSize == q.pageSize
                      && r.value.totalItems == |Filtered(all, q)| && |r.value.items| <= q.pageSize
  {
    if !QueryValid(q) then Err(Invalid)
    else Ok(Paged(Listing(all, q), q, Wrap32(Offset(q.pageNumber, q.pageSize))))
  }

  /** The two agree while the offset fits in an int. */
  lemma GetAllAsWrittenAgrees(all: seq<Product>, q: ProductQuery)
    requires Offset(q.pageNumber, q.pageSize) < 0x8000_0000
    ensures GetAllAsWritten(all, q) == GetAll(all, q)
  {
    if QueryValid(q) {
      var off := Offset(q.pageNumber, q.pageSize);
      PageSlice(Listing(all, q), q.pageNumber, q.pageSize);
      assert Wrap32(off) == off;
    }
  }

  /** Page 21474838 of size 100 starts at 2147483700, past int.MaxValue:
      the wrapped offset is negative, so a catalogue of fewer than 2^31
      products gets its first page back where the page is past the end. */
  lemma PageOffsetWraps(all: seq<Product>)
    requires 0 < |all| < 0x8000_0000
    ensures var q := ProductQuery(21474838, 100, None, None, None, None, None, false);
            && GetAllAsWritten(all, q).Ok? && GetAllAsWritten(all, q).value.items != []
            && GetAll(all, q).Ok? && GetAll(all, q).value.items == []
  {
    var q := ProductQuery(21474838, 100, None, None, None, None, None, false);
    assert QueryValid(q);
    var listing := Listing(all, q);
    assert Matches(all[0], q);
    assert multiset(Filtered(all, q))[all[0]] > 0;
    assert 0 < |listing| <= |all|;
    var off := Offset(21474838, 100);
    assert off == 2147483700;
    assert Wrap32(off) == -2147483596;
    assert Window(listing, off, 100) == [];
    assert Window(listing, Wrap32(off), 100) != [];
  }

  // ---------------------------------------------------------------------
  // AddAsync, UpdateAsync, DeleteAsync
  // ---------------------------------------------------------------------

  datatype SpecificationInput = SpecificationInput(key: string, value: string)

  datatype WarrantyInput = WarrantyInput(description: string, startDate: int, endDate: int)

  /** The fields ProductCreateDTO and ProductUpdateDTO carry. */
  datatype ProductInput = ProductInput(
    name: Option<string>,
    price: real,
    discountPrice: Option<real>,
    description: Option<string>,
    stock: int,
    categoryId: Option<string>,
    subCategoryId: Option<string>,
    techManagerId: Option<string>,
    stockControlManagerId: Option<string>,
    status: PendingStatus,
    imageUrl: Option<string>,
    specifications: Option<seq<SpecificationInput>>,
    warranties: Option<seq<WarrantyInput>>)

  /** AddAsync's checks: a name, a positive price, a stock of at least
      zero, and category ids that are blank or GUIDs. */
  predicate AddAllowed(dto: Option<ProductInput>) {
    && dto.Some?
    && !BlankOpt(dto.value.name)
    && dto.value.price > 0.0
    && dto.value.stock >= 0
    && (BlankOpt(dto.value.categoryId) || IsGuid(dto.value.categoryId.value))
    && (BlankOpt(dto.value.subCategoryId) || IsGuid(dto.value.subCategoryId.value))
  }

  /** UpdateAsync's checks: a GUID id, a name, a positive price and a
      stock of at least zero. The category ids are not checked. */
  predicate UpdateAllowed(id: string, dto: Option<ProductInput>) {
    && GuidId(id)
    && dto.Some?
    && !BlankOpt(dto.value.name)
    && dto.value.price > 0.0
    && dto.value.stock >= 0
  }

  function Inputs<T>(s: Option<seq<T>>): seq<T> {
    if s.None? then [] else s.value
  }

  /** The product carries the DTO: every field the update overwrites,
      and exactly the DTO's specifications and warranties (none for a
      null list), each tied to the product. */
  ghost predicate Carries(p: Product, d: ProductInput) {
    && Some(p.name) == d.name
    && p.price == d.price && p.discountPrice == d.discountPrice
    && p.description == d.description && p.stock == d.stock
    && p.categoryId == d.categoryId && p.subCategoryId == d.subCategoryId
    && p.techManagerId == d.techManagerId && p.stockControlManagerId == d.stockControlManagerId
    && p.status == d.status && p.imageUrl == d.imageUrl
    && |p.specifications| == |Inputs(d.specifications)|
    && (forall k :: 0 <= k < |p.specifications| ==>
          p.specifications[k] == Specification(Inputs(d.specifications)[k].key, Inputs(d.specifications)[k].value, p.id))
    && |p.warranties| == |Inputs(d.warranties)|
    && (forall k :: 0 <= k < |p.warranties| ==>
          p.warranties[k] == Warranty(Inputs(d.warranties)[k].description, Inputs(d.warranties)[k].startDate,
                                      Inputs(d.warranties)[k].endDate, p.id))
  }

  /** ProductMapper.MapToProduct for a new product with id `id`. */
  function MapToProduct(d: ProductInput, id: string): (p: Product)
    requires d.name.Some?
    ensures p.id == id && Carries(p, d)
  {
    var specs := Inputs(d.specifications);
    var warranties := Inputs(d.warranties);
    Product(id, d.name.value, d.price, d.discountPrice, d.description, d.stock,
            d.categoryId, d.subCategoryId, d.techManagerId, d.stockControlManagerId, d.status, d.imageUrl,
            seq(|specs|, k requires 0 <= k < |specs| => Specification(specs[k].key, specs[k].value, id)),
            seq(|warranties|, k requires 0 <= k < |warranties| =>
                  Warranty(warranties[k].description, warranties[k].startDate, warranties[k].endDate, id)))
  }

  class ProductService {
    const db: ShopDb

    constructor (db: ShopDb)
      ensures this.db == db
    {
      this.db := db;
    }

    /** AddAsync: a valid DTO becomes one new product under a fresh id;
        anything else is refused and nothing is stored. */
    method Add(dto: Option<ProductInput>, newId: string) returns (r: Result<Product>)
      requires db.Valid() && newId !in db.products
      modifies db`products
      ensures db.Valid()
      ensures r.Ok? <==> AddAllowed(dto)
      ensures r.Err? ==> r.error == Invalid && db.products == old(db.products)
      ensures r.Ok? ==> r.value.id == newId && Carries(r.value, dto.value)
                        && db.products == old(db.products)[newId := r.value]
    {
      if !AddAllowed(dto) {
        return Err(Invalid);
      }
      var p := MapToProduct(dto.value, newId);
      db.products := db.products[newId := p];
      return Ok(p);
    }

    /** Builds the product's new specifications: Clear() then one Add per
        DTO entry. */
    method RefillSpecifications(id: string, inputs: Option<seq<SpecificationInput>>) returns (specs: seq<Specification>)
      ensures |specs| == |Inputs(inputs)|
      ensures forall k :: 0 <= k < |specs| ==>
                specs[k] == Specification(Inputs(inputs)[k].key, Inputs(inputs)[k].value, id)
    {
      specs := [];
      if inputs.Some? {
        var entries := inputs.value;
        for k := 0 to |entries|
          invariant |specs| == k
          invariant forall j :: 0 <= j < k ==> specs[j] == Specification(entries[j].key, entries[j].value, id)
        {
          specs := specs + [Specification(entries[k].key, entries[k].value, id)];
        }
      }
    }

    /** Builds the product's new warranties: Clear() then one Add per DTO
        entry. */
    method RefillWarranties(id: string, inputs: Option<seq<WarrantyInput>>) returns (warranties: seq<Warranty>)
      ensures |warranties| == |Inputs(inputs)|
      ensures forall k :: 0 <= k < |warranties| ==>
                warranties[k] == Warranty(Inputs(inputs)[k].description, Inputs(inputs)[k].startDate,
                                          Inputs(inputs)[k].endDate, id)
    {
      warranties := [];
      if inputs.Some? {
        var entries := inputs.value;
        for k := 0 to |entries|
          invariant |warranties| == k
          invariant forall j :: 0 <= j < k ==>
                      warranties[j] == Warranty(entries[j].description, entries[j].startDate, entries[j].endDate, id)
        {
          warranties := warranties + [Warranty(entries[k].description, entries[k].startDate, entries[k].endDate, id)];
        }
      }
    }

    /** UpdateAsync: after the checks and the look-up, the product carries
        the DTO (its old specifications and warranties are gone) and keeps
        its id; no other product changes. */
    method Update(id: string, dto: Option<ProductInput>) returns (r: Result<bool>)
      requires db.Valid()
      modifies db`products
      ensures db.Valid()
      ensures !UpdateAllowed(id, dto) ==> r == Err(Invalid) && db.products == old(db.products)
      ensures UpdateAllowed(id, dto) && id !in old(db.products) ==> r == Err(NotFound) && db.products == old(db.products)
      ensures UpdateAllowed(id, dto) && id in old(db.products) ==>
                && r == Ok(true)
                && db.products.Keys == old(db.products).Keys
                && db.products[id].id == id && Carries(db.products[id], dto.value)
                && (forall k :: k in old(db.products) && k != id ==> db.products[k] == old(db.products)[k])
    {
      if !GuidId(id) || dto.None? || BlankOpt(dto.value.name)
         || dto.value.price <= 0.0 || dto.value.stock < 0 {
        return Err(Invalid);
      }
      if id !in db.products {
        return Err(NotFound);
      }
      var d := dto.value;
      var p := db.products[id];
      var specs := RefillSpecifications(p.id, d.specifications);
      var warranties := RefillWarranties(p.id, d.warranties);
      db.products := db.products[id := p.(name := d.name.value, price := d.price, discountPrice := d.discountPrice,
                                          description := d.description, stock := d.stock,
                                          categoryId := d.categoryId, subCategoryId := d.subCategoryId,
                                          techManagerId := d.techManagerId,
                                          stockControlManagerId := d.stockControlManagerId,
                                          status := d.status, imageUrl := d.imageUrl,
                                          specifications := specs, warranties := warranties)];
      return Ok(true);
    }

    /** DeleteAsync: a blank or non-GUID id is refused, an unknown one is
        not found, and a known product is removed; nothing else changes. */
    method Delete(id: string) returns (r: Result<bool>)
      requires db.Valid()
      modifies db`products
      ensures db.Valid()
      ensures !GuidId(id) ==> r == Err(Invalid) && db.products == old(db.products)
      ensures GuidId(id) && id !in old(db.products) ==> r == Err(NotFound) && db.products == old(db.products)
      ensures GuidId(id) && id in old(db.products) ==> r == Ok(true) && db.products == old(db.products) - {id}
    {
      if !GuidId(id) {
        return Err(Invalid);
      }
      if id !in db.products {
        return Err(NotFound);
      }
      db.products := db.products - {id};
      return Ok(true);
    }
  }
}
