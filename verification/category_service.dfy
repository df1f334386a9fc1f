/**
 * The category service: look-up, create and update with their argument
 * checks, and the cascading delete that removes the category's products
 * and every cart line that references one of them.
 */
module CategoryService {
  import opened Common
  import opened ShopData
  import opened CategoryMapper

  /** The products of a category (category.Products). */
  function ProductsOf(products: map<string, Product>, categoryId: string): (ids: set<string>)
    ensures forall k :: k in ids <==> k in products && products[k].categoryId == Some(categoryId)
  {
    set k | k in products && products[k].categoryId == Some(categoryId)
  }

  class CategoryService {
    const db: ShopDb

    constructor (db: ShopDb)
      ensures this.db == db
    {
      this.db := db;
    }

    /** GetCategoryByIdAsync: a blank or non-GUID id is refused, an unknown
        id is not found, and a known one gives its DTO. */
    function GetCategoryById(id: string): (r: Result<CategoryView>)
      reads db
      ensures r.Err? ==> r.error in {Invalid, NotFound}
      ensures r.Err? && r.error == Invalid <==> !GuidId(id)
      ensures r.Ok? <==> GuidId(id) && id in db.categories
      ensures r.Ok? ==> MapToCategoryDTO(Some(db.categories[id])) == Some(r.value)
    {
      if !GuidId(id) then Err(Invalid)
      else if id !in db.categories then Err(NotFound)
      else Ok(MapToCategoryDTO(Some(db.categories[id])).value)
    }

    /** CreateCategoryAsync: a null DTO or a blank name is refused;
        otherwise exactly one category is added, under a fresh id. */
    method CreateCategory(dto: Option<CategoryCreate>, newId: string) returns (r: Result<CategoryView>)
      requires db.Valid() && newId !in db.categories
      modifies db`categories
      ensures db.Valid()
      ensures r.Err? <==> dto.None? || BlankOpt(dto.value.name)
      ensures r.Err? ==> r.error == Invalid && db.categories == old(db.categories)
      ensures r.Ok? ==> db.categories == old(db.categories)[newId := MapToCategory(dto, newId).value]
                        && r.value == CategoryView(newId, dto.value.name, dto.value.description, dto.value.image)
    {
      if dto.None? || BlankOpt(dto.value.name) {
        return Err(Invalid);
      }
      var c := MapToCategory(dto, newId).value;
      db.categories := db.categories[newId := c];
      CreateThenView(dto.value, newId);
      return Ok(MapToCategoryDTO(Some(c)).value);
    }

    /** UpdateCategoryAsync: the DTO must be present with a GUID id and a
        name; an unknown id is not found; otherwise that category gets the
        DTO's name, description and image and keeps its id, and no other
        category changes. */
    method UpdateCategory(dto: Option<CategoryUpdate>) returns (r: Result<bool>)
      requires db.Valid()
      modifies db`categories
      ensures db.Valid()
      ensures (dto.None? || BlankOpt(dto.value.id) || !IsGuid(dto.value.id.value) || BlankOpt(dto.value.name)) ==>
                r == Err(Invalid) && db.categories == old(db.categories)
      ensures r.Ok? ==> dto.Some? && !BlankOpt(dto.value.name) && GuidId(dto.value.id.value)
      ensures dto.Some? && !BlankOpt(dto.value.id) && IsGuid(dto.value.id.value) && !BlankOpt(dto.value.name) ==>
                var id := dto.value.id.value;
                && (id !in old(db.categories) ==> r == Err(NotFound) && db.categories == old(db.categories))
                && (id in old(db.categories) ==>
                      && r == Ok(true)
                      && db.categories.Keys == old(db.categories).Keys
                      && db.categories[id] == Category(id, dto.value.name, dto.value.description, dto.value.image)
                      && (forall k :: k in old(db.categories) && k != id ==> db.categories[k] == old(db.categories)[k]))
    {
      if dto.None? || BlankOpt(dto.value.id) || !IsGuid(dto.value.id.value) || BlankOpt(dto.value.name) {
        return Err(Invalid);
      }
      var id := dto.value.id.value;
      if id !in db.categories {
        return Err(NotFound);
      }
      var updated := MapToCategoryUpdate(dto, Some(db.categories[id])).value;
      db.categories := db.categories[id := updated];
      return Ok(true);
    }

    /** The inner loop of the delete: every cart line of one product is
        removed, in table order. */
    method RemoveLinesOf(productId: string)
      modifies db`cartItems
      ensures db.cartItems == Without(old(db.cartItems), {productId})
    {
      var items := db.cartItems;
      var kept: seq<CartItem> := [];
      for k := 0 to |items|
        invariant kept == Without(items[..k], {productId})
      {
        assert items[..k + 1] == items[..k] + [items[k]];
        WithoutAppend(items[..k], items[k], {productId});
        if items[k].productId != productId {
          kept := kept + [items[k]];
        }
      }
      assert items[..|items|] == items;
      db.cartItems := kept;
    }

    /** The outer loop of the delete: for each doomed product, its cart
        lines, then the product itself. */
    method RemoveProducts(doomed: set<string>)
      modifies db`products, db`cartItems
      ensures db.products == old(db.products) - doomed
      ensures db.cartItems == Without(old(db.cartItems), doomed)
    {
      ghost var products0 := db.products;
      ghost var items0 := db.cartItems;
      var remaining := doomed;
      ghost var done: set<string> := {};
      assert Without(items0, {}) == items0 by {
        WithoutNone(items0);
      }
      while remaining != {}
        invariant remaining + done == doomed && remaining !! done
        invariant db.products == products0 - done
        invariant db.cartItems == Without(items0, done)
        decreases remaining
      {
        var productId :| productId in remaining;
        RemoveLinesOf(productId);
        WithoutTwice(items0, done, productId);
        db.products := db.products - {productId};
        remaining := remaining - {productId};
        done := done + {productId};
      }
    }

    /** DeleteCategoryAsync: a blank or non-GUID id is refused and an
        unknown one is not found, with nothing removed. Otherwise the cart
        lines of the category's products go, then those products, then
        the category; every other record stays. */
    method DeleteCategory(id: string) returns (r: Result<bool>)
      requires db.Valid()
      modifies db`categories, db`products, db`cartItems
      ensures db.Valid()
      ensures !GuidId(id) ==> r == Err(Invalid)
      ensures GuidId(id) && id !in old(db.categories) ==> r == Err(NotFound)
      ensures r.Err? ==> db.categories == old(db.categories) && db.products == old(db.products)
                         && db.cartItems == old(db.cartItems)
      ensures r.Ok? <==> GuidId(id) && id in old(db.categories)
      ensures r.Ok? ==>
                && db.categories == old(db.categories) - {id}
                && db.products == old(db.products) - ProductsOf(old(db.products), id)
                && db.cartItems == Without(old(db.cartItems), ProductsOf(old(db.products), id))
    {
      if !GuidId(id) {
        return Err(Invalid);
      }
      if id !in db.categories {
        return Err(NotFound);
      }
      var doomed := ProductsOf(db.products, id);
      WithoutOneLine(db.cartItems, doomed);
      RemoveProducts(doomed);
      db.categories := db.categories - {id};
      return Ok(true);
    }
  }
}
