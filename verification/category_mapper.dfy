/**
 * CategoryMapper: the category read DTO, the entity built from a create
 * DTO, the overwrite of an existing entity from an update DTO, and the
 * list mapping.
 */
module CategoryMapper {
  import opened Common
  import opened ShopData

  /** CategoryDTO. */
  datatype CategoryView = CategoryView(id: string, name: Option<string>, description: Option<string>, image: Option<string>)

  /** CategoryCreateDTO. */
  datatype CategoryCreate = CategoryCreate(name: Option<string>, description: Option<string>, image: Option<string>)

  /** CategoryUpdateDTO. */
  datatype CategoryUpdate = CategoryUpdate(id: Option<string>, name: Option<string>, image: Option<string>, description: Option<string>)

  function View(c: Category): CategoryView {
    CategoryView(c.id, c.name, c.description, c.image)
  }

  /** MapToCategoryDTO: null maps to null; otherwise the DTO carries the
      entity's id, name, image and description. */
  function MapToCategoryDTO(c: Option<Category>): (r: Option<CategoryView>)
    ensures r.None? <==> c.None?
    ensures r.Some? ==> r.value.id == c.value.id && r.value.name == c.value.name
                        && r.value.image == c.value.image && r.value.description == c.value.description
  {
    if c.None? then None else Some(View(c.value))
  }

  /** MapToCategory(CategoryCreateDTO): null maps to null; otherwise a
      new entity, under the id the entity's constructor draws, with the
      DTO's name, description and image. */
  function MapToCategory(dto: Option<CategoryCreate>, id: string): (r: Option<Category>)
    ensures r.None? <==> dto.None?
    ensures r.Some? ==> r.value.id == id && r.value.name == dto.value.name
                        && r.value.description == dto.value.description && r.value.image == dto.value.image
  {
    if dto.None? then None else Some(Category(id, dto.value.name, dto.value.description, dto.value.image))
  }

  /** MapToCategory(CategoryUpdateDTO, Category): null for either argument
      gives null; otherwise the existing entity with exactly its name,
      description and image overwritten. The DTO's id is not copied. */
  function MapToCategoryUpdate(dto: Option<CategoryUpdate>, existing: Option<Category>): (r: Option<Category>)
    ensures r.None? <==> dto.None? || existing.None?
    ensures r.Some? ==> r.value.name == dto.value.name && r.value.description == dto.value.description
                        && r.value.image == dto.value.image
    ensures r.Some? ==> r.value.(name := existing.value.name, description := existing.value.description,
                                 image := existing.value.image) == existing.value
  {
    if dto.None? || existing.None? then None
    else Some(existing.value.(name := dto.value.name, description := dto.value.description, image := dto.value.image))
  }

  /** Creating from a DTO and reading back gives the DTO's fields under
      the new id. */
  lemma CreateThenView(dto: CategoryCreate, id: string)
    ensures MapToCategoryDTO(MapToCategory(Some(dto), id))
            == Some(CategoryView(id, dto.name, dto.description, dto.image))
  {
  }

  /** Updating is idempotent, and an update followed by a read shows the
      DTO's fields under the entity's own id, whatever id the DTO names. */
  lemma UpdateThenView(dto: CategoryUpdate, c: Category)
    ensures MapToCategoryUpdate(Some(dto), MapToCategoryUpdate(Some(dto), Some(c))) == MapToCategoryUpdate(Some(dto), Some(c))
    ensures MapToCategoryDTO(MapToCategoryUpdate(Some(dto), Some(c)))
            == Some(CategoryView(c.id, dto.name, dto.description, dto.image))
  {
  }

  /** MapToCategoryDTOList: null gives the empty list; otherwise one DTO
      per non-null entity, in order, and no null entry. */
  function MapToCategoryDTOList(cs: Option<seq<Option<Category>>>): (r: seq<CategoryView>)
    ensures cs.None? ==> r == []
    ensures cs.Some? ==> |r| == CountSome(cs.value)
    ensures cs.Some? ==> forall j :: 0 <= j < |cs.value| && cs.value[j].Some? ==> View(cs.value[j].value) in r
    ensures cs.Some? ==> forall i :: 0 <= i < |r| ==>
              exists j :: 0 <= j < |cs.value| && cs.value[j].Some? && r[i] == View(cs.value[j].value)
  {
    if cs.None? then []
    else
      SelectSomeLength(cs.value, View);
      SelectSome(cs.value, View)
  }

  /** MapToCategoryDTOList keeps the order of the list: mapping a concatenation
      concatenates the mapped lists, a non-null entity becomes its DTO and
      a null entry is dropped. */
  lemma CategoryDTOListOrder(xs: seq<Option<Category>>, ys: seq<Option<Category>>, c: Category)
    ensures MapToCategoryDTOList(Some(xs + ys)) == MapToCategoryDTOList(Some(xs)) + MapToCategoryDTOList(Some(ys))
    ensures MapToCategoryDTOList(Some([Some(c)])) == [View(c)]
    ensures MapToCategoryDTOList(Some([None])) == []
  {
    SelectSomeConcat(xs, ys, View);
    SelectSomeUnit(c, View);
  }
}
