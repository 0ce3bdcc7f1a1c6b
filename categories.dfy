/** The category entities shared by the hooks, the form and the admin page. */
module Categories {
  import opened Common

  /** A file chosen in the image input; only its identity matters to the model. */
  datatype ImageFile = ImageFile(handle: nat)

  /**
   * A category as the server returns it. `parentId` is the nullable reference
   * that makes the categories a tree; `count` is computed by the server.
   */
  datatype Category = Category(
    id: nat,
    name: string,
    slug: string,
    parentId: Option<nat>,
    isActive: bool,
    image: Option<string>,
    count: Option<nat>)

  /** The editable fields of the category form (the payload without its image). */
  datatype CategoryFields = CategoryFields(
    name: string,
    slug: string,
    parentId: Option<nat>,
    isActive: bool)

  /** What the form hands to its submit callback: the fields and the chosen image, or null. */
  datatype CategoryPayload = CategoryPayload(fields: CategoryFields, image: Option<ImageFile>)

  /** Pagination information of a list reply. */
  datatype PageMeta = PageMeta(currentPage: int, totalPages: int)

  /** The `{ data, meta }` body of a paginated list reply. */
  datatype CategoryPage = CategoryPage(data: seq<Category>, meta: Option<PageMeta>)
}
