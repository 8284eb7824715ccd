/** Partial updates and the object-spread merge `{ ...old, ...updates }`
    the stores apply with them. A partial record lists, per field, whether
    the update carries that key (`Some`) or leaves it out (`None`); a
    carried key overwrites the old value, including `id`, and a carried
    `services` list replaces the category's whole list. */
module Patches {
  import opened Domain

  /** `Partial<Product>`. */
  datatype ProductPatch = ProductPatch(
    id: Option<string>,
    name: Option<string>,
    category: Option<string>,
    productType: Option<ProductType>,
    brand: Option<Brand>,
    condition: Option<Condition>,
    price: Option<int>,
    stock: Option<int>,
    image: Option<string>,
    description: Option<string>,
    specs: Option<Specs>)

  /** `Partial<ServiceCategory>`. */
  datatype CategoryPatch = CategoryPatch(
    id: Option<string>,
    category: Option<string>,
    description: Option<string>,
    services: Option<seq<ServiceItem>>)

  /** The later of two optional values: `b` when it is present, else `a`. */
  function Later<T>(a: Option<T>, b: Option<T>): Option<T> {
    if b.Some? then b else a
  }

  /** The update that carries no key at all. */
  const NoProductChanges := ProductPatch(None, None, None, None, None, None, None, None, None, None, None)

  const NoCategoryChanges := CategoryPatch(None, None, None, None)

  /** `{ ...p, ...u }` for a product. */
  function MergeProduct(p: Product, u: ProductPatch): Product {
    Product(
      u.id.Otherwise(p.id),
      u.name.Otherwise(p.name),
      u.category.Otherwise(p.category),
      u.productType.Otherwise(p.productType),
      u.brand.Otherwise(p.brand),
      u.condition.Otherwise(p.condition),
      u.price.Otherwise(p.price),
      u.stock.Otherwise(p.stock),
      u.image.Otherwise(p.image),
      u.description.Otherwise(p.description),
      Later(p.specs, u.specs))
  }

  /** `{ ...u, ...v }` for two product updates: `v`'s keys win. */
  function CombineProductPatches(u: ProductPatch, v: ProductPatch): ProductPatch {
    ProductPatch(
      Later(u.id, v.id),
      Later(u.name, v.name),
      Later(u.category, v.category),
      Later(u.productType, v.productType),
      Later(u.brand, v.brand),
      Later(u.condition, v.condition),
      Later(u.price, v.price),
      Later(u.stock, v.stock),
      Later(u.image, v.image),
      Later(u.description, v.description),
      Later(u.specs, v.specs))
  }

  /** A whole product used as an update, as the inventory editor does when
      it loads the selected product into its form: every key is carried,
      except `specs` when the product has none. */
  function ProductAsPatch(q: Product): ProductPatch {
    ProductPatch(
      Some(q.id), Some(q.name), Some(q.category), Some(q.productType), Some(q.brand),
      Some(q.condition), Some(q.price), Some(q.stock), Some(q.image), Some(q.description),
      q.specs)
  }

  /** `{ ...c, ...u }` for a service category. */
  function MergeCategory(c: ServiceCategory, u: CategoryPatch): ServiceCategory {
    ServiceCategory(
      u.id.Otherwise(c.id),
      u.category.Otherwise(c.category),
      u.description.Otherwise(c.description),
      u.services.Otherwise(c.services))
  }

  /** The update the service editor sends: name, description and the whole
      edited list of service items, never an id. */
  function CategoryPayload(category: string, description: string, services: seq<ServiceItem>): CategoryPatch {
    CategoryPatch(None, Some(category), Some(description), Some(services))
  }

  // ------------------------------------------------------------------ lemmas

  /** An update that carries no key changes nothing. */
  lemma MergeProductNoChanges(p: Product)
    ensures MergeProduct(p, NoProductChanges) == p
  {
  }

  /** Applying two updates in turn is applying their combination once. */
  lemma MergeProductCompose(p: Product, u: ProductPatch, v: ProductPatch)
    ensures MergeProduct(MergeProduct(p, u), v) == MergeProduct(p, CombineProductPatches(u, v))
  {
  }

  /** Applying the same update twice is applying it once. */
  lemma MergeProductIdempotent(p: Product, u: ProductPatch)
    ensures MergeProduct(MergeProduct(p, u), u) == MergeProduct(p, u)
  {
  }

  /** Every field the update carries reads back as the carried value (the
      id included); every field it leaves out reads back as before. */
  lemma MergeProductFields(p: Product, u: ProductPatch)
    ensures MergeProduct(p, u).id == (if u.id.Some? then u.id.value else p.id)
    ensures MergeProduct(p, u).name == (if u.name.Some? then u.name.value else p.name)
    ensures MergeProduct(p, u).category == (if u.category.Some? then u.category.value else p.category)
    ensures MergeProduct(p, u).productType == (if u.productType.Some? then u.productType.value else p.productType)
    ensures MergeProduct(p, u).brand == (if u.brand.Some? then u.brand.value else p.brand)
    ensures MergeProduct(p, u).condition == (if u.condition.Some? then u.condition.value else p.condition)
    ensures MergeProduct(p, u).price == (if u.price.Some? then u.price.value else p.price)
    ensures MergeProduct(p, u).stock == (if u.stock.Some? then u.stock.value else p.stock)
    ensures MergeProduct(p, u).image == (if u.image.Some? then u.image.value else p.image)
    ensures MergeProduct(p, u).description == (if u.description.Some? then u.description.value else p.description)
    ensures MergeProduct(p, u).specs == (if u.specs.Some? then u.specs else p.specs)
  {
  }

  /** Merging a whole product overwrites everything, and keeps the old
      specs only when the new product has none. */
  lemma MergeWholeProduct(p: Product, q: Product)
    ensures MergeProduct(p, ProductAsPatch(q)) == q.(specs := if q.specs.Some? then q.specs else p.specs)
  {
  }

  /** An update that carries no key leaves a category as it was. */
  lemma MergeCategoryNoChanges(c: ServiceCategory)
    ensures MergeCategory(c, NoCategoryChanges) == c
  {
  }

  /** Every key a category update carries reads back as the carried value
      (the id and the whole `services` list included); every key it leaves
      out reads back as before. */
  lemma MergeCategoryFields(c: ServiceCategory, u: CategoryPatch)
    ensures MergeCategory(c, u).id == (if u.id.Some? then u.id.value else c.id)
    ensures MergeCategory(c, u).category == (if u.category.Some? then u.category.value else c.category)
    ensures MergeCategory(c, u).description == (if u.description.Some? then u.description.value else c.description)
    ensures MergeCategory(c, u).services == (if u.services.Some? then u.services.value else c.services)
  {
  }

  /** The editor's payload keeps the category's identity and replaces its
      name, description and whole service list: no item of the old list
      survives unless the new list holds it, and the new list's order is
      kept. */
  lemma MergeCategoryPayload(c: ServiceCategory, category: string, description: string, services: seq<ServiceItem>)
    ensures MergeCategory(c, CategoryPayload(category, description, services))
            == ServiceCategory(c.id, category, description, services)
  {
  }
}
