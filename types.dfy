/** The catalog records of src/types.ts. Optional properties become Option values. */
module Types {

  datatype Option<+T> = None | Some(value: T)

  /** A physical shop; the coordinates are optional. */
  datatype Store = Store(id: string, name: string, latitude: Option<real>, longitude: Option<real>)

  /** A flat category tag. */
  datatype Category = Category(id: string, name: string)

  /** An offer; its store and category are embedded by value. */
  datatype Promotion = Promotion(
    id: string,
    title: string,
    description: string,
    store: Store,
    category: Category,
    imageUrl: string,
    discountPercentage: Option<real>,
    discountCode: Option<string>,
    validUntil: Option<string>,
    isSpecial: Option<bool>)

  /** `promotion.isSpecial` is truthy: present and true (absent counts as false). */
  predicate IsSpecial(p: Promotion) {
    p.isSpecial == Some(true)
  }
}
