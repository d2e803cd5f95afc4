/** The documents of the restaurant's store and the records the three pages keep in memory. */
module Types {

  /** A document id of the store (ingredients, menu, orders). */
  type Id = string

  datatype Option<T> = None | Some(value: T)

  /** One line of a recipe, `{ ingredientId, qty }`. */
  datatype RecipeLine = RecipeLine(ingredientId: Id, qty: real)

  /** A menu item as the pages hold it: the document id spread over the stored fields.
      Cart and ticket entries are copies of it, recipe included. A recipe the document
      does not have is the empty recipe: every use treats the two alike. */
  datatype MenuItem = MenuItem(id: Id, name: string, price: real, recipe: seq<RecipeLine>)

  /** A menu document as stored, `{ name, price, recipe }`. */
  datatype Dish = Dish(name: string, price: real, recipe: seq<RecipeLine>)

  /** An ingredient document, `{ name, unit, stock }`. */
  datatype Ingredient = Ingredient(name: string, unit: string, stock: real)

  /** An entry of a page's stock cache, `{ id, ...data }`; only the level is read. */
  datatype StockEntry = StockEntry(id: Id, stock: real)

  /** The order statuses "En attente", "En préparation" and "Payée". */
  datatype Status = Pending | InPreparation | Paid


  datatype Client = Client(name: string, phone: string)

  /** An order document. `client` and `kind` (the `type` field, "Online") are
      only present on orders placed from the public page. The server timestamp
      `createdAt` is not modelled. */
  datatype Order = Order(table: string, client: Option<Client>, items: seq<MenuItem>,
                         total: real, status: Status, kind: Option<string>)

  /** An order document with its id, as a snapshot listener delivers it. */
  datatype OrderDoc = OrderDoc(id: Id, order: Order)

  /** A recipe line the admin recipe builder accepts: an ingredient is chosen
      and the quantity is a positive number. */
  predicate ValidLine(line: RecipeLine) {
    line.ingredientId != "" && line.qty > 0.0
  }
}
