/** Sub-documents that the Payment and Order schemas declare with the same shape:
    customer, delivery address, a purchased line (a cart item in a Payment, a product
    in an Order) and the pricing breakdown. Amounts are integer cents throughout. */
module Records {
  import opened Base

  /** A document id (Mongo's ObjectId), handed out by a collection's counter. */
  type ObjectId = nat

  /** An opaque timestamp (the milliseconds of `Date.now()`). */
  type Time = int

  /** The two delivery methods the schemas' enum admits. */
  const DeliveryMethods: seq<string> := ["domicile", "point_relais"]

  datatype CustomerInfo = CustomerInfo(name: Option<string>, email: Option<string>, phone: Option<string>)

  /** A delivery address; an address that is missing altogether has every field absent. */
  datatype Address = Address(line1: Option<string>, city: Option<string>, postalCode: Option<string>, country: Option<string>)

  /** One purchased line: `items[]` in a Payment, `products[]` in an Order. */
  datatype Line = Line(id: Option<int>, name: string, description: Option<string>,
                       price: int, quantity: int, image: Option<string>)

  datatype Pricing = Pricing(subtotal: int, deliveryFee: int, total: int)

  /** Mongoose's `required` validator on a String path: present and not empty. */
  predicate Required(s: Option<string>)
  {
    Truthy(s)
  }

  /** The required paths shared by both schemas: customer name and email and the four
      address fields. */
  predicate CustomerComplete(c: CustomerInfo, a: Address)
  {
    Required(c.name) && Required(c.email)
    && Required(a.line1) && Required(a.city) && Required(a.postalCode) && Required(a.country)
  }

  /** `deliveryMethod` is required and must be one of the enum's values. */
  predicate DeliveryMethodValid(m: Option<string>)
  {
    m.Some? && m.value in DeliveryMethods
  }

  /** Every line carries the required `name`. The schemas declare `price` and `quantity`
      required too; a `Line` always holds both numbers, so those two validators cannot fail
      here (a cart line without them is refused by Stripe before anything is saved). */
  predicate LinesValid(lines: seq<Line>)
  {
    forall i :: 0 <= i < |lines| ==> lines[i].name != ""
  }
}
