/**
 * The data-transfer objects exchanged between the three services
 * (`com.wfsample.common.dto`), with the fields the controllers use.
 */
module Dto {
  import opened Wrappers

  /** Java's `int`. */
  newtype int32 = x: int | IsInt32(x)

  predicate IsInt32(x: int) {
    -0x8000_0000 <= x < 0x8000_0000
  }

  datatype ShirtStyle = ShirtStyle(name: string, imageUrl: string)

  datatype Shirt = Shirt(style: ShirtStyle)

  /** One manufactured batch; the shirt list is a nullable reference in the source. */
  datatype PackedShirts = PackedShirts(shirts: Option<seq<Shirt>>)

  datatype Order = Order(styleName: string, quantity: int32)

  datatype DeliveryStatus = DeliveryStatus(orderNum: string, trackingNum: string, status: string)
}
