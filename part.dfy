/** The `parts` table row (data/Part.kt). */
module PartEntity {

  /** Kotlin's `Int`. */
  newtype Int32 = x: int | -0x8000_0000 <= x < 0x8000_0000

  /**
   * An immutable record compared field by field; `partNumber` is the primary
   * key of the table and `quantity` is 0 unless given.
   */
  datatype Part = Part(partNumber: string, description: string, location: string, quantity: Int32 := 0)

  /** A record built without a quantity has quantity 0, whatever the other fields. */
  lemma DefaultQuantity(partNumber: string, description: string, location: string)
    ensures Part(partNumber, description, location).quantity == 0
    ensures Part(partNumber, description, location) == Part(partNumber, description, location, 0)
  {
  }
}
