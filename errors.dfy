/** The exceptions the cost engine can raise, one constructor per raise site kind. */
module Errors {

  datatype Error =
    | UnknownCareType(careType: string)                 // care type not in the base-cost table, or not dispatchable
    | MissingCostType(careType: string, costType: string) // the base-cost entry has no such cost field
    | NoTierIncrements(careType: string)               // the care type has no tier table
    | UnknownTier(tier: string)                        // the tier is not in the care type's tier table
    | DivisionByZero                                   // the add-on scale factor divides by a zero sum
}
