/** The errors the engine throws, one constructor per distinct `throw` (or JavaScript TypeError). */
module Errors {

  datatype Error =
      /** "Cannot breed asexually": a parent is missing */
    | BreedAsexually
      /** "Only Nemeions can be bred here": a parent is not a creature */
    | OnlyNemeions
      /** "Parent genders do not match reality for breeding" */
    | GendersMismatch
      /** "incompatible builds": no usable inherit chance from the father's build to the mother's */
    | IncompatibleBuilds
      /** a TypeError from reading a property of a configuration entry that is not there */
    | MissingConfig
      /** "Cannot breed just anywhere" / "Cannot make Nemeions without a random generator" */
    | MissingGenerator
      /** "Can only breed in a NemeionBreedingGround" / "Can only make Nemeions with a NemeionRandomGenerator" */
    | WrongGenerator
      /** a TypeError from writing the mutations of the first offspring of an empty litter */
    | NoFirstOffspring
}
