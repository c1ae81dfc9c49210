/**
 * The materials a sample is made of, as the sample classes see them: values
 * compared by equality, one of which is the empty material VACUUM.
 */
module OptionsMaterial {
  datatype Material =
    | Vacuum
    | Material(name: string, composition: map<int, real>, densityKgM3: real)
}
