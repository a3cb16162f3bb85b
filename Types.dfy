/** The value records shared by the views and the places lookup
    (src/types.ts). */
module Types {
  import opened Wrappers

  /** An entry of the external strain catalog (read only). */
  datatype Strain = Strain(
    id: string,
    strainName: string,
    description: Option<string>,
    imageUrl: Option<string>,
    updatedAt: Option<string>)

  /** A directory-search result, as the upstream service returns it and as
      the places lookup passes it on. `types` is absent on some results. */
  datatype Place = Place(
    placeId: string,
    name: string,
    formattedAddress: string,
    types: Option<seq<string>>)
}
