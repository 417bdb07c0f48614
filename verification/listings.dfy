/**
 The slice of a listing record that the loader and the data-preparation
 script look at: the two numeric identifiers, the property type and the
 coordinates. The many display fields of the record are carried through
 unchanged by everything modelled here and are therefore left out.
 */
module Listings {

  /** One listing. `id` and `hostId` are JavaScript numbers in the client,
      modelled as exact integers. */
  datatype Listing = Listing(
    id: int,
    hostId: int,
    propertyType: string,
    latitude: real,
    longitude: real
  )
}
