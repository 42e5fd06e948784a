/** One real-estate listing as the application reads it from its static data
    file. Only the integer fields the logic looks at are modelled exactly; the
    descriptive fields are carried along uninterpreted. */
module Listings {

  datatype Listing = Listing(
    Id: int,
    Bedrooms: int,
    Bathrooms: int,
    Parking: int,
    SalePrice: int,          // the "Sale Price" field
    Title: string,
    Location: string)
}
