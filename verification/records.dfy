/**
 * The records the views read from the remote store and hand to each other. Field names
 * follow the store's columns and the listing objects the pages build; identifiers are
 * kept as strings throughout.
 */
module Records {
  import opened Wrappers
  import opened Geo

  /** The `users(full_name, avatar_url, email)` row joined onto a product. */
  datatype UserRow = UserRow(fullName: Option<string>, avatarUrl: Option<string>, email: Option<string>)

  /** A row of the `products` table, with its optional `users` join. */
  datatype ProductRow = ProductRow(
    id: string,
    ownerId: Option<string>,
    name: string,
    category: string,
    description: Option<string>,
    pricePerHour: real,
    imageUrl: string,
    galleryUrls: Option<seq<string>>,
    rating: Option<real>,
    lat: real,
    lng: real,
    users: Option<UserRow>)

  /** A row of `rental_requests` with its `products(*)` join, absent when the join misses. */
  datatype RentalRequest = RentalRequest(
    id: string,
    requesterId: string,
    status: string,
    totalPrice: real,
    products: Option<ProductRow>)

  /**
   * A listing as the home page shows it and the detail view receives it. `location` is a
   * latitude-first array; `ownerExperience` and `totalRents` exist on the built-in listings only.
   */
  datatype Machine = Machine(
    id: string,
    title: string,
    kind: string,
    image: string,
    rating: string,
    price: string,
    desc: Option<string>,
    ownerName: string,
    ownerImage: string,
    ownerExperience: Option<string>,
    totalRents: Option<string>,
    location: Option<Pair<real>>,
    gallery: Option<seq<string>>)
}
