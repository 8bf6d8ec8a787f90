/**
 * The browser's local storage, restricted to the four keys the storefront
 * uses. Each key is a field; None means the key is absent. Values are kept
 * already parsed: `JSON.stringify` followed by `JSON.parse` is taken to give
 * back the same records.
 */
module Storage {
  import opened Common

  class LocalStorage {
    /** key `cart`: the guest cart */
    var cart: Option<seq<CartLine>>
    /** key `accessToken` */
    var accessToken: Option<string>
    /** key `refreshToken` */
    var refreshToken: Option<string>
    /** key `products`: the catalogue the products page cached */
    var products: Option<seq<Product>>
  }
}
