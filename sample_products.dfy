/** The five sample products and the helper that makes their image URLs absolute. */
module SampleProducts {
  import opened Wrappers
  import opened Text

  datatype Product = Product(id: string, name: string, description: string, price: string, category: string, imageUrl: string)

  /**
   * get_image_url: `tunnelUrl` is what the retrying tunnel lookup returned for
   * this call; a truthy URL is prefixed to the path, otherwise the path stays relative.
   */
  function GetImageUrl(tunnelUrl: Option<string>, imagePath: string): (r: string)
    ensures tunnelUrl.Some? && tunnelUrl.value != "" ==> r == tunnelUrl.value + imagePath
    ensures !(tunnelUrl.Some? && tunnelUrl.value != "") ==> r == imagePath
    ensures EndsWith(r, imagePath)
  {
    if tunnelUrl.Some? && tunnelUrl.value != "" then tunnelUrl.value + imagePath else imagePath
  }

  const ImagePaths: seq<string> := [
    "/static/products/tshirt.jpg", "/static/products/jeans.jpg", "/static/products/phone.jpg",
    "/static/products/shoe.jpg", "/static/products/ear_buds.jpg"]

  /** The columns of the `products` list, entry by entry. */
  const Ids: seq<string> := ["prod1", "prod2", "prod3", "prod4", "prod5"]
  const Names: seq<string> := ["Cotton T-Shirt", "Denim Jeans", "Smartphone", "Running Shoes", "Wireless Earbuds"]
  const Descriptions: seq<string> := [
    "A comfortable 100% cotton white t-shirt", "Classic blue denim jeans with straight fit",
    "Latest Android smartphone with 6.5 inch display and 64MP camera",
    "Comfortable running shoes with extra cushioning", "Bluetooth wireless earbuds with noise cancellation"]
  const Prices: seq<string> := ["₹499", "₹1299", "₹12999", "₹2499", "₹1999"]
  const Categories: seq<string> := ["apparel", "apparel", "electronics", "footwear", "electronics"]

  /** The k-th product, its image URL made from the k-th tunnel lookup. */
  function Entry(tunnelUrl: Option<string>, k: nat): (p: Product)
    requires k < 5
    ensures p.id == Ids[k] && p.price == Prices[k] && p.category == Categories[k]
    ensures p.imageUrl == GetImageUrl(tunnelUrl, ImagePaths[k])
  {
    Product(Ids[k], Names[k], Descriptions[k], Prices[k], Categories[k], GetImageUrl(tunnelUrl, ImagePaths[k]))
  }

  /**
   * The module-level `products` list. Each entry calls get_image_url once, so
   * `tunnelUrls[k]` is the tunnel lookup seen by the k-th product.
   */
  function Catalog(tunnelUrls: seq<Option<string>>): (ps: seq<Product>)
    requires |tunnelUrls| == 5
    ensures |ps| == 5
    ensures forall k :: 0 <= k < 5 ==> ps[k] == Entry(tunnelUrls[k], k)
  {
    [Entry(tunnelUrls[0], 0), Entry(tunnelUrls[1], 1), Entry(tunnelUrls[2], 2),
     Entry(tunnelUrls[3], 3), Entry(tunnelUrls[4], 4)]
  }

  /** Product ids are unique, prices are rupee amounts, and every image URL ends in its static path. */
  lemma CatalogWellFormed(tunnelUrls: seq<Option<string>>)
    requires |tunnelUrls| == 5
    ensures forall i, j :: 0 <= i < j < 5 ==> Catalog(tunnelUrls)[i].id != Catalog(tunnelUrls)[j].id
    ensures forall k :: 0 <= k < 5 ==> StartsWith(Catalog(tunnelUrls)[k].price, "₹")
    ensures forall k :: 0 <= k < 5 ==> EndsWith(Catalog(tunnelUrls)[k].imageUrl, ImagePaths[k])
    ensures forall k :: 0 <= k < 5 ==>
      Catalog(tunnelUrls)[k].category in {"apparel", "electronics", "footwear"}
  {
    var ps := Catalog(tunnelUrls);
    forall i, j | 0 <= i < j < 5
      ensures ps[i].id != ps[j].id
    {
      IdDigit(i);
      IdDigit(j);
      assert ps[i].id[4] != ps[j].id[4];
    }
    forall k | 0 <= k < 5
      ensures StartsWith(ps[k].price, "₹")
      ensures ps[k].category in {"apparel", "electronics", "footwear"}
    {
      PriceAndCategory(k);
    }
  }

  /** The k-th id is "prod" followed by the digit k + 1. */
  lemma IdDigit(k: nat)
    requires k < 5
    ensures |Ids[k]| == 5 && Ids[k][4] == "12345"[k]
  {
  }

  /** The k-th price starts with the rupee sign and its category is one of the three. */
  lemma PriceAndCategory(k: nat)
    requires k < 5
    ensures StartsWith(Prices[k], "₹")
    ensures Categories[k] in {"apparel", "electronics", "footwear"}
  {
    assert Prices[k][..1] == "₹";
  }

  /** Without a tunnel every image URL is the bare static path. */
  lemma LocalImagePaths(tunnelUrls: seq<Option<string>>)
    requires |tunnelUrls| == 5
    requires forall k :: 0 <= k < 5 ==> tunnelUrls[k].None?
    ensures forall k :: 0 <= k < 5 ==> Catalog(tunnelUrls)[k].imageUrl == ImagePaths[k]
  {
  }
}
