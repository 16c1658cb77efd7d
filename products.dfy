/**
  The Product Service (product_manager/products/views.py): the product
  detail lookup and the stock update endpoint, over a store of products
  keyed by id.
 */
module Products {
  import opened Wrappers
  import opened Coercion

  /** A product row; `price` is a two-decimal amount, kept here in cents. */
  datatype Product = Product(name: string, priceCents: int, stock: nat)

  datatype ProductError =
    | ProductNotFound      // 'Product not found' (404)
    | StockNotInteger      // 'Stock must be a valid integer' (400)
    | StockNegative        // 'Stock cannot be negative' (400)

  /** The store after a stock update request, and the response sent. */
  datatype Patched = Patched(products: map<nat, Product>, response: Result<Product, ProductError>)

  /**
    PATCH /products/{pk}/stock/: look the product up, then coerce and check
    the `stock` field, then overwrite the stock. The error cases are listed
    in the order the endpoint checks them.
   */
  function PatchStock(products: map<nat, Product>, pk: nat, stock: Field): (r: Patched)
    ensures r.response == Err(ProductNotFound) <==> pk !in products
    ensures r.response == Err(StockNotInteger) <==> pk in products && !stock.IntLike?
    ensures r.response == Err(StockNegative) <==> pk in products && stock.IntLike? && stock.n < 0
    ensures r.response.Err? ==> r.products == products
    ensures r.response.Ok? ==>
      && pk in products && stock.IntLike? && stock.n >= 0
      && r.response.value == Product(products[pk].name, products[pk].priceCents, stock.n)
      && r.products == products[pk := r.response.value]
  {
    if pk !in products then Patched(products, Err(ProductNotFound))
    else match stock
      case Missing => Patched(products, Err(StockNotInteger))
      case NotInt => Patched(products, Err(StockNotInteger))
      case IntLike(n) =>
        if n < 0 then Patched(products, Err(StockNegative))
        else
          var updated := products[pk].(stock := n);
          Patched(products[pk := updated], Ok(updated))
  }

  /** A stock update leaves every other product as it was, and never adds or drops a product. */
  lemma PatchStockFrame(products: map<nat, Product>, pk: nat, stock: Field, other: nat)
    requires other != pk
    ensures PatchStock(products, pk, stock).products.Keys == products.Keys
    ensures other in products ==> PatchStock(products, pk, stock).products[other] == products[other]
  {
  }

  /** Last writer wins: a second successful update overrides the first, whatever it wrote. */
  lemma PatchStockLastWriterWins(products: map<nat, Product>, pk: nat, first: Field, second: nat)
    ensures PatchStock(PatchStock(products, pk, first).products, pk, IntLike(second))
         == PatchStock(products, pk, IntLike(second))
  {
  }

  /** Applying the same update twice gives the same store and the same response as applying it once. */
  lemma PatchStockIdempotent(products: map<nat, Product>, pk: nat, stock: Field)
    ensures PatchStock(PatchStock(products, pk, stock).products, pk, stock) == PatchStock(products, pk, stock)
  {
  }

  /**
    The value the order workflow sends after its `stock < quantity` guard,
    stock - quantity for a product it has just fetched, always passes the
    update's checks and leaves exactly that stock.
   */
  lemma DeductionAlwaysAccepted(products: map<nat, Product>, pk: nat, quantity: nat)
    requires pk in products && quantity <= products[pk].stock
    ensures PatchStock(products, pk, IntLike(products[pk].stock - quantity)).response.Ok?
    ensures PatchStock(products, pk, IntLike(products[pk].stock - quantity)).products[pk].stock
         == products[pk].stock - quantity
  {
  }

  /** The Product Service's own database of products. */
  class ProductService {
    var products: map<nat, Product>

    constructor (initial: map<nat, Product>)
      ensures products == initial
    {
      products := initial;
    }

    /** GET /products/{pk}/: the product, or 'Product not found'. */
    method Detail(pk: nat) returns (r: Result<Product, ProductError>)
      ensures r.Ok? <==> pk in products
      ensures r.Ok? ==> r.value == products[pk]
      ensures r.Err? ==> r.error == ProductNotFound
    {
      if pk in products {
        r := Ok(products[pk]);
      } else {
        r := Err(ProductNotFound);
      }
    }

    /** PATCH /products/{pk}/stock/: guard checks, then overwrite the stock field and save. */
    method UpdateStock(pk: nat, stock: Field) returns (r: Result<Product, ProductError>)
      modifies this
      ensures products == PatchStock(old(products), pk, stock).products
      ensures r == PatchStock(old(products), pk, stock).response
    {
      if pk !in products {
        return Err(ProductNotFound);
      }
      var n: int;
      match stock {
        case Missing => return Err(StockNotInteger);
        case NotInt => return Err(StockNotInteger);
        case IntLike(v) => n := v;
      }
      if n < 0 {
        return Err(StockNegative);
      }
      var product := products[pk];
      product := product.(stock := n);
      products := products[pk := product];
      r := Ok(product);
    }
  }
}
