/** The product page (ProductDetails.tsx): the size, colour, image and
    quantity selections and the "Add to Cart" button. The page shows a
    fixed mock product whatever the route's id. */
module ProductDetailsPage {
  import opened CartContext

  datatype ShownProduct = ShownProduct(
    id: string, name: string, price: int,
    images: seq<string>, sizes: seq<string>, colors: seq<string>)

  const MockProduct: ShownProduct := ShownProduct(
    "1", "Summer Floral Dress", 2499,
    ["/products/dress1.jpg", "/products/dress2.jpg", "/products/dress3.jpg", "/products/dress4.jpg"],
    ["XS", "S", "M", "L", "XL"],
    ["Blue", "Pink", "White"])

  class ProductDetailsView {
    var selectedSize: string
    var selectedColor: string
    var quantity: int
    var selectedImage: string

    /** The stepper never shows a quantity below 1. */
    ghost predicate Valid()
      reads this
    {
      quantity >= 1
    }

    constructor()
      ensures Valid()
      ensures selectedSize == "M" && selectedColor == "Blue" && quantity == 1
      ensures selectedImage == MockProduct.images[0]
    {
      selectedSize := "M";
      selectedColor := "Blue";
      quantity := 1;
      selectedImage := MockProduct.images[0];
    }

    /** The minus button: `Math.max(1, quantity - 1)`. */
    method Decrement()
      requires Valid()
      modifies this`quantity
      ensures Valid()
      ensures quantity == if old(quantity) > 1 then old(quantity) - 1 else 1
    {
      quantity := if quantity - 1 > 1 then quantity - 1 else 1;
    }

    /** The plus button. */
    method Increment()
      requires Valid()
      modifies this`quantity
      ensures Valid()
      ensures quantity == old(quantity) + 1
    {
      quantity := quantity + 1;
    }

    method SelectSize(size: string)
      modifies this`selectedSize
      ensures selectedSize == size
    {
      selectedSize := size;
    }

    method SelectColor(color: string)
      modifies this`selectedColor
      ensures selectedColor == color
    {
      selectedColor := color;
    }

    method SelectImage(image: string)
      modifies this`selectedImage
      ensures selectedImage == image
    {
      selectedImage := image;
    }

    /** `addToCart`: the action dispatched, built from the current selections. */
    method AddToCart() returns (action: CartAction)
      requires Valid()
      ensures action.AddItem?
      ensures action.payload == CartItem(
                MockProduct.id, MockProduct.name, MockProduct.price,
                selectedImage, quantity, selectedSize, selectedColor)
      ensures action.payload.quantity >= 1
    {
      action := AddItem(CartItem(
        MockProduct.id, MockProduct.name, MockProduct.price,
        selectedImage, quantity, selectedSize, selectedColor));
    }
  }
}
