/**
 * The two WhatsApp endpoints: `/generate-link`, which answers with a product-inquiry or
 * a default greeting link, and `/checkout-link`, which prices a cart against the
 * product collection and builds the order message in a loop.
 *
 * Collections are maps from id to document; an absent or empty request field is the
 * empty string, which is what JavaScript's truthiness test rejects.
 */
module WhatsAppRoutes {
  import opened Common
  import opened StoreModel
  import opened WhatsApp

  /** The answer of `/generate-link`. */
  datatype LinkResult =
    | StoreNotFound
    | ProductNotFound
    | Link(link: string, phoneNumber: string, message: string)

  /** The greeting sent when no product is named. */
  function DefaultMessage(storeName: string): (m: string)
    ensures StartsWith(m, "Halo, saya ingin bertanya tentang produk di ")
    ensures |storeName| <= |m| && m[|m| - |storeName|..] == storeName
  {
    "Halo, saya ingin bertanya tentang produk di " + storeName
  }

  /**
   * `POST /generate-link`: 404 for an unknown store, decided before the product is
   * looked up; with a product id, 404 for an unknown product and otherwise the inquiry
   * message; without one, the default greeting naming the store.
   */
  function GenerateLink(stores: map<StoreId, Store>, products: map<ProductId, ProductInfo>,
                        storeId: StoreId, productId: ProductId, fmt: int -> string, encode: string -> string)
    : (r: LinkResult)
    ensures r == StoreNotFound <==> storeId !in stores
    ensures r == ProductNotFound <==> storeId in stores && productId != "" && productId !in products
    ensures r.Link? ==>
      r.phoneNumber == stores[storeId].whatsappNumber
      && r.link == WhatsAppLink(stores[storeId].whatsappNumber, r.message, encode)
    ensures r.Link? && productId == "" ==> r.message == DefaultMessage(stores[storeId].name)
    ensures r.Link? && productId != "" ==> r.message == InquiryMessage(products[productId], stores[storeId].name, fmt)
  {
    if storeId !in stores then StoreNotFound
    else
      var store := stores[storeId];
      if productId != "" then
        if productId !in products then ProductNotFound
        else
          var message := InquiryMessage(products[productId], store.name, fmt);
          Link(WhatsAppLink(store.whatsappNumber, message, encode), store.whatsappNumber, message)
      else
        var message := DefaultMessage(store.name);
        Link(WhatsAppLink(store.whatsappNumber, message, encode), store.whatsappNumber, message)
  }

  /**
   * The store is checked first: an unknown store is refused whatever the product
   * collection holds, and a known store with a known product always gets a link that
   * reads back to the store's normalised number.
   */
  lemma StoreCheckedFirst(stores: map<StoreId, Store>, products1: map<ProductId, ProductInfo>,
                          products2: map<ProductId, ProductInfo>, storeId: StoreId, productId: ProductId,
                          fmt: int -> string, encode: string -> string)
    ensures storeId !in stores ==>
      GenerateLink(stores, products1, storeId, productId, fmt, encode)
      == GenerateLink(stores, products2, storeId, productId, fmt, encode)
    ensures storeId in stores && (productId == "" || productId in products1) ==>
      var r := GenerateLink(stores, products1, storeId, productId, fmt, encode);
      r.Link? && LeadingDigits(r.link[|WaMePrefix|..]) == FormatPhoneNumber(stores[storeId].whatsappNumber)
  {
    if storeId in stores && (productId == "" || productId in products1) {
      var r := GenerateLink(stores, products1, storeId, productId, fmt, encode);
      WhatsAppLinkReadsBack(stores[storeId].whatsappNumber, r.message, encode);
    }
  }

  // ---------------------------------------------------------------- checkout

  /** One cart line of the request body. */
  datatype CartItem = CartItem(productId: ProductId, quantity: int)

  /** The `customerInfo` fields; the empty string stands for an absent field. */
  datatype CustomerInfo = CustomerInfo(name: string, phone: string, address: string, notes: string)

  /** The answer of `/checkout-link`. */
  datatype CheckoutResult =
    | CheckoutStoreNotFound
    | Checkout(link: string, phoneNumber: string, message: string, total: int)

  /** The order lines of the cart items whose product exists, in cart order. */
  function FoundLines(items: seq<CartItem>, products: map<ProductId, ProductInfo>): (lines: seq<LineItem>)
    ensures |lines| <= |items|
  {
    if items == [] then []
    else
      var last := items[|items| - 1];
      FoundLines(items[..|items| - 1], products)
      + if last.productId in products
        then [LineItem(products[last.productId].name, last.quantity, products[last.productId].price)]
        else []
  }

  /** The running `total`: price times quantity summed over the items whose product exists. */
  function CartTotal(items: seq<CartItem>, products: map<ProductId, ProductInfo>): int
  {
    if items == [] then 0
    else
      var last := items[|items| - 1];
      CartTotal(items[..|items| - 1], products)
      + if last.productId in products then products[last.productId].price * last.quantity else 0
  }

  /** The sum of the subtotals printed in the message. */
  function LinesTotal(lines: seq<LineItem>): int
  {
    if lines == [] then 0 else LinesTotal(lines[..|lines| - 1]) + lines[|lines| - 1].quantity * lines[|lines| - 1].price
  }

  const NameTag: string := "Nama: "
  const PhoneTag: string := "Telepon: "

  /** The buyer block: a title and one line per present field, nothing without `customerInfo`. */
  function CustomerPieces(customer: Option<CustomerInfo>): seq<string>
  {
    match customer
    case None => []
    case Some(c) =>
      [BuyerTitle]
      + When(c.name != "", BuyerLine(NameTag, c.name))
      + When(c.phone != "", BuyerLine(PhoneTag, c.phone))
      + When(c.address != "", BuyerLine(AddressTag, c.address))
      + When(c.notes != "", NotesSection(c.notes))
  }

  /** The pieces the checkout handler appends, in order. */
  function CheckoutPieces(storeName: string, lines: seq<LineItem>, total: int, customer: Option<CustomerInfo>,
                          fmt: int -> string): seq<string>
  {
    HeaderPieces(storeName) + ItemPieces(lines, fmt) + CheckoutFooterPieces(total, customer, fmt)
  }

  /** What follows the order lines: the total, the buyer block and the closing line. */
  function CheckoutFooterPieces(total: int, customer: Option<CustomerInfo>, fmt: int -> string): seq<string>
  {
    [TotalLine(total, fmt)] + CustomerPieces(customer) + [ThanksLine]
  }

  /** One more cart item adds its line to the found lines when its product exists. */
  lemma FoundStep(items: seq<CartItem>, products: map<ProductId, ProductInfo>, i: nat)
    requires i < |items|
    ensures items[i].productId in products ==>
      FoundLines(items[..i + 1], products) == FoundLines(items[..i], products)
        + [LineItem(products[items[i].productId].name, items[i].quantity, products[items[i].productId].price)]
    ensures items[i].productId !in products ==> FoundLines(items[..i + 1], products) == FoundLines(items[..i], products)
    ensures CartTotal(items[..i + 1], products) == CartTotal(items[..i], products)
      + if items[i].productId in products then products[items[i].productId].price * items[i].quantity else 0
  {
    assert items[..i + 1][..i] == items[..i];
  }

  /** One more cart item extends the message by its block when its product exists, and not at all otherwise. */
  lemma CartStep(header: seq<string>, items: seq<CartItem>, products: map<ProductId, ProductInfo>, i: nat,
                 fmt: int -> string)
    requires i < |items|
    ensures items[i].productId in products ==>
      var product := products[items[i].productId];
      Concat(header + ItemPieces(FoundLines(items[..i + 1], products), fmt))
      == Concat(header + ItemPieces(FoundLines(items[..i], products), fmt)) + NameLine(product.name)
         + QtyLine(items[i].quantity, product.price, fmt) + SubtotalLine(product.price * items[i].quantity, fmt)
    ensures items[i].productId !in products ==>
      Concat(header + ItemPieces(FoundLines(items[..i + 1], products), fmt))
      == Concat(header + ItemPieces(FoundLines(items[..i], products), fmt))
  {
    var item := items[i];
    FoundStep(items, products, i);
    if item.productId in products {
      var product := products[item.productId];
      var line := LineItem(product.name, item.quantity, product.price);
      LineSnoc(header, FoundLines(items[..i], products), line, fmt);
      assert item.quantity * product.price == product.price * item.quantity;
    }
  }

  /** The message is the items part followed by the footer. */
  lemma CheckoutFooter(storeName: string, lines: seq<LineItem>, total: int, customer: Option<CustomerInfo>,
                       fmt: int -> string)
    ensures Concat(CheckoutPieces(storeName, lines, total, customer, fmt))
      == Concat(HeaderPieces(storeName) + ItemPieces(lines, fmt))
         + Concat(CheckoutFooterPieces(total, customer, fmt))
  {
    ConcatAppend(HeaderPieces(storeName) + ItemPieces(lines, fmt), CheckoutFooterPieces(total, customer, fmt));
  }

  /**
   * `POST /checkout-link`: 404 for an unknown store; otherwise the header, one block
   * per cart item whose product exists (missing products are skipped), the total,
   * the buyer lines that are present, the closing line, and the link to the store.
   */
  method CheckoutLink(stores: map<StoreId, Store>, products: map<ProductId, ProductInfo>, storeId: StoreId,
                      items: seq<CartItem>, customer: Option<CustomerInfo>,
                      fmt: int -> string, encode: string -> string)
    returns (r: CheckoutResult)
    ensures storeId !in stores <==> r == CheckoutStoreNotFound
    ensures storeId in stores ==>
      var store := stores[storeId];
      r.Checkout? && r.total == CartTotal(items, products)
      && r.message == Concat(CheckoutPieces(store.name, FoundLines(items, products), r.total, customer, fmt))
      && r.phoneNumber == store.whatsappNumber
      && r.link == WhatsAppLink(store.whatsappNumber, r.message, encode)
  {
    if storeId !in stores {
      return CheckoutStoreNotFound;
    }
    var store := stores[storeId];
    var header := HeaderPieces(store.name);
    var message := Concat(header);
    var total := 0;
    assert items[..0] == [];
    assert header + ItemPieces(FoundLines(items[..0], products), fmt) == header;
    var i := 0;
    while i < |items|
      invariant 0 <= i <= |items|
      invariant total == CartTotal(items[..i], products)
      invariant message == Concat(header + ItemPieces(FoundLines(items[..i], products), fmt))
    {
      var item := items[i];
      CartStep(header, items, products, i, fmt);
      FoundStep(items, products, i);
      if item.productId in products {
        var product := products[item.productId];
        var subtotal := product.price * item.quantity;
        total := total + subtotal;
        message := message + NameLine(product.name) + QtyLine(item.quantity, product.price, fmt)
          + SubtotalLine(subtotal, fmt);
      }
      i := i + 1;
    }
    assert items[..|items|] == items;
    message := message + Concat(CheckoutFooterPieces(total, customer, fmt));
    CheckoutFooter(store.name, FoundLines(items, products), total, customer, fmt);
    r := Checkout(WhatsAppLink(store.whatsappNumber, message, encode), store.whatsappNumber, message, total);
  }

  // ---------------------------------------------------------------- properties

  lemma {:induction false} FoundLinesAppend(a: seq<CartItem>, b: seq<CartItem>, products: map<ProductId, ProductInfo>)
    ensures FoundLines(a + b, products) == FoundLines(a, products) + FoundLines(b, products)
    ensures CartTotal(a + b, products) == CartTotal(a, products) + CartTotal(b, products)
  {
    if b == [] {
      assert a + b == a;
    } else {
      var init := b[..|b| - 1];
      assert (a + b)[..|a + b| - 1] == a + init;
      FoundLinesAppend(a, init, products);
    }
  }

  /** The reported total is exactly the sum of the subtotals of the blocks in the message. */
  lemma {:induction false} TotalIsSumOfBlocks(items: seq<CartItem>, products: map<ProductId, ProductInfo>)
    ensures CartTotal(items, products) == LinesTotal(FoundLines(items, products))
  {
    if items != [] {
      var init := items[..|items| - 1];
      var last := items[|items| - 1];
      TotalIsSumOfBlocks(init, products);
      var f := FoundLines(init, products);
      if last.productId in products {
        var line := LineItem(products[last.productId].name, last.quantity, products[last.productId].price);
        assert FoundLines(items, products) == f + [line];
        assert (f + [line])[..|f|] == f;
      } else {
        assert FoundLines(items, products) == f;
      }
    }
  }

  /** A cart item whose product does not exist adds nothing to the total or to the message. */
  lemma MissingProductAddsNothing(a: seq<CartItem>, item: CartItem, b: seq<CartItem>,
                                  products: map<ProductId, ProductInfo>)
    requires item.productId !in products
    ensures FoundLines(a + [item] + b, products) == FoundLines(a + b, products)
    ensures CartTotal(a + [item] + b, products) == CartTotal(a + b, products)
  {
    FoundLinesAppend(a + [item], b, products);
    FoundLinesAppend(a, [item], products);
    FoundLinesAppend(a, b, products);
    assert [item][..0] == [];
  }

  /** With every product present, each cart item gets its own block, in cart order. */
  lemma {:induction false} AllFoundKeepsOrder(items: seq<CartItem>, products: map<ProductId, ProductInfo>)
    requires forall i :: 0 <= i < |items| ==> items[i].productId in products
    ensures |FoundLines(items, products)| == |items|
    ensures forall i :: 0 <= i < |items| ==>
      FoundLines(items, products)[i]
      == LineItem(products[items[i].productId].name, items[i].quantity, products[items[i].productId].price)
  {
    if items != [] {
      var init := items[..|items| - 1];
      AllFoundKeepsOrder(init, products);
      var f := FoundLines(init, products);
      var last := items[|items| - 1];
      assert FoundLines(items, products)
        == f + [LineItem(products[last.productId].name, last.quantity, products[last.productId].price)];
    }
  }

  /**
   * The checkout message repeats the order template of the helpers: with a buyer name
   * and phone present it is exactly the message `generateOrderMessage` builds for the
   * found lines, the cart total and the same buyer fields.
   */
  lemma CheckoutMatchesOrderTemplate(storeName: string, lines: seq<LineItem>, total: int, c: CustomerInfo,
                                     fmt: int -> string)
    requires c.name != "" && c.phone != ""
    ensures CheckoutPieces(storeName, lines, total, Some(c), fmt)
      == OrderPieces(OrderInfo(total, c.name, c.phone, c.address, c.notes), storeName, lines, fmt)
  {
    CheckoutFooterMatchesOrderFooter(total, c, fmt);
  }

  lemma CheckoutFooterMatchesOrderFooter(total: int, c: CustomerInfo, fmt: int -> string)
    requires c.name != "" && c.phone != ""
    ensures CheckoutFooterPieces(total, Some(c), fmt)
      == OrderFooterPieces(OrderInfo(total, c.name, c.phone, c.address, c.notes), fmt)
  {
    var a := When(c.address != "", BuyerLine(AddressTag, c.address));
    var o := When(c.notes != "", NotesSection(c.notes));
    var buyer := [BuyerTitle, BuyerLine(NameTag, c.name), BuyerLine(PhoneTag, c.phone)];
    assert CustomerPieces(Some(c)) == buyer + a + o;
    assert [TotalLine(total, fmt)] + (buyer + a + o) == [TotalLine(total, fmt)] + buyer + a + o;
  }


  // Buyer lines appear iff present.

  /** A single piece holds a section iff it starts with the tag. */
  lemma WhenSection(present: bool, x: string, tag: string)
    ensures HasSection(When(present, x), tag) <==> present && StartsWith(x, tag)
  {
    if present {
      assert When(present, x)[0] == x;
    }
  }

  lemma TagOpens(tag: string, rest: string)
    ensures StartsWith(tag + rest, tag)
  {
    assert (tag + rest)[..|tag|] == tag;
  }

  /** A piece that differs from `tag` in its first character does not open with it. */
  lemma FirstCharDiffers(x: string, tag: string)
    requires |x| > 0 && |tag| > 0 && x[0] != tag[0]
    ensures !StartsWith(x, tag)
  {
    if |tag| <= |x| {
      assert x[..|tag|][0] == x[0];
    }
  }

  /** In the buyer block, each field's line is present iff the field is. */
  lemma CustomerSections(c: CustomerInfo)
    ensures HasSection(CustomerPieces(Some(c)), NameTag) <==> c.name != ""
    ensures HasSection(CustomerPieces(Some(c)), PhoneTag) <==> c.phone != ""
    ensures HasSection(CustomerPieces(Some(c)), AddressTag) <==> c.address != ""
    ensures HasSection(CustomerPieces(Some(c)), NotesTitle) <==> c.notes != ""
  {
    NameSection(c);
    PhoneSection(c);
    AddressSection(c);
    NotesSectionPresent(c);
  }

  lemma NameSection(c: CustomerInfo)
    ensures HasSection(CustomerPieces(Some(c)), NameTag) <==> c.name != ""
  {
    BuyerSlots(c, NameTag);
    LineSlot(c.name != "", NameTag, c.name, NameTag);
    LineSlot(c.phone != "", PhoneTag, c.phone, NameTag);
    LineSlot(c.address != "", AddressTag, c.address, NameTag);
    LineSlot(c.notes != "", NotesTitle, c.notes, NameTag);
  }

  lemma PhoneSection(c: CustomerInfo)
    ensures HasSection(CustomerPieces(Some(c)), PhoneTag) <==> c.phone != ""
  {
    BuyerSlots(c, PhoneTag);
    LineSlot(c.name != "", NameTag, c.name, PhoneTag);
    LineSlot(c.phone != "", PhoneTag, c.phone, PhoneTag);
    LineSlot(c.address != "", AddressTag, c.address, PhoneTag);
    LineSlot(c.notes != "", NotesTitle, c.notes, PhoneTag);
  }

  lemma AddressSection(c: CustomerInfo)
    ensures HasSection(CustomerPieces(Some(c)), AddressTag) <==> c.address != ""
  {
    BuyerSlots(c, AddressTag);
    LineSlot(c.name != "", NameTag, c.name, AddressTag);
    LineSlot(c.phone != "", PhoneTag, c.phone, AddressTag);
    LineSlot(c.address != "", AddressTag, c.address, AddressTag);
    LineSlot(c.notes != "", NotesTitle, c.notes, AddressTag);
  }

  lemma NotesSectionPresent(c: CustomerInfo)
    ensures HasSection(CustomerPieces(Some(c)), NotesTitle) <==> c.notes != ""
  {
    BuyerSlots(c, NotesTitle);
    LineSlot(c.name != "", NameTag, c.name, NotesTitle);
    LineSlot(c.phone != "", PhoneTag, c.phone, NotesTitle);
    LineSlot(c.address != "", AddressTag, c.address, NotesTitle);
    LineSlot(c.notes != "", NotesTitle, c.notes, NotesTitle);
  }

  /** A tag that the buyer title does not open with is found in the buyer block iff in one of its four optional lines. */
  lemma BuyerSlots(c: CustomerInfo, tag: string)
    requires |tag| > 0 && tag[0] != BuyerTitle[0]
    ensures HasSection(CustomerPieces(Some(c)), tag) <==>
      HasSection(When(c.name != "", BuyerLine(NameTag, c.name)), tag)
      || HasSection(When(c.phone != "", BuyerLine(PhoneTag, c.phone)), tag)
      || HasSection(When(c.address != "", BuyerLine(AddressTag, c.address)), tag)
      || HasSection(When(c.notes != "", NotesSection(c.notes)), tag)
  {
    var t := [BuyerTitle];
    var n := When(c.name != "", BuyerLine(NameTag, c.name));
    var p := When(c.phone != "", BuyerLine(PhoneTag, c.phone));
    var a := When(c.address != "", BuyerLine(AddressTag, c.address));
    var o := When(c.notes != "", NotesSection(c.notes));
    assert CustomerPieces(Some(c)) == t + n + p + a + o;
    NoSection(t, tag, 0);
    HasSectionSplit(t + n + p + a, o, tag);
    HasSectionSplit(t + n + p, a, tag);
    HasSectionSplit(t + n, p, tag);
    HasSectionSplit(t, n, tag);
  }

  /** An optional line `lineTag value` holds its own tag iff present, and never a tag with another first character. */
  lemma LineSlot(present: bool, lineTag: string, value: string, tag: string)
    requires |lineTag| > 0 && |tag| > 0
    ensures lineTag == tag ==> (HasSection(When(present, lineTag + value + "\n"), tag) <==> present)
    ensures lineTag[0] != tag[0] ==> !HasSection(When(present, lineTag + value + "\n"), tag)
  {
    var line := lineTag + value + "\n";
    assert line == lineTag + (value + "\n");
    WhenSection(present, line, tag);
    if lineTag == tag {
      TagOpens(tag, value + "\n");
    } else if lineTag[0] != tag[0] {
      FirstCharDiffers(line, tag);
    }
  }

  /**
   * Each buyer line of the checkout message (name, phone, address, notes) appears iff
   * `customerInfo` is given and that field of it is present.
   */
  lemma CheckoutBuyerLines(storeName: string, lines: seq<LineItem>, total: int, customer: Option<CustomerInfo>,
                           fmt: int -> string)
    ensures var m := CheckoutPieces(storeName, lines, total, customer, fmt);
      (HasSection(m, NameTag) <==> customer.Some? && customer.value.name != "")
      && (HasSection(m, PhoneTag) <==> customer.Some? && customer.value.phone != "")
      && (HasSection(m, AddressTag) <==> customer.Some? && customer.value.address != "")
      && (HasSection(m, NotesTitle) <==> customer.Some? && customer.value.notes != "")
  {
    BuyerTagOnlyInBuyerBlock(storeName, lines, total, customer, fmt, NameTag);
    BuyerTagOnlyInBuyerBlock(storeName, lines, total, customer, fmt, PhoneTag);
    BuyerTagOnlyInBuyerBlock(storeName, lines, total, customer, fmt, AddressTag);
    BuyerTagOnlyInBuyerBlock(storeName, lines, total, customer, fmt, NotesTitle);
    if customer.Some? {
      CustomerSections(customer.value);
    }
  }

  /** A buyer-line tag is found in the checkout message iff it is found in the buyer block. */
  lemma BuyerTagOnlyInBuyerBlock(storeName: string, lines: seq<LineItem>, total: int, customer: Option<CustomerInfo>,
                                 fmt: int -> string, tag: string)
    requires tag == NameTag || tag == PhoneTag || tag == AddressTag || tag == NotesTitle
    ensures HasSection(CheckoutPieces(storeName, lines, total, customer, fmt), tag)
      <==> HasSection(CustomerPieces(customer), tag)
  {
    var fixed := HeaderPieces(storeName) + ItemPieces(lines, fmt);
    var t, cust := [TotalLine(total, fmt)], CustomerPieces(customer);
    HeaderItemsLack(storeName, lines, fmt, tag);
    NoSection(t, tag, 0);
    assert NotesTitle[1] == '\U{1F4DD}';
    ThanksLineLacks(tag);
    HasSectionSplit(fixed, t + cust + [ThanksLine], tag);
    HasSectionSplit(t + cust, [ThanksLine], tag);
    HasSectionSplit(t, cust, tag);
  }
}
