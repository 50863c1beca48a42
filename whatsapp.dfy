/**
 * WhatsApp helpers: phone-number normalisation to the Indonesian `62` prefix,
 * `wa.me` deep-link assembly, and the order and product-inquiry message templates.
 *
 * A message is built by successive appends; the model keeps the appended pieces as
 * a sequence and the message is their concatenation. `toLocaleString('id-ID')` and
 * `encodeURIComponent` are passed in as functions.
 */
module WhatsApp {
  import opened Common

  // ---------------------------------------------------------------- phone numbers

  /** `phone.replace(/\D/g, '')`: the digits of `s`, in order. */
  function DigitsOf(s: string): (r: string)
    ensures AllDigits(r) && |r| <= |s|
  {
    if s == [] then []
    else if IsDigit(s[0]) then [s[0]] + DigitsOf(s[1..])
    else DigitsOf(s[1..])
  }

  /** Every digit of `s` survives, once per occurrence and in order, and nothing else does. */
  lemma {:induction false} DigitsOfIsFilter(s: string)
    ensures IsFilter(DigitsOf(s), s, IsDigit)
  {
    if s == [] {
      FilterNil(IsDigit);
    } else {
      DigitsOfIsFilter(s[1..]);
      FilterCons(DigitsOf(s[1..]), s[1..], IsDigit, s[0]);
      assert [s[0]] + s[1..] == s;
    }
  }

  /** `formatPhoneNumber(phone)`. */
  function FormatPhoneNumber(phone: string): (r: string)
    ensures AllDigits(r) && StartsWith(r, "62")
  {
    var cleaned := DigitsOf(phone);
    var national := if StartsWith(cleaned, "0") then "62" + cleaned[1..] else cleaned;
    if StartsWith(national, "62") then national else "62" + national
  }

  lemma {:induction false} DigitsOfDigits(s: string)
    requires AllDigits(s)
    ensures DigitsOf(s) == s
  {
    if s != [] {
      assert IsDigit(s[0]);
      DigitsOfDigits(s[1..]);
    }
  }

  /** What normalisation does to the digits: `0…` becomes `62…`, `62…` stays, anything else gains `62`. */
  lemma {:induction false} FormatPhoneCases(phone: string)
    ensures DigitsOf(phone) == "" ==> FormatPhoneNumber(phone) == "62"
    ensures StartsWith(DigitsOf(phone), "0") ==> FormatPhoneNumber(phone) == "62" + DigitsOf(phone)[1..]
    ensures StartsWith(DigitsOf(phone), "62") ==> FormatPhoneNumber(phone) == DigitsOf(phone)
    ensures !StartsWith(DigitsOf(phone), "0") && !StartsWith(DigitsOf(phone), "62") ==>
      FormatPhoneNumber(phone) == "62" + DigitsOf(phone)
  {
    var c := DigitsOf(phone);
    if StartsWith(c, "0") {
      assert StartsWith("62" + c[1..], "62");
    } else if StartsWith(c, "62") {
      assert c[0] == '6';
    }
  }

  /** Normalising a normalised number changes nothing. */
  lemma {:induction false} FormatPhoneIdempotent(phone: string)
    ensures FormatPhoneNumber(FormatPhoneNumber(phone)) == FormatPhoneNumber(phone)
  {
    var f := FormatPhoneNumber(phone);
    DigitsOfDigits(f);
    assert f[0] == '6';
    assert !StartsWith(f, "0");
  }

  // ---------------------------------------------------------------- deep links

  const WaMePrefix: string := "https://wa.me/"
  const TextQuery: string := "?text="

  /** `generateWhatsAppLink(phoneNumber, message)`, with `encodeURIComponent` passed in as `encode`. */
  function WhatsAppLink(phone: string, message: string, encode: string -> string): (link: string)
    ensures StartsWith(link, WaMePrefix)
  {
    WaMePrefix + FormatPhoneNumber(phone) + TextQuery + encode(message)
  }

  /** The longest all-digit prefix. */
  function LeadingDigits(s: string): (r: string)
    ensures |r| <= |s| && r == s[..|r|] && AllDigits(r)
  {
    if s != [] && IsDigit(s[0]) then [s[0]] + LeadingDigits(s[1..]) else []
  }

  lemma {:induction false} LeadingDigitsStopAtQuery(digits: string, rest: string)
    requires AllDigits(digits)
    ensures LeadingDigits(digits + TextQuery + rest) == digits
  {
    if digits != [] {
      assert (digits + TextQuery + rest)[1..] == digits[1..] + TextQuery + rest;
      LeadingDigitsStopAtQuery(digits[1..], rest);
    }
  }

  /** A link reads back: the path is the normalised phone and the query carries the encoded message. */
  lemma {:induction false} WhatsAppLinkReadsBack(phone: string, message: string, encode: string -> string)
    ensures var link := WhatsAppLink(phone, message, encode);
      var path := link[|WaMePrefix|..];
      var digits := LeadingDigits(path);
      digits == FormatPhoneNumber(phone) && path[|digits|..] == TextQuery + encode(message)
  {
    var f := FormatPhoneNumber(phone);
    var link := WhatsAppLink(phone, message, encode);
    assert link[|WaMePrefix|..] == f + TextQuery + encode(message);
    LeadingDigitsStopAtQuery(f, encode(message));
  }

  // ---------------------------------------------------------------- messages

  /** The message obtained from successive appends of `pieces`. */
  function Concat(pieces: seq<string>): string
  {
    if pieces == [] then "" else Concat(pieces[..|pieces| - 1]) + pieces[|pieces| - 1]
  }

  lemma ConcatSnoc(pieces: seq<string>, x: string)
    ensures Concat(pieces + [x]) == Concat(pieces) + x
  {
    assert (pieces + [x])[..|pieces|] == pieces;
  }

  lemma {:induction false} ConcatAppend(a: seq<string>, b: seq<string>)
    ensures Concat(a + b) == Concat(a) + Concat(b)
  {
    if b == [] {
      assert a + b == a;
    } else {
      var init := b[..|b| - 1];
      assert a + b == (a + init) + [b[|b| - 1]];
      assert b == init + [b[|b| - 1]];
      ConcatSnoc(a + init, b[|b| - 1]);
      ConcatSnoc(init, b[|b| - 1]);
      ConcatAppend(a, init);
    }
  }

  /** A product line of an order: what the templates read from it. */
  datatype LineItem = LineItem(name: string, quantity: int, price: int)

  /** The order fields the order template reads; empty strings stand for absent optional fields. */
  datatype OrderInfo = OrderInfo(total: int, customerName: string, customerPhone: string,
                                 customerAddress: string, notes: string)

  const OrderTitle: string := "\U{1F6CD}\U{FE0F} *PESANAN BARU*\n"
  const DetailsTitle: string := "\U{1F4E6} *Detail Pesanan:*\n"
  const BuyerTitle: string := "\U{1F464} *Data Pembeli:*\n"
  const NotesTitle: string := "\n\U{1F4DD} *Catatan:*\n"
  const ThanksLine: string := "\n\U{2728} Terima kasih telah berbelanja!"
  const Bullet: string := "\U{2022} "
  const AddressTag: string := "Alamat: "

  function FromLine(storeName: string): string
  {
    "Dari: " + storeName + "\n\n"
  }

  function HeaderPieces(storeName: string): seq<string>
  {
    [OrderTitle, FromLine(storeName), DetailsTitle]
  }

  function NameLine(name: string): string
  {
    Bullet + name + "\n"
  }

  function QtyLine(quantity: int, price: int, fmt: int -> string): string
  {
    "  Qty: " + IntToDecimal(quantity) + " x Rp " + fmt(price) + "\n"
  }

  function SubtotalLine(subtotal: int, fmt: int -> string): string
  {
    "  Subtotal: Rp " + fmt(subtotal) + "\n\n"
  }

  /** The three lines appended for one product. */
  function ItemLines(name: string, quantity: int, price: int, fmt: int -> string): seq<string>
  {
    [NameLine(name), QtyLine(quantity, price, fmt), SubtotalLine(quantity * price, fmt)]
  }

  function ItemPieces(items: seq<LineItem>, fmt: int -> string): seq<string>
  {
    if items == [] then []
    else
      var last := items[|items| - 1];
      ItemPieces(items[..|items| - 1], fmt) + ItemLines(last.name, last.quantity, last.price, fmt)
  }

  function TotalLine(total: int, fmt: int -> string): string
  {
    "\U{1F4B0} *Total: Rp " + fmt(total) + "*\n\n"
  }

  function BuyerLine(field: string, value: string): string
  {
    field + value + "\n"
  }

  function NotesSection(notes: string): string
  {
    NotesTitle + notes + "\n"
  }

  /** `[x]` when the field is present (non-empty), nothing otherwise. */
  function When(present: bool, x: string): seq<string>
  {
    if present then [x] else []
  }

  function OrderFooterPieces(order: OrderInfo, fmt: int -> string): seq<string>
  {
    [TotalLine(order.total, fmt), BuyerTitle,
     BuyerLine("Nama: ", order.customerName), BuyerLine("Telepon: ", order.customerPhone)]
    + When(order.customerAddress != "", BuyerLine(AddressTag, order.customerAddress))
    + When(order.notes != "", NotesSection(order.notes))
    + [ThanksLine]
  }

  /** The pieces `generateOrderMessage` appends, in order. */
  function OrderPieces(order: OrderInfo, storeName: string, items: seq<LineItem>, fmt: int -> string): seq<string>
  {
    HeaderPieces(storeName) + ItemPieces(items, fmt) + OrderFooterPieces(order, fmt)
  }

  /** The pieces of one product block follow those already appended. */
  lemma ItemStep(header: seq<string>, items: seq<LineItem>, i: nat, fmt: int -> string)
    requires i < |items|
    ensures Concat(header + ItemPieces(items[..i + 1], fmt))
      == Concat(header + ItemPieces(items[..i], fmt)) + NameLine(items[i].name)
         + QtyLine(items[i].quantity, items[i].price, fmt)
         + SubtotalLine(items[i].quantity * items[i].price, fmt)
  {
    assert items[..i + 1] == items[..i] + [items[i]];
    LineSnoc(header, items[..i], items[i], fmt);
  }

  /** Appending one order line appends its three lines to the message. */
  lemma LineSnoc(header: seq<string>, lines: seq<LineItem>, line: LineItem, fmt: int -> string)
    ensures Concat(header + ItemPieces(lines + [line], fmt))
      == Concat(header + ItemPieces(lines, fmt)) + NameLine(line.name) + QtyLine(line.quantity, line.price, fmt)
         + SubtotalLine(line.quantity * line.price, fmt)
  {
    var n, q, t := NameLine(line.name), QtyLine(line.quantity, line.price, fmt), SubtotalLine(line.quantity * line.price, fmt);
    var all := lines + [line];
    assert all[..|all| - 1] == lines;
    var rest := ItemPieces(lines, fmt);
    assert ItemPieces(all, fmt) == rest + [n, q, t];
    var base := header + rest;
    assert header + (rest + [n, q, t]) == base + [n] + [q] + [t];
    ConcatSnoc(base, n);
    ConcatSnoc(base + [n], q);
    ConcatSnoc(base + [n] + [q], t);
  }

  /**
   * `generateOrderMessage(order, store, products)`: the header, then one block per
   * product in a loop, then the footer with its optional address and notes lines.
   */
  method GenerateOrderMessage(order: OrderInfo, storeName: string, items: seq<LineItem>, fmt: int -> string)
    returns (message: string)
    ensures message == Concat(OrderPieces(order, storeName, items, fmt))
  {
    message := Concat(HeaderPieces(storeName));
    assert items[..0] == [];
    assert HeaderPieces(storeName) + ItemPieces(items[..0], fmt) == HeaderPieces(storeName);
    var i := 0;
    while i < |items|
      invariant 0 <= i <= |items|
      invariant message == Concat(HeaderPieces(storeName) + ItemPieces(items[..i], fmt))
    {
      var item := items[i];
      message := message + NameLine(item.name) + QtyLine(item.quantity, item.price, fmt)
        + SubtotalLine(item.quantity * item.price, fmt);
      ItemStep(HeaderPieces(storeName), items, i, fmt);
      i := i + 1;
    }
    assert items[..|items|] == items;
    message := message + Concat(OrderFooterPieces(order, fmt));
    ConcatAppend(HeaderPieces(storeName) + ItemPieces(items, fmt), OrderFooterPieces(order, fmt));
  }

  /** One three-line block per product, in product order. */
  lemma {:induction false} ItemPiecesShape(items: seq<LineItem>, fmt: int -> string)
    ensures |ItemPieces(items, fmt)| == 3 * |items|
    ensures forall k :: 0 <= k < |items| ==> ItemPieces(items, fmt)[3 * k] == NameLine(items[k].name)
    ensures forall k :: 0 <= k < |items| ==>
      ItemPieces(items, fmt)[3 * k + 1] == QtyLine(items[k].quantity, items[k].price, fmt)
    ensures forall k :: 0 <= k < |items| ==>
      ItemPieces(items, fmt)[3 * k + 2] == SubtotalLine(items[k].quantity * items[k].price, fmt)
  {
    if items != [] {
      var init := items[..|items| - 1];
      ItemPiecesShape(init, fmt);
      var p, q := ItemPieces(items, fmt), ItemPieces(init, fmt);
      var last := items[|items| - 1];
      var lines := ItemLines(last.name, last.quantity, last.price, fmt);
      assert p == q + lines;
      forall k | 0 <= k < |items|
        ensures p[3 * k] == NameLine(items[k].name)
        ensures p[3 * k + 1] == QtyLine(items[k].quantity, items[k].price, fmt)
        ensures p[3 * k + 2] == SubtotalLine(items[k].quantity * items[k].price, fmt)
      {
        if k < |init| {
          assert items[k] == init[k];
          assert p[3 * k] == q[3 * k] && p[3 * k + 1] == q[3 * k + 1] && p[3 * k + 2] == q[3 * k + 2];
        } else {
          assert 3 * k == |q|;
          assert p[3 * k] == lines[0] && p[3 * k + 1] == lines[1] && p[3 * k + 2] == lines[2];
        }
      }
    }
  }

  /** Some appended piece opens with `tag`. */
  predicate HasSection(pieces: seq<string>, tag: string)
  {
    exists i :: 0 <= i < |pieces| && StartsWith(pieces[i], tag)
  }

  /** No piece opens with `tag` when every piece disagrees with it at position `k`. */
  lemma NoSection(pieces: seq<string>, tag: string, k: nat)
    requires k < |tag|
    requires forall i :: 0 <= i < |pieces| ==> k < |pieces[i]| && pieces[i][k] != tag[k]
    ensures !HasSection(pieces, tag)
  {
    forall i | 0 <= i < |pieces| ensures !StartsWith(pieces[i], tag) {
      if |tag| <= |pieces[i]| {
        assert pieces[i][..|tag|][k] == pieces[i][k];
      }
    }
  }

  lemma HasSectionSplit(a: seq<string>, b: seq<string>, tag: string)
    ensures HasSection(a + b, tag) <==> HasSection(a, tag) || HasSection(b, tag)
  {
    if HasSection(a + b, tag) {
      var i :| 0 <= i < |a + b| && StartsWith((a + b)[i], tag);
      if i < |a| { assert (a + b)[i] == a[i]; } else { assert (a + b)[i] == b[i - |a|]; }
    }
    if HasSection(a, tag) {
      var i :| 0 <= i < |a| && StartsWith(a[i], tag);
      assert (a + b)[i] == a[i];
    }
    if HasSection(b, tag) {
      var i :| 0 <= i < |b| && StartsWith(b[i], tag);
      assert (a + b)[|a| + i] == b[i];
    }
  }

  /** Every item piece starts with the bullet or with a space. */
  lemma {:induction false} ItemPiecesLead(items: seq<LineItem>, fmt: int -> string)
    ensures forall i :: 0 <= i < |ItemPieces(items, fmt)| ==>
      |ItemPieces(items, fmt)[i]| > 1 && ItemPieces(items, fmt)[i][0] in {'\U{2022}', ' '}
  {
    if items != [] {
      ItemPiecesLead(items[..|items| - 1], fmt);
    }
  }

  /** No header or order-line piece opens with a buyer-line tag. */
  lemma HeaderItemsLack(storeName: string, items: seq<LineItem>, fmt: int -> string, tag: string)
    requires |tag| > 0 && (tag[0] == 'N' || tag[0] == 'T' || tag[0] == 'A' || tag[0] == '\n')
    ensures !HasSection(HeaderPieces(storeName) + ItemPieces(items, fmt), tag)
  {
    ItemPiecesLead(items, fmt);
    NoSection(HeaderPieces(storeName) + ItemPieces(items, fmt), tag, 0);
  }

  /** The first characters of the total, title, name and phone pieces of the order footer. */
  lemma FooterFieldsLead(order: OrderInfo, fmt: int -> string)
    ensures var f := [TotalLine(order.total, fmt), BuyerTitle,
      BuyerLine("Nama: ", order.customerName), BuyerLine("Telepon: ", order.customerPhone)];
      forall i :: 0 <= i < 4 ==> |f[i]| > 0 && f[i][0] in {'\U{1F4B0}', '\U{1F464}', 'N', 'T'}
  {
    var f := [TotalLine(order.total, fmt), BuyerTitle,
      BuyerLine("Nama: ", order.customerName), BuyerLine("Telepon: ", order.customerPhone)];
    assert f[0][0] == '\U{1F4B0}';
    assert f[2][0] == 'N';
    assert f[3][0] == 'T';
  }

  lemma FixedPiecesLack(order: OrderInfo, storeName: string, items: seq<LineItem>, fmt: int -> string)
    ensures !HasSection(HeaderPieces(storeName) + ItemPieces(items, fmt), AddressTag)
    ensures !HasSection(HeaderPieces(storeName) + ItemPieces(items, fmt), NotesTitle)
    ensures !HasSection([TotalLine(order.total, fmt), BuyerTitle,
      BuyerLine("Nama: ", order.customerName), BuyerLine("Telepon: ", order.customerPhone)], AddressTag)
    ensures !HasSection([TotalLine(order.total, fmt), BuyerTitle,
      BuyerLine("Nama: ", order.customerName), BuyerLine("Telepon: ", order.customerPhone)], NotesTitle)
    ensures !HasSection([ThanksLine], AddressTag) && !HasSection([ThanksLine], NotesTitle)
  {
    HeaderItemsLack(storeName, items, fmt, AddressTag);
    HeaderItemsLack(storeName, items, fmt, NotesTitle);
    var fixed := [TotalLine(order.total, fmt), BuyerTitle,
      BuyerLine("Nama: ", order.customerName), BuyerLine("Telepon: ", order.customerPhone)];
    FooterFieldsLead(order, fmt);
    NoSection(fixed, AddressTag, 0);
    NoSection(fixed, NotesTitle, 0);
    ThanksLineLacks(AddressTag);
    assert NotesTitle[1] == '\U{1F4DD}';
    ThanksLineLacks(NotesTitle);
  }

  /** The closing line opens with a newline and a sparkle, so no tag that differs there opens it. */
  lemma ThanksLineLacks(tag: string)
    requires |tag| > 1 && (tag[0] != '\n' || tag[1] != '\U{2728}')
    ensures !HasSection([ThanksLine], tag)
  {
    assert ThanksLine[0] == '\n' && ThanksLine[1] == '\U{2728}';
    if tag[0] != '\n' {
      NoSection([ThanksLine], tag, 0);
    } else {
      NoSection([ThanksLine], tag, 1);
    }
  }

  /** The address line is in the order message iff the order has an address, and likewise the notes section. */
  lemma {:induction false} OrderOptionalSections(order: OrderInfo, storeName: string, items: seq<LineItem>, fmt: int -> string)
    ensures HasSection(OrderPieces(order, storeName, items, fmt), AddressTag) <==> order.customerAddress != ""
    ensures HasSection(OrderPieces(order, storeName, items, fmt), NotesTitle) <==> order.notes != ""
  {
    var hm := HeaderPieces(storeName) + ItemPieces(items, fmt);
    var fixed := [TotalLine(order.total, fmt), BuyerTitle,
      BuyerLine("Nama: ", order.customerName), BuyerLine("Telepon: ", order.customerPhone)];
    var addr := When(order.customerAddress != "", BuyerLine(AddressTag, order.customerAddress));
    var notes := When(order.notes != "", NotesSection(order.notes));
    assert OrderPieces(order, storeName, items, fmt) == hm + (fixed + addr + notes + [ThanksLine]);
    FixedPiecesLack(order, storeName, items, fmt);
    HasSectionSplit(hm, fixed + addr + notes + [ThanksLine], AddressTag);
    HasSectionSplit(fixed + addr + notes, [ThanksLine], AddressTag);
    HasSectionSplit(fixed + addr, notes, AddressTag);
    HasSectionSplit(fixed, addr, AddressTag);
    HasSectionSplit(hm, fixed + addr + notes + [ThanksLine], NotesTitle);
    HasSectionSplit(fixed + addr + notes, [ThanksLine], NotesTitle);
    HasSectionSplit(fixed + addr, notes, NotesTitle);
    HasSectionSplit(fixed, addr, NotesTitle);
    if addr != [] {
      assert StartsWith(addr[0], AddressTag);
      NoSection(addr, NotesTitle, 0);
    }
    if notes != [] {
      assert StartsWith(notes[0], NotesTitle);
      NoSection(notes, AddressTag, 0);
    }
  }

  /** The product fields the inquiry template reads; an empty description stands for an absent one. */
  datatype ProductInfo = ProductInfo(name: string, price: int, description: string)

  const ExcerptLength: nat := 100

  /** `description.substring(0, 100)`. */
  function Excerpt(description: string): (e: string)
    ensures |e| == if |description| < ExcerptLength then |description| else ExcerptLength
    ensures e == description[..|e|]
  {
    if |description| <= ExcerptLength then description else description[..ExcerptLength]
  }

  /** The pieces `generateProductInquiryMessage` appends, in order. */
  function InquiryPieces(product: ProductInfo, storeName: string, fmt: int -> string): seq<string>
  {
    ["Halo, saya tertarik dengan produk dari " + storeName + ":\n\n",
     "\U{1F4E6} *" + product.name + "*\n",
     "\U{1F4B0} Harga: Rp " + fmt(product.price) + "\n"]
    + (if product.description != "" then ["\n" + Excerpt(product.description) + "...\n"] else [])
    + ["\nApakah produk ini masih tersedia?"]
  }

  /** `generateProductInquiryMessage(product, store)`. */
  function InquiryMessage(product: ProductInfo, storeName: string, fmt: int -> string): string
  {
    Concat(InquiryPieces(product, storeName, fmt))
  }

  /**
   * The description excerpt is present iff the product has a description; it is the
   * first at most 100 characters followed by `...`.
   */
  lemma InquiryExcerpt(product: ProductInfo, storeName: string, fmt: int -> string)
    ensures |InquiryPieces(product, storeName, fmt)| == if product.description != "" then 5 else 4
    ensures product.description != "" ==>
      var e := InquiryPieces(product, storeName, fmt)[3];
      e == "\n" + product.description[..|e| - 5] + "...\n" && |e| - 5 <= ExcerptLength
      && (|product.description| >= ExcerptLength ==> |e| - 5 == ExcerptLength)
  {
  }
}
