/** The order notification e-mails: the HTML summary of an order and the buyer
    and seller messages built around it. Values are interpolated as they are,
    without escaping. The mail transport is left out: a message is the value
    that would be handed to it. */
module EmailService {
  import opened Js

  /** An order as the template reads it. Fields used with `||` keep their
      nullish or empty value (None or ""); the others are given as the text the
      template interpolation produces for them. */
  datatype OrderView = OrderView(
    id: string, quantity: string, color: Option<string>, size: Option<string>,
    receptionMode: string, shippingAddress: Option<string>, phone: Option<string>,
    totalAmount: string, status: string)

  /** A message for the mail transport. */
  datatype Mail = Mail(to: string, subject: string, html: string)

  const Unspecified := "Non précisé"
  const Delivery := "livraison"
  const BuyerSubjectPrefix := "Confirmation de commande - "
  const SellerSubjectPrefix := "Nouvelle commande reçue - "

  /** `value || fallback` on a text. */
  function TextOr(v: Option<string>, fallback: string): (r: string)
    ensures TruthyStr(v) ==> r == v.value
    ensures !TruthyStr(v) ==> r == fallback
  {
    if TruthyStr(v) then v.value else fallback
  }

  /** The address line, present only for a delivery; a missing address is empty. */
  function AddressLine(o: OrderView): (r: string)
    ensures r == "" <==> o.receptionMode != Delivery
    ensures o.receptionMode == Delivery ==>
      r == "<p><strong>Adresse :</strong> " + TextOr(o.shippingAddress, "") + "</p>"
  {
    if o.receptionMode == Delivery then "<p><strong>Adresse :</strong> " + TextOr(o.shippingAddress, "") + "</p>" else ""
  }

  /** The phone line, present only for a delivery; a missing phone is empty. */
  function PhoneLine(o: OrderView): (r: string)
    ensures r == "" <==> o.receptionMode != Delivery
    ensures o.receptionMode == Delivery ==>
      r == "<p><strong>Téléphone :</strong> " + TextOr(o.phone, "") + "</p>"
  {
    if o.receptionMode == Delivery then "<p><strong>Téléphone :</strong> " + TextOr(o.phone, "") + "</p>" else ""
  }

  /** The summary up to the product name. */
  function SummaryHead(o: OrderView): string {
    "\n    <h2>Commande #" + o.id + "</h2>\n    <p><strong>Produit :</strong> "
  }

  const ColourLabel := "<p><strong>Couleur :</strong> "
  const SizeLabel := "<p><strong>Taille :</strong> "

  /** The colour line: the colour, or "Non précisé" when it is missing or empty. */
  function ColourLine(o: OrderView): (r: string)
    ensures TruthyStr(o.color) ==> r == ColourLabel + o.color.value + "</p>"
    ensures !TruthyStr(o.color) ==> r == ColourLabel + Unspecified + "</p>"
  {
    ColourLabel + TextOr(o.color, Unspecified) + "</p>"
  }

  /** The size line: the size, or "Non précisé" when it is missing or empty. */
  function SizeLine(o: OrderView): (r: string)
    ensures TruthyStr(o.size) ==> r == SizeLabel + o.size.value + "</p>"
    ensures !TruthyStr(o.size) ==> r == SizeLabel + Unspecified + "</p>"
  {
    SizeLabel + TextOr(o.size, Unspecified) + "</p>"
  }

  /** The summary from the end of the product line to the colour line. */
  function QuantityPart(o: OrderView): string {
    "</p>\n    <p><strong>Quantité :</strong> " + o.quantity + "</p>\n    "
  }

  /** The summary after the size line. */
  function ClosingPart(o: OrderView): string {
    "\n    <p><strong>Mode de réception :</strong> " + o.receptionMode
      + "</p>\n    " + AddressLine(o)
      + "\n    " + PhoneLine(o)
      + "\n    <p><strong>Total :</strong> " + o.totalAmount
      + " TND</p>\n    <p>Statut : " + o.status + "</p>\n  "
  }

  /** The summary after the product name. */
  function SummaryTail(o: OrderView): string {
    QuantityPart(o) + ColourLine(o) + "\n    " + SizeLine(o) + ClosingPart(o)
  }

  /** `orderSummaryHtml`: the product name goes in verbatim between a head and a
      tail that depend on the order alone. */
  function OrderSummaryHtml(o: OrderView, listingTitle: string): (r: string)
    ensures |r| == |SummaryHead(o)| + |listingTitle| + |SummaryTail(o)|
    ensures r[..|SummaryHead(o)|] == SummaryHead(o)
    ensures r[|SummaryHead(o)|..|SummaryHead(o)| + |listingTitle|] == listingTitle
    ensures r[|SummaryHead(o)| + |listingTitle|..] == SummaryTail(o)
  {
    var r := SummaryHead(o) + listingTitle + SummaryTail(o);
    assert r[|SummaryHead(o)|..|SummaryHead(o)| + |listingTitle|] == listingTitle;
    r
  }

  /** Two products give the same summary of an order only when they are the same:
      nothing in the title is dropped or rewritten. */
  lemma SummaryDeterminesTitle(o: OrderView, t1: string, t2: string)
    requires OrderSummaryHtml(o, t1) == OrderSummaryHtml(o, t2)
    ensures t1 == t2
  {
    var h := |SummaryHead(o)|;
    assert |t1| == |t2|;
    assert t1 == OrderSummaryHtml(o, t1)[h..h + |t1|];
  }

  /** The colour and size lines sit after the quantity line of the summary, so a
      missing colour or size reads "Non précisé" there. */
  lemma SummaryColourAndSize(o: OrderView, listingTitle: string)
    ensures var s := OrderSummaryHtml(o, listingTitle);
      var k := |SummaryHead(o)| + |listingTitle| + |QuantityPart(o)|;
      var m := k + |ColourLine(o)| + 5;
      && |s| >= m + |SizeLine(o)|
      && s[k..k + |ColourLine(o)|] == ColourLine(o)
      && s[m..m + |SizeLine(o)|] == SizeLine(o)
  {
    var s := OrderSummaryHtml(o, listingTitle);
    var h := |SummaryHead(o)| + |listingTitle|;
    var t := SummaryTail(o);
    assert s[h..] == t;
    var q, c, z := |QuantityPart(o)|, |ColourLine(o)|, |SizeLine(o)|;
    assert t[q..q + c] == ColourLine(o);
    assert t[q + c + 5..q + c + 5 + z] == SizeLine(o);
    assert s[h + q..h + q + c] == t[q..q + c];
    assert s[h + q + c + 5..h + q + c + 5 + z] == t[q + c + 5..q + c + 5 + z];
  }

  /** The summary of a collected order has empty address and phone lines, and
      the summary of a delivery always carries both. */
  lemma DeliveryLinesOnlyForDelivery(o: OrderView)
    ensures o.receptionMode != Delivery ==> AddressLine(o) == "" && PhoneLine(o) == ""
    ensures o.receptionMode == Delivery ==>
      AddressLine(o) != "" && PhoneLine(o) != "" && (!TruthyStr(o.phone) ==> PhoneLine(o) == "<p><strong>Téléphone :</strong> </p>")
  {
  }

  /** `notifyBuyer`. */
  function NotifyBuyer(o: OrderView, listingTitle: string, buyerEmail: string): (m: Mail)
    ensures m.to == buyerEmail
    ensures |m.subject| == |BuyerSubjectPrefix| + |listingTitle|
    ensures m.subject[..|BuyerSubjectPrefix|] == BuyerSubjectPrefix && m.subject[|BuyerSubjectPrefix|..] == listingTitle
    ensures m.html == OrderSummaryHtml(o, listingTitle)
  {
    Mail(buyerEmail, BuyerSubjectPrefix + listingTitle, OrderSummaryHtml(o, listingTitle))
  }

  /** `notifySeller`. */
  function NotifySeller(o: OrderView, listingTitle: string, sellerEmail: string): (m: Mail)
    ensures m.to == sellerEmail
    ensures |m.subject| == |SellerSubjectPrefix| + |listingTitle|
    ensures m.subject[..|SellerSubjectPrefix|] == SellerSubjectPrefix && m.subject[|SellerSubjectPrefix|..] == listingTitle
    ensures m.html == OrderSummaryHtml(o, listingTitle)
  {
    Mail(sellerEmail, SellerSubjectPrefix + listingTitle, OrderSummaryHtml(o, listingTitle))
  }

  /** The buyer and the seller of an order get the same summary under different
      subjects. */
  lemma BuyerAndSellerShareSummary(o: OrderView, listingTitle: string, buyer: string, seller: string)
    ensures NotifyBuyer(o, listingTitle, buyer).html == NotifySeller(o, listingTitle, seller).html
    ensures NotifyBuyer(o, listingTitle, buyer).subject != NotifySeller(o, listingTitle, seller).subject
  {
    var b := NotifyBuyer(o, listingTitle, buyer).subject;
    var s := NotifySeller(o, listingTitle, seller).subject;
    assert b[0] == 'C' && s[0] == 'N';
  }
}
