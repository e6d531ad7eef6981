/** The WhatsApp checkout links: a fixed-template order text, percent-encoded
    with `encodeURIComponent` and appended to a `wa.me` URL. Amounts are
    integer cents. */
module Checkout {
  import opened Wrappers
  import opened Text
  import opened Uri

  const WhatsAppPhone: string := "+593987632921"

  /** Everything a link has before its encoded text. */
  const LinkPrefix: string := "https://wa.me/" + WhatsAppPhone + "?text="

  const ProductGreeting: string := "Hola! Me interesa el diseño \""
  const ProductClosing: string := "\" de CaseWave. ¿Me pasas info?"

  /** The single-product message: the name between double quotes. */
  function ProductMessage(productName: string): (m: string)
    ensures |m| == |ProductGreeting| + |productName| + |ProductClosing|
    ensures m[..|ProductGreeting|] == ProductGreeting
    ensures m[|ProductGreeting| - 1] == '"' && m[|ProductGreeting| + |productName|] == '"'
    ensures m[|ProductGreeting|..|ProductGreeting| + |productName|] == productName
    ensures m[|ProductGreeting| + |productName|..] == ProductClosing
  {
    ProductGreeting + productName + ProductClosing
  }

  /** The prefix, then an encoded text that decodes back to `message` and
      holds no character outside the unreserved set but `%`. */
  predicate CarriesText(link: string, message: string) {
    && |LinkPrefix| <= |link|
    && link[..|LinkPrefix|] == LinkPrefix
    && UriSafe(link[|LinkPrefix|..])
    && DecodeUriComponent(link[|LinkPrefix|..]) == Some(message)
  }

  /** The link for `message`: the prefix, then `encodeURIComponent` of it. */
  function Link(message: string): (link: string)
    ensures CarriesText(link, message)
    ensures link == LinkPrefix + EncodeUriComponent(message)
  {
    EncodeRoundTrip(message);
    LinkPrefix + EncodeUriComponent(message)
  }

  /** `buildWhatsAppLink(productName)`. */
  function BuildWhatsAppLink(productName: string): (link: string)
    ensures CarriesText(link, ProductMessage(productName))
  {
    Link(ProductMessage(productName))
  }

  /** The fields of a cart line the order text uses. */
  datatype OrderLine = OrderLine(name: string, qty: int, price: int)

  const CartHeader: string := "Hola! Quiero comprar estos diseños de CaseWave:"
  const TotalLabel: string := "Total: $"

  /** `• {name} x{qty} = ${price × qty, two decimals}`: after the bullet
      and the name come a numeral that reads back as the quantity and an
      amount that reads back as price times quantity in cents. */
  function ItemLine(line: OrderLine): (s: string)
    ensures exists q: string, m: string ::
      s == "• " + line.name + " x" + q + " = $" + m &&
      ParseDecimal(q) == Some(line.qty) && ParseMoney(m) == Some(line.price * line.qty)
  {
    DecimalRoundTrip(line.qty);
    MoneyRoundTrip(line.price * line.qty);
    var q, m := Decimal(line.qty), Money(line.price * line.qty);
    "• " + line.name + " x" + q + " = $" + m
  }

  /** The total line shows the given subtotal, not one recomputed from the lines. */
  function TotalLine(subtotal: int): (s: string)
    ensures |s| >= |TotalLabel|
    ensures s[..|TotalLabel|] == TotalLabel
    ensures ParseMoney(s[|TotalLabel|..]) == Some(subtotal)
  {
    MoneyRoundTrip(subtotal);
    assert (TotalLabel + Money(subtotal))[|TotalLabel|..] == Money(subtotal);
    TotalLabel + Money(subtotal)
  }

  function ItemLines(items: seq<OrderLine>): (r: seq<string>)
    ensures |r| == |items|
    ensures forall k :: 0 <= k < |items| ==> r[k] == ItemLine(items[k])
  {
    if items == [] then [] else [ItemLine(items[0])] + ItemLines(items[1..])
  }

  /** The lines of the cart message: header, one line per item in order, total. */
  function MessageLines(items: seq<OrderLine>, subtotal: int): (lines: seq<string>)
    ensures |lines| == |items| + 2
    ensures lines[0] == CartHeader && lines[|lines| - 1] == TotalLine(subtotal)
    ensures forall k :: 1 <= k <= |items| ==> lines[k] == ItemLine(items[k - 1])
  {
    [CartHeader] + ItemLines(items) + [TotalLine(subtotal)]
  }

  /** `buildCartWhatsAppLink(items, subtotal)`: an empty cart gets the
      product link with an empty name; otherwise the link carries the
      message lines joined by newlines. */
  function BuildCartWhatsAppLink(items: seq<OrderLine>, subtotal: int): (link: string)
    ensures items == [] ==> link == BuildWhatsAppLink("")
    ensures items != [] ==> CarriesText(link, Join(MessageLines(items, subtotal), '\n'))
  {
    if |items| == 0 then BuildWhatsAppLink("")
    else Link(Join(MessageLines(items, subtotal), '\n'))
  }

  lemma SafeHasNoBlank(t: string)
    requires UriSafe(t)
    ensures ' ' !in t && '\n' !in t
  {
    forall i | 0 <= i < |t| ensures t[i] != ' ' && t[i] != '\n' {
      assert Unreserved(t[i]) || t[i] == '%';
    }
  }

  /** Every link starts with the fixed prefix, and its encoded part holds no
      raw space or newline. */
  lemma LinkShape(items: seq<OrderLine>, subtotal: int)
    ensures var link := BuildCartWhatsAppLink(items, subtotal);
            && link[..|LinkPrefix|] == LinkPrefix
            && ' ' !in link[|LinkPrefix|..] && '\n' !in link[|LinkPrefix|..]
  {
    var link := BuildCartWhatsAppLink(items, subtotal);
    if items == [] {
      assert CarriesText(link, ProductMessage(""));
    } else {
      assert CarriesText(link, Join(MessageLines(items, subtotal), '\n'));
    }
    SafeHasNoBlank(link[|LinkPrefix|..]);
  }

  predicate NoNewline(s: string) {
    forall i :: 0 <= i < |s| ==> s[i] != '\n'
  }

  lemma NoNewlineInDecimal(n: int)
    ensures NoNewline(Decimal(n))
  {
    var s := Decimal(n);
    forall i | 0 <= i < |s| ensures s[i] != '\n' {
      if n < 0 && i > 0 { assert s[i] == NatDigits(-n)[i - 1]; }
    }
  }

  lemma NoNewlineInMoney(cents: int)
    ensures NoNewline(Money(cents))
  {
    var d := NatDigits(Abs(cents) / 100);
    var f := TwoDigits(Abs(cents) % 100);
    var u := Unsigned(Abs(cents));
    assert u == d + "." + f;
    forall i | 0 <= i < |u| ensures u[i] != '\n' {
      if i < |d| { assert u[i] == d[i]; }
      else if i > |d| { assert u[i] == f[i - |d| - 1]; }
    }
    var s := Money(cents);
    forall i | 0 <= i < |s| ensures s[i] != '\n' {
      if cents < 0 {
        if i > 0 { assert s[i] == u[i - 1]; }
      } else {
        assert s[i] == u[i];
      }
    }
  }

  lemma ItemLineNoNewline(line: OrderLine)
    requires NoNewline(line.name)
    ensures NoNewline(ItemLine(line))
  {
    NoNewlineInDecimal(line.qty);
    NoNewlineInMoney(line.price * line.qty);
    var parts := ["• ", line.name, " x", Decimal(line.qty), " = $", Money(line.price * line.qty)];
    var s := ItemLine(line);
    assert s == parts[0] + parts[1] + parts[2] + parts[3] + parts[4] + parts[5];
  }

  lemma NoNewlineConcat(a: string, b: string)
    requires '\n' !in a && NoNewline(b)
    ensures NoNewline(a + b)
  {
    forall i | 0 <= i < |a + b| ensures (a + b)[i] != '\n' {
      if i < |a| { assert (a + b)[i] == a[i] && a[i] in a; } else { assert (a + b)[i] == b[i - |a|]; }
    }
  }

  /** The header constant cut into short literals: the cut only lets the
      prover see, piece by piece, that the header holds no newline. */
  lemma HeaderPieces()
    ensures CartHeader == "Hola! Quiero" + " comprar estos" + " diseños de" + " CaseWave:"
    ensures '\n' !in "Hola! Quiero" && '\n' !in " comprar estos" && '\n' !in " diseños de" && '\n' !in " CaseWave:"
  {
  }

  lemma HeaderNoNewline()
    ensures NoNewline(CartHeader)
  {
    var p1, p2, p3, p4 := "Hola! Quiero", " comprar estos", " diseños de", " CaseWave:";
    HeaderPieces();
    NoNewlineConcat(p4, []);
    assert p4 + [] == p4;
    NoNewlineConcat(p3, p4);
    NoNewlineConcat(p2, p3 + p4);
    NoNewlineConcat(p1, p2 + (p3 + p4));
    assert p1 + p2 + p3 + p4 == p1 + (p2 + (p3 + p4));
  }

  lemma TotalLineNoNewline(subtotal: int)
    ensures NoNewline(TotalLine(subtotal))
  {
    NoNewlineInMoney(subtotal);
    var t := TotalLine(subtotal);
    assert t == TotalLabel + Money(subtotal);
    forall i | 0 <= i < |t| ensures t[i] != '\n' {
      if i >= |TotalLabel| { assert t[i] == Money(subtotal)[i - |TotalLabel|]; }
    }
  }

  lemma MessageLinesNoNewline(items: seq<OrderLine>, subtotal: int)
    requires forall k :: 0 <= k < |items| ==> NoNewline(items[k].name)
    ensures forall k :: 0 <= k < |items| + 2 ==> NoNewline(MessageLines(items, subtotal)[k])
  {
    var lines := MessageLines(items, subtotal);
    TotalLineNoNewline(subtotal);
    forall k | 0 <= k < |lines| ensures NoNewline(lines[k]) {
      if k == 0 {
        HeaderNoNewline();
      } else if k <= |items| {
        ItemLineNoNewline(items[k - 1]);
      } else {
        assert lines[k] == TotalLine(subtotal);
      }
    }
  }

  /** When no product name holds a newline, the decoded text of a non-empty
      cart's link has exactly |items| + 2 lines: header, the items in order,
      the total. */
  lemma CartMessageLines(items: seq<OrderLine>, subtotal: int)
    requires items != []
    requires forall k :: 0 <= k < |items| ==> NoNewline(items[k].name)
    ensures var text := BuildCartWhatsAppLink(items, subtotal)[|LinkPrefix|..];
            && DecodeUriComponent(text).Some?
            && Split(DecodeUriComponent(text).value, '\n') == MessageLines(items, subtotal)
  {
    var lines := MessageLines(items, subtotal);
    MessageLinesNoNewline(items, subtotal);
    forall k | 0 <= k < |lines| ensures '\n' !in lines[k] {
      assert NoNewline(lines[k]);
    }
    SplitJoin(lines, '\n');
  }
}
