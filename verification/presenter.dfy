/**
  The list presenter of the product-catalog client: for the array of
  products the API returns, the messages written to the console, one string
  per console call — a header with the count, then four lines per product
  (numbered title, price, category, description cut to 100 characters
  followed by "...").
 */
module Presenter {
  import opened Js

  /** A product as decoded from the API's JSON. The price is kept as the text
      the template literal renders for it. */
  datatype Product = Product(
    id: int,
    title: string,
    price: string,
    category: string,
    description: string,
    image: string)

  /** Longest description prefix the listing shows. */
  const ExcerptLength: nat := 100

  const PriceLabel: string := "   \U{1F3F7}\U{FE0F} Precio: $"
  const CategoryLabel: string := "   \U{1F4C2} Categor\U{00ED}a: "
  const DescriptionLabel: string := "   \U{1F4DD} Descripci\U{00F3}n: "

  /** The header line, carrying the number of products found. */
  function ListHeader(n: nat): string {
    "\n\U{1F4E6} Lista de productos (" + NumberToString(n) + " encontrados):\n"
  }

  /** `description.substring(0, 100)`: the description itself when it is
      short enough, otherwise its first 100 characters. */
  function Excerpt(description: string): (e: string)
    ensures e <= description
    ensures |e| == Min(ExcerptLength, |description|)
  {
    SubstringFromZero(description, ExcerptLength);
    Substring(description, 0, ExcerptLength)
  }

  /** The first line of an entry: its 1-based number, a dot, the title. */
  function NumberedTitle(number: nat, title: string): string {
    NumberToString(number) + ". " + title
  }

  /** The four lines of the entry numbered `number`. */
  function EntryLines(number: nat, p: Product): seq<string> {
    [ NumberedTitle(number, p.title),
      PriceLabel + p.price,
      CategoryLabel + p.category,
      DescriptionLabel + Excerpt(p.description) + "...\n" ]
  }

  /** The entries of `products`, the first one numbered `first`, each
      following product numbered one more than the one before. */
  function Entries(products: seq<Product>, first: nat): (lines: seq<string>)
    ensures |lines| == 4 * |products|
    ensures forall i :: 0 <= i < |products| ==> lines[4 * i..4 * i + 4] == EntryLines(first + i, products[i])
    decreases |products|
  {
    if |products| == 0 then []
    else
      var head := EntryLines(first, products[0]);
      var rest := Entries(products[1..], first + 1);
      assert forall i :: 1 <= i < |products| ==>
        (head + rest)[4 * i..4 * i + 4] == rest[4 * (i - 1)..4 * (i - 1) + 4]
        && products[1..][i - 1] == products[i];
      head + rest
  }

  /** `mostrarProductos`: the header, then the products' entries numbered
      from 1 in the order the products arrive. */
  function ListLines(products: seq<Product>): (lines: seq<string>)
    ensures |lines| == 1 + 4 * |products|
    ensures lines[0] == ListHeader(|products|)
    ensures forall i :: 0 <= i < |products| ==> lines[1 + 4 * i..5 + 4 * i] == EntryLines(i + 1, products[i])
  {
    var entries := Entries(products, 1);
    var lines := [ListHeader(|products|)] + entries;
    assert forall i :: 0 <= i < |products| ==> lines[1 + 4 * i..5 + 4 * i] == entries[4 * i..4 * i + 4];
    lines
  }

  /* ---------------------------------------------------------------------
     reading the numbering back
     --------------------------------------------------------------------- */

  /** The run of decimal digits a line starts with. */
  function LeadingDigits(s: string): (d: string)
    ensures d <= s
    ensures forall i :: 0 <= i < |d| ==> IsDigit(d[i])
  {
    if |s| > 0 && IsDigit(s[0]) then [s[0]] + LeadingDigits(s[1..]) else []
  }

  /** A string of digits followed by a non-digit is read back whole. */
  lemma {:induction false} LeadingDigitsOf(d: string, rest: string)
    requires forall i :: 0 <= i < |d| ==> IsDigit(d[i])
    requires |rest| > 0 && !IsDigit(rest[0])
    ensures LeadingDigits(d + rest) == d
    decreases |d|
  {
    if |d| > 0 {
      assert (d + rest)[1..] == d[1..] + rest;
      LeadingDigitsOf(d[1..], rest);
    } else {
      assert d + rest == rest;
    }
  }

  /** The number an entry's first line starts with is the entry's number. */
  lemma NumberedTitleReadsBack(number: nat, title: string)
    ensures DecimalValue(LeadingDigits(NumberedTitle(number, title))) == number
  {
    var d := NumberToString(number);
    assert NumberedTitle(number, title) == d + (". " + title);
    LeadingDigitsOf(d, ". " + title);
    NumberToStringRoundTrip(number);
  }

  /** The listing numbers its entries 1..n in input order: the first line of
      the i-th entry reads back as i + 1 and carries the i-th title. */
  lemma ListingNumbering(products: seq<Product>, i: nat)
    requires i < |products|
    ensures DecimalValue(LeadingDigits(ListLines(products)[1 + 4 * i])) == i + 1
    ensures ListLines(products)[1 + 4 * i] == LeadingDigits(ListLines(products)[1 + 4 * i]) + ". " + products[i].title
  {
    var lines := ListLines(products);
    var block := EntryLines(i + 1, products[i]);
    assert lines[1 + 4 * i..5 + 4 * i] == block;
    assert lines[1 + 4 * i] == block[0];
    var d := NumberToString(i + 1);
    assert block[0] == d + (". " + products[i].title);
    LeadingDigitsOf(d, ". " + products[i].title);
    NumberToStringRoundTrip(i + 1);
  }
}
