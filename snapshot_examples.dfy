/** Worked examples of the `/top` summary, from entries and from a whole document. */
module SnapshotExamples {
  import opened Wrappers
  import opened Json
  import opened Snapshot
  import opened SeqLemmas

  /** Three entries, the second without a price and the third with a token lacking
      one between two priced tokens: three blocks, and price lines only where a
      price is present. */
  lemma ThreeEntryExample(n1: string, a1: string, p1: string, n2: string, a2: string,
                          n3: string, a3: string, p2: string, p3: string)
    ensures Format([Entry(n1, a1, [Some(p1)]), Entry(n2, a2, [None]), Entry(n3, a3, [Some(p2), None, Some(p3)])])
         == Header(n1, a1) + Line(PriceLabel, p1)
          + Header(n2, a2)
          + Header(n3, a3) + Line(PriceLabel, p2) + Line(PriceLabel, p3)
  {
    var a := Entry(n1, a1, [Some(p1)]);
    var b := Entry(n2, a2, [None]);
    var c := Entry(n3, a3, [Some(p2), None, Some(p3)]);
    var l2, l3 := Line(PriceLabel, p2), Line(PriceLabel, p3);
    assert [a] + [b] + [c] == [a, b, c];
    FormatAround([a], b, [c]);
    SingleBlock(a);
    SingleBlock(c);
    PriceLinesSnoc([], Some(p1));
    assert [] + [Some(p1)] == a.prices;
    PriceLinesSnoc([], None);
    assert [] + [None] == b.prices;
    ThirdEntryPrices(p2, p3);
    var front := Header(n1, a1) + Line(PriceLabel, p1) + Header(n2, a2);
    ConcatAssoc(front, Header(n3, a3), l2 + l3);
    ConcatAssoc(front + Header(n3, a3), l2, l3);
  }

  lemma ThirdEntryPrices(p2: string, p3: string)
    ensures PriceLines([Some(p2), None, Some(p3)]) == Line(PriceLabel, p2) + Line(PriceLabel, p3)
  {
    var ps := [Some(p2), None, Some(p3)];
    AfterOne(Some(p2), [None, Some(p3)]);
    AfterOne(None, [Some(p3)]);
    AfterOne(Some(p3), []);
    EmptyConcat(Line(PriceLabel, p3));
    assert PriceLines([Some(p3)]) == Line(PriceLabel, p3);
    assert PriceLines([None, Some(p3)]) == Line(PriceLabel, p3);
  }

  /** A token whose `price` is missing, `null` or a string has no price slot: a price
      sent as text is dropped; a numeric price is kept. */
  lemma TokenPriceExamples()
    ensures TokenPrices([Object(map[]), Object(map["price" := Null]), Object(map["price" := Str("1.5")]),
                         Object(map["price" := Number("1.5")])])
         == [None, None, None, Some("1.5")]
  {
  }

  function Token(price: Value): Value
  {
    Object(map["price" := price])
  }

  function EntryObject(name: string, address: string, tokens: seq<Value>): Value
  {
    Object(map["name" := Str(name), "main_token_address" := Str(address), "tokens" := Array(tokens)])
  }

  lemma DecodeEntryObject(name: string, address: string, tokens: seq<Value>, i: nat)
    ensures DecodeEntry(EntryObject(name, address, tokens), i) == Success(Entry(name, address, TokenPrices(tokens)))
  {
    var fields := EntryObject(name, address, tokens).fields;
    assert "name" != "main_token_address" && "name" != "tokens" && "main_token_address" != "tokens" by {
      assert |"name"| != |"main_token_address"| && |"name"| != |"tokens"| && |"main_token_address"| != |"tokens"|;
    }
    assert fields["name"] == Str(name);
    assert fields["main_token_address"] == Str(address);
  }

  /** Three entries: the second has a token without `price`, the third a string-valued
      price between two numeric ones. */
  function ExampleDocument(): Value
  {
    Object(map["data" := Object(map["data" := Array([
      EntryObject("A", "0xa", [Token(Number("1.5"))]),
      EntryObject("B", "0xb", [Object(map[])]),
      EntryObject("C", "0xc", [Token(Number("2")), Token(Str("2.5")), Token(Number("3"))])])])])
  }

  lemma DecodeExample()
    ensures Decode(ExampleDocument()) == Success([Entry("A", "0xa", [Some("1.5")]),
                                                 Entry("B", "0xb", [None]),
                                                 Entry("C", "0xc", [Some("2"), None, Some("3")])])
  {
    var da := EntryObject("A", "0xa", [Token(Number("1.5"))]);
    var db := EntryObject("B", "0xb", [Object(map[])]);
    var dc := EntryObject("C", "0xc", [Token(Number("2")), Token(Str("2.5")), Token(Number("3"))]);
    var a := Entry("A", "0xa", [Some("1.5")]);
    var b := Entry("B", "0xb", [None]);
    var c := Entry("C", "0xc", [Some("2"), None, Some("3")]);
    DecodeEntryObject("A", "0xa", [Token(Number("1.5"))], 0);
    assert TokenPrices([Token(Number("1.5"))]) == a.prices;
    DecodeEntryObject("B", "0xb", [Object(map[])], 1);
    assert TokenPrices([Object(map[])]) == b.prices;
    DecodeEntryObject("C", "0xc", [Token(Number("2")), Token(Str("2.5")), Token(Number("3"))], 2);
    assert TokenPrices([Token(Number("2")), Token(Str("2.5")), Token(Number("3"))]) == c.prices;
    var ds := [da, db, dc];
    assert ds[0] == da && ds[1] == db && ds[2] == dc;
    assert DecodeFrom(ds, 3) == Success([]);
    assert [c] + [] == [c];
    assert DecodeFrom(ds, 2) == Success([c]);
    assert DecodeFrom(ds, 1) == Success([b] + [c]);
    assert DecodeFrom(ds, 0) == Success([a] + ([b] + [c]));
    assert [a] + ([b] + [c]) == [a, b, c];
  }

  /** The whole path: the document decodes to three entries, and the reply has three
      blocks with price lines only for the numeric prices. */
  lemma SummaryExample()
    ensures Summary(ExampleDocument())
         == Success(Header("A", "0xa") + Line(PriceLabel, "1.5")
                  + Header("B", "0xb")
                  + Header("C", "0xc") + Line(PriceLabel, "2") + Line(PriceLabel, "3"))
  {
    DecodeExample();
    ThreeEntryExample("A", "0xa", "1.5", "B", "0xb", "C", "0xc", "2", "3");
  }
}
