/** What a reader of the snapshot reply can recover from it. When no name, address or
    rendered price contains a line break, the reply splits into lines that parse back
    into one block per entry, in array order, each opened by its `Name:` line and
    followed by its `Address:` line and one `Price:` line per present price. */
module SummaryText {
  import opened Wrappers
  import opened Snapshot
  import opened SeqLemmas

  /** What the reply shows of one entry: tokens without a price leave no trace. */
  datatype Block = Block(name: string, address: string, prices: seq<string>)

  /** The present prices of an entry's tokens, in token order. */
  function PresentPrices(ps: seq<Option<string>>): (r: seq<string>)
    ensures |r| <= |ps|
    ensures forall x :: x in r <==> Some(x) in ps
  {
    if ps == [] then []
    else
      var rest := PresentPrices(ps[1..]);
      assert forall x :: Some(x) in ps <==> ps[0] == Some(x) || Some(x) in ps[1..];
      match ps[0]
      case Some(x) => [x] + rest
      case None => rest
  }

  /** Present prices distribute over concatenation of token runs, so their order is
      token order. */
  lemma {:induction false} PresentPricesAppend(xs: seq<Option<string>>, ys: seq<Option<string>>)
    ensures PresentPrices(xs + ys) == PresentPrices(xs) + PresentPrices(ys)
  {
    if xs == [] {
      assert xs + ys == ys;
    } else {
      assert (xs + ys)[1..] == xs[1..] + ys;
      PresentPricesAppend(xs[1..], ys);
    }
  }

  /** One token contributes its price, or nothing when it has none. */
  lemma PresentPricesSingle(x: string)
    ensures PresentPrices([Some(x)]) == [x]
    ensures PresentPrices([None]) == []
  {
    assert [Some(x)][1..] == [];
    var none: Option<string> := None;
    assert [none][1..] == [];
  }

  function ToBlock(e: Entry): Block
  {
    Block(e.name, e.address, PresentPrices(e.prices))
  }

  function Blocks(es: seq<Entry>): (r: seq<Block>)
  {
    seq(|es|, k requires 0 <= k < |es| => ToBlock(es[k]))
  }

  predicate NoLineBreak(s: string) { '\n' !in s }

  /** No field the reply prints contains a line break. */
  ghost predicate PrintableFields(es: seq<Entry>)
  {
    forall k :: 0 <= k < |es| ==>
      NoLineBreak(es[k].name) && NoLineBreak(es[k].address) &&
      forall x :: Some(x) in es[k].prices ==> NoLineBreak(x)
  }

  // ---------------------------------------------------------------------------
  // Lines

  /** Every line followed by a line break. */
  function Unlines(ls: seq<string>): string
  {
    if ls == [] then "" else ls[0] + "\n" + Unlines(ls[1..])
  }

  /** Index of the first line break in `s`, or `|s|` when it has none. */
  function LineEnd(s: string): (k: nat)
    ensures k <= |s|
    ensures forall j :: 0 <= j < k ==> s[j] != '\n'
    ensures k < |s| ==> s[k] == '\n'
  {
    if s == [] || s[0] == '\n' then 0 else 1 + LineEnd(s[1..])
  }

  /** The lines of `s`; a final line break ends the last line rather than opening
      an empty one. */
  function SplitLines(s: string): seq<string>
    decreases |s|
  {
    if s == [] then []
    else
      var k := LineEnd(s);
      [s[..k]] + if k < |s| then SplitLines(s[k + 1..]) else []
  }

  /** Each present price as a labelled line. */
  function PriceTexts(prices: seq<string>): (r: seq<string>)
    ensures |r| == |prices|
    ensures forall k :: 0 <= k < |prices| ==> r[k] == PriceLabel + prices[k]
  {
    if prices == [] then [] else [PriceLabel + prices[0]] + PriceTexts(prices[1..])
  }

  function EntryLines(e: Entry): seq<string>
  {
    [NameLabel + e.name, AddressLabel + e.address] + PriceTexts(PresentPrices(e.prices))
  }

  function SummaryLines(es: seq<Entry>): seq<string>
  {
    if es == [] then [] else EntryLines(es[0]) + SummaryLines(es[1..])
  }

  // ---------------------------------------------------------------------------
  // Parsing the lines back

  predicate HasPrefix(s: string, p: string)
  {
    |p| <= |s| && s[..|p|] == p
  }

  /** The leading `Price:` lines, without their label, and the lines after them. */
  function TakePrices(ls: seq<string>): (r: (seq<string>, seq<string>))
    ensures |r.1| <= |ls|
  {
    if ls != [] && HasPrefix(ls[0], PriceLabel) then
      var (ps, rest) := TakePrices(ls[1..]);
      ([ls[0][|PriceLabel|..]] + ps, rest)
    else ([], ls)
  }

  /** Reads blocks of a `Name:` line, an `Address:` line and `Price:` lines. */
  function ParseBlocks(ls: seq<string>): Option<seq<Block>>
    decreases |ls|
  {
    if ls == [] then Some([])
    else if |ls| < 2 || !HasPrefix(ls[0], NameLabel) || !HasPrefix(ls[1], AddressLabel) then None
    else
      var (prices, rest) := TakePrices(ls[2..]);
      match ParseBlocks(rest)
      case None => None
      case Some(bs) => Some([Block(ls[0][|NameLabel|..], ls[1][|AddressLabel|..], prices)] + bs)
  }

  function ParseSummary(s: string): Option<seq<Block>>
  {
    ParseBlocks(SplitLines(s))
  }

  // ---------------------------------------------------------------------------
  // The round trip

  lemma {:induction false} UnlinesAppend(xs: seq<string>, ys: seq<string>)
    ensures Unlines(xs + ys) == Unlines(xs) + Unlines(ys)
  {
    if xs == [] {
      assert xs + ys == ys;
    } else {
      assert (xs + ys)[1..] == xs[1..] + ys;
      UnlinesAppend(xs[1..], ys);
    }
  }

  lemma {:induction false} PriceLinesAsLines(ps: seq<Option<string>>)
    ensures PriceLines(ps) == Unlines(PriceTexts(PresentPrices(ps)))
  {
    if ps != [] {
      PriceLinesAsLines(ps[1..]);
      var rest := PriceTexts(PresentPrices(ps[1..]));
      if ps[0].Some? {
        var p := ps[0].value;
        assert PresentPrices(ps) == [p] + PresentPrices(ps[1..]);
        assert PriceTexts(PresentPrices(ps)) == [PriceLabel + p] + rest;
        assert Unlines([PriceLabel + p] + rest) == PriceLabel + p + "\n" + Unlines(rest) by {
          assert ([PriceLabel + p] + rest)[1..] == rest;
        }
      }
    }
  }

  /** The reply is its summary lines, each terminated by a line break. */
  lemma {:induction false} FormatAsLines(es: seq<Entry>)
    ensures Format(es) == Unlines(SummaryLines(es))
  {
    if es != [] {
      var e := es[0];
      FormatAsLines(es[1..]);
      PriceLinesAsLines(e.prices);
      var prices := PriceTexts(PresentPrices(e.prices));
      var name := NameLabel + e.name;
      var address := AddressLabel + e.address;
      assert Unlines([address] + prices) == address + "\n" + Unlines(prices) by {
        assert ([address] + prices)[1..] == prices;
      }
      assert EntryLines(e) == [name] + ([address] + prices);
      assert Unlines(EntryLines(e)) == name + "\n" + Unlines([address] + prices) by {
        assert EntryLines(e)[1..] == [address] + prices;
      }
      assert EntryBlock(e) == Unlines(EntryLines(e));
      UnlinesAppend(EntryLines(e), SummaryLines(es[1..]));
    }
  }

  lemma {:induction false} LineEndAfter(l: string, rest: string)
    requires NoLineBreak(l)
    ensures LineEnd(l + "\n" + rest) == |l|
  {
    if l != [] {
      assert (l + "\n" + rest)[1..] == l[1..] + "\n" + rest;
      LineEndAfter(l[1..], rest);
    }
  }

  /** Splitting undoes `Unlines` when no line holds a line break. */
  lemma {:induction false} SplitUnlines(ls: seq<string>)
    requires forall k :: 0 <= k < |ls| ==> NoLineBreak(ls[k])
    ensures SplitLines(Unlines(ls)) == ls
  {
    if ls != [] {
      var s := Unlines(ls);
      var rest := Unlines(ls[1..]);
      LineEndAfter(ls[0], rest);
      assert s[..|ls[0]|] == ls[0];
      assert s[|ls[0]| + 1..] == rest;
      SplitUnlines(ls[1..]);
    }
  }

  /** The `Price:` lines of a block are taken up to the next `Name:` line. */
  lemma {:induction false} TakePriceTexts(prices: seq<string>, rest: seq<string>)
    requires rest == [] || !HasPrefix(rest[0], PriceLabel)
    ensures TakePrices(PriceTexts(prices) + rest) == (prices, rest)
  {
    if prices == [] {
      assert PriceTexts(prices) + rest == rest;
    } else {
      var p := PriceLabel + prices[0];
      var later := PriceTexts(prices[1..]) + rest;
      assert PriceTexts(prices) == [p] + PriceTexts(prices[1..]);
      ConcatAssoc([p], PriceTexts(prices[1..]), rest);
      AfterOne(p, later);
      LabelledLine(PriceLabel, prices[0]);
      TakePriceTexts(prices[1..], rest);
      HeadAndTail(prices);
    }
  }

  lemma NameLineIsNotPriceLine(name: string)
    ensures !HasPrefix(NameLabel + name, PriceLabel)
  {
    assert (NameLabel + name)[0] != PriceLabel[0];
  }

  lemma {:induction false} SummaryLinesStart(es: seq<Entry>)
    requires es != []
    ensures SummaryLines(es) != [] && SummaryLines(es)[0] == NameLabel + es[0].name
  {
  }

  lemma LabelledLine(tag: string, value: string)
    ensures HasPrefix(tag + value, tag) && (tag + value)[|tag|..] == value
  {
  }

  /** One entry's lines, followed by lines that do not continue its prices, parse
      into its block followed by whatever those lines parse into. */
  lemma ParseEntryLines(e: Entry, later: seq<string>)
    requires later == [] || !HasPrefix(later[0], PriceLabel)
    ensures ParseBlocks(EntryLines(e) + later) ==
      match ParseBlocks(later)
      case None => None
      case Some(bs) => Some([ToBlock(e)] + bs)
  {
    var name := NameLabel + e.name;
    var address := AddressLabel + e.address;
    var prices := PresentPrices(e.prices);
    var ls := EntryLines(e) + later;
    ConcatAssoc([name, address], PriceTexts(prices), later);
    AfterTwo(name, address, PriceTexts(prices) + later);
    LabelledLine(NameLabel, e.name);
    LabelledLine(AddressLabel, e.address);
    TakePriceTexts(prices, later);
  }

  lemma {:induction false} ParseSummaryLines(es: seq<Entry>)
    ensures ParseBlocks(SummaryLines(es)) == Some(Blocks(es))
  {
    if es != [] {
      var later := SummaryLines(es[1..]);
      if es[1..] != [] {
        SummaryLinesStart(es[1..]);
        NameLineIsNotPriceLine(es[1].name);
      }
      ParseEntryLines(es[0], later);
      ParseSummaryLines(es[1..]);
      assert SummaryLines(es) == EntryLines(es[0]) + later;
      assert ParseBlocks(SummaryLines(es)) == Some([ToBlock(es[0])] + Blocks(es[1..]));
      assert Blocks(es) == [ToBlock(es[0])] + Blocks(es[1..]);
    } else {
      assert Blocks(es) == [];
    }
  }

  /** The reply parses back into the entries' blocks: one per entry, in array order,
      each with the entry's name, its address and its present prices in token order. */
  lemma SummaryRoundTrip(es: seq<Entry>)
    requires PrintableFields(es)
    ensures ParseSummary(Format(es)) == Some(Blocks(es))
    ensures |Blocks(es)| == |es|
  {
    FormatAsLines(es);
    SummaryLinesPrintable(es);
    SplitUnlines(SummaryLines(es));
    ParseSummaryLines(es);
  }

  lemma {:induction false} SummaryLinesPrintable(es: seq<Entry>)
    requires PrintableFields(es)
    ensures forall k :: 0 <= k < |SummaryLines(es)| ==> NoLineBreak(SummaryLines(es)[k])
  {
    if es != [] {
      SummaryLinesPrintable(es[1..]);
      var e := es[0];
      var prices := PresentPrices(e.prices);
      var front := EntryLines(e);
      forall k | 0 <= k < |front| ensures NoLineBreak(front[k]) {
        if k >= 2 {
          assert Some(prices[k - 2]) in e.prices;
        }
      }
      forall k | 0 <= k < |SummaryLines(es)| ensures NoLineBreak(SummaryLines(es)[k]) {
        if k >= |front| {
          assert SummaryLines(es)[k] == SummaryLines(es[1..])[k - |front|];
        }
      }
    }
  }
}
