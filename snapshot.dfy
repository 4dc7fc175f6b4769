/** The `/top` market snapshot: the entries of `data.data` in the fetched document are
    turned into one text, a `Name:` and an `Address:` line per entry followed by one
    `Price:` line per token that has a numeric price. A field the code unwraps and
    finds missing aborts the handler, so no partial summary is ever sent. */
module Snapshot {
  import opened Wrappers
  import opened Json
  import opened SeqLemmas

  const NameLabel: string := "Name: "
  const AddressLabel: string := "Address: "
  const PriceLabel: string := "Price: "
  const Newline: string := "\n"

  /** One decoded entry: its `name`, its `main_token_address` and, for each of its
      tokens in order, the rendered price when `price` is a number. */
  datatype Entry = Entry(name: string, address: string, prices: seq<Option<string>>)

  /** The `unwrap` calls that abort the handler; entry indices count from 0. */
  datatype Fault =
    | MissingDataArray
    | NameNotString(entry: nat)
    | AddressNotString(entry: nat)
    | MissingTokens(entry: nat)

  // ---------------------------------------------------------------------------
  // Decoding the document

  function PriceOf(token: Value): Option<string>
  {
    AsF64(Index(token, "price"))
  }

  /** One slot per token: present exactly when the token's `price` is a JSON number,
      and then holding that number's rendering. */
  function TokenPrices(tokens: seq<Value>): (r: seq<Option<string>>)
    ensures |r| == |tokens|
    ensures forall k :: 0 <= k < |tokens| ==> (r[k].Some? <==> Index(tokens[k], "price").Number?)
    ensures forall k :: 0 <= k < |tokens| && r[k].Some? ==> Index(tokens[k], "price") == Number(r[k].value)
  {
    seq(|tokens|, k requires 0 <= k < |tokens| => PriceOf(tokens[k]))
  }

  /** Entry `i` of the array, in the order the loop body unwraps its fields. */
  function DecodeEntry(d: Value, i: nat): Result<Entry, Fault>
  {
    match AsStr(Index(d, "name"))
    case None => Failure(NameNotString(i))
    case Some(name) =>
      match AsStr(Index(d, "main_token_address"))
      case None => Failure(AddressNotString(i))
      case Some(address) =>
        match AsArray(Index(d, "tokens"))
        case None => Failure(MissingTokens(i))
        case Some(tokens) => Success(Entry(name, address, TokenPrices(tokens)))
  }

  function Prepend(done: seq<Entry>, r: Result<seq<Entry>, Fault>): Result<seq<Entry>, Fault>
  {
    match r
    case Success(es) => Success(done + es)
    case Failure(f) => Failure(f)
  }

  lemma PrependStep(done: seq<Entry>, e: Entry, r: Result<seq<Entry>, Fault>)
    ensures Prepend(done, Prepend([e], r)) == Prepend(done + [e], r)
  {
    if r.Success? {
      assert done + ([e] + r.value) == done + [e] + r.value;
    }
  }

  /** Entries `i..` of the array; the first fault met in array order wins. */
  function DecodeFrom(ds: seq<Value>, i: nat): Result<seq<Entry>, Fault>
    requires i <= |ds|
    decreases |ds| - i
  {
    if i == |ds| then Success([])
    else
      match DecodeEntry(ds[i], i)
      case Failure(f) => Failure(f)
      case Success(e) => Prepend([e], DecodeFrom(ds, i + 1))
  }

  /** `c["data"]["data"].as_array().unwrap()` and the fields of every entry. */
  function Decode(doc: Value): Result<seq<Entry>, Fault>
  {
    match AsArray(Index(Index(doc, "data"), "data"))
    case None => Failure(MissingDataArray)
    case Some(ds) => DecodeFrom(ds, 0)
  }

  // ---------------------------------------------------------------------------
  // Formatting

  /** The three `push_str` calls that write one labelled line. */
  function Line(tag: string, value: string): string
  {
    tag + value + Newline
  }

  function PriceLine(p: Option<string>): string
  {
    match p
    case Some(x) => Line(PriceLabel, x)
    case None => ""
  }

  function PriceLines(ps: seq<Option<string>>): string
  {
    if ps == [] then "" else PriceLine(ps[0]) + PriceLines(ps[1..])
  }

  function Header(name: string, address: string): string
  {
    Line(NameLabel, name) + Line(AddressLabel, address)
  }

  function EntryBlock(e: Entry): string
  {
    Header(e.name, e.address) + PriceLines(e.prices)
  }

  /** The text the snapshot reply is edited to. */
  function Format(es: seq<Entry>): string
  {
    if es == [] then "" else EntryBlock(es[0]) + Format(es[1..])
  }

  /** The whole `/top` computation on a fetched document. */
  function Summary(doc: Value): Result<string, Fault>
  {
    match Decode(doc)
    case Success(es) => Success(Format(es))
    case Failure(f) => Failure(f)
  }

  // ---------------------------------------------------------------------------
  // The loop that builds `resp_str`

  /** The outer loop over the entries of `data.data`, appending each entry's block to
      one accumulator; a failed `unwrap` ends the computation with the fault instead
      of a summary. */
  method BuildSummary(doc: Value) returns (r: Result<string, Fault>)
    ensures r == Summary(doc)
  {
    var resp := "";
    var dataArr := AsArray(Index(Index(doc, "data"), "data"));
    if dataArr.None? {
      return Failure(MissingDataArray);
    }
    var ds := dataArr.value;
    ghost var done: seq<Entry> := [];
    var i := 0;
    if DecodeFrom(ds, 0).Success? {
      assert [] + DecodeFrom(ds, 0).value == DecodeFrom(ds, 0).value;
    }
    while i < |ds|
      invariant 0 <= i <= |ds|
      invariant DecodeFrom(ds, 0) == Prepend(done, DecodeFrom(ds, i))
      invariant resp == Format(done)
    {
      var next := AppendEntry(resp, ds[i], i);
      if next.Failure? {
        return Failure(next.error);
      }
      ghost var e := DecodeEntry(ds[i], i).value;
      FormatAppend(done, [e]);
      assert Format([e]) == EntryBlock(e);
      PrependStep(done, e, DecodeFrom(ds, i + 1));
      resp := next.value;
      done := done + [e];
      i := i + 1;
    }
    assert DecodeFrom(ds, i) == Success([]);
    assert done + [] == done;
    return Success(resp);
  }

  /** The body of the outer loop for entry `i`: its `Name:` and `Address:` lines, then
      the inner loop over its tokens, appended to `resp`. */
  method AppendEntry(resp: string, d: Value, i: nat) returns (r: Result<string, Fault>)
    ensures DecodeEntry(d, i).Failure? ==> r == Failure(DecodeEntry(d, i).error)
    ensures DecodeEntry(d, i).Success? ==> r == Success(resp + EntryBlock(DecodeEntry(d, i).value))
  {
    var acc := resp;
    var name := AsStr(Index(d, "name"));
    if name.None? {
      return Failure(NameNotString(i));
    }
    acc := acc + Line(NameLabel, name.value);
    var address := AsStr(Index(d, "main_token_address"));
    if address.None? {
      return Failure(AddressNotString(i));
    }
    acc := acc + Line(AddressLabel, address.value);
    var tokens := AsArray(Index(d, "tokens"));
    if tokens.None? {
      return Failure(MissingTokens(i));
    }
    ghost var e := Entry(name.value, address.value, TokenPrices(tokens.value));
    ConcatAssoc(resp, Line(NameLabel, e.name), Line(AddressLabel, e.address));
    ConcatAssoc(resp, Header(e.name, e.address), PriceLines(e.prices));
    acc := AppendPrices(acc, tokens.value);
    assert DecodeEntry(d, i) == Success(e);
    return Success(acc);
  }

  /** The inner loop over an entry's tokens: a `Price:` line for each token whose
      `price` is a number, in token order. */
  method AppendPrices(resp: string, tokens: seq<Value>) returns (acc: string)
    ensures acc == resp + PriceLines(TokenPrices(tokens))
  {
    ghost var ps := TokenPrices(tokens);
    assert ps[..0] == [];
    acc := resp;
    var j := 0;
    while j < |tokens|
      invariant 0 <= j <= |tokens|
      invariant acc == resp + PriceLines(ps[..j])
    {
      var p := AsF64(Index(tokens[j], "price"));
      TakeOneMore(ps, j);
      PriceLinesSnoc(ps[..j], ps[j]);
      ConcatAssoc(resp, PriceLines(ps[..j]), PriceLine(ps[j]));
      if p.Some? {
        acc := acc + Line(PriceLabel, p.value);
      }
      j := j + 1;
    }
    assert ps[..|tokens|] == ps;
  }

  // ---------------------------------------------------------------------------
  // Properties

  /** The price lines of consecutive token runs are consecutive. */
  lemma {:induction false} PriceLinesAppend(xs: seq<Option<string>>, ys: seq<Option<string>>)
    ensures PriceLines(xs + ys) == PriceLines(xs) + PriceLines(ys)
  {
    if xs == [] {
      assert xs + ys == ys;
    } else {
      assert (xs + ys)[1..] == xs[1..] + ys;
      PriceLinesAppend(xs[1..], ys);
    }
  }

  lemma PriceLinesSnoc(ps: seq<Option<string>>, p: Option<string>)
    ensures PriceLines(ps + [p]) == PriceLines(ps) + PriceLine(p)
  {
    PriceLinesAppend(ps, [p]);
    assert [p][1..] == [];
  }

  /** Formatting distributes over concatenation: the loop only ever appends. */
  lemma {:induction false} FormatAppend(xs: seq<Entry>, ys: seq<Entry>)
    ensures Format(xs + ys) == Format(xs) + Format(ys)
  {
    if xs == [] {
      assert xs + ys == ys;
    } else {
      assert (xs + ys)[1..] == xs[1..] + ys;
      FormatAppend(xs[1..], ys);
    }
  }

  /** The summary of the first `i` entries is a prefix of the whole summary. */
  lemma {:induction false} FormatPrefix(es: seq<Entry>, i: nat)
    requires i <= |es|
    ensures Format(es) == Format(es[..i]) + Format(es[i..])
  {
    assert es == es[..i] + es[i..];
    FormatAppend(es[..i], es[i..]);
  }

  /** A token without a numeric price adds nothing: dropping it leaves the text as it is. */
  lemma {:induction false} AbsentPriceAddsNothing(ps: seq<Option<string>>, k: nat)
    requires k < |ps| && ps[k].None?
    ensures PriceLines(ps) == PriceLines(ps[..k] + ps[k + 1..])
  {
    assert ps == ps[..k] + [ps[k]] + ps[k + 1..];
    PriceLinesAppend(ps[..k] + [ps[k]], ps[k + 1..]);
    PriceLinesAppend(ps[..k], [ps[k]]);
    PriceLinesAppend(ps[..k], ps[k + 1..]);
  }

  /** Changing one entry changes only that entry's block: everything before and after
      it is the same text. */
  lemma {:induction false} EntryBlockIsolated(es: seq<Entry>, k: nat, e: Entry)
    requires k < |es|
    ensures Format(es) == Format(es[..k]) + EntryBlock(es[k]) + Format(es[k + 1..])
    ensures Format(es[k := e]) == Format(es[..k]) + EntryBlock(e) + Format(es[k + 1..])
  {
    assert es == es[..k] + [es[k]] + es[k + 1..];
    assert es[k := e] == es[..k] + [e] + es[k + 1..];
    FormatAround(es[..k], es[k], es[k + 1..]);
    FormatAround(es[..k], e, es[k + 1..]);
  }

  lemma FormatAround(xs: seq<Entry>, x: Entry, ys: seq<Entry>)
    ensures Format(xs + [x] + ys) == Format(xs) + EntryBlock(x) + Format(ys)
  {
    FormatAppend(xs + [x], ys);
    FormatAppend(xs, [x]);
    SingleBlock(x);
  }

  /** Decoding succeeds exactly when every entry decodes, and then yields one entry per
      element of the array, in array order. */
  lemma {:induction false} DecodeFromAll(ds: seq<Value>, i: nat)
    requires i <= |ds|
    ensures DecodeFrom(ds, i).Success? <==> forall k :: i <= k < |ds| ==> DecodeEntry(ds[k], k).Success?
    ensures DecodeFrom(ds, i).Success? ==>
      |DecodeFrom(ds, i).value| == |ds| - i &&
      forall k :: i <= k < |ds| ==> DecodeFrom(ds, i).value[k - i] == DecodeEntry(ds[k], k).value
    decreases |ds| - i
  {
    if i < |ds| {
      DecodeFromAll(ds, i + 1);
    }
  }

  /** When decoding fails, the fault is that of the first entry that does not decode. */
  lemma {:induction false} DecodeFromFirstFault(ds: seq<Value>, i: nat, k: nat)
    requires i <= k < |ds|
    requires forall j :: i <= j < k ==> DecodeEntry(ds[j], j).Success?
    requires DecodeEntry(ds[k], k).Failure?
    ensures DecodeFrom(ds, i) == Failure(DecodeEntry(ds[k], k).error)
    decreases k - i
  {
    if i < k {
      DecodeFromFirstFault(ds, i + 1, k);
    }
  }

  /** An empty entry array gives the empty summary. */
  lemma EmptyArrayEmptySummary(doc: Value)
    requires AsArray(Index(Index(doc, "data"), "data")) == Some([])
    ensures Summary(doc) == Success("")
  {
  }

  lemma SingleBlock(e: Entry)
    ensures Format([e]) == EntryBlock(e)
  {
    assert [e][1..] == [];
  }
}
