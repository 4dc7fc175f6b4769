# demo-telegram-bot: command dispatch and market snapshot, in Dafny

The bot answers Telegram updates. Its handler (`src/lib.rs`) reads the text of an
incoming message, treating a message without text as the empty string, and compares it
with `/help` and then with `/top`, ignoring ASCII case. `/help` sends the configured
help message. `/top` sends a placeholder message, fetches a ranked list of projects
from a market-data endpoint and edits the placeholder to a summary. For each project
in `data.data` the summary has a `Name:` line, an `Address:` line, and one `Price:`
line for every token whose `price` is a number. Any other text gets no reply.

The model has these modules:

- `Ascii` (`ascii.dfy`): `eq_ignore_ascii_case`. Lengths must match, and characters must
  match after folding `A`-`Z` to `a`-`z`. Rust compares UTF-8 bytes. The model compares
  characters. The two agree, because folding only touches ASCII bytes and UTF-8
  encodes every other character with bytes outside the ASCII range.
- `Dispatch` (`dispatch.dfy`): the `if / else if / else` chain as `Classify`, which
  maps a text to `Help`, `Top` or `Ignore`.
- `Json` (`json.dfy`): the part of `serde_json::Value` the loop uses. Indexing a
  non-object or a missing key gives `Null`. There are also the `as_array`, `as_str`
  and `as_f64` views. A number carries the text `f64::to_string` gives for it.
- `Snapshot` (`snapshot.dfy`): decoding `data.data` into entries, where each failing
  `unwrap` becomes a `Fault`. It also holds the summary as a recursive function
  (`Format`, `Summary`) and the `resp_str` loop as methods proved equal to it. The
  outer loop is `BuildSummary`, its body is `AppendEntry`, and the inner token loop
  is `AppendPrices`.
- `SnapshotExamples` (`snapshot_examples.dfy`): worked examples, from a whole JSON
  document through decoding to the reply text.
- `SummaryText` (`summary_text.dfy`): the summary split into lines and parsed back
  into one block per entry. This is the round trip that pins down the layout.
- `Handler` (`handler.dfy`): which Telegram calls one update leads to.
- `Wrappers`, `SeqLemmas`: `Option`/`Result` and small sequence facts.

The live loop reports every present price of an entry. The commented-out loop
(`src/lib.rs:53-76`) stopped at the first one. The model follows the live loop.
`/start` and every other command-like text is ignored by this handler.

## Model

| member | source | states |
|---|---|---|
| Ascii.ToAsciiLowerSpec | src/lib.rs:33 | ASCII folding leaves no upper-case letter, is idempotent, changes exactly `A`-`Z`, and `ToAsciiUpper` undoes it on them |
| Ascii.FoldLower | src/lib.rs:33 | the folded string has the same length and holds each character folded |
| Ascii.CaseVariantsOfChar | src/lib.rs:33 | the set holds exactly the characters that fold to the same letter as the given one |
| Ascii.EqIgnoreAsciiCaseIsFoldedEquality | src/lib.rs:33 | the comparison holds iff both strings fold to the same string |
| Ascii.EqIgnoreAsciiCaseIsEquivalence | src/lib.rs:33 | the comparison is reflexive, symmetric and transitive |
| Ascii.CaseVariantsExact | src/lib.rs:33 | a string compares equal to `s` iff it is one of the letter-by-letter case variants of `s` |
| Dispatch.ClassifySpec | src/lib.rs:33-102 | Help iff the text equals `/help` ignoring ASCII case; Top iff it equals `/top`; Ignore iff neither; the two tests never both hold |
| Dispatch.ClassifyByVariants | src/lib.rs:33-36 | Help and Top are chosen by exactly the case variants of `/help` and `/top` |
| Dispatch.OtherLengthsIgnored | src/lib.rs:33-102 | a text whose length is neither 5 nor 4 is ignored |
| Dispatch.MissingTextIgnored | src/lib.rs:32 | a message without text is read as `""` and ignored |
| Dispatch.Examples | src/lib.rs:33-36 | `/HELP` and `/HeLp` select help, `/TOP` selects top; `/help ` with a trailing space, `help`, `""` and `/start` are ignored |
| Snapshot.TokenPrices | src/lib.rs:89-91 | one slot per token; a slot is present iff that token's `price` is a JSON number, and then holds that number's rendering; a missing, `null` or string-valued price gives no slot |
| Snapshot.BuildSummary | src/lib.rs:78-97 | the nested loop's result equals `Summary`: the formatted entries, or the first fault in array order when an `unwrap` fails |
| Snapshot.AppendEntry | src/lib.rs:82-96 | one loop body appends exactly that entry's block, or yields the entry's fault |
| Snapshot.AppendPrices | src/lib.rs:90-96 | the inner loop appends exactly the `Price:` lines of the present prices, in token order |
| Snapshot.PriceLinesAppend | src/lib.rs:90-96 | the price lines of two runs of tokens are the concatenation of each run's lines |
| Snapshot.PriceLinesSnoc | src/lib.rs:90-96 | one more token appends its price line, or nothing when its price is absent |
| Snapshot.FormatAppend | src/lib.rs:78-97 | formatting distributes over concatenation of entry arrays |
| Snapshot.FormatPrefix | src/lib.rs:78-97 | the text for the first `i` entries is a prefix of the whole text; later entries never change earlier output |
| Snapshot.FormatAround | src/lib.rs:81-97 | an entry between two runs contributes exactly its own block between theirs |
| Snapshot.EntryBlockIsolated | src/lib.rs:81-97 | replacing one entry changes only that entry's block; the text before and after it is the same |
| Snapshot.AbsentPriceAddsNothing | src/lib.rs:91-95 | removing a token without a numeric price leaves the price lines unchanged |
| Snapshot.DecodeFromAll | src/lib.rs:80-89 | decoding succeeds iff every entry decodes, and then yields one entry per array element, in order |
| Snapshot.DecodeFromFirstFault | src/lib.rs:81-89 | when decoding fails, the fault is that of the first entry that does not decode |
| Snapshot.EmptyArrayEmptySummary | src/lib.rs:78-81 | an empty `data.data` array gives the empty summary |
| SnapshotExamples.ThreeEntryExample | src/lib.rs:81-96 | three entries give three blocks, and price lines appear only for present prices |
| SnapshotExamples.TokenPriceExamples | src/lib.rs:91 | tokens whose `price` is missing, `null` or the string `"1.5"` give no price; a numeric price is kept |
| SnapshotExamples.DecodeExample | src/lib.rs:80-91 | a three-entry document decodes to three entries, with a token lacking `price` and a string-valued price both decoded as absent |
| SnapshotExamples.SummaryExample | src/lib.rs:78-97 | the same document gives three blocks, with `Price:` lines only for the numeric prices |
| SummaryText.PresentPrices | src/lib.rs:89-96 | the present prices are no more than the tokens, and they are exactly the values of the `Some` slots |
| SummaryText.PresentPricesAppend | src/lib.rs:90-96 | present prices distribute over concatenation of token runs, so they come in token order |
| SummaryText.PresentPricesSingle | src/lib.rs:91-95 | a token with a price contributes exactly that price, and a token without one contributes nothing |
| SummaryText.FormatAsLines | src/lib.rs:82-96 | the summary is its lines (`Name: n`, `Address: a`, then `Price: p` per present price) each followed by a line break |
| SummaryText.SummaryRoundTrip | src/lib.rs:78-97 | when no field holds a line break, parsing the summary gives back one block per entry, in array order, each with that entry's name, address and present prices in token order |
| Handler.IgnoredUpdates | src/lib.rs:28-104 | non-message updates and texts classified Ignore make no Telegram call and do not abort |
| Handler.HelpReply | src/lib.rs:33-34 | `/help` in any case sends the help message and nothing else |
| Handler.TopReply | src/lib.rs:36-98 | `/top` in any case first sends the placeholder. If every `unwrap` succeeds, the placeholder is edited to the formatted entries. Otherwise it is never edited and the handler aborts with the fault |

## Left out

- Telegram transport: `listen_to_update`, `Telegram::new`, and the results of `send_message` and `edit_message_text` (src/lib.rs:19-22, 34, 37-39, 98). Calls are recorded as `Action` values. A failed placeholder send, which `.expect` turns into a panic, is not modelled.
- The HTTP request to the market-data endpoint, `String::from_utf8` and `serde_json::from_str` (src/lib.rs:41-47, 79). The parsed document is an input of `Summary`, `BuildSummary` and `Handle`, and network and parse failures are not modelled.
- `f64::to_string` (src/lib.rs:93): floating-point rendering. A JSON number carries its rendered text as an opaque string.
- JSON objects are maps, so duplicate keys are not represented.
- Environment lookups and their defaults, logger setup, `log::info!` and the async runtime (src/lib.rs:11-17, 30, 47).
- The commented-out first-price-only loop (src/lib.rs:53-76) and the commented-out serde schema (src/lib.rs:109-579): both are dead code.
- Image generation, job polling, prompt splitting and per-chat model selection: src/lib.rs holds none of them, so they are not part of this model.
- Message addressing: every call goes to the sender's chat (`msg.chat.id`), and the edit targets the placeholder's message id (src/lib.rs:29, 34, 38, 98). `Update` carries no chat id, and `Action` carries no target.
- Concurrency: each update is handled independently, so two updates handled at once are not modelled.
- SummaryText.SummaryRoundTrip: holds only when no name, address or rendered price contains a line break. The source prints such fields as they are, and then the reply's lines no longer separate entries.
