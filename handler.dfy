/** The update handler as a whole: which Telegram calls one update leads to. The
    document the market-data endpoint returns is a parameter, since fetching and
    parsing it are outside the model. */
module Handler {
  import opened Wrappers
  import opened Ascii
  import opened Json
  import opened Snapshot
  import opened Dispatch

  /** An incoming update: a message, whose text may be absent, or any other kind. */
  datatype Update = Message(text: Option<string>) | OtherUpdate

  /** A call on the Telegram client: a new message, or an edit of the placeholder. */
  datatype Action = SendMessage(text: string) | EditPlaceholder(text: string)

  /** The calls made, in order, and the fault of the `unwrap` that aborted the handler. */
  datatype Outcome = Outcome(actions: seq<Action>, aborted: Option<Fault>)

  function Handle(update: Update, placeholder: string, helpMesg: string, doc: Value): Outcome
  {
    match update
    case OtherUpdate => Outcome([], None)
    case Message(text) =>
      match Classify(TextOrEmpty(text))
      case Help => Outcome([SendMessage(helpMesg)], None)
      case Top =>
        (match Summary(doc)
         case Success(s) => Outcome([SendMessage(placeholder), EditPlaceholder(s)], None)
         case Failure(f) => Outcome([SendMessage(placeholder)], Some(f)))
      case Ignore => Outcome([], None)
  }

  /** Updates that are not messages, and messages that are neither command, get no
      reply at all; in particular a message without text. */
  lemma IgnoredUpdates(update: Update, placeholder: string, helpMesg: string, doc: Value)
    requires update.OtherUpdate? || Classify(TextOrEmpty(update.text)) == Ignore
    ensures Handle(update, placeholder, helpMesg, doc) == Outcome([], None)
  {
  }

  /** `/help` in any case sends the help message and nothing else. */
  lemma HelpReply(text: string, placeholder: string, helpMesg: string, doc: Value)
    requires EqIgnoreAsciiCase(text, HelpCommand)
    ensures Handle(Message(Some(text)), placeholder, helpMesg, doc) == Outcome([SendMessage(helpMesg)], None)
  {
    ClassifySpec(text);
  }

  /** `/top` in any case first sends the placeholder; the placeholder is then edited to
      the summary of the decoded entries, or, when an `unwrap` fails, never edited. */
  lemma TopReply(text: string, placeholder: string, helpMesg: string, doc: Value)
    requires EqIgnoreAsciiCase(text, TopCommand)
    ensures var o := Handle(Message(Some(text)), placeholder, helpMesg, doc);
      && o.actions[0] == SendMessage(placeholder)
      && (Decode(doc).Success? <==> o.aborted.None?)
      && (Decode(doc).Success? ==> o.actions == [SendMessage(placeholder), EditPlaceholder(Format(Decode(doc).value))])
      && (Decode(doc).Failure? ==> o.actions == [SendMessage(placeholder)] && o.aborted == Some(Decode(doc).error))
  {
    ClassifySpec(text);
  }
}
