/** The command classification at the head of the update handler: the message text
    (empty when the message has none) is compared, ignoring ASCII case, first with
    `/help` and then with `/top`; anything else is ignored. */
module Dispatch {
  import opened Wrappers
  import opened Ascii

  const HelpCommand: string := "/help"
  const TopCommand: string := "/top"

  datatype Command = Help | Top | Ignore

  /** `msg.text().unwrap_or("")`. */
  function TextOrEmpty(text: Option<string>): string
  {
    match text
    case Some(t) => t
    case None => ""
  }

  /** The `if / else if / else` chain: the help test is made first. */
  function Classify(text: string): (c: Command)
  {
    if EqIgnoreAsciiCase(text, HelpCommand) then Help
    else if EqIgnoreAsciiCase(text, TopCommand) then Top
    else Ignore
  }

  /** The three classes, each characterised without reference to the others:
      the two command tests can never both hold, so the order of the chain
      does not matter. */
  lemma ClassifySpec(text: string)
    ensures Classify(text) == Help <==> EqIgnoreAsciiCase(text, HelpCommand)
    ensures Classify(text) == Top <==> EqIgnoreAsciiCase(text, TopCommand)
    ensures Classify(text) == Ignore <==> !EqIgnoreAsciiCase(text, HelpCommand) && !EqIgnoreAsciiCase(text, TopCommand)
    ensures !(EqIgnoreAsciiCase(text, HelpCommand) && EqIgnoreAsciiCase(text, TopCommand))
  {
  }

  /** The texts selecting a reply are exactly the case variants of the two commands. */
  lemma ClassifyByVariants(text: string)
    ensures Classify(text) == Help <==> text in CaseVariants(HelpCommand)
    ensures Classify(text) == Top <==> text in CaseVariants(TopCommand)
  {
    CaseVariantsExact(HelpCommand, text);
    CaseVariantsExact(TopCommand, text);
  }

  /** A text of any length other than five or four characters is ignored. */
  lemma OtherLengthsIgnored(text: string)
    requires |text| != |HelpCommand| && |text| != |TopCommand|
    ensures Classify(text) == Ignore
  {
  }

  /** A message without text is treated as the empty string and ignored. */
  lemma MissingTextIgnored()
    ensures Classify(TextOrEmpty(None)) == Ignore
  {
  }

  /** Some concrete spellings: any case of the letters selects the command; a
      trailing space, or a missing slash, does not. */
  lemma Examples()
    ensures Classify("/help") == Help && Classify("/HELP") == Help && Classify("/HeLp") == Help
    ensures Classify("/top") == Top && Classify("/TOP") == Top && Classify("/tOp") == Top
    ensures Classify("/help ") == Ignore && Classify("help") == Ignore && Classify("/top ") == Ignore
    ensures Classify("") == Ignore && Classify("/start") == Ignore
  {
    assert !CharEqIgnoreAsciiCase("/top "[1], HelpCommand[1]);
  }
}
