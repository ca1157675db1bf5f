/**
 * A command as the parser hands it to the game: either a word the parser
 * did not recognise, or a command word with an optional second word.
 * The parser itself (reading and splitting a line) is outside this model.
 */
module Commands {
  import opened Wrappers

  /** `hasSecondWord()` is `second.Some?`. */
  datatype Command = Unknown | Known(word: string, second: Option<string>)

  /** The command words `processCommand` tells apart; any other word selects none of its branches. */
  datatype Verb =
    | HelpWord | GoWord | QuitWord | ExamineWord | PickupWord | InventoryWord
    | BeamWord | ChargeWord | TimeWord | OtherWord

  /** The branch of `processCommand` that `word` selects, by exact (case-sensitive) comparison. */
  function VerbOf(word: string): (v: Verb)
    ensures v == HelpWord <==> word == "help"
    ensures v == GoWord <==> word == "go"
    ensures v == QuitWord <==> word == "quit"
    ensures v == ExamineWord <==> word == "examine"
    ensures v == PickupWord <==> word == "pickup"
    ensures v == InventoryWord <==> word == "inventory"
    ensures v == BeamWord <==> word == "beam"
    ensures v == ChargeWord <==> word == "charge"
    ensures v == TimeWord <==> word == "time"
  {
    if word == "help" then HelpWord
    else if word == "go" then GoWord
    else if word == "quit" then QuitWord
    else if word == "examine" then ExamineWord
    else if word == "pickup" then PickupWord
    else if word == "inventory" then InventoryWord
    else if word == "beam" then BeamWord
    else if word == "charge" then ChargeWord
    else if word == "time" then TimeWord
    else OtherWord
  }
}
