/** The decoder of the numeric activity flag: "1" is true, "0" is false, anything else is absent. */
module NumericBoolean {
  import opened Wrappers

  /** Decodes the flag text of a member row; text other than "1" or "0" yields no value, not an error. */
  function Deserialize(text: string): (r: Option<bool>)
    ensures r == Some(true) <==> text == "1"
    ensures r == Some(false) <==> text == "0"
    ensures r == None <==> text != "1" && text != "0"
  {
    if text == "1" then Some(true)
    else if text == "0" then Some(false)
    else None
  }

  /** The text each flag value is written as. */
  function Digit(b: bool): (s: string)
    ensures |s| == 1
  {
    if b then "1" else "0"
  }

  /** Decoding gives a value exactly for the digit of that value, so true and false are never confused. */
  lemma DeserializeInvertsDigit(text: string, b: bool)
    ensures Deserialize(text) == Some(b) <==> text == Digit(b)
    ensures Deserialize(Digit(b)) == Some(b)
  {
  }

  /** Texts that are not exactly one of the two digits decode to nothing. */
  lemma OtherTextsAreAbsent()
    ensures Deserialize("") == None
    ensures Deserialize("2") == None
    ensures Deserialize(" 1") == None
    ensures Deserialize("1 ") == None
    ensures Deserialize("true") == None
    ensures Deserialize("false") == None
  {
  }
}
