/** The errors the parking lot reports, one constructor per condition, with the
    text each one is displayed as. */
module Errors {
  import opened Wrappers
  import opened Text

  datatype Error =
    | AlreadyAllocated              // a second `alloc`
    | InvalidCapacity               // `alloc(0)`
    | NotAllocated                  // a slot operation before `alloc`
    | LotFull                       // `park` with no empty slot
    | InvalidSlotNumber(len: nat)   // `leave` outside [1, len]
    | NotFound                      // a query that matched nothing
    | InvalidDigit                  // a numeric argument that does not parse
    | UnknownCommand(line: string)  // a line of no known shape

  /** What the caller sees for each error; a line that is no command is echoed
      verbatim at the end of its message. */
  function Message(e: Error): (m: string)
    ensures e.UnknownCommand? ==> |e.line| <= |m| && m[|m| - |e.line|..] == e.line
  {
    match e
    case AlreadyAllocated => "Parking slots already allocated"
    case InvalidCapacity => "Parking lot size must be greater than 0"
    case NotAllocated => "Parking slots are not allocated"
    case LotFull => "Sorry, parking lot is full"
    case InvalidSlotNumber(len) =>
      "Invalid parking place number, " + "please choose a number in interval [1, " + NatToString(len) + "]"
    case NotFound => "Not found"
    case InvalidDigit => "invalid digit found in string"
    case UnknownCommand(line) => "Can't parse command: " + line
  }

  /** Every operation yields either its output lines or exactly one error. */
  type MyResult = Result<seq<string>, Error>

  /** The character each message starts with. */
  function Initial(e: Error): char {
    match e
    case AlreadyAllocated => 'P'
    case InvalidCapacity => 'P'
    case NotAllocated => 'P'
    case LotFull => 'S'
    case InvalidSlotNumber(_) => 'I'
    case NotFound => 'N'
    case InvalidDigit => 'i'
    case UnknownCommand(_) => 'C'
  }

  lemma MessageStart(e: Error)
    ensures |Message(e)| > 15 || e.NotFound?
    ensures |Message(e)| > 0 && Message(e)[0] == Initial(e)
  {
    match e
    case InvalidSlotNumber(len) =>
      var prefix := "Invalid parking place number, " + "please choose a number in interval [1, ";
      assert Message(e) == prefix + (NatToString(len) + "]");
      assert prefix[0] == 'I';
    case UnknownCommand(line) =>
      var prefix := "Can't parse command: ";
      assert Message(e)[0] == prefix[0];
    case _ =>
  }

  /** Every error prints differently, so the printed text tells which error
      occurred, down to the row length and the rejected line. */
  lemma MessageIdentifiesError(e1: Error, e2: Error)
    requires Message(e1) == Message(e2)
    ensures e1 == e2
  {
    var m := Message(e1);
    MessageStart(e1);
    MessageStart(e2);
    if e1.InvalidSlotNumber? && e2.InvalidSlotNumber? {
      var prefix := "Invalid parking place number, " + "please choose a number in interval [1, ";
      assert m[|prefix|..|m| - 1] == NatToString(e1.len);
      assert Message(e2)[|prefix|..|m| - 1] == NatToString(e2.len);
      NatToStringInjective(e1.len, e2.len);
    } else if e1.UnknownCommand? && e2.UnknownCommand? {
      var prefix := "Can't parse command: ";
      assert m[|prefix|..] == e1.line;
      assert Message(e2)[|prefix|..] == e2.line;
    } else if Initial(e1) == 'P' {
      // the three "Parking ..." messages differ at position 8 or 15
      assert m[8] == Message(e2)[8] && m[15] == Message(e2)[15];
    }
  }
}
