/** The command interpreter: one line of text is split into tokens, matched
    against the seven command shapes, and dispatched to exactly one operation of
    the store. */
module ParkingLot {
  import opened Wrappers
  import opened Text
  import opened Errors
  import opened Internals

  /** A recognised command with its parsed arguments. */
  datatype Action =
    | Create(capacity: nat)
    | Park(regNum: string, color: string)
    | Leave(slotNo: nat)
    | Status
    | SlotNumbersForColor(color: string)
    | SlotNumbersForRegNo(regNum: string)
    | RegNumbersForColor(color: string)

  // ---------------------------------------------------------------------------
  // Parsing
  // ---------------------------------------------------------------------------

  /** The word a command starts with. */
  function Keyword(a: Action): string {
    match a
    case Create(_) => "create_parking_lot"
    case Park(_, _) => "park"
    case Leave(_) => "leave"
    case Status => "status"
    case RegNumbersForColor(_) => "registration_numbers_for_cars_with_colour"
    case SlotNumbersForColor(_) => "slot_numbers_for_cars_with_colour"
    case SlotNumbersForRegNo(_) => "slot_number_for_registration_number"
  }

  /** How many tokens a line starting with `word` must have, the keyword
      included; 0 for a word that starts no command. */
  function Arity(word: string): nat {
    if word == "create_parking_lot" then 2
    else if word == "park" then 3
    else if word == "leave" then 2
    else if word == "status" then 1
    else if word == "registration_numbers_for_cars_with_colour" then 2
    else if word == "slot_numbers_for_cars_with_colour" then 2
    else if word == "slot_number_for_registration_number" then 2
    else 0
  }

  /** The token list has one of the seven command shapes. */
  predicate KnownShape(tokens: seq<string>) {
    |tokens| > 0 && |tokens| == Arity(tokens[0])
  }

  /** A numeric argument, `parse::<usize>()?`. */
  function ParseNumber(token: string): (r: Result<nat, Error>)
    ensures r.Ok? <==> ParseUsize(token).Some?
    ensures r.Ok? ==> Some(r.value) == ParseUsize(token)
    ensures r.Err? ==> r.error == InvalidDigit
  {
    match ParseUsize(token)
    case Some(n) => Ok(n)
    case None => Err(InvalidDigit)
  }

  /** The slice patterns of `repl`; `command` is the original line, echoed by
      the error for a line of no known shape. */
  function ParseTokens(tokens: seq<string>, command: string): (r: Result<Action, Error>)
    ensures r == Err(UnknownCommand(command)) <==> !KnownShape(tokens)
    ensures r.Err? ==> r.error == UnknownCommand(command) || r.error == InvalidDigit
    ensures r.Ok? ==> |tokens| == Arity(tokens[0]) && tokens[0] == Keyword(r.value)
    ensures r.Ok? && !(r.value.Create? || r.value.Leave?) ==> tokens == [Keyword(r.value)] + Args(r.value)
    ensures KnownShape(tokens) && (tokens[0] == "create_parking_lot" || tokens[0] == "leave") ==>
      && (r.Err? <==> ParseUsize(tokens[1]).None?)
      && (r.Ok? ==> ParseUsize(tokens[1]) == Some(if r.value.Create? then r.value.capacity else r.value.slotNo))
  {
    if |tokens| == 2 && tokens[0] == "create_parking_lot" then
      match ParseNumber(tokens[1])
      case Ok(n) => Ok(Create(n))
      case Err(e) => Err(e)
    else if |tokens| == 3 && tokens[0] == "park" then Ok(Park(tokens[1], tokens[2]))
    else if |tokens| == 2 && tokens[0] == "leave" then
      match ParseNumber(tokens[1])
      case Ok(n) => Ok(Leave(n))
      case Err(e) => Err(e)
    else if |tokens| == 1 && tokens[0] == "status" then Ok(Status)
    else if |tokens| == 2 && tokens[0] == "registration_numbers_for_cars_with_colour" then Ok(RegNumbersForColor(tokens[1]))
    else if |tokens| == 2 && tokens[0] == "slot_numbers_for_cars_with_colour" then Ok(SlotNumbersForColor(tokens[1]))
    else if |tokens| == 2 && tokens[0] == "slot_number_for_registration_number" then Ok(SlotNumbersForRegNo(tokens[1]))
    else Err(UnknownCommand(command))
  }

  function ParseCommand(command: string): Result<Action, Error> {
    ParseTokens(Tokens(command), command)
  }

  /** The arguments of a command as the tokens that spell them. */
  function Args(a: Action): seq<string> {
    match a
    case Create(n) => [NatToString(n)]
    case Park(r, c) => [r, c]
    case Leave(k) => [NatToString(k)]
    case Status => []
    case RegNumbersForColor(c) => [c]
    case SlotNumbersForColor(c) => [c]
    case SlotNumbersForRegNo(r) => [r]
  }

  /** Every string argument is something the tokeniser can produce. */
  predicate ValidArgs(a: Action) {
    forall i :: 0 <= i < |Args(a)| ==> IsToken(Args(a)[i])
  }

  /** The canonical line for a command: keyword and arguments, one space apart. */
  function Unparse(a: Action): string {
    Join([Keyword(a)] + Args(a), " ")
  }

  // ---------------------------------------------------------------------------
  // The three lookups handed to `query`
  // ---------------------------------------------------------------------------

  /** Registrations of the cars of a colour. */
  function RegNumbersForColorLookup(color: string): (f: (nat, Slot) -> Option<string>)
    ensures forall k: nat, slot: Slot :: f(k, slot).Some? <==> slot.Occupied? && ColorMatch(slot.car, color)
    ensures forall k: nat, slot: Slot :: f(k, slot).Some? ==> f(k, slot).value == slot.car.regNum
  {
    (idx: nat, slot: Slot) =>
      if slot.Occupied? && ColorMatch(slot.car, color) then Some(slot.car.regNum) else None
  }

  /** Slot numbers of the cars of a colour. */
  function SlotNumbersForColorLookup(color: string): (f: (nat, Slot) -> Option<string>)
    ensures forall k: nat, slot: Slot :: f(k, slot).Some? <==> slot.Occupied? && ColorMatch(slot.car, color)
    ensures forall k: nat, slot: Slot :: f(k, slot).Some? ==> f(k, slot).value == NatToString(k)
  {
    (idx: nat, slot: Slot) =>
      if slot.Occupied? && ColorMatch(slot.car, color) then Some(NatToString(idx)) else None
  }

  /** Slot numbers of the cars with a registration. */
  function SlotNumbersForRegNoLookup(regNum: string): (f: (nat, Slot) -> Option<string>)
    ensures forall k: nat, slot: Slot :: f(k, slot).Some? <==> slot.Occupied? && RegNumMatch(slot.car, regNum)
    ensures forall k: nat, slot: Slot :: f(k, slot).Some? ==> f(k, slot).value == NatToString(k)
  {
    (idx: nat, slot: Slot) =>
      if slot.Occupied? && RegNumMatch(slot.car, regNum) then Some(NatToString(idx)) else None
  }

  // ---------------------------------------------------------------------------
  // Dispatch
  // ---------------------------------------------------------------------------

  /** `process`: the one store operation a command stands for. */
  function ProcessStep(lot: Lot, a: Action): (st: Step)
    ensures !(a.Create? || a.Park? || a.Leave?) ==> st.lot == lot
    ensures lot.Unallocated? && !a.Create? ==> st == Step(lot, Err(NotAllocated))
    ensures ValidLot(lot) ==> ValidLot(st.lot)
    ensures lot.Allocated? ==> st.lot.Allocated? && |st.lot.slots| == |lot.slots|
  {
    match a
    case Create(n) => AllocStep(lot, n)
    case Park(r, c) => ParkStep(lot, r, c)
    case Leave(k) => LeaveStep(lot, k)
    case Status => Step(lot, StatusOf(lot))
    case RegNumbersForColor(c) => Step(lot, QueryOf(lot, RegNumbersForColorLookup(c)))
    case SlotNumbersForColor(c) => Step(lot, QueryOf(lot, SlotNumbersForColorLookup(c)))
    case SlotNumbersForRegNo(r) => Step(lot, QueryOf(lot, SlotNumbersForRegNoLookup(r)))
  }

  /** `repl`: parse, then dispatch; a parse error reaches no store operation. */
  function ReplStep(lot: Lot, command: string): (st: Step)
    ensures ParseCommand(command).Err? ==> st == Step(lot, Err(ParseCommand(command).error))
    ensures st.lot != lot ==>
      && ParseCommand(command).Ok?
      && (ParseCommand(command).value.Create? || ParseCommand(command).value.Park? || ParseCommand(command).value.Leave?)
  {
    match ParseCommand(command)
    case Err(e) => Step(lot, Err(e))
    case Ok(a) => ProcessStep(lot, a)
  }

  /** `stringify`: the lines joined by newlines, or the error's message. */
  function Stringify(r: MyResult): (printed: string)
    ensures r.Err? ==> printed == Message(r.error)
    ensures r.Ok? && |r.value| > 0 && (forall i :: 0 <= i < |r.value| ==> '\n' !in r.value[i]) ==>
      Split(printed, '\n') == r.value
  {
    match r
    case Ok(lines) =>
      if |lines| > 0 && forall i :: 0 <= i < |lines| ==> '\n' !in lines[i] then
        SplitOfJoin(lines, '\n');
        Join(lines, "\n")
      else Join(lines, "\n")
    case Err(e) => Message(e)
  }

  // ---------------------------------------------------------------------------
  // The interpreter as an object
  // ---------------------------------------------------------------------------

  class ParkingLot {
    const internal: ParkLotIntern

    /** `new`: a fresh, unallocated store. */
    constructor ()
      ensures fresh(internal) && internal.slots == Unallocated
    {
      internal := new ParkLotIntern();
    }

    method Process(action: Action) returns (r: MyResult)
      modifies internal
      ensures Step(internal.slots, r) == ProcessStep(old(internal.slots), action)
    {
      match action
      case Create(n) => r := internal.Alloc(n);
      case Park(regNum, color) => r := internal.Park(regNum, color);
      case Leave(k) => r := internal.Leave(k);
      case Status => r := StatusOf(internal.slots);
      case RegNumbersForColor(c) => r := QueryOf(internal.slots, RegNumbersForColorLookup(c));
      case SlotNumbersForColor(c) => r := QueryOf(internal.slots, SlotNumbersForColorLookup(c));
      case SlotNumbersForRegNo(regNum) => r := QueryOf(internal.slots, SlotNumbersForRegNoLookup(regNum));
    }

    /** Receives a command as a string, parses and executes it. */
    method Repl(command: string) returns (r: MyResult)
      modifies internal
      ensures Step(internal.slots, r) == ReplStep(old(internal.slots), command)
    {
      var tokens := Tokens(command);
      match ParseTokens(tokens, command)
      case Err(e) => r := Err(e);
      case Ok(action) => r := Process(action);
    }
  }

  // ---------------------------------------------------------------------------
  // Properties of parsing
  // ---------------------------------------------------------------------------

  lemma KeywordIsToken(a: Action)
    ensures IsToken(Keyword(a))
  {
    ShortKeywordsAreTokens();
    ColourQueryKeywordsAreTokens();
    RegistrationQueryKeywordIsToken();
  }

  lemma ShortKeywordsAreTokens()
    ensures IsToken("create_parking_lot") && IsToken("park") && IsToken("leave") && IsToken("status")
  {
  }

  lemma ColourQueryKeywordsAreTokens()
    ensures IsToken("registration_numbers_for_cars_with_colour")
    ensures IsToken("slot_numbers_for_cars_with_colour")
  {
  }

  lemma RegistrationQueryKeywordIsToken()
    ensures IsToken("slot_number_for_registration_number")
  {
  }

  /** The slice patterns accept the tokens of every command. */
  lemma ParseTokensOfAction(a: Action, command: string)
    ensures ParseTokens([Keyword(a)] + Args(a), command) == Ok(a)
  {
    match a
    case Create(n) =>
      ParseUsizeOfNatToString(n);
      assert [Keyword(a)] + Args(a) == ["create_parking_lot", NatToString(n)];
    case Park(r, c) =>
      assert [Keyword(a)] + Args(a) == ["park", r, c];
    case Leave(k) =>
      ParseUsizeOfNatToString(k);
      assert [Keyword(a)] + Args(a) == ["leave", NatToString(k)];
    case Status =>
      assert [Keyword(a)] + Args(a) == ["status"];
    case RegNumbersForColor(c) =>
      assert [Keyword(a)] + Args(a) == ["registration_numbers_for_cars_with_colour", c];
    case SlotNumbersForColor(c) =>
      assert [Keyword(a)] + Args(a) == ["slot_numbers_for_cars_with_colour", c];
    case SlotNumbersForRegNo(r) =>
      assert [Keyword(a)] + Args(a) == ["slot_number_for_registration_number", r];
  }

  /** Parsing inverts printing: the canonical line of a command parses back to
      that very command. */
  lemma ParseUnparse(a: Action)
    requires ValidArgs(a)
    ensures ParseCommand(Unparse(a)) == Ok(a)
  {
    var ts := [Keyword(a)] + Args(a);
    KeywordIsToken(a);
    forall i | 0 <= i < |ts| ensures IsToken(ts[i]) {
      if i > 0 {
        assert ts[i] == Args(a)[i - 1];
      }
    }
    TokensOfJoin(ts);
    ParseTokensOfAction(a, Unparse(a));
  }

  /** Each recognised command reaches exactly the store operation it names,
      with the arguments it was given. */
  lemma ReplDispatches(lot: Lot, a: Action)
    requires ValidArgs(a)
    ensures ReplStep(lot, Unparse(a)) == ProcessStep(lot, a)
  {
    ParseUnparse(a);
  }

  /** A line of no known shape (wrong keyword or wrong number of words) is
      rejected with its own text, and the store is left alone. */
  lemma UnknownShapeRejected(lot: Lot, command: string)
    requires !KnownShape(Tokens(command))
    ensures ReplStep(lot, command) == Step(lot, Err(UnknownCommand(command)))
    ensures Stringify(ReplStep(lot, command).out) == "Can't parse command: " + command
  {
  }

  /** No parse error ever reaches the store. */
  lemma ParseErrorKeepsState(lot: Lot, command: string)
    requires ParseCommand(command).Err?
    ensures ReplStep(lot, command).lot == lot
    ensures ReplStep(lot, command).out == Err(ParseCommand(command).error)
  {
  }

  /** `create_parking_lot` and `leave` with an argument that is not a number
      fail before any store operation. */
  lemma NonNumericArgumentRejected(lot: Lot, keyword: string, arg: string)
    requires keyword == "create_parking_lot" || keyword == "leave"
    requires IsToken(arg) && ParseUsize(arg).None?
    ensures ReplStep(lot, Join([keyword, arg], " ")) == Step(lot, Err(InvalidDigit))
  {
    TokensOfJoin([keyword, arg]);
  }

  /** `create_parking_lot x` and `leave x` with a word `x` that does parse as a
      number carry exactly that number, whatever its spelling. */
  lemma NumericArgumentParsed(keyword: string, arg: string, n: nat)
    requires keyword == "create_parking_lot" || keyword == "leave"
    requires IsToken(arg) && ParseUsize(arg) == Some(n)
    ensures ParseCommand(Join([keyword, arg], " ")) == Ok(if keyword == "leave" then Leave(n) else Create(n))
  {
    TokensOfJoin([keyword, arg]);
  }

  /** A leading '+' and leading zeros are accepted, as `parse::<usize>` does. */
  lemma UnusualNumeralsAccepted()
    ensures ParseUsize("+6") == Some(6)
    ensures ParseUsize("07") == Some(7)
    ensures ParseUsize("+") == None && ParseUsize("-1") == None
  {
    assert UnsignedBody("+6") == "6";
    assert DigitsValue("0") == 0;
    assert "07"[..1] == "0";
  }

  /** Whitespace around a command, such as a trailing newline, does not change
      the command it parses to, nor a bad number's error; a line of no known
      shape is still rejected, echoing the padded line. */
  lemma ParseIgnoresPadding(before: string, command: string, after: string)
    requires AllWhitespace(before) && AllWhitespace(after)
    ensures ParseCommand(command) != Err(UnknownCommand(command)) ==>
      ParseCommand(before + command + after) == ParseCommand(command)
    ensures ParseCommand(command) == Err(UnknownCommand(command)) ==>
      ParseCommand(before + command + after) == Err(UnknownCommand(before + command + after))
  {
    TokensIgnorePadding(before, command, after);
  }

  /** In particular "status\n" and "  status " both mean `status`. */
  lemma StatusLineParses(before: string, after: string)
    requires AllWhitespace(before) && AllWhitespace(after)
    ensures ParseCommand(before + "status" + after) == Ok(Status)
  {
    ParseUnparse(Status);
    assert Unparse(Status) == "status";
    ParseIgnoresPadding(before, "status", after);
  }

  /** The interpreter's own test of an unknown command, "this is sparta". */
  lemma SpartaTokens(line: string)
    requires line == "this is sparta"
    ensures Tokens(line) == ["this", "is", "sparta"]
  {
    var ts := ["this", "is", "sparta"];
    assert IsToken("this") && IsToken("is") && IsToken("sparta");
    TokensOfJoin(ts);
    assert ts[1..] == ["is", "sparta"] && ts[1..][1..] == ["sparta"];
    assert Join(["sparta"], " ") == "sparta";
    assert Join(["is", "sparta"], " ") == "is" + " " + "sparta" == "is sparta";
    assert Join(ts, " ") == "this" + " " + "is sparta" == "this is sparta";
  }

  lemma SpartaRejected(lot: Lot, line: string)
    requires line == "this is sparta"
    ensures ReplStep(lot, line) == Step(lot, Err(UnknownCommand(line)))
  {
    SpartaTokens(line);
    assert ParseCommand(line) == Err(UnknownCommand(line));
  }

  lemma SpartaMessage()
    ensures Stringify(Err(UnknownCommand("this is sparta"))) == "Can't parse command: this is sparta"
  {
  }

  /** A known keyword with the wrong number of words is no command either. */
  lemma ParkWithOneArgumentRejected(lot: Lot)
    ensures ReplStep(lot, "park A") == Step(lot, Err(UnknownCommand("park A")))
  {
    assert IsToken("park") && IsToken("A");
    TokensOfJoin(["park", "A"]);
    assert ["park", "A"][1..] == ["A"];
    assert Join(["park", "A"], " ") == "park" + " " + "A" == "park A";
    UnknownShapeRejected(lot, "park A");
  }

  /** The interpreter's own test: "create_parking_lot 6" creates six slots. */
  lemma CreateSixSlots()
    ensures ReplStep(Unallocated, "create_parking_lot 6").out == Ok(["Created a parking lot with 6 slots"])
  {
    assert NatToString(6) == "6";
    assert "create_parking_lot" + " " + "6" == "create_parking_lot 6";
    assert "Created a parking lot with " + "6" + " slots" == "Created a parking lot with 6 slots";
    ReplCreateLine(6, "create_parking_lot 6", "Created a parking lot with 6 slots");
  }

  // ---------------------------------------------------------------------------
  // Properties of dispatch
  // ---------------------------------------------------------------------------

  /** Status and the three lookups never change the store. */
  lemma ReadOnlyCommands(lot: Lot, a: Action)
    requires a.Status? || a.RegNumbersForColor? || a.SlotNumbersForColor? || a.SlotNumbersForRegNo?
    ensures ProcessStep(lot, a).lot == lot
  {
  }

  /** Whatever line comes in, an allocated row keeps its length and the store's
      invariant holds. */
  lemma ReplKeepsCapacity(lot: Lot, command: string)
    requires ValidLot(lot)
    ensures ValidLot(ReplStep(lot, command).lot)
    ensures lot.Allocated? ==>
      ReplStep(lot, command).lot.Allocated? && |ReplStep(lot, command).lot.slots| == |lot.slots|
  {
    match ParseCommand(command)
    case Err(_) =>
    case Ok(a) =>
      assert ReplStep(lot, command) == ProcessStep(lot, a);
      match a
      case Create(n) =>
        StepsKeepValid(lot, n, "", "", 0);
      case Park(r, c) =>
        StepsKeepValid(lot, 0, r, c, 0);
        if lot.Allocated? { CapacityNeverChanges(lot, 0, r, c, 0); }
      case Leave(k) =>
        StepsKeepValid(lot, 0, "", "", k);
        if lot.Allocated? { CapacityNeverChanges(lot, 0, "", "", k); }
      case _ =>
  }

  /** `registration_numbers_for_cars_with_colour c` looks exactly at the occupied slots whose colour matches `c` in any case; empty slots never contribute. */
  lemma RegNumbersForColorMatches(s: seq<Slot>, color: string)
    ensures forall k: nat :: k in Hits(s, RegNumbersForColorLookup(color)) <==>
      1 <= k <= |s| && s[k - 1].Occupied? && ColorMatch(s[k - 1].car, color)
  {
    forall k: nat ensures k in Hits(s, RegNumbersForColorLookup(color)) <==> 1 <= k <= |s| && s[k - 1].Occupied? && ColorMatch(s[k - 1].car, color) {
      var f := RegNumbersForColorLookup(color);
      HitsExactly(s, f, k);
      if 1 <= k <= |s| {
        assert f(k, s[k - 1]).Some? <==> s[k - 1].Occupied? && ColorMatch(s[k - 1].car, color);
      }
    }
  }

  /** Its answer: the registrations of those slots in slot order, or "Not found" exactly when no car matches. */
  lemma RegNumbersForColorAnswer(s: seq<Slot>, color: string)
    ensures var r := ProcessStep(Allocated(s), RegNumbersForColor(color)).out;
      && (r == Err(NotFound) <==> forall i :: 0 <= i < |s| ==> !(s[i].Occupied? && ColorMatch(s[i].car, color)))
      && (r.Ok? ==> forall j :: 0 <= j < |r.value| ==> r.value[j] == s[Hits(s, RegNumbersForColorLookup(color))[j] - 1].car.regNum)
  {
  }

  /** `slot_numbers_for_cars_with_colour c` looks exactly at the occupied slots whose colour matches `c` in any case. */
  lemma SlotNumbersForColorMatches(s: seq<Slot>, color: string)
    ensures forall k: nat :: k in Hits(s, SlotNumbersForColorLookup(color)) <==>
      1 <= k <= |s| && s[k - 1].Occupied? && ColorMatch(s[k - 1].car, color)
  {
    forall k: nat ensures k in Hits(s, SlotNumbersForColorLookup(color)) <==> 1 <= k <= |s| && s[k - 1].Occupied? && ColorMatch(s[k - 1].car, color) {
      var f := SlotNumbersForColorLookup(color);
      HitsExactly(s, f, k);
      if 1 <= k <= |s| {
        assert f(k, s[k - 1]).Some? <==> s[k - 1].Occupied? && ColorMatch(s[k - 1].car, color);
      }
    }
  }

  /** Its answer: the numbers of those slots, ascending and within [1, len], or "Not found" exactly when no car matches. */
  lemma SlotNumbersForColorAnswer(s: seq<Slot>, color: string)
    ensures var r := ProcessStep(Allocated(s), SlotNumbersForColor(color)).out;
      && (r == Err(NotFound) <==> forall i :: 0 <= i < |s| ==> !(s[i].Occupied? && ColorMatch(s[i].car, color)))
      && (r.Ok? ==> forall j :: 0 <= j < |r.value| ==> r.value[j] == NatToString(Hits(s, SlotNumbersForColorLookup(color))[j]))
  {
  }

  /** `slot_number_for_registration_number r` looks exactly at the occupied slots whose registration matches `r` in any case. */
  lemma SlotNumbersForRegNoMatches(s: seq<Slot>, regNum: string)
    ensures forall k: nat :: k in Hits(s, SlotNumbersForRegNoLookup(regNum)) <==>
      1 <= k <= |s| && s[k - 1].Occupied? && RegNumMatch(s[k - 1].car, regNum)
  {
    forall k: nat ensures k in Hits(s, SlotNumbersForRegNoLookup(regNum)) <==> 1 <= k <= |s| && s[k - 1].Occupied? && RegNumMatch(s[k - 1].car, regNum) {
      var f := SlotNumbersForRegNoLookup(regNum);
      HitsExactly(s, f, k);
      if 1 <= k <= |s| {
        assert f(k, s[k - 1]).Some? <==> s[k - 1].Occupied? && RegNumMatch(s[k - 1].car, regNum);
      }
    }
  }

  /** Its answer: the numbers of those slots, ascending and within [1, len], or "Not found" exactly when no car matches. */
  lemma SlotNumbersForRegNoAnswer(s: seq<Slot>, regNum: string)
    ensures var r := ProcessStep(Allocated(s), SlotNumbersForRegNo(regNum)).out;
      && (r == Err(NotFound) <==> forall i :: 0 <= i < |s| ==> !(s[i].Occupied? && RegNumMatch(s[i].car, regNum)))
      && (r.Ok? ==> forall j :: 0 <= j < |r.value| ==> r.value[j] == NatToString(Hits(s, SlotNumbersForRegNoLookup(regNum))[j]))
  {
  }

  /** A lone car in slot 1 is found by any colour it matches. */
  lemma LoneCarFoundByColour(car: Car, color: string)
    requires ColorMatch(car, color)
    ensures ProcessStep(Allocated([Occupied(car)]), SlotNumbersForColor(color)).out == Ok(["1"])
  {
    var s := [Occupied(car)];
    var f := SlotNumbersForColorLookup(color);
    assert NatToString(1) == "1";
    assert f(1, s[0]) == Some("1");
    assert s[..0] == [];
    assert Collect(s, f) == ["1"];
  }

  /** A red car is found by colour whatever case the colour is asked in. */
  lemma ColourLookupIgnoresCase()
    ensures var lot := Allocated([Occupied(Car("T800", "Red"))]);
      && ProcessStep(lot, SlotNumbersForColor("red")).out == Ok(["1"])
      && ProcessStep(lot, SlotNumbersForColor("RED")).out == Ok(["1"])
      && ProcessStep(lot, SlotNumbersForColor("ReD")).out == Ok(["1"])
  {
    RedMatchesAnyCase();
    LoneCarFoundByColour(Car("T800", "Red"), "red");
    LoneCarFoundByColour(Car("T800", "Red"), "RED");
    LoneCarFoundByColour(Car("T800", "Red"), "ReD");
  }

  // ---------------------------------------------------------------------------
  // Output
  // ---------------------------------------------------------------------------

  /** Printing a successful answer loses nothing: the printed text splits back
      into the answer's lines when none of them holds a newline. */
  lemma StringifyKeepsLines(lines: seq<string>)
    requires |lines| > 0
    requires forall i :: 0 <= i < |lines| ==> '\n' !in lines[i]
    ensures Split(Stringify(Ok(lines)), '\n') == lines
  {
    SplitOfJoin(lines, '\n');
  }

  /** A failure prints as its error's message. */
  lemma StringifyError(e: Error)
    ensures Stringify(Err(e)) == Message(e)
  {
  }

  // ---------------------------------------------------------------------------
  // Whole command lines
  // ---------------------------------------------------------------------------

  /** The canonical lines of the three commands that change the store. */
  lemma UnparseShapes(n: nat, regNum: string, color: string)
    ensures Unparse(Create(n)) == "create_parking_lot" + " " + NatToString(n)
    ensures Unparse(Park(regNum, color)) == "park" + " " + (regNum + " " + color)
    ensures Unparse(Leave(n)) == "leave" + " " + NatToString(n)
  {
    var c := [Keyword(Create(n))] + Args(Create(n));
    assert c == ["create_parking_lot", NatToString(n)];
    assert c[1..] == [NatToString(n)];
    assert Join(c[1..], " ") == NatToString(n);
    assert Join(c, " ") == c[0] + " " + Join(c[1..], " ");
    var p := [Keyword(Park(regNum, color))] + Args(Park(regNum, color));
    assert p == ["park", regNum, color];
    assert p[1..] == [regNum, color] && p[1..][1..] == [color];
    assert Join(p[1..], " ") == regNum + " " + color;
    var l := [Keyword(Leave(n))] + Args(Leave(n));
    assert l == ["leave", NatToString(n)];
    assert l[1..] == [NatToString(n)];
    assert Join(l[1..], " ") == NatToString(n);
    assert Join(l, " ") == l[0] + " " + Join(l[1..], " ");
  }

  lemma ParkLine(regNum: string, color: string, line: string)
    requires IsToken(regNum) && IsToken(color)
    requires line == "park" + " " + (regNum + " " + color)
    ensures ValidArgs(Park(regNum, color)) && Unparse(Park(regNum, color)) == line
  {
    UnparseShapes(0, regNum, color);
  }

  lemma NumberLine(n: nat, line: string)
    requires line == "leave" + " " + NatToString(n)
    ensures ValidArgs(Leave(n)) && Unparse(Leave(n)) == line
  {
    UnparseShapes(n, "", "");
    NatToStringIsToken(n);
  }

  /** One `park` line of a session, from the state before it to the state after. */
  lemma ReplParkLine(s: seq<Slot>, regNum: string, color: string, line: string, k: nat, msg: string)
    requires IsToken(regNum) && IsToken(color)
    requires line == "park" + " " + (regNum + " " + color)
    requires 1 <= k <= |s| && s[k - 1] == Empty
    requires forall j :: 0 <= j < k - 1 ==> s[j].Occupied?
    requires msg == "Allocated slot number: " + NatToString(k)
    ensures ReplStep(Allocated(s), line) == Step(Allocated(s[k - 1 := Occupied(Car(regNum, color))]), Ok([msg]))
  {
    ParkLine(regNum, color, line);
    ReplDispatches(Allocated(s), Park(regNum, color));
    ParkFillsLowestEmpty(s, regNum, color, k);
  }

  /** A `park` line on a full row: the car is turned away and nothing changes. */
  lemma ReplParkFullLine(s: seq<Slot>, regNum: string, color: string, line: string)
    requires IsToken(regNum) && IsToken(color)
    requires line == "park" + " " + (regNum + " " + color)
    requires forall j :: 0 <= j < |s| ==> s[j].Occupied?
    ensures ReplStep(Allocated(s), line) == Step(Allocated(s), Err(LotFull))
  {
    ParkLine(regNum, color, line);
    ReplDispatches(Allocated(s), Park(regNum, color));
  }

  /** A `create_parking_lot n` line on a fresh store, for any positive `n`. */
  lemma ReplCreateLine(n: nat, line: string, msg: string)
    requires n > 0
    requires line == "create_parking_lot" + " " + NatToString(n)
    requires msg == "Created a parking lot with " + NatToString(n) + " slots"
    ensures ReplStep(Unallocated, line) == Step(Allocated(seq(n, _ => Empty)), Ok([msg]))
  {
    UnparseShapes(n, "", "");
    NatToStringIsToken(n);
    ReplDispatches(Unallocated, Create(n));
  }

  /** A `leave k` line for a slot of the row: slot `k` is emptied. */
  lemma ReplLeaveLine(s: seq<Slot>, k: nat, line: string, msg: string)
    requires line == "leave" + " " + NatToString(k)
    requires 1 <= k <= |s|
    requires msg == "Slot number " + NatToString(k) + " is free"
    ensures ReplStep(Allocated(s), line) == Step(Allocated(s[k - 1 := Empty]), Ok([msg]))
  {
    NumberLine(k, line);
    ReplDispatches(Allocated(s), Leave(k));
  }

  /** The one-line test of the interpreter: a lot of six is created. */
  method CreateScenario() returns (out: MyResult)
    ensures out == Ok(["Created a parking lot with 6 slots"])
  {
    var parking := new ParkingLot();
    CreateSixSlots();
    out := parking.Repl("create_parking_lot 6");
  }
}
