# Parking lot, modelled in Dafny

The parking lot is a command-line simulator of a car park with a fixed number of
slots. It has two layers.

* The **store** (`ParkLotIntern`) holds an optional row of slots. Each slot is
  empty or holds a car with a registration and a colour. `alloc` creates the
  row once. `park` puts a car in the lowest empty slot. `leave` frees a
  1-based slot. `status` lists the occupied slots under a header. `query` runs
  a lookup over every slot. Each operation returns a list of lines or exactly
  one error.
* The **interpreter** (`ParkingLot`) splits a command line on ASCII whitespace
  and matches the words against seven command shapes. It parses numeric
  arguments as unsigned integers and dispatches to the store. `stringify`
  prints an answer: the lines joined by newlines, or the error's message.

The Dafny project follows that structure:

| file | module | what it holds |
|---|---|---|
| `wrappers.dfy` | `Wrappers` | `Option` and `Result` |
| `text.dfy` | `Text` | the standard-library behaviour the program relies on: `split_ascii_whitespace`, `parse::<usize>`, decimal printing, `join` and lower-casing. It also holds `Split`, which the program never calls: it is the inverse that shows the newline join in `stringify` loses nothing |
| `errors.dfy` | `Errors` | one error kind per failure, with the exact message each one prints |
| `internals.dfy` | `Internals` | the store: the spec functions `AllocStep`, `ParkStep`, `LeaveStep`, `StatusOf` and `QueryOf`, the class `ParkLotIntern`, its properties and its own tests |
| `parking_lot.dfy` | `ParkingLot` | the interpreter: parsing, the three lookups, dispatch, printing, the class `ParkingLot` and its tests |
| `sessions.dfy` | `Sessions` | a batch of lines fed to a fresh interpreter, one printed answer per line |

`ParkLotIntern` is a class. Its field `slots` is
`Unallocated | Allocated(seq<Slot>)`, and its methods `Alloc`, `Park` and `Leave`
update that field in place. Each method is proved equal to a value-level step
function (`Step(slots, r) == ParkStep(old(slots), …)`). The properties are then
lemmas about those functions. `Park` keeps the source's first-fit scan as a
`while` loop with a `break`. Its invariant is that every slot before the index
reached is occupied. `status` and `query` only read the field, so they are the
functions `StatusOf` and `QueryOf`. The three lookups passed to `query` are
Dafny function values from a 1-based slot number and a slot to an optional
string.

## Model

| member | source | states |
|---|---|---|
| Internals.RegNumMatch | src/parking_lot/internals.rs:12-14 | `reg_num_match`: both registrations compared in lower case; a car matches its own registration, and only a registration of the same length |
| Internals.ColorMatch | src/parking_lot/internals.rs:16-18 | `color_match`: both colours compared in lower case; a car matches its own colour, and only a colour of the same length |
| Errors.Message | src/parking_lot/internals.rs:42-44 | the text each error displays, spelled as the source does at internals.rs:42, 44, 53, 84, 95-96, 140 and mod.rs:114 (plus the standard "invalid digit found in string"); an unknown line is echoed verbatim at the end of its message |
| Errors.MessageIdentifiesError | src/parking_lot/mod.rs:21 | distinct errors print differently, so the printed text identifies the error, down to the row length and the rejected line |
| Internals.CheckAllocated | src/parking_lot/internals.rs:51-57 | succeeds exactly when the row is allocated; otherwise fails with "not allocated" |
| Internals.AllocStep | src/parking_lot/internals.rs:40-49 | a second allocation fails with "already allocated" and keeps the state. Size 0 fails and the lot stays unallocated. Size n > 0 yields exactly n empty slots and the single line "Created a parking lot with n slots" |
| Internals.FirstEmpty | src/parking_lot/internals.rs:64-74 | the index found is empty, within the row, and every slot before it is occupied; nothing is found exactly when every slot is occupied |
| Internals.ParkStep | src/parking_lot/internals.rs:59-86 | unallocated: fails and changes nothing. No empty slot: fails with "lot is full" and changes nothing. Otherwise the lowest empty slot i gets the car, every other slot and the length stay the same, and the answer is "Allocated slot number: i+1" |
| Internals.LeaveStep | src/parking_lot/internals.rs:88-103 | unallocated: fails and changes nothing. Number outside [1, len]: fails with the invalid-number error carrying len, and changes nothing. Otherwise slot k-1 becomes empty, the others and the length are kept, and the answer is "Slot number k is free" (the corrected definition, see Findings) |
| Internals.LeaveAsWritten | src/parking_lot/internals.rs:88-103 | `leave` exactly as written: it panics if and only if the row is allocated and the number is 0; otherwise it answers as the corrected `LeaveStep` does (not allocated, above len, or slot k-1 emptied with "Slot number k is free") |
| Internals.Hits | src/parking_lot/internals.rs:136 | the 1-based numbers the lookup keeps: strictly ascending, within [1, len], and including every slot on which the lookup yields a value |
| Internals.Collect | src/parking_lot/internals.rs:130-137 | one value per kept slot, in ascending slot order; value j is what the lookup yields on the j-th kept slot |
| Internals.StatusOf | src/parking_lot/internals.rs:105-125 | fails exactly when unallocated. Otherwise: the header, then exactly one row per occupied slot (1 + number occupied lines), in ascending slot order, each row formatted from that slot's number, registration and colour |
| Internals.QueryOf | src/parking_lot/internals.rs:127-144 | unallocated: "not allocated". Allocated: "Not found" exactly when the lookup yields nothing on any slot. Otherwise the lookup's values, one per kept slot, in ascending slot order |
| Internals.HitsEmpty | src/parking_lot/internals.rs:136-139 | the lookup keeps no slot if and only if it yields nothing on every slot |
| Internals.StatusRowsFormat | src/parking_lot/internals.rs:116-121 | every status row comes from an occupied slot and is that slot's number, registration and colour |
| Internals.ParkLotIntern.constructor | src/parking_lot/internals.rs:36-38 | a new store is unallocated |
| Internals.ParkLotIntern.Alloc | src/parking_lot/internals.rs:40-49 | the new state and the answer are those of `AllocStep` on the old state |
| Internals.ParkLotIntern.Park | src/parking_lot/internals.rs:59-86 | the new state and the answer are those of `ParkStep` on the old state; the first-fit loop is proved with its invariant |
| Internals.ParkLotIntern.Leave | src/parking_lot/internals.rs:88-103 | the new state and the answer are those of the corrected `LeaveStep` on the old state |
| Internals.StatusRowsCount | src/parking_lot/internals.rs:116-121 | the status table has exactly as many rows as there are occupied slots |
| Internals.HitsExactly | src/parking_lot/internals.rs:136 | slot k is kept if and only if 1 <= k <= len and the lookup yields a value on it |
| Internals.StatusListsOccupied | src/parking_lot/internals.rs:116-121 | slot k is listed by status if and only if it is within the row and occupied |
| Internals.NoRowsWhenAllEmpty | src/parking_lot/internals.rs:116-121 | a row of empty slots gives no status rows |
| Internals.StatusAfterAlloc | src/parking_lot/internals.rs:46 | right after a successful alloc, status is the header alone |
| Internals.CountOccupiedUpdate | src/parking_lot/internals.rs:78 | overwriting one slot changes the number of occupied slots by exactly the change at that slot |
| Internals.ParkAddsOneRow | src/parking_lot/internals.rs:77-82 | a successful park occupies exactly one more slot, and the status table grows by exactly one row |
| Internals.ParkFillsLowestEmpty | src/parking_lot/internals.rs:64-82 | first fit, stated without the scan: if slot k is empty and all slots below it are taken, park fills slot k, reports k and changes nothing else |
| Internals.ParkAfterLeave | src/parking_lot/internals.rs:100 | a freed slot with all slots below it taken is the next one park hands out |
| Internals.LeaveEmptySlot | src/parking_lot/internals.rs:100-102 | leaving an empty slot succeeds and changes nothing |
| Internals.LeaveIdempotent | src/parking_lot/internals.rs:88-103 | leaving the same slot twice gives the same state and answer as leaving it once, for every state and number |
| Internals.CapacityNeverChanges | src/parking_lot/internals.rs:78 | once allocated, alloc leaves the row alone, and park and leave keep it allocated with the same length |
| Internals.StepsKeepValid | src/parking_lot/internals.rs:43-46 | alloc, park and leave all keep the invariant that an allocated row is non-empty |
| Internals.AllocOnlyOnce | src/parking_lot/internals.rs:154-158 | after a successful alloc of any size, a second alloc of any size fails and keeps the row |
| Internals.UnallocatedRejectsEverything | src/parking_lot/internals.rs:51-57 | before alloc, park, leave, status and every query fail with "not allocated" and change nothing |
| Internals.LeaveZeroPanicsAsWritten | src/parking_lot/internals.rs:93-100 | the code as written panics on `leave(0)` for every allocated row |
| Internals.LeaveCorrected | src/parking_lot/internals.rs:93-102 | the corrected leave rejects 0 like any other out-of-range number, and agrees with the code as written on every number from 1 up |
| Internals.MatchIgnoresCase | src/parking_lot/internals.rs:12-18 | two spellings with the same lower-case form match the same cars, by colour and by registration |
| Internals.MatchIsSymmetric | src/parking_lot/internals.rs:12-18 | matching gives the same answer with the car's attribute and the asked-for string swapped |
| Internals.MatchesOwnLowercase | src/parking_lot/internals.rs:12-18 | a car matches the lower-case form of its own colour and registration |
| Internals.RedMatchesAnyCase | src/parking_lot/internals.rs:16-18 | a "Red" car matches "red", "RED" and "ReD", and not "Green" |
| Internals.SmallNumberMessages | src/parking_lot/internals.rs:47 | the answers for slot numbers 1 to 3 and size 3, written out |
| Internals.AllocTwiceScenario | src/parking_lot/internals.rs:153-159 | on the object: alloc(7) succeeds, then alloc(6) fails with "already allocated" |
| Internals.ParkLeaveScenario | src/parking_lot/internals.rs:161-182 | on the object: the eight answers of the store's test, ending with slot 2 for the car that was turned away earlier |
| Internals.FillThreeSlots | src/parking_lot/internals.rs:163-169 | a lot of three filled by three cars, with slots 1, 2 and 3 reported in turn |
| Internals.RejectFreeAndPark | src/parking_lot/internals.rs:171-179 | a full lot turns a car away; freeing slots 2 and 3 then lets that car into slot 2 |
| Text.WordLen | src/parking_lot/mod.rs:99 | the length of the longest prefix without whitespace; the next character, if any, is whitespace |
| Text.Tokens | src/parking_lot/mod.rs:99 | every word the splitter yields is non-empty and holds no whitespace |
| Text.TokensOfTokenThen | src/parking_lot/mod.rs:99 | a word followed by nothing or by whitespace is split off whole |
| Text.TokensOfJoin | src/parking_lot/mod.rs:99 | splitting words joined by single spaces gives back the words |
| Text.TokensTrailingWhitespace | src/parking_lot/mod.rs:99 | a trailing whitespace character does not change the words |
| Text.TokensIgnorePadding | src/parking_lot/mod.rs:99 | whitespace before and after a line does not change its words |
| Text.WordLenAppend | src/parking_lot/mod.rs:99 | appending after a word that is already ended does not change the word's length |
| Text.WordLenOfToken | src/parking_lot/mod.rs:99 | a word followed by nothing or whitespace has its own length as the prefix length |
| Text.DigitValue | src/parking_lot/mod.rs:102 | a decimal digit's value is below 10 |
| Text.DigitChar | src/parking_lot/mod.rs:102 | the digit printed for a value below 10 reads back as that value |
| Text.NatToString | src/parking_lot/internals.rs:47 | decimal printing: non-empty, all digits, one digit exactly below 10, no leading zero |
| Text.ParseUsize | src/parking_lot/mod.rs:102 | succeeds exactly on an optional leading '+' followed by one or more decimal digits, with their decimal value |
| Text.DigitsValueOfNatToString | src/parking_lot/mod.rs:102 | the digits printed for n have value n |
| Text.ParseUsizeOfNatToString | src/parking_lot/mod.rs:104 | parsing reads back every printed number |
| Text.NatToStringInjective | src/parking_lot/internals.rs:82 | distinct numbers print differently, so distinct slots are reported differently |
| Text.NatToStringIsToken | src/parking_lot/mod.rs:104 | a printed number is a single word |
| Text.Join | src/parking_lot/mod.rs:20 | `join`: the text starts with the first item; `TokensOfJoin` and `SplitOfJoin` show it is undone by splitting |
| Text.UntilSep | src/parking_lot/mod.rs:20 | the length of the prefix before the first separator; the next character, if any, is the separator |
| Text.Split | src/parking_lot/mod.rs:20 | `str::split` semantics, used only as the inverse of the newline join: it gives at least one piece |
| Text.UntilSepOfLine | src/parking_lot/mod.rs:20 | a line without separator, followed by nothing or a separator, ends where the line ends |
| Text.SplitOfCons | src/parking_lot/mod.rs:20 | a separator-free line, a separator and more text split into the line and the pieces of the rest |
| Text.SplitOfJoin | src/parking_lot/mod.rs:20 | lines without the separator, joined on it, split back into the same lines |
| Text.Lower | src/parking_lot/internals.rs:13 | lower-casing keeps the length |
| Text.LowerIdempotent | src/parking_lot/internals.rs:13 | lower-casing twice is lower-casing once |
| ParkingLot.RegNumbersForColorLookup | src/parking_lot/mod.rs:44-55 | the closure passed to `query` for `registration_numbers_for_cars_with_colour`: it yields a value exactly on occupied slots whose colour matches, and that value is the car's registration |
| ParkingLot.SlotNumbersForColorLookup | src/parking_lot/mod.rs:59-70 | the closure for `slot_numbers_for_cars_with_colour`: it yields a value exactly on occupied slots whose colour matches, and that value is the slot's number in decimal |
| ParkingLot.SlotNumbersForRegNoLookup | src/parking_lot/mod.rs:74-85 | the closure for `slot_number_for_registration_number`: it yields a value exactly on occupied slots whose registration matches, and that value is the slot's number in decimal |
| ParkingLot.ProcessStep | src/parking_lot/mod.rs:36-88 | `process`: status and the lookups keep the store; before alloc every command but create fails with "not allocated"; the store's invariant and an allocated row's length are kept |
| ParkingLot.ReplStep | src/parking_lot/mod.rs:98-118 | `repl`: a parse error is returned as is and changes nothing; the store changes only on a line that parses to create, park or leave |
| ParkingLot.Stringify | src/parking_lot/mod.rs:18-23 | `stringify`: an error prints as its message; a non-empty list of newline-free lines prints as text that splits back into exactly those lines |
| ParkingLot.ParseNumber | src/parking_lot/mod.rs:102 | a numeric argument parses exactly when `ParseUsize` accepts it, to the same value; otherwise the error is "invalid digit" |
| ParkingLot.ParseTokens | src/parking_lot/mod.rs:101-115 | the line is rejected with its own text if and only if its words have none of the seven shapes; the only other error is a bad number. A parsed command has the keyword and number of words of its shape. A park or lookup command carries its words unchanged, in order. For create and leave, parsing fails if and only if the argument is not a number `ParseUsize` accepts, and otherwise carries that number ("07" gives 7, "+6" gives 6) |
| ParkingLot.ParkingLot.constructor | src/parking_lot/mod.rs:30-34 | a new interpreter owns a fresh, unallocated store |
| ParkingLot.ParkingLot.Process | src/parking_lot/mod.rs:36-88 | the new state and the answer are those of `ProcessStep`: exactly the one store operation the command names |
| ParkingLot.ParkingLot.Repl | src/parking_lot/mod.rs:98-118 | the new state and the answer are those of `ReplStep`: parse, then dispatch, with a parse error reaching no store operation |
| ParkingLot.KeywordIsToken | src/parking_lot/mod.rs:101-112 | every command keyword is a single word |
| ParkingLot.ParseTokensOfAction | src/parking_lot/mod.rs:101-112 | the keyword and arguments of every command match its own pattern and give back that command |
| ParkingLot.ParseUnparse | src/parking_lot/mod.rs:99-112 | the canonical line of every command (single words as arguments) parses back to that command |
| ParkingLot.ReplDispatches | src/parking_lot/mod.rs:36-41 | each recognised command reaches exactly the store operation it names, with its parsed arguments |
| ParkingLot.UnknownShapeRejected | src/parking_lot/mod.rs:114 | a line of no known shape (wrong keyword or wrong number of words) prints "Can't parse command: " and the line verbatim, and the store is unchanged |
| ParkingLot.ParseErrorKeepsState | src/parking_lot/mod.rs:101-117 | no parse error reaches the store: the state is unchanged and the error is the parser's |
| ParkingLot.NumericArgumentParsed | src/parking_lot/mod.rs:102-104 | `create_parking_lot x` and `leave x` with a word x that parses as n give exactly `Create(n)` / `Leave(n)`, whatever the spelling of x |
| ParkingLot.UnusualNumeralsAccepted | src/parking_lot/mod.rs:102 | "+6" parses as 6 and "07" as 7, as `parse::<usize>` does; "+" alone and "-1" are rejected |
| ParkingLot.NonNumericArgumentRejected | src/parking_lot/mod.rs:102-104 | `create_parking_lot x` and `leave x` with a non-numeric word x fail with "invalid digit" and change nothing |
| ParkingLot.ParseIgnoresPadding | src/parking_lot/mod.rs:99 | whitespace around a command line, such as a trailing newline, does not change the command it parses to, nor a bad number's error; a line of no known shape is still rejected, echoing the padded line verbatim |
| ParkingLot.StatusLineParses | src/parking_lot/mod.rs:105 | "status" with any whitespace around it, such as "status\n" and "  status ", parses to the status command |
| ParkingLot.SpartaTokens | src/parking_lot/mod.rs:141 | the line "this is sparta" splits into the three words "this", "is", "sparta" |
| ParkingLot.SpartaRejected | src/parking_lot/mod.rs:138-145 | the line "this is sparta" is rejected with its own text, whatever the state, and the state is unchanged |
| ParkingLot.SpartaMessage | src/parking_lot/mod.rs:141-142 | that rejection prints "Can't parse command: this is sparta" |
| ParkingLot.ParkWithOneArgumentRejected | src/parking_lot/mod.rs:103 | "park A" has the wrong number of words and is rejected with its own text |
| ParkingLot.CreateSixSlots | src/parking_lot/mod.rs:128-135 | "create_parking_lot 6" on a new store answers "Created a parking lot with 6 slots" |
| ParkingLot.ReadOnlyCommands | src/parking_lot/mod.rs:41-86 | status and the three lookups never change the store |
| ParkingLot.ReplKeepsCapacity | src/parking_lot/mod.rs:98-118 | whatever line comes in, the store's invariant holds and an allocated row keeps its length |
| ParkingLot.RegNumbersForColorMatches | src/parking_lot/mod.rs:43-56 | the colour lookup keeps exactly the occupied slots whose colour matches in any case; empty slots never count |
| ParkingLot.RegNumbersForColorAnswer | src/parking_lot/mod.rs:43-56 | "Not found" exactly when no car has the colour; otherwise the registrations of the matching slots, in ascending slot order |
| ParkingLot.SlotNumbersForColorMatches | src/parking_lot/mod.rs:58-71 | the lookup keeps exactly the occupied slots whose colour matches in any case |
| ParkingLot.SlotNumbersForColorAnswer | src/parking_lot/mod.rs:58-71 | "Not found" exactly when no car has the colour; otherwise the printed numbers of the matching slots, ascending and within [1, len] |
| ParkingLot.SlotNumbersForRegNoMatches | src/parking_lot/mod.rs:73-86 | the lookup keeps exactly the occupied slots whose registration matches in any case |
| ParkingLot.SlotNumbersForRegNoAnswer | src/parking_lot/mod.rs:73-86 | "Not found" exactly when no car has the registration; otherwise the printed numbers of the matching slots, ascending and within [1, len] |
| ParkingLot.LoneCarFoundByColour | src/parking_lot/mod.rs:58-71 | a lone car in slot 1 is found, as slot "1", by every colour it matches |
| ParkingLot.ColourLookupIgnoresCase | src/parking_lot/mod.rs:58-71 | a lone "Red" car in slot 1 is found by "red", "RED" and "ReD" |
| ParkingLot.StringifyKeepsLines | src/parking_lot/mod.rs:20 | a successful answer prints as its lines joined by newlines, and splits back into them when no line holds a newline |
| ParkingLot.StringifyError | src/parking_lot/mod.rs:21 | a failure prints as its error's message |
| ParkingLot.UnparseShapes | src/parking_lot/mod.rs:102-104 | the canonical lines of create, park and leave are the keyword and arguments, one space apart |
| ParkingLot.ParkLine | src/parking_lot/mod.rs:103 | "park r c" with single-word r and c is the canonical line of that park command |
| ParkingLot.NumberLine | src/parking_lot/mod.rs:104 | "leave n" is the canonical line of that leave command |
| ParkingLot.ReplParkLine | src/parking_lot/mod.rs:103 | a "park r c" line puts the car in the lowest empty slot and answers with its number |
| ParkingLot.ReplParkFullLine | src/parking_lot/mod.rs:103 | a "park r c" line on a full row fails with "lot is full" and changes nothing |
| ParkingLot.ReplCreateLine | src/parking_lot/mod.rs:102 | "create_parking_lot n" on a new store, for any n > 0, creates n empty slots and says so |
| ParkingLot.ReplLeaveLine | src/parking_lot/mod.rs:104 | a "leave k" line with k in [1, len] empties slot k and says so |
| ParkingLot.CreateScenario | src/parking_lot/mod.rs:128-135 | on the object: a new interpreter answers "create_parking_lot 6" with "Created a parking lot with 6 slots" |
| Sessions.Session | src/parking_lot/mod.rs:152-160 | a session prints exactly one answer per input line |
| Sessions.RunSession | src/parking_lot/mod.rs:152-160 | the loop over a batch of lines on a fresh interpreter prints what `Session` describes |
| Sessions.SessionOfTrace | src/parking_lot/mod.rs:152-160 | when each line takes one state to the next with a given answer, the session from the first state prints exactly those answers, one per line |

## Left out

- `src/main.rs` is not part of this model. It chooses the mode from the command-line arguments, reads standard input or a file, and prints in a loop; all of that is I/O.
- The `failure` crate is not modelled. Errors are a datatype of kinds, each with the message it displays. The `?` and `bail!` early returns become pattern matches on `Result`.
- `Lower`: it lower-cases ASCII letters only. Rust's `to_lowercase` also folds the rest of Unicode.
- `ParseUsize`: it accepts every digit string, however long. Rust's `parse::<usize>` rejects values above the `usize` maximum ("number too large to fit in target type"). The leading '+' that Rust accepts is modelled.
- Integers are unbounded throughout, and the model assumes allocation never fails. A capacity is whatever number the line gives. For a huge one, such as `create_parking_lot 18446744073709551615`, `vec![Slot::Empty; n]` (`src/parking_lot/internals.rs:46`) panics or aborts when it allocates, while `AllocStep` answers `Ok`. Allocation failure is not modelled.
- Status rows keep the source's exact column spacing. The properties are also stated over the slot number, registration and colour that each row is built from.
- `Car::reg_num` is read directly as the car's `regNum` field.
- The file-driven test (`src/parking_lot/mod.rs:147-163`) reads fixture files that are not part of this model, and it compares answers with spaces and newlines removed. `Sessions` models its loop but not the fixtures or that comparison.
- `Internals.ParkLotIntern.Leave`: it follows the corrected `leave`, which rejects slot 0. The code as written panics there, as `LeaveAsWritten` shows.

## Findings

| source | as written | input that shows it | evidently intended | confidence | as-written member | corrected member |
|---|---|---|---|---|---|---|
| src/parking_lot/internals.rs:93-100 | `leave` guards only `slot_no > len`, then indexes `slot_no - 1` on an unsigned integer | `leave(0)` (the line "leave 0") on any allocated lot: `0 - 1` underflows and the program panics | reject 0 like every other number outside [1, len], with "Invalid parking place number, please choose a number in interval [1, len]" | not executed | Internals.LeaveZeroPanicsAsWritten | Internals.LeaveCorrected |
