/** The state store of the parking lot: an optional row of slots, each empty or
    holding a car, with the operations that allocate the row once, park a car in
    the lowest empty slot, free a slot, list the occupied slots and run a lookup
    over all of them. */
module Internals {
  import opened Wrappers
  import opened Text
  import opened Errors

  // ---------------------------------------------------------------------------
  // Data model
  // ---------------------------------------------------------------------------

  /** A parked car; its registration is also what `reg_num` hands out. */
  datatype Car = Car(regNum: string, color: string)

  /** `Car::reg_num_match`: both registrations compared in lower case. A car
      matches its own registration, and only a registration of the same length. */
  predicate RegNumMatch(car: Car, regNum: string)
    ensures car.regNum == regNum ==> RegNumMatch(car, regNum)
    ensures RegNumMatch(car, regNum) ==> |regNum| == |car.regNum|
  {
    Lower(car.regNum) == Lower(regNum)
  }

  /** `Car::color_match`: both colours compared in lower case. A car matches
      its own colour, and only a colour of the same length. */
  predicate ColorMatch(car: Car, color: string)
    ensures car.color == color ==> ColorMatch(car, color)
    ensures ColorMatch(car, color) ==> |color| == |car.color|
  {
    Lower(car.color) == Lower(color)
  }

  datatype Slot = Occupied(car: Car) | Empty

  /** The `slots` field: no row at all before `alloc`, then a row whose length
      never changes again. */
  datatype Lot = Unallocated | Allocated(slots: seq<Slot>)

  /** The state left by an operation, with what the operation returned. */
  datatype Step = Step(lot: Lot, out: MyResult)

  /** The store's invariant: an allocated row is never empty. */
  predicate ValidLot(lot: Lot) {
    lot.Allocated? ==> |lot.slots| > 0
  }

  const Header := "Slot No.   Registration No  Colour"

  // ---------------------------------------------------------------------------
  // Specification of the operations over values
  // ---------------------------------------------------------------------------

  /** `check_allocated`: the guard every slot operation starts with. */
  function CheckAllocated(lot: Lot): (r: Result<(), Error>)
    ensures r.Ok? <==> lot.Allocated?
    ensures r.Err? ==> r.error == NotAllocated
  {
    if lot.Unallocated? then Err(NotAllocated) else Ok(())
  }

  /** `alloc(n)`: creates `n` empty slots, once. */
  function AllocStep(lot: Lot, n: nat): (st: Step)
    ensures lot.Allocated? ==> st == Step(lot, Err(AlreadyAllocated))
    ensures lot.Unallocated? && n == 0 ==> st == Step(lot, Err(InvalidCapacity))
    ensures lot.Unallocated? && n > 0 ==>
      && st.lot.Allocated? && |st.lot.slots| == n
      && (forall i :: 0 <= i < n ==> st.lot.slots[i] == Empty)
      && st.out == Ok(["Created a parking lot with " + NatToString(n) + " slots"])
  {
    if lot.Allocated? then Step(lot, Err(AlreadyAllocated))
    else if n == 0 then Step(lot, Err(InvalidCapacity))
    else Step(Allocated(seq(n, _ => Empty)), Ok(["Created a parking lot with " + NatToString(n) + " slots"]))
  }

  /** The index of the lowest empty slot, if there is one. */
  function FirstEmpty(s: seq<Slot>): (r: Option<nat>)
    ensures r.Some? ==> r.value < |s| && s[r.value] == Empty
    ensures r.Some? ==> forall k :: 0 <= k < r.value ==> s[k].Occupied?
    ensures r.None? <==> forall k :: 0 <= k < |s| ==> s[k].Occupied?
  {
    if s == [] then None
    else if s[0] == Empty then Some(0)
    else match FirstEmpty(s[1..])
      case None => None
      case Some(i) => Some(i + 1)
  }

  /** `park(reg, color)`: the car goes into the lowest empty slot and its
      1-based number is reported; nothing else changes. */
  function ParkStep(lot: Lot, regNum: string, color: string): (st: Step)
    ensures lot.Unallocated? ==> st == Step(lot, Err(NotAllocated))
    ensures lot.Allocated? && FirstEmpty(lot.slots).None? ==> st == Step(lot, Err(LotFull))
    ensures lot.Allocated? && FirstEmpty(lot.slots).Some? ==>
      var i := FirstEmpty(lot.slots).value;
      && st.lot.Allocated? && |st.lot.slots| == |lot.slots|
      && st.lot.slots[i] == Occupied(Car(regNum, color))
      && (forall k :: 0 <= k < |lot.slots| && k != i ==> st.lot.slots[k] == lot.slots[k])
      && st.out == Ok(["Allocated slot number: " + NatToString(i + 1)])
  {
    match CheckAllocated(lot)
    case Err(e) => Step(lot, Err(e))
    case Ok(_) =>
      var s := lot.slots;
      match FirstEmpty(s)
      case Some(i) => Step(Allocated(s[i := Occupied(Car(regNum, color))]), Ok(["Allocated slot number: " + NatToString(i + 1)]))
      case None => Step(lot, Err(LotFull))
  }

  /** `leave(k)`, with the lower bound the source omits put back: slot `k`
      (1-based) is emptied and nothing else changes; a `k` outside [1, len]
      is rejected. */
  function LeaveStep(lot: Lot, slotNo: nat): (st: Step)
    ensures lot.Unallocated? ==> st == Step(lot, Err(NotAllocated))
    ensures lot.Allocated? && !(1 <= slotNo <= |lot.slots|) ==>
      st == Step(lot, Err(InvalidSlotNumber(|lot.slots|)))
    ensures lot.Allocated? && 1 <= slotNo <= |lot.slots| ==>
      && st.lot.Allocated? && |st.lot.slots| == |lot.slots|
      && st.lot.slots[slotNo - 1] == Empty
      && (forall k :: 0 <= k < |lot.slots| && k != slotNo - 1 ==> st.lot.slots[k] == lot.slots[k])
      && st.out == Ok(["Slot number " + NatToString(slotNo) + " is free"])
  {
    match CheckAllocated(lot)
    case Err(e) => Step(lot, Err(e))
    case Ok(_) =>
      var s := lot.slots;
      if slotNo > |s| || slotNo == 0 then Step(lot, Err(InvalidSlotNumber(|s|)))
      else Step(Allocated(s[slotNo - 1 := Empty]), Ok(["Slot number " + NatToString(slotNo) + " is free"]))
  }

  /** What `leave` does as written: the only guard is `slot_no > len`, so
      `slot_no == 0` reaches `slot_no - 1` on an unsigned integer and panics. */
  datatype Outcome = Returned(step: Step) | Panicked

  function LeaveAsWritten(lot: Lot, slotNo: nat): (o: Outcome)
    ensures o == Panicked <==> lot.Allocated? && slotNo == 0
    ensures lot.Unallocated? ==> o == Returned(Step(lot, Err(NotAllocated)))
    ensures lot.Allocated? && slotNo > |lot.slots| ==> o == Returned(Step(lot, Err(InvalidSlotNumber(|lot.slots|))))
    ensures lot.Allocated? && 1 <= slotNo <= |lot.slots| ==>
      && o.Returned? && o.step.lot.Allocated? && |o.step.lot.slots| == |lot.slots|
      && o.step.lot.slots[slotNo - 1] == Empty
      && (forall k :: 0 <= k < |lot.slots| && k != slotNo - 1 ==> o.step.lot.slots[k] == lot.slots[k])
      && o.step.out == Ok(["Slot number " + NatToString(slotNo) + " is free"])
  {
    match CheckAllocated(lot)
    case Err(e) => Returned(Step(lot, Err(e)))
    case Ok(_) =>
      var s := lot.slots;
      if slotNo > |s| then Returned(Step(lot, Err(InvalidSlotNumber(|s|))))
      else if slotNo as int - 1 < 0 then Panicked
      else Returned(Step(Allocated(s[slotNo - 1 := Empty]), Ok(["Slot number " + NatToString(slotNo) + " is free"])))
  }

  // ---------------------------------------------------------------------------
  // Read-only operations: status and query
  // ---------------------------------------------------------------------------

  /** The 1-based numbers of the slots on which `f` yields something, in
      ascending order: the positions `enumerate().filter_map` keeps. */
  ghost function Hits(s: seq<Slot>, f: (nat, Slot) -> Option<string>): (h: seq<nat>)
    ensures forall j :: 0 <= j < |h| ==> 1 <= h[j] <= |s| && f(h[j], s[h[j] - 1]).Some?
    ensures forall j, k :: 0 <= j < k < |h| ==> h[j] < h[k]
    ensures forall k :: 1 <= k <= |s| && f(k, s[k - 1]).Some? ==> k in h
    decreases |s|
  {
    if s == [] then []
    else
      var n := |s|;
      var prefix := Hits(s[..n - 1], f);
      if f(n, s[n - 1]).Some? then prefix + [n] else prefix
  }

  /** `iter().enumerate().filter_map(|(idx, slot)| f(idx + 1, slot))`: the
      values `f` yields, slot by slot in ascending order. */
  function Collect(s: seq<Slot>, f: (nat, Slot) -> Option<string>): (r: seq<string>)
    ensures |r| == |Hits(s, f)|
    ensures forall j :: 0 <= j < |r| ==> f(Hits(s, f)[j], s[Hits(s, f)[j] - 1]) == Some(r[j])
    decreases |s|
  {
    if s == [] then []
    else
      var n := |s|;
      var prefix := Collect(s[..n - 1], f);
      match f(n, s[n - 1])
      case Some(v) => prefix + [v]
      case None => prefix
  }

  function CountOccupied(s: seq<Slot>): nat
  {
    if s == [] then 0
    else CountOccupied(s[..|s| - 1]) + (if s[|s| - 1].Occupied? then 1 else 0)
  }

  /** One line of the status table. */
  function FormatRow(idx: nat, car: Car): string {
    NatToString(idx) + "     " + car.regNum + "  " + car.color
  }

  function StatusLine(idx: nat, slot: Slot): Option<string> {
    match slot
    case Occupied(car) => Some(FormatRow(idx, car))
    case Empty => None
  }

  /** `status()`: the header, then one row per occupied slot in ascending slot
      order. */
  function StatusOf(lot: Lot): (r: MyResult)
    ensures r.Err? <==> lot.Unallocated?
    ensures r.Err? ==> r.error == NotAllocated
    ensures r.Ok? ==>
      var s := lot.slots;
      var h := Hits(s, StatusLine);
      && |r.value| == 1 + |h|
      && |h| == CountOccupied(s)
      && r.value[0] == Header
      && forall j :: 0 <= j < |h| ==>
           s[h[j] - 1].Occupied? && r.value[j + 1] == FormatRow(h[j], s[h[j] - 1].car)
  {
    match CheckAllocated(lot)
    case Err(e) => Err(e)
    case Ok(_) =>
      var rows := Collect(lot.slots, StatusLine);
      StatusRowsCount(lot.slots);
      StatusRowsFormat(lot.slots, rows);
      var out := [Header] + rows;
      assert forall j :: 0 <= j < |rows| ==> out[j + 1] == rows[j];
      Ok(out)
  }

  /** `query(f)`: what `f` yields for each slot, in ascending slot order, or
      "Not found" when it yields nothing at all. */
  function QueryOf(lot: Lot, f: (nat, Slot) -> Option<string>): (r: MyResult)
    ensures lot.Unallocated? ==> r == Err(NotAllocated)
    ensures lot.Allocated? ==>
      (r == Err(NotFound) <==> forall i :: 0 <= i < |lot.slots| ==> f(i + 1, lot.slots[i]).None?)
    ensures lot.Allocated? && r.Err? ==> r.error == NotFound
    ensures r.Ok? ==>
      var h := Hits(lot.slots, f);
      && |r.value| == |h| > 0
      && forall j :: 0 <= j < |h| ==> f(h[j], lot.slots[h[j] - 1]) == Some(r.value[j])
  {
    match CheckAllocated(lot)
    case Err(e) => Err(e)
    case Ok(_) =>
      var res := Collect(lot.slots, f);
      HitsEmpty(lot.slots, f);
      if res == [] then Err(NotFound) else Ok(res)
  }

  /** `filter_map` keeps nothing exactly when `f` yields nothing anywhere. */
  lemma {:induction false} HitsEmpty(s: seq<Slot>, f: (nat, Slot) -> Option<string>)
    ensures Hits(s, f) == [] <==> forall i :: 0 <= i < |s| ==> f(i + 1, s[i]).None?
  {
    var h := Hits(s, f);
    if h != [] {
      var i := h[0] - 1;
      assert 0 <= i < |s| && f(i + 1, s[i]).Some?;
    } else {
      forall i | 0 <= i < |s| ensures f(i + 1, s[i]).None? {
        HitsExactly(s, f, i + 1);
      }
    }
  }

  lemma StatusRowsFormat(s: seq<Slot>, rows: seq<string>)
    requires rows == Collect(s, StatusLine)
    ensures forall j :: 0 <= j < |rows| ==>
      var k := Hits(s, StatusLine)[j];
      s[k - 1].Occupied? && rows[j] == FormatRow(k, s[k - 1].car)
  {
    var h := Hits(s, StatusLine);
    forall j | 0 <= j < |rows|
      ensures s[h[j] - 1].Occupied? && rows[j] == FormatRow(h[j], s[h[j] - 1].car)
    {
      assert StatusLine(h[j], s[h[j] - 1]) == Some(rows[j]);
    }
  }

  // ---------------------------------------------------------------------------
  // The store as an object
  // ---------------------------------------------------------------------------

  /** `ParkLotIntern`: the object whose `slots` field the operations update in
      place. Status and query only read the field; they are `StatusOf` and
      `QueryOf` applied to it. */
  class ParkLotIntern {
    var slots: Lot

    /** `new`: nothing allocated yet. */
    constructor ()
      ensures slots == Unallocated
    {
      slots := Unallocated;
    }

    method Alloc(n: nat) returns (r: MyResult)
      modifies this
      ensures Step(slots, r) == AllocStep(old(slots), n)
    {
      if slots.Allocated? {
        r := Err(AlreadyAllocated);
      } else if n == 0 {
        r := Err(InvalidCapacity);
      } else {
        slots := Allocated(seq(n, _ => Empty));
        r := Ok(["Created a parking lot with " + NatToString(n) + " slots"]);
      }
    }

    method Park(regNum: string, color: string) returns (r: MyResult)
      modifies this
      ensures Step(slots, r) == ParkStep(old(slots), regNum, color)
    {
      var check := CheckAllocated(slots);
      if check.Err? {
        return Err(check.error);
      }
      var s := slots.slots;
      // first-fit scan for the nearest empty slot
      var emptyIdx: Option<nat> := None;
      var idx := 0;
      while idx < |s|
        invariant 0 <= idx <= |s|
        invariant emptyIdx == None
        invariant forall k :: 0 <= k < idx ==> s[k].Occupied?
      {
        if s[idx] == Empty {
          emptyIdx := Some(idx);
          break;
        }
        idx := idx + 1;
      }
      match emptyIdx
      case Some(i) =>
        slots := Allocated(s[i := Occupied(Car(regNum, color))]);
        r := Ok(["Allocated slot number: " + NatToString(i + 1)]);
      case None =>
        r := Err(LotFull);
    }

    method Leave(slotNo: nat) returns (r: MyResult)
      modifies this
      ensures Step(slots, r) == LeaveStep(old(slots), slotNo)
    {
      var check := CheckAllocated(slots);
      if check.Err? {
        return Err(check.error);
      }
      var s := slots.slots;
      if slotNo > |s| || slotNo == 0 {
        return Err(InvalidSlotNumber(|s|));
      }
      slots := Allocated(s[slotNo - 1 := Empty]);
      r := Ok(["Slot number " + NatToString(slotNo) + " is free"]);
    }
  }

  // ---------------------------------------------------------------------------
  // Properties
  // ---------------------------------------------------------------------------

  /** The status table has one row per occupied slot. */
  lemma {:induction false} StatusRowsCount(s: seq<Slot>)
    ensures |Hits(s, StatusLine)| == CountOccupied(s)
    decreases |s|
  {
    if s != [] {
      StatusRowsCount(s[..|s| - 1]);
    }
  }

  /** The positions `filter_map` keeps are exactly those where `f` yields a value. */
  lemma HitsExactly(s: seq<Slot>, f: (nat, Slot) -> Option<string>, k: nat)
    ensures k in Hits(s, f) <==> 1 <= k <= |s| && f(k, s[k - 1]).Some?
  {
    var h := Hits(s, f);
    if k in h {
      var j :| 0 <= j < |h| && h[j] == k;
    }
  }

  /** Only occupied slots appear in the status table, and every one of them does. */
  lemma StatusListsOccupied(s: seq<Slot>, k: nat)
    ensures k in Hits(s, StatusLine) <==> 1 <= k <= |s| && s[k - 1].Occupied?
  {
    HitsExactly(s, StatusLine, k);
  }

  lemma {:induction false} NoRowsWhenAllEmpty(s: seq<Slot>)
    requires forall k :: 0 <= k < |s| ==> s[k] == Empty
    ensures Hits(s, StatusLine) == []
    decreases |s|
  {
    if s != [] {
      NoRowsWhenAllEmpty(s[..|s| - 1]);
    }
  }

  /** Right after a successful `alloc`, `status` is the header alone. */
  lemma StatusAfterAlloc(n: nat)
    requires n > 0
    ensures StatusOf(AllocStep(Unallocated, n).lot) == Ok([Header])
  {
    var s := AllocStep(Unallocated, n).lot.slots;
    NoRowsWhenAllEmpty(s);
    assert Collect(s, StatusLine) == [];
    assert [Header] + [] == [Header];
  }

  lemma {:induction false} CountOccupiedUpdate(s: seq<Slot>, i: nat, x: Slot)
    requires i < |s|
    ensures CountOccupied(s[i := x]) + (if s[i].Occupied? then 1 else 0)
         == CountOccupied(s) + (if x.Occupied? then 1 else 0)
    decreases |s|
  {
    var n := |s|;
    var t := s[i := x];
    assert t[..n - 1] == if i < n - 1 then s[..n - 1][i := x] else s[..n - 1];
    if i < n - 1 {
      CountOccupiedUpdate(s[..n - 1], i, x);
    }
  }

  /** A successful `park` fills exactly one more slot, so the status table
      grows by exactly one row. */
  lemma ParkAddsOneRow(s: seq<Slot>, regNum: string, color: string)
    requires FirstEmpty(s).Some?
    ensures var st := ParkStep(Allocated(s), regNum, color);
      st.lot.Allocated? && CountOccupied(st.lot.slots) == CountOccupied(s) + 1
      && |StatusOf(st.lot).value| == |StatusOf(Allocated(s)).value| + 1
  {
    var i := FirstEmpty(s).value;
    CountOccupiedUpdate(s, i, Occupied(Car(regNum, color)));
  }

  /** First fit, characterised independently of the scan: when slot `k` is
      empty and every slot before it is taken, `park` puts the car in slot `k`
      and reports `k`. */
  lemma ParkFillsLowestEmpty(s: seq<Slot>, regNum: string, color: string, k: nat)
    requires 1 <= k <= |s| && s[k - 1] == Empty
    requires forall j :: 0 <= j < k - 1 ==> s[j].Occupied?
    ensures ParkStep(Allocated(s), regNum, color)
         == Step(Allocated(s[k - 1 := Occupied(Car(regNum, color))]), Ok(["Allocated slot number: " + NatToString(k)]))
  {
    assert FirstEmpty(s) == Some(k - 1);
  }

  /** A freed slot is the next one `park` hands out when every slot below it
      is taken. */
  lemma ParkAfterLeave(s: seq<Slot>, k: nat, regNum: string, color: string)
    requires 1 <= k <= |s|
    requires forall j :: 0 <= j < k - 1 ==> s[j].Occupied?
    ensures var freed := LeaveStep(Allocated(s), k).lot;
      ParkStep(freed, regNum, color).out == Ok(["Allocated slot number: " + NatToString(k)])
  {
    var freed := LeaveStep(Allocated(s), k).lot;
    ParkFillsLowestEmpty(freed.slots, regNum, color, k);
  }

  /** Leaving a slot that is already empty succeeds and changes nothing. */
  lemma LeaveEmptySlot(s: seq<Slot>, k: nat)
    requires 1 <= k <= |s| && s[k - 1] == Empty
    ensures LeaveStep(Allocated(s), k) == Step(Allocated(s), Ok(["Slot number " + NatToString(k) + " is free"]))
  {
    assert s[k - 1 := Empty] == s;
  }

  /** `leave` is idempotent: leaving the same slot twice leaves the same state
      and gives the same answer as leaving it once. */
  lemma LeaveIdempotent(lot: Lot, k: nat)
    ensures var once := LeaveStep(lot, k);
      LeaveStep(once.lot, k) == once
  {
    var once := LeaveStep(lot, k);
    if lot.Allocated? && 1 <= k <= |lot.slots| {
      LeaveEmptySlot(once.lot.slots, k);
    }
  }

  /** Once allocated, the row keeps its length through every operation, and the
      store's invariant is kept. */
  lemma CapacityNeverChanges(lot: Lot, n: nat, regNum: string, color: string, k: nat)
    requires lot.Allocated?
    ensures AllocStep(lot, n).lot == lot
    ensures ParkStep(lot, regNum, color).lot.Allocated? && |ParkStep(lot, regNum, color).lot.slots| == |lot.slots|
    ensures LeaveStep(lot, k).lot.Allocated? && |LeaveStep(lot, k).lot.slots| == |lot.slots|
  {
  }

  lemma StepsKeepValid(lot: Lot, n: nat, regNum: string, color: string, k: nat)
    requires ValidLot(lot)
    ensures ValidLot(AllocStep(lot, n).lot)
    ensures ValidLot(ParkStep(lot, regNum, color).lot)
    ensures ValidLot(LeaveStep(lot, k).lot)
  {
  }

  /** A second `alloc` fails whatever the sizes, and leaves the row as it was. */
  lemma AllocOnlyOnce(m: nat, n: nat)
    requires m > 0
    ensures var first := AllocStep(Unallocated, m);
      first.out.Ok? && AllocStep(first.lot, n) == Step(first.lot, Err(AlreadyAllocated))
  {
  }

  /** Before `alloc`, every slot operation fails with the same error and
      changes nothing. */
  lemma UnallocatedRejectsEverything(regNum: string, color: string, k: nat, f: (nat, Slot) -> Option<string>)
    ensures ParkStep(Unallocated, regNum, color) == Step(Unallocated, Err(NotAllocated))
    ensures LeaveStep(Unallocated, k) == Step(Unallocated, Err(NotAllocated))
    ensures StatusOf(Unallocated) == Err(NotAllocated)
    ensures QueryOf(Unallocated, f) == Err(NotAllocated)
  {
  }

  /** `leave(0)` as written panics on any allocated lot... */
  lemma LeaveZeroPanicsAsWritten(s: seq<Slot>)
    ensures LeaveAsWritten(Allocated(s), 0) == Panicked
  {
  }

  /** ...whereas the corrected `leave` rejects it like any other number outside
      [1, len], and agrees with the source on every other input. */
  lemma LeaveCorrected(lot: Lot, k: nat)
    ensures lot.Allocated? && k == 0 ==> LeaveStep(lot, k) == Step(lot, Err(InvalidSlotNumber(|lot.slots|)))
    ensures k >= 1 ==> LeaveAsWritten(lot, k) == Returned(LeaveStep(lot, k))
  {
  }

  // ---------------------------------------------------------------------------
  // Car matching
  // ---------------------------------------------------------------------------

  /** Matching ignores case: two spellings with the same lower-case form match
      the same cars. */
  lemma MatchIgnoresCase(car: Car, a: string, b: string)
    requires Lower(a) == Lower(b)
    ensures ColorMatch(car, a) == ColorMatch(car, b)
    ensures RegNumMatch(car, a) == RegNumMatch(car, b)
  {
  }

  /** Matching is symmetric in the car's attribute and the string asked for. */
  lemma MatchIsSymmetric(regNum: string, color: string, x: string)
    ensures ColorMatch(Car(regNum, color), x) == ColorMatch(Car(regNum, x), color)
    ensures RegNumMatch(Car(regNum, color), x) == RegNumMatch(Car(x, color), regNum)
  {
  }

  /** A car matches its own attributes in any case, lower case included. */
  lemma MatchesOwnLowercase(car: Car)
    ensures ColorMatch(car, Lower(car.color)) && RegNumMatch(car, Lower(car.regNum))
  {
    LowerIdempotent(car.color);
    LowerIdempotent(car.regNum);
  }

  lemma RedMatchesAnyCase()
    ensures ColorMatch(Car("T800", "Red"), "red")
    ensures ColorMatch(Car("T800", "Red"), "RED")
    ensures ColorMatch(Car("T800", "Red"), "ReD")
    ensures !ColorMatch(Car("T800", "Red"), "Green")
  {
  }

  // ---------------------------------------------------------------------------
  // The store's own tests, run against the object
  // ---------------------------------------------------------------------------

  /** The messages the scenarios below expect, with their numbers written out. */
  lemma SmallNumberMessages()
    ensures "Created a parking lot with " + NatToString(3) + " slots" == "Created a parking lot with 3 slots"
    ensures "Allocated slot number: " + NatToString(1) == "Allocated slot number: 1"
    ensures "Allocated slot number: " + NatToString(2) == "Allocated slot number: 2"
    ensures "Allocated slot number: " + NatToString(3) == "Allocated slot number: 3"
    ensures "Slot number " + NatToString(2) + " is free" == "Slot number 2 is free"
    ensures "Slot number " + NatToString(3) + " is free" == "Slot number 3 is free"
  {
    assert NatToString(1) == "1" && NatToString(2) == "2" && NatToString(3) == "3";
    assert "Created a parking lot with " + "3" + " slots" == "Created a parking lot with 3 slots";
    assert "Slot number " + "2" + " is free" == "Slot number 2 is free";
    assert "Slot number " + "3" + " is free" == "Slot number 3 is free";
  }

  /** Allocating twice: the second call fails whatever its size. */
  method AllocTwiceScenario() returns (first: MyResult, second: MyResult)
    ensures first == Ok(["Created a parking lot with 7 slots"])
    ensures second == Err(AlreadyAllocated)
  {
    var p := new ParkLotIntern();
    first := p.Alloc(7);
    assert NatToString(7) == "7";
    assert "Created a parking lot with " + "7" + " slots" == "Created a parking lot with 7 slots";
    second := p.Alloc(6);
  }

  /** Three cars fill a lot of three, a fourth is turned away, slots 2 and 3 are
      freed, and the next car gets slot 2. */
  method ParkLeaveScenario() returns (outs: seq<MyResult>)
    ensures outs == [
      Ok(["Created a parking lot with 3 slots"]),
      Ok(["Allocated slot number: 1"]),
      Ok(["Allocated slot number: 2"]),
      Ok(["Allocated slot number: 3"]),
      Err(LotFull),
      Ok(["Slot number 2 is free"]),
      Ok(["Slot number 3 is free"]),
      Ok(["Allocated slot number: 2"])]
  {
    var p, filling := FillThreeSlots();
    var emptying := RejectFreeAndPark(p);
    outs := filling + emptying;
  }

  /** The first half of the test: a lot of three is filled. */
  method FillThreeSlots() returns (p: ParkLotIntern, outs: seq<MyResult>)
    ensures fresh(p)
    ensures p.slots == Allocated([Occupied(Car("T800", "Red")), Occupied(Car("T1000", "BLACK")), Occupied(Car("HAL9000", "GrEeN"))])
    ensures outs == [
      Ok(["Created a parking lot with 3 slots"]),
      Ok(["Allocated slot number: 1"]),
      Ok(["Allocated slot number: 2"]),
      Ok(["Allocated slot number: 3"])]
  {
    var a, b, c := Car("T800", "Red"), Car("T1000", "BLACK"), Car("HAL9000", "GrEeN");
    SmallNumberMessages();
    p := new ParkLotIntern();
    var r0 := p.Alloc(3);
    assert p.slots.slots == [Empty, Empty, Empty];
    ParkFillsLowestEmpty([Empty, Empty, Empty], a.regNum, a.color, 1);
    var r1 := p.Park(a.regNum, a.color);
    assert p.slots.slots == [Occupied(a), Empty, Empty];
    ParkFillsLowestEmpty([Occupied(a), Empty, Empty], b.regNum, b.color, 2);
    var r2 := p.Park(b.regNum, b.color);
    assert p.slots.slots == [Occupied(a), Occupied(b), Empty];
    ParkFillsLowestEmpty([Occupied(a), Occupied(b), Empty], c.regNum, c.color, 3);
    var r3 := p.Park(c.regNum, c.color);
    assert p.slots.slots == [Occupied(a), Occupied(b), Occupied(c)];
    outs := [r0, r1, r2, r3];
  }

  /** The second half: a fourth car is turned away, slots 2 and 3 are freed,
      and the fourth car then gets slot 2, the lowest free one. */
  method RejectFreeAndPark(p: ParkLotIntern) returns (outs: seq<MyResult>)
    requires p.slots == Allocated([Occupied(Car("T800", "Red")), Occupied(Car("T1000", "BLACK")), Occupied(Car("HAL9000", "GrEeN"))])
    modifies p
    ensures p.slots == Allocated([Occupied(Car("T800", "Red")), Occupied(Car("Submarine", "Yellow")), Empty])
    ensures outs == [
      Err(LotFull),
      Ok(["Slot number 2 is free"]),
      Ok(["Slot number 3 is free"]),
      Ok(["Allocated slot number: 2"])]
  {
    var a, c, d := Car("T800", "Red"), Car("HAL9000", "GrEeN"), Car("Submarine", "Yellow");
    SmallNumberMessages();
    var r4 := p.Park(d.regNum, d.color);
    var r5 := p.Leave(2);
    assert p.slots.slots == [Occupied(a), Empty, Occupied(c)];
    var r6 := p.Leave(3);
    assert p.slots.slots == [Occupied(a), Empty, Empty];
    ParkFillsLowestEmpty([Occupied(a), Empty, Empty], d.regNum, d.color, 2);
    var r7 := p.Park(d.regNum, d.color);
    assert p.slots.slots == [Occupied(a), Occupied(d), Empty];
    outs := [r4, r5, r6, r7];
  }
}
