/** Batch sessions: a sequence of command lines fed to a fresh interpreter,
    one printed answer per line, as the file-driven test of the interpreter
    does. */
module Sessions {
  import opened Wrappers
  import opened Errors
  import opened Internals
  import opened ParkingLot

  /** What a session prints: each line run in turn through the interpreter,
      each answer printed. */
  function Session(lot: Lot, lines: seq<string>): (printed: seq<string>)
    ensures |printed| == |lines|
    decreases lines
  {
    if lines == [] then []
    else
      var st := ReplStep(lot, lines[0]);
      [Stringify(st.out)] + Session(st.lot, lines[1..])
  }

  /** Runs a batch of command lines against a fresh parking lot and collects
      what each one prints. */
  method RunSession(lines: seq<string>) returns (printed: seq<string>)
    ensures printed == Session(Unallocated, lines)
  {
    var parking := new ParkingLot();
    printed := [];
    var i := 0;
    while i < |lines|
      invariant 0 <= i <= |lines|
      invariant printed + Session(parking.internal.slots, lines[i..]) == Session(Unallocated, lines)
    {
      var r := parking.Repl(lines[i]);
      assert lines[i..][1..] == lines[i + 1..];
      printed := printed + [Stringify(r)];
      i := i + 1;
    }
  }

  /** A session is determined by its trace: if each line, run on the store the
      previous line left, gives the next store and prints the next answer, then
      the session prints exactly those answers. */
  lemma {:induction false} SessionOfTrace(lots: seq<Lot>, lines: seq<string>, rs: seq<MyResult>, printed: seq<string>)
    requires |lots| == |lines| + 1 && |rs| == |lines| && |printed| == |lines|
    requires forall i :: 0 <= i < |lines| ==> ReplStep(lots[i], lines[i]) == Step(lots[i + 1], rs[i])
    requires forall i :: 0 <= i < |lines| ==> Stringify(rs[i]) == printed[i]
    ensures Session(lots[0], lines) == printed
    decreases |lines|
  {
    if lines != [] {
      var step := ReplStep(lots[0], lines[0]);
      assert step == Step(lots[1], rs[0]);
      forall i | 0 <= i < |lines| - 1
        ensures ReplStep(lots[1..][i], lines[1..][i]) == Step(lots[1..][i + 1], rs[1..][i])
      {
        assert lots[1..][i] == lots[i + 1] && lots[1..][i + 1] == lots[i + 2];
      }
      SessionOfTrace(lots[1..], lines[1..], rs[1..], printed[1..]);
      assert Session(lots[0], lines) == [Stringify(step.out)] + Session(step.lot, lines[1..]);
    }
  }
}
