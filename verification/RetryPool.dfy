/** The SFTP workers (internal/transfer/sftp.go): a weighted semaphore, and one worker a
    file whose retry loop acquires a permit an attempt and releases them all when it returns. */
module RetryPool {
  /** Loop(a): at the top of the retry loop for attempt a, holding the a - 1 permits of the
      earlier attempts. Busy(a): transferring. Returned: its deferred releases have run. */
  datatype Worker = Loop(attempt: nat) | Busy(attempt: nat) | Returned

  datatype Pool = Pool(free: int, workers: seq<Worker>)

  /** One file: who moves, and whether a transfer ends the worker (success or an error) or
      fails its checksum comparison. */
  datatype Move = Move(worker: nat, mismatch: bool)

  function Held(w: Worker): nat {
    match w
    case Loop(a) => if a == 0 then 0 else a - 1
    case Busy(a) => a
    case Returned => 0
  }

  predicate Enabled(p: Pool, i: nat, retries: int) {
    i < |p.workers| &&
    match p.workers[i]
    case Loop(a) => a > retries + 1 || p.free >= 1
    case Busy(_) => true
    case Returned => false
  }

  function Advance(p: Pool, m: Move, retries: int): Pool {
    if m.worker >= |p.workers| then p
    else
      match p.workers[m.worker]
      case Loop(a) =>
        if a > retries + 1 then Pool(p.free + Held(Loop(a)), p.workers[m.worker := Returned])
        else if p.free >= 1 then Pool(p.free - 1, p.workers[m.worker := Busy(a)])
        else p
      case Busy(a) =>
        if m.mismatch then p.(workers := p.workers[m.worker := Loop(a + 1)])
        else Pool(p.free + a, p.workers[m.worker := Returned])
      case Returned => p
  }

  function Initial(permits: nat, files: nat): Pool { Pool(permits, seq(files, _ => Loop(1))) }

  /** A run: every move is one its worker can make. */
  predicate Run(p: Pool, ms: seq<Move>, retries: int)
    decreases |ms|
  {
    ms == [] || (Enabled(p, ms[0].worker, retries) && Run(Advance(p, ms[0], retries), ms[1..], retries))
  }

  function End(p: Pool, ms: seq<Move>, retries: int): Pool
    decreases |ms|
  {
    if ms == [] then p else End(Advance(p, ms[0], retries), ms[1..], retries)
  }

  predicate Halted(p: Pool, retries: int) { forall i | 0 <= i < |p.workers| :: !Enabled(p, i, retries) }

  predicate AllReturned(p: Pool) { forall i | 0 <= i < |p.workers| :: p.workers[i] == Returned }

  function TotalHeld(ws: seq<Worker>): nat {
    if ws == [] then 0 else Held(ws[0]) + TotalHeld(ws[1..])
  }

  lemma {:induction false} TotalUpdate(ws: seq<Worker>, i: nat, w: Worker)
    requires i < |ws|
    ensures TotalHeld(ws[i := w]) == TotalHeld(ws) - Held(ws[i]) + Held(w)
    decreases |ws|
  {
    if i > 0 {
      TotalUpdate(ws[1..], i - 1, w);
      assert ws[i := w][1..] == ws[1..][i - 1 := w];
    } else {
      assert ws[i := w][1..] == ws[1..];
    }
  }

  /** No permit is created or lost, none is negative, and no worker goes beyond its attempts. */
  predicate Conserved(p: Pool, permits: nat, retries: int) {
    && p.free >= 0
    && p.free + TotalHeld(p.workers) == permits
    && forall i | 0 <= i < |p.workers| ::
         match p.workers[i]
         case Loop(a) => a == 1 || 1 <= a <= retries + 2
         case Busy(a) => 1 <= a <= retries + 1
         case Returned => true
  }

  lemma {:induction false} InitiallyNoneHeld(files: nat)
    ensures TotalHeld(Initial(0, files).workers) == 0
  {
    if files > 0 {
      assert Initial(0, files).workers[1..] == Initial(0, files - 1).workers;
      InitiallyNoneHeld(files - 1);
    }
  }

  lemma ConservedStep(p: Pool, m: Move, permits: nat, retries: int)
    requires Conserved(p, permits, retries)
    ensures Conserved(Advance(p, m, retries), permits, retries)
  {
    if m.worker < |p.workers| {
      TotalUpdate(p.workers, m.worker, Advance(p, m, retries).workers[m.worker]);
    }
  }

  lemma {:induction false} ConservedRun(p: Pool, ms: seq<Move>, permits: nat, retries: int)
    requires Conserved(p, permits, retries)
    ensures Conserved(End(p, ms, retries), permits, retries)
    ensures |End(p, ms, retries).workers| == |p.workers|
    decreases |ms|
  {
    if ms != [] {
      ConservedStep(p, ms[0], permits, retries);
      ConservedRun(Advance(p, ms[0], retries), ms[1..], permits, retries);
    }
  }

  function Transfers(ws: seq<Worker>): nat {
    if ws == [] then 0 else (if ws[0].Busy? then 1 else 0) + Transfers(ws[1..])
  }

  lemma {:induction false} BusyHoldPermits(ws: seq<Worker>)
    requires forall i | 0 <= i < |ws| :: ws[i].Busy? ==> ws[i].attempt >= 1
    ensures Transfers(ws) <= TotalHeld(ws)
  {
    if ws != [] {
      BusyHoldPermits(ws[1..]);
    }
  }

  /** At any time the permits in use and the free ones make up the semaphore, and at most that
      many files are being transferred. */
  lemma PermitsBoundTransfers(permits: nat, files: nat, retries: int, ms: seq<Move>)
    ensures var p := End(Initial(permits, files), ms, retries);
            p.free >= 0 && p.free + TotalHeld(p.workers) == permits && Transfers(p.workers) <= permits
  {
    InitiallyNoneHeld(files);
    assert Initial(permits, files).workers == Initial(0, files).workers;
    ConservedRun(Initial(permits, files), ms, permits, retries);
    BusyHoldPermits(End(Initial(permits, files), ms, retries).workers);
  }

  lemma {:induction false} HeldAtMost(ws: seq<Worker>, most: nat)
    requires forall i | 0 <= i < |ws| :: Held(ws[i]) <= most
    ensures TotalHeld(ws) <= |ws| * most
  {
    if ws != [] {
      HeldAtMost(ws[1..], most);
      assert |ws| * most == most + |ws[1..]| * most;
    }
  }

  lemma {:induction false} HeldAtLeast(ws: seq<Worker>, least: nat)
    requires forall i | 0 <= i < |ws| :: Held(ws[i]) >= least
    ensures TotalHeld(ws) >= |ws| * least
  {
    if ws != [] {
      HeldAtLeast(ws[1..], least);
      assert |ws| * least == least + |ws[1..]| * least;
    }
  }

  /** Blocked workers hold at most `retries` permits each. */
  lemma HaltedIsStarved(p: Pool, permits: nat, retries: int)
    requires Conserved(p, permits, retries) && Halted(p, retries) && !AllReturned(p)
    ensures permits <= |p.workers| * retries
  {
    var i :| 0 <= i < |p.workers| && p.workers[i] != Returned;
    assert !Enabled(p, i, retries);
    assert retries >= 0;
    forall j | 0 <= j < |p.workers| ensures Held(p.workers[j]) <= retries {
      assert !Enabled(p, j, retries);
    }
    HeldAtMost(p.workers, retries);
  }

  predicate AllLoop(p: Pool, retries: int) {
    forall i | 0 <= i < |p.workers| :: p.workers[i].Loop? && 1 <= p.workers[i].attempt <= retries + 1
  }

  lemma {:induction false} SomebodyCan(p: Pool, permits: nat, retries: int) returns (i: nat)
    requires Conserved(p, permits, retries) && AllLoop(p, retries) && retries >= 0
    requires permits <= |p.workers| * retries && p.free > 0
    ensures i < |p.workers| && p.workers[i].attempt <= retries
  {
    if forall i | 0 <= i < |p.workers| :: p.workers[i].attempt == retries + 1 {
      HeldAtLeast(p.workers, retries);
      assert false;
    }
    i :| 0 <= i < |p.workers| && p.workers[i].attempt <= retries;
  }

  /** A worker takes a permit, and keeps it for its next attempt. */
  lemma {:induction false} TakesOne(p: Pool, i: nat, permits: nat, retries: int)
    requires Conserved(p, permits, retries) && AllLoop(p, retries) && p.free > 0
    requires i < |p.workers| && p.workers[i].attempt <= retries
    ensures var m := Move(i, true);
            var p1 := Advance(p, m, retries);
            var p2 := Advance(p1, m, retries);
            && Enabled(p, i, retries) && Enabled(p1, i, retries)
            && Conserved(p2, permits, retries) && AllLoop(p2, retries)
            && |p2.workers| == |p.workers| && p2.free == p.free - 1
  {
    var m := Move(i, true);
    ConservedStep(p, m, permits, retries);
    ConservedStep(Advance(p, m, retries), m, permits, retries);
  }

  /** Workers that all fail their comparisons can be scheduled so that every permit is held by
      workers that want another one. */
  lemma {:induction false} Starve(p: Pool, permits: nat, retries: int) returns (ms: seq<Move>)
    requires Conserved(p, permits, retries) && |p.workers| >= 1 && retries >= 0
    requires AllLoop(p, retries) && permits <= |p.workers| * retries
    ensures Run(p, ms, retries) && Halted(End(p, ms, retries), retries) && !AllReturned(End(p, ms, retries))
    decreases p.free
  {
    if p.free == 0 {
      ms := [];
      assert p.workers[0] != Returned;
    } else {
      var i := SomebodyCan(p, permits, retries);
      var m := Move(i, true);
      TakesOne(p, i, permits, retries);
      var rest := Starve(Advance(Advance(p, m, retries), m, retries), permits, retries);
      ms := [m, m] + rest;
      assert ms[1..] == [m] + rest && ms[1..][1..] == rest;
    }
  }

  /** wg.Wait returns: no run can stop before every worker has returned. */
  ghost predicate AlwaysCompletes(permits: nat, files: nat, retries: int) {
    forall ms :: Run(Initial(permits, files), ms, retries) && Halted(End(Initial(permits, files), ms, retries), retries)
                 ==> AllReturned(End(Initial(permits, files), ms, retries))
  }

  lemma ProductSign(files: nat, retries: int)
    requires files >= 1
    ensures retries < 0 ==> files * retries < 0
  {
  }

  /** The exact condition: --parallel must exceed the number of files times --retries. */
  lemma CompletesExactly(permits: nat, files: nat, retries: int)
    requires files >= 1
    ensures AlwaysCompletes(permits, files, retries) <==> permits > files * retries
  {
    var p := Initial(permits, files);
    InitiallyNoneHeld(files);
    assert p.workers == Initial(0, files).workers;
    if permits > files * retries {
      forall ms | Run(p, ms, retries) && Halted(End(p, ms, retries), retries)
        ensures AllReturned(End(p, ms, retries))
      {
        ConservedRun(p, ms, permits, retries);
        if !AllReturned(End(p, ms, retries)) {
          HaltedIsStarved(End(p, ms, retries), permits, retries);
        }
      }
    } else {
      ProductSign(files, retries);
      var ms := Starve(p, permits, retries);
    }
  }

  /** The default of five permits and three retries can hang on two files. */
  lemma DefaultsCanHang()
    ensures !AlwaysCompletes(5, 2, 3)
    ensures AlwaysCompletes(5, 1, 3)
  {
    CompletesExactly(5, 2, 3);
    CompletesExactly(5, 1, 3);
  }

  function Left(w: Worker, retries: int): nat {
    match w
    case Loop(a) => if a > retries + 1 then 1 else 2 * (retries + 1 - a) + 3
    case Busy(a) => if a > retries + 1 then 2 else 2 * (retries + 1 - a) + 2
    case Returned => 0
  }

  function TotalLeft(ws: seq<Worker>, retries: int): nat {
    if ws == [] then 0 else Left(ws[0], retries) + TotalLeft(ws[1..], retries)
  }

  lemma {:induction false} LeftUpdate(ws: seq<Worker>, i: nat, w: Worker, retries: int)
    requires i < |ws|
    ensures TotalLeft(ws[i := w], retries) == TotalLeft(ws, retries) - Left(ws[i], retries) + Left(w, retries)
    decreases |ws|
  {
    if i > 0 {
      LeftUpdate(ws[1..], i - 1, w, retries);
      assert ws[i := w][1..] == ws[1..][i - 1 := w];
    } else {
      assert ws[i := w][1..] == ws[1..];
    }
  }

  /** No run is longer than the moves its workers have left, so a run that cannot stop early
      does complete. */
  lemma {:induction false} RunsAreBounded(p: Pool, ms: seq<Move>, retries: int)
    requires Run(p, ms, retries)
    ensures |ms| + TotalLeft(End(p, ms, retries).workers, retries) <= TotalLeft(p.workers, retries)
    decreases |ms|
  {
    if ms != [] {
      LeftUpdate(p.workers, ms[0].worker, Advance(p, ms[0], retries).workers[ms[0].worker], retries);
      RunsAreBounded(Advance(p, ms[0], retries), ms[1..], retries);
    }
  }

  /** How often this worker starts a transfer in the run. */
  function Starts(p: Pool, ms: seq<Move>, retries: int, i: nat): nat
    decreases |ms|
  {
    if ms == [] then 0
    else
      var q := Advance(p, ms[0], retries);
      (if StartsNow(p, q, i) then 1 else 0) + Starts(q, ms[1..], retries, i)
  }

  predicate StartsNow(p: Pool, q: Pool, i: nat) {
    i < |p.workers| && i < |q.workers| && p.workers[i].Loop? && q.workers[i].Busy?
  }

  /** How often its comparison fails. */
  function Mismatches(p: Pool, ms: seq<Move>, retries: int, i: nat): nat
    decreases |ms|
  {
    if ms == [] then 0
    else (if MismatchesNow(p, ms[0], i) then 1 else 0) + Mismatches(Advance(p, ms[0], retries), ms[1..], retries, i)
  }

  predicate MismatchesNow(p: Pool, m: Move, i: nat) {
    i < |p.workers| && m.worker == i && p.workers[i].Busy? && m.mismatch
  }

  /** What its program counter says about the past. */
  predicate Tallies(w: Worker, starts: int, mismatches: int, retries: int) {
    match w
    case Loop(a) => starts == mismatches == a - 1
    case Busy(a) => starts == a && mismatches == a - 1
    case Returned => mismatches <= starts <= mismatches + 1 && (starts <= retries + 1 || starts == 0)
  }

  lemma {:induction false} TalliesRun(p: Pool, ms: seq<Move>, permits: nat, retries: int, i: nat, starts: nat,
                                      mismatches: nat)
    requires Conserved(p, permits, retries) && Run(p, ms, retries) && i < |p.workers|
    requires Tallies(p.workers[i], starts, mismatches, retries)
    ensures i < |End(p, ms, retries).workers|
    ensures Tallies(End(p, ms, retries).workers[i], starts + Starts(p, ms, retries, i),
                    mismatches + Mismatches(p, ms, retries, i), retries)
    decreases |ms|
  {
    if ms != [] {
      var q := Advance(p, ms[0], retries);
      ConservedStep(p, ms[0], permits, retries);
      TalliesRun(q, ms[1..], permits, retries, i, starts + (if StartsNow(p, q, i) then 1 else 0),
                 mismatches + (if MismatchesNow(p, ms[0], i) then 1 else 0));
    }
  }

  /** In every run a worker starts at most one transfer more than it has had failed comparisons, and at
      most --retries + 1. */
  lemma {:induction false} RetriesOnlyMismatches(permits: nat, files: nat, retries: int, ms: seq<Move>, i: nat)
    requires Run(Initial(permits, files), ms, retries) && i < files
    ensures var p := Initial(permits, files);
            && Starts(p, ms, retries, i) <= Mismatches(p, ms, retries, i) + 1
            && (Starts(p, ms, retries, i) > 0 ==> Starts(p, ms, retries, i) <= retries + 1)
  {
    var p := Initial(permits, files);
    InitiallyNoneHeld(files);
    assert p.workers == Initial(0, files).workers;
    TalliesRun(p, ms, permits, retries, i, 0, 0);
    ConservedRun(p, ms, permits, retries);
  }

  lemma {:induction false} ReturnedStays(p: Pool, ms: seq<Move>, retries: int, i: nat)
    requires i < |p.workers| && p.workers[i] == Returned
    ensures var q := End(p, ms, retries);
            i < |q.workers| && q.workers[i] == Returned && Starts(p, ms, retries, i) == 0
    decreases |ms|
  {
    if ms != [] {
      ReturnedStays(Advance(p, ms[0], retries), ms[1..], retries, i);
    }
  }

  /** A transfer that is not followed by a failed comparison is its worker's last: all its permits are
      free again, it holds none from then on, and it starts no other transfer. */
  lemma {:induction false} SuccessIsFinal(p: Pool, m: Move, ms: seq<Move>, retries: int)
    requires m.worker < |p.workers| && p.workers[m.worker].Busy? && !m.mismatch
    ensures var q := Advance(p, m, retries);
            && q.free == p.free + Held(p.workers[m.worker])
            && m.worker < |End(q, ms, retries).workers| && End(q, ms, retries).workers[m.worker] == Returned
            && Starts(q, ms, retries, m.worker) == 0
  {
    ReturnedStays(Advance(p, m, retries), ms, retries, m.worker);
  }

  predicate NoMismatch(ms: seq<Move>) { forall i | 0 <= i < |ms| :: !ms[i].mismatch }

  /** Nobody is beyond the first attempt. */
  predicate FirstAttempts(p: Pool) {
    forall i | 0 <= i < |p.workers| :: p.workers[i] in {Loop(1), Busy(1), Returned}
  }

  lemma {:induction false} FirstAttemptsRun(p: Pool, ms: seq<Move>, retries: int)
    requires FirstAttempts(p) && NoMismatch(ms)
    ensures FirstAttempts(End(p, ms, retries))
    decreases |ms|
  {
    if ms != [] {
      forall i | 0 <= i < |ms| - 1 ensures !ms[1..][i].mismatch {
        assert ms[1..][i] == ms[i + 1];
      }
      FirstAttemptsRun(Advance(p, ms[0], retries), ms[1..], retries);
    }
  }

  lemma {:induction false} NobodyHolds(ws: seq<Worker>)
    requires forall i | 0 <= i < |ws| :: Held(ws[i]) == 0
    ensures TotalHeld(ws) == 0
  {
    if ws != [] {
      NobodyHolds(ws[1..]);
    }
  }

  /** If no comparison fails, one permit is enough: no run stops before every worker has returned. */
  lemma {:induction false} SuccessNeverHangs(permits: nat, files: nat, retries: int, ms: seq<Move>)
    requires permits >= 1 && NoMismatch(ms)
    requires Run(Initial(permits, files), ms, retries) && Halted(End(Initial(permits, files), ms, retries), retries)
    ensures AllReturned(End(Initial(permits, files), ms, retries))
  {
    var p := Initial(permits, files);
    InitiallyNoneHeld(files);
    assert p.workers == Initial(0, files).workers;
    ConservedRun(p, ms, permits, retries);
    FirstAttemptsRun(p, ms, retries);
    var q := End(p, ms, retries);
    forall i | 0 <= i < |q.workers| ensures Held(q.workers[i]) == 0 {
      assert !Enabled(q, i, retries);
    }
    NobodyHolds(q.workers);
    forall i | 0 <= i < |q.workers| ensures q.workers[i] == Returned {
      assert !Enabled(q, i, retries);
    }
  }

  lemma {:induction false} RunMore(p: Pool, ms: seq<Move>, more: seq<Move>, retries: int)
    requires Run(p, ms, retries) && Run(End(p, ms, retries), more, retries)
    ensures Run(p, ms + more, retries) && End(p, ms + more, retries) == End(End(p, ms, retries), more, retries)
    decreases |ms|
  {
    if ms == [] {
      assert ms + more == more;
    } else {
      assert (ms + more)[1..] == ms[1..] + more;
      RunMore(Advance(p, ms[0], retries), ms[1..], more, retries);
    }
  }

  lemma {:induction false} OneMove(p: Pool, m: Move, retries: int)
    requires Enabled(p, m.worker, retries)
    ensures Run(p, [m], retries) && End(p, [m], retries) == Advance(p, m, retries)
  {
    assert [m][1..] == [];
    assert End(Advance(p, m, retries), [], retries) == Advance(p, m, retries);
  }

  /** The moves of the worker follow the ends of its attempts. */
  predicate Follows(ms: seq<Move>, ends: nat -> bool) {
    forall k | 0 <= k < |ms| && k % 2 == 1 :: ms[k].mismatch == !ends((k + 1) / 2)
  }

  /** The retry loop of one worker that has the semaphore to itself. What it does is a run of the pool,
      and it gets stuck exactly when its own permits run out before an attempt ends it. */
  method RetryAlone(permits: nat, retries: int, ends: nat -> bool)
    returns (free: nat, stuck: bool, ghost ms: seq<Move>)
    ensures stuck <==> permits <= retries && forall a | 1 <= a <= permits :: !ends(a)
    ensures free == if stuck then 0 else permits
    ensures var p := Initial(permits, 1);
            && Run(p, ms, retries) && Follows(ms, ends) && Halted(End(p, ms, retries), retries)
            && End(p, ms, retries).free == free && (AllReturned(End(p, ms, retries)) <==> !stuck)
  {
    free, stuck, ms := permits, false, [];
    var attempt, held := 1, 0;
    ghost var p := Initial(permits, 1);
    assert p.workers == [Loop(1)];
    while attempt <= retries + 1
      invariant held == attempt - 1 && held + free == permits
      invariant attempt == 1 || attempt <= retries + 2
      invariant forall a | 1 <= a < attempt :: !ends(a)
      invariant |ms| == 2 * (attempt - 1) && Follows(ms, ends)
      invariant Run(p, ms, retries) && End(p, ms, retries) == Pool(free, [Loop(attempt)])
    {
      if free == 0 {
        stuck := true;
        return;
      }
      free, held := free - 1, held + 1;
      ghost var take, go := Move(0, false), Move(0, !ends(attempt));
      ms := Do(p, ms, take, retries);
      ms := Do(p, ms, go, retries);
      if ends(attempt) {
        free := free + held;
        return;
      }
      attempt := attempt + 1;
    }
    ms := Do(p, ms, Move(0, false), retries);
    free := free + held;
  }

  lemma {:induction false} Do(p: Pool, ms: seq<Move>, m: Move, retries: int) returns (more: seq<Move>)
    requires Run(p, ms, retries) && Enabled(End(p, ms, retries), m.worker, retries)
    ensures more == ms + [m] && Run(p, more, retries)
    ensures End(p, more, retries) == Advance(End(p, ms, retries), m, retries)
  {
    more := ms + [m];
    OneMove(End(p, ms, retries), m, retries);
    RunMore(p, ms, [m], retries);
  }
}
