/**
 The lease and barrier protocol between readers, transcript scanners and the background consolidator
 (`session_capture.py`, `read_lease.py`, `loopback.py`): taking and leaving a lock, listing the lease files, reading
 one, unlinking one, putting one in place, sending a request and answering it are steps of their own, any two
 processes interleave between any two of them, any process may die, and time passes.
 */
module Leases {
  import opened Wrappers

  type Id = int

  const RECALL_LEASE_NS: nat := 120_000_000_000

  // ----- one lease directory with the lock that guards what the leases forbid -----

  /**
   Where the process inside the lock is: the recall barrier with a scanner, or the daemon lock with the
   consolidator. `Checking` is the loop over the lease files: the clock value it took first,
     the files listed but not yet
   read, whether a live one was seen, and an expired one about to be unlinked.
   */
  datatype Phase =
    | Unheld
    | Entered(forced: bool)
    | Checking(at: nat, listing: set<Id>, live: bool, doomed: Option<Id>)
    | Acting(unchecked: bool)

  /** Lease files by identifier, with their expiry. */
  datatype Gate = Gate(leases: map<Id, nat>, phase: Phase)

  datatype Move = Enter(force: bool) | Force | StartCheck | Visit(file: Id) | Unlink | Finish | Act | Leave | Die

  ghost predicate Moves(g: Gate, now: nat, move: Move, after: Gate) {
    match move
    case Enter(forced) => g.phase.Unheld? && after == g.(phase := Entered(forced))
    case Force => g.phase == Entered(true) && after == g.(phase := Acting(true))
    case StartCheck => g.phase == Entered(false) && after == g.(phase := Checking(now, g.leases.Keys, false, None))
    case Visit(file) =>
      && g.phase.Checking? && g.phase.doomed == None && file in g.phase.listing
      && after == g.(phase := Visited(g, file))
    case Unlink =>
      && g.phase.Checking? && g.phase.doomed.Some?
      && after == Gate(g.leases - {g.phase.doomed.value}, g.phase.(doomed := None))
    case Finish =>
      && g.phase.Checking? && g.phase.doomed == None && g.phase.listing == {}
      && after == g.(phase := if g.phase.live then Unheld else Acting(false))
    case Act => g.phase.Acting? && after == g
    case Leave => g.phase.Acting? && after == g.(phase := Unheld)
    case Die => after == g.(phase := Unheld)
  }

  /** One file of the loop: live, expired, or gone since the directory was listed. */
  ghost function Visited(g: Gate, file: Id): Phase
    requires g.phase.Checking?
  {
    var rest := g.phase.(listing := g.phase.listing - {file});
    if file !in g.leases then rest
    else if g.leases[file] > g.phase.at then rest.(live := true)
    else rest.(doomed := Some(file))
  }

  // ----- the lease check outside any lock -----

  /**
   Before it prepares anything the consolidator looks at the leases without the daemon lock, and discards expired
   ones.
   */
  datatype Sweep = Sweep(at: nat, listing: set<Id>, doomed: Option<Id>)

  ghost function Swept(g: Gate, sweep: Sweep, file: Id): Sweep {
    var rest := sweep.(listing := sweep.listing - {file});
    if file in g.leases && g.leases[file] <= sweep.at then rest.(doomed := Some(file)) else rest
  }

  // ----- readers -----

  /**
   `begin_recall` writes the capture lease, then the engine lease, then waits for the barrier; the status
   reply is produced under the daemon lock. `Over` is a reader that ended, failed or let a lease expire.
   */
  datatype Reader = Begun | Armed | Passed | Answered | Over

  /**
   `request` is what the scanner inside the barrier has asked the daemon to ingest and not yet had answered;
   `orphans` are such requests whose scanner died. Each says whether its scan was forced. `renewing` and
   `engineRenewing` are leases that were found in place and will be written anew.
   */
  datatype State = State(now: nat, capture: Gate, engine: Gate, sweep: Option<Sweep>, readers: map<Id, Reader>,
      request: Option<bool>, orphans: multiset<bool>, renewing: set<Id>, engineRenewing: set<Id>)

  datatype Step =
    | Scanner(move: Move)
    | Send
    | Ingest
    | IngestOrphan(unchecked: bool)
    | Consolidator(move: Move)
    | StartSweep
    | SweepVisit(file: Id)
    | SweepUnlink
    | EndSweep
    | BeginRecall(id: Id, at: nat)
    | BeginEngineRecall(id: Id, at: nat)
    | PassBarrier(id: Id)
    | Status(id: Id)
    | FindRecall(id: Id)
    | RenewRecall(id: Id, at: nat)
    | FindEngineRecall(id: Id)
    | RenewEngineRecall(id: Id, at: nat)
    | EndRecall(id: Id)
    | EndEngineRecall(id: Id)
    | Tick(time: nat)

  /** A lease put in place, its expiry counted from the clock value its writer took some time before. */
  ghost function Written(g: Gate, id: Id, at: nat): Gate { g.(leases := g.leases[id := at + RECALL_LEASE_NS]) }

  ghost predicate InTime(s: State, at: nat) { s.now < at + RECALL_LEASE_NS }

  ghost predicate At(s: State, id: Id, r: Reader) { id in s.readers && s.readers[id] == r }

  ghost function Now(s: State, id: Id, r: Reader): State { s.(readers := s.readers[id := r]) }

  /** A lease that has expired ends its reader's guarantee for good. */
  ghost function Lapsed(s: State, id: Id, time: nat): Reader
    requires id in s.readers
  {
    if (id in s.capture.leases && s.capture.leases[id] <= time)
       || (id in s.engine.leases && s.engine.leases[id] <= time)
    then Over else s.readers[id]
  }

  /** A scanner that dies while the daemon still holds its request leaves that request behind. */
  ghost function Orphans(s: State, move: Move): multiset<bool> {
    if move.Die? && s.request.Some? then s.orphans + multiset{s.request.value} else s.orphans
  }

  ghost predicate Next(s: State, step: Step, after: State) {
    match step
    case Scanner(move) =>
      && Moves(s.capture, s.now, move, after.capture) && !move.Act? && (move.Leave? ==> s.request == None)
      && after
         == s.(capture := after.capture, request := if move.Die? then None else s.request, orphans := Orphans(s, move))
    case Send => s.capture.phase.Acting? && s.request == None && after == s.(request := Some(s.capture.phase.unchecked))
    case Ingest => s.request.Some? && s.engine.phase.Unheld? && after == s.(request := None)
    case IngestOrphan(unchecked) =>
      unchecked in s.orphans && s.engine.phase.Unheld? && after == s.(orphans := s.orphans - multiset{unchecked})
    case Consolidator(move) => Moves(s.engine, s.now, move, after.engine) && after == s.(engine := after.engine)
    case StartSweep => s.sweep == None && after == s.(sweep := Some(Sweep(s.now, s.engine.leases.Keys, None)))
    case SweepVisit(file) =>
      && s.sweep.Some? && s.sweep.value.doomed == None && file in s.sweep.value.listing
      && after == s.(sweep := Some(Swept(s.engine, s.sweep.value, file)))
    case SweepUnlink =>
      && s.sweep.Some? && s.sweep.value.doomed.Some?
      && after == s.(engine := s.engine.(leases := s.engine.leases - {s.sweep.value.doomed.value}),
                     sweep := Some(s.sweep.value.(doomed := None)))
    case EndSweep => s.sweep.Some? && after == s.(sweep := None)
    case BeginRecall(id, at) =>
      && id !in s.readers && at <= s.now
      && after == Now(s, id, if InTime(s, at) then Begun else Over).(capture := Written(s.capture, id, at))
    case BeginEngineRecall(id, at) =>
      && At(s, id, Begun) && at <= s.now
      && after == Now(s, id, if InTime(s, at) then Armed else Over).(engine := Written(s.engine, id, at))
    case PassBarrier(id) => At(s, id, Armed) && s.capture.phase.Unheld? && after == Now(s, id, Passed)
    case Status(id) => At(s, id, Passed) && s.engine.phase.Unheld? && after == Now(s, id, Answered)
    case FindRecall(id) => id in s.capture.leases && after == s.(renewing := s.renewing + {id})
    case RenewRecall(id, at) =>
      && id in s.renewing && id in s.readers && at <= s.now
      && after == Now(s, id, if InTime(s, at) then s.readers[id] else Over)
                  .(capture := Written(s.capture, id, at), renewing := s.renewing - {id})
    case FindEngineRecall(id) => id in s.engine.leases && after == s.(engineRenewing := s.engineRenewing + {id})
    case RenewEngineRecall(id, at) =>
      && id in s.engineRenewing && id in s.readers && at <= s.now
      && after == Now(s, id, if InTime(s, at) then s.readers[id] else Over)
                  .(engine := Written(s.engine, id, at), engineRenewing := s.engineRenewing - {id})
    case EndRecall(id) =>
      id in s.readers && after == Now(s, id, Over).(capture := s.capture.(leases := s.capture.leases - {id}))
    case EndEngineRecall(id) =>
      id in s.readers && after == Now(s, id, Over).(engine := s.engine.(leases := s.engine.leases - {id}))
    case Tick(time) =>
      s.now <= time && after == s.(now := time, readers := map id | id in s.readers :: Lapsed(s, id, time))
  }

  ghost predicate Start(s: State) {
    && s.readers == map[] && s.capture == Gate(map[], Unheld) && s.engine == Gate(map[], Unheld) && s.sweep == None
    && s.request == None && s.orphans == multiset{} && s.renewing == s.engineRenewing == {}
  }

  // ----- what every reachable state satisfies -----

  /** A live lease that whoever is inside the lock must still meet, or has met. */
  ghost predicate Seen(g: Gate, id: Id) {
    match g.phase
    case Checking(_, listing, live, doomed) => live || id in listing
    case Acting(forced) => forced
    case _ => true
  }

  ghost predicate Live(g: Gate, now: nat, id: Id) {
    id in g.leases && now < g.leases[id] && (g.phase.Checking? ==> g.phase.doomed != Some(id))
  }

  /** The gate knows nothing of this identifier. */
  ghost predicate Unknown(g: Gate, id: Id) {
    id !in g.leases && (g.phase.Checking? ==> id !in g.phase.listing && g.phase.doomed != Some(id))
  }

  /** The sweep is not about to unlink this lease. */
  ghost predicate Spared(s: State, id: Id) { s.sweep.Some? ==> s.sweep.value.doomed != Some(id) }

  ghost predicate Sound(s: State, id: Id) {
    if id !in s.readers then
      Unknown(s.capture, id) && Unknown(s.engine, id) && Spared(s, id) && id !in s.renewing && id !in s.engineRenewing
    else
      var r := s.readers[id];
      && (r.Begun? ==> Unknown(s.engine, id) && Spared(s, id) && id !in s.engineRenewing)
      && (!r.Over? ==> Live(s.capture, s.now, id))
      && (r.Armed? || r.Passed? || r.Answered? ==> Live(s.engine, s.now, id) && Spared(s, id))
      && (r.Passed? || r.Answered? ==> Seen(s.capture, id))
      && (r.Answered? ==> Seen(s.engine, id))
  }

  /** Only a scanner that acts has a request pending, of its own kind. */
  ghost predicate RequestOk(s: State) { s.request.Some? ==> s.capture.phase == Acting(s.request.value) }

  ghost predicate ClockOk(s: State) {
    && (s.capture.phase.Checking? ==> s.capture.phase.at <= s.now)
    && (s.engine.phase.Checking? ==> s.engine.phase.at <= s.now)
    && (s.sweep.Some? ==> s.sweep.value.at <= s.now)
  }

  ghost predicate Inv(s: State) { ClockOk(s) && RequestOk(s) && forall id :: Sound(s, id) }

  /** A move inside the lock neither loses a live lease nor gets past it. */
  lemma MoveKeeps(g: Gate, now: nat, move: Move, after: Gate, id: Id)
    requires Moves(g, now, move, after) && (g.phase.Checking? ==> g.phase.at <= now)
    ensures after.phase.Checking? ==> after.phase.at <= now
    ensures Unknown(g, id) ==> Unknown(after, id)
    ensures Live(g, now, id) ==> Live(after, now, id)
    ensures Live(g, now, id) && Seen(g, id) ==> Seen(after, id)
  {
  }

  lemma StepKeeps(s: State, step: Step, after: State, id: Id)
    requires Inv(s) && Next(s, step, after)
    ensures Sound(after, id)
  {
    hide Inv, Next, Sound;
    match step
    case Scanner(_) => ScannerKeeps(s, step, after, id);
    case Consolidator(_) => ConsolidatorKeeps(s, step, after, id);
    case StartSweep => SweepKeeps(s, step, after, id);
    case SweepVisit(_) => SweepKeeps(s, step, after, id);
    case SweepUnlink => SweepKeeps(s, step, after, id);
    case EndSweep => SweepKeeps(s, step, after, id);
    case Tick(_) => TickKeeps(s, step, after, id);
    case BeginRecall(_, _) => BeginKeeps(s, step, after, id);
    case BeginEngineRecall(_, _) => BeginKeeps(s, step, after, id);
    case RenewRecall(_, _) => RenewKeeps(s, step, after, id);
    case RenewEngineRecall(_, _) => RenewKeeps(s, step, after, id);
    case EndRecall(_) => EndKeeps(s, step, after, id);
    case EndEngineRecall(_) => EndKeeps(s, step, after, id);
    case _ => ReaderKeeps(s, step, after, id);
  }

  lemma ScannerKeeps(s: State, step: Step, after: State, id: Id)
    requires Inv(s) && Next(s, step, after) && step.Scanner?
    ensures Sound(after, id)
  {
    hide Moves, Unknown, Live, Seen;
    assert Sound(s, id);
    MoveKeeps(s.capture, s.now, step.move, after.capture, id);
  }

  lemma ConsolidatorKeeps(s: State, step: Step, after: State, id: Id)
    requires Inv(s) && Next(s, step, after) && step.Consolidator?
    ensures Sound(after, id)
  {
    hide Moves, Unknown, Live, Seen;
    assert Sound(s, id);
    MoveKeeps(s.engine, s.now, step.move, after.engine, id);
  }

  lemma SweepKeeps(s: State, step: Step, after: State, id: Id)
    requires Inv(s) && Next(s, step, after)
    requires step.StartSweep? || step.SweepVisit? || step.SweepUnlink? || step.EndSweep?
    ensures Sound(after, id)
  {
    assert Sound(s, id);
  }

  lemma TickKeeps(s: State, step: Step, after: State, id: Id)
    requires Inv(s) && Next(s, step, after) && step.Tick?
    ensures Sound(after, id)
  {
    assert Sound(s, id);
  }

  lemma BeginKeeps(s: State, step: Step, after: State, id: Id)
    requires Inv(s) && Next(s, step, after) && (step.BeginRecall? || step.BeginEngineRecall?)
    ensures Sound(after, id)
  {
    assert Sound(s, id);
  }

  lemma RenewKeeps(s: State, step: Step, after: State, id: Id)
    requires Inv(s) && Next(s, step, after) && (step.RenewRecall? || step.RenewEngineRecall?)
    ensures Sound(after, id)
  {
    assert Sound(s, id);
  }

  lemma EndKeeps(s: State, step: Step, after: State, id: Id)
    requires Inv(s) && Next(s, step, after) && (step.EndRecall? || step.EndEngineRecall?)
    ensures Sound(after, id)
  {
    assert Sound(s, id);
  }

  /** The steps that change no lease and no gate but a reader, a request or a renewal. */
  lemma ReaderKeeps(s: State, step: Step, after: State, id: Id)
    requires Inv(s) && Next(s, step, after)
    requires step.Send? || step.Ingest? || step.IngestOrphan? || step.PassBarrier? || step.Status?
             || step.FindRecall? || step.FindEngineRecall?
    ensures Sound(after, id)
  {
    assert Sound(s, id);
  }

  lemma StepIsInvariant(s: State, step: Step, after: State)
    requires Inv(s) && Next(s, step, after)
    ensures Inv(after)
  {
    forall id ensures Sound(after, id) { StepKeeps(s, step, after, id); }
    if step.Scanner? { MoveKeeps(s.capture, s.now, step.move, after.capture, 0); }
    if step.Consolidator? { MoveKeeps(s.engine, s.now, step.move, after.engine, 0); }
  }

  // ----- the pinned snapshot -----

  /** The daemon ingests for a transcript scan that was not forced, or a background consolidation commits. */
  ghost predicate Disturbs(s: State, step: Step) {
    match step
    case Ingest => s.request == Some(false)
    case IngestOrphan(unchecked) => !unchecked
    case Consolidator(move) => move.Act? && s.engine.phase == Acting(false)
    case _ => false
  }

  ghost predicate IsRun(states: seq<State>, steps: seq<Step>) {
    && |states| == |steps| + 1 && Start(states[0])
    && forall k :: 0 <= k < |steps| ==> Next(states[k], steps[k], states[k + 1])
  }

  lemma {:induction false} RunIsSound(states: seq<State>, steps: seq<Step>, k: nat)
    requires IsRun(states, steps) && k < |states|
    ensures Inv(states[k])
  {
    if k > 0 {
      RunIsSound(states, steps, k - 1);
      StepIsInvariant(states[k - 1], steps[k - 1], states[k]);
    }
  }

  /** Does this step end or fail the reader's recall, or leave one of its leases expired? */
  ghost predicate Releases(s: State, step: Step, id: Id) {
    match step
    case EndRecall(x) => x == id
    case EndEngineRecall(x) => x == id
    case RenewRecall(x, at) => x == id && !InTime(s, at)
    case RenewEngineRecall(x, at) => x == id && !InTime(s, at)
    case Tick(time) =>
      || (id in s.capture.leases && s.capture.leases[id] <= time)
      || (id in s.engine.leases && s.engine.leases[id] <= time)
    case _ => false
  }

  lemma StillAnswered(s: State, step: Step, after: State, id: Id)
    requires Inv(s) && Next(s, step, after) && At(s, id, Answered) && false !in s.orphans && !Releases(s, step, id)
    ensures At(after, id, Answered) && false !in after.orphans
  {
    assert Sound(s, id);
  }

  lemma JustAnswered(s: State, after: State, id: Id)
    requires Next(s, Status(id), after) && false !in s.orphans
    ensures At(after, id, Answered) && false !in after.orphans
  {
  }

  /** A status reply that no orphaned unforced request precedes stays pinned. */
  lemma {:induction false} StaysAnswered(states: seq<State>, steps: seq<Step>, i: nat, k: nat, id: Id)
    requires IsRun(states, steps) && i < k < |states| && steps[i] == Status(id) && false !in states[i].orphans
    requires forall j :: i < j < k ==> !Releases(states[j], steps[j], id)
    ensures At(states[k], id, Answered) && false !in states[k].orphans
    decreases k
  {
    hide Next, Releases, Inv;
    assert Next(states[k - 1], steps[k - 1], states[k]);
    if i + 1 < k {
      StaysAnswered(states, steps, i, k - 1, id);
      assert !Releases(states[k - 1], steps[k - 1], id);
      RunIsSound(states, steps, k - 1);
      StillAnswered(states[k - 1], steps[k - 1], states[k], id);
    } else {
      JustAnswered(states[i], states[k], id);
    }
  }

  /**
   In every run, from the step that answers a leased status request until that recall ends or a lease of it
   expires, no unforced scan admits anything and no background consolidation commits, provided no scanner died with
   an unforced request still in the daemon's hands.
   */
  lemma SnapshotIsPinned(states: seq<State>, steps: seq<Step>, i: nat, k: nat, id: Id)
    requires IsRun(states, steps) && i < k < |steps| && steps[i] == Status(id) && false !in states[i].orphans
    requires forall j :: i < j < k ==> !Releases(states[j], steps[j], id)
    ensures !Disturbs(states[k], steps[k])
  {
    StaysAnswered(states, steps, i, k, id);
    RunIsSound(states, steps, k);
    assert Sound(states[k], id);
    assert Next(states[k], steps[k], states[k + 1]);
  }

  /** That condition is exact: an orphaned request may be ingested right after the reply. */
  lemma OrphanUnpins(states: seq<State>, steps: seq<Step>, i: nat, id: Id) returns (after: State)
    requires IsRun(states, steps) && i < |steps| && steps[i] == Status(id) && false in states[i].orphans
    ensures Next(states[i + 1], IngestOrphan(false), after) && Disturbs(states[i + 1], IngestOrphan(false))
    ensures At(after, id, Answered)
  {
    assert Next(states[i], steps[i], states[i + 1]);
    after := states[i + 1].(orphans := states[i + 1].orphans - multiset{false});
  }

  /**
   And such an orphan can be there: a scanner sends its request and is killed, a recall begins, both its leases are
   in place, it passes the barrier and is answered, and then the request that is still in the daemon's hands comes in.
   */
  lemma OrphanHappens(s: State) returns (states: seq<State>, steps: seq<Step>)
    requires Start(s)
    ensures IsRun(states, steps) && states[0] == s && |steps| == 10
    ensures steps[8] == Status(1) && false in states[8].orphans
    ensures steps[9] == IngestOrphan(false) && Disturbs(states[9], steps[9]) && At(states[10], 1, Answered)
  {
    hide Next, Moves, Start, At, Disturbs;
    var s1 := s.(capture := Gate(map[], Entered(false)));
    var s2 := s.(capture := Gate(map[], Checking(s.now, {}, false, None)));
    var s3 := s.(capture := Gate(map[], Acting(false)));
    var s4 := s3.(request := Some(false));
    var s5 := s.(orphans := multiset{false});
    var s6 := Now(s5, 1, Begun).(capture := Written(s5.capture, 1, s.now));
    var s7 := Now(s6, 1, Armed).(engine := Written(s6.engine, 1, s.now));
    var s8 := Now(s7, 1, Passed);
    var s9 := Now(s8, 1, Answered);
    var s10 := s9.(orphans := s9.orphans - multiset{false});
    steps := [Scanner(Enter(false)), Scanner(StartCheck), Scanner(Finish), Send, Scanner(Die), BeginRecall(1, s.now),
              BeginEngineRecall(1, s.now), PassBarrier(1), Status(1), IngestOrphan(false)];
    states := [s, s1, s2, s3, s4, s5, s6, s7, s8, s9, s10];
    RequestOutlivesScanner(s, s1, s2, s3, s4, s5);
    RecallBegins(s, s5, s6, s7);
    AnsweredBefore(s7, s8, s9, s10);
  }

  /** The first half of that run. */
  lemma RequestOutlivesScanner(s: State, s1: State, s2: State, s3: State, s4: State, s5: State)
    requires Start(s) && s1 == s.(capture := Gate(map[], Entered(false)))
    requires s2 == s.(capture := Gate(map[], Checking(s.now, {}, false, None)))
    requires s3 == s.(capture := Gate(map[], Acting(false))) && s4 == s3.(request := Some(false))
             && s5 == s.(orphans := multiset{false})
    ensures Next(s, Scanner(Enter(false)), s1) && Next(s1, Scanner(StartCheck), s2) && Next(s2, Scanner(Finish), s3)
    ensures Next(s3, Send, s4) && Next(s4, Scanner(Die), s5)
  {
    assert s.capture.leases.Keys == {};
  }

  /** The second half: the recall begins in both gates. */
  lemma RecallBegins(s: State, s5: State, s6: State, s7: State)
    requires Start(s) && s5 == s.(orphans := multiset{false})
    requires s6 == Now(s5, 1, Begun).(capture := Written(s5.capture, 1, s.now))
    requires s7 == Now(s6, 1, Armed).(engine := Written(s6.engine, 1, s.now))
    ensures Next(s5, BeginRecall(1, s.now), s6) && Next(s6, BeginEngineRecall(1, s.now), s7)
    ensures At(s7, 1, Armed) && s7.capture.phase == s7.engine.phase == Unheld && s7.orphans == multiset{false}
  {
  }

  /** It is answered, and the request comes in. */
  lemma AnsweredBefore(s7: State, s8: State, s9: State, s10: State)
    requires At(s7, 1, Armed) && s7.capture.phase == s7.engine.phase == Unheld && s7.orphans == multiset{false}
    requires s8 == Now(s7, 1, Passed) && s9 == Now(s8, 1, Answered)
             && s10 == s9.(orphans := s9.orphans - multiset{false})
    ensures Next(s7, PassBarrier(1), s8) && Next(s8, Status(1), s9) && Next(s9, IngestOrphan(false), s10)
    ensures false in s8.orphans && Disturbs(s9, IngestOrphan(false)) && At(s10, 1, Answered)
  {
  }

  /** As long as scanners live until their requests are answered, there are no orphans. */
  lemma {:induction false} NoOrphans(states: seq<State>, steps: seq<Step>, k: nat)
    requires IsRun(states, steps) && k < |states|
    requires forall j :: 0 <= j < k && steps[j] == Scanner(Die) ==> states[j].request != Some(false)
    ensures false !in states[k].orphans
  {
    if k > 0 {
      NoOrphans(states, steps, k - 1);
      assert Next(states[k - 1], steps[k - 1], states[k]);
    }
  }
}
