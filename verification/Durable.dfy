/** The last-known-good snapshot across crashes: how it is written, what a crash can leave behind, and which
    generation a restart comes back with.

    A write goes to a temporary file that did not exist before, is flushed to the disk, and is renamed over
    the snapshot; then the directory is flushed, where that can fail unnoticed. A process may be killed
    between any two of these steps. A loss of power moreover leaves any of the versions that were renamed
    since the directory was last flushed, and tears every file that was not. */
module Durable {
  import opened Lifecycle

  /** A file on its way to be a snapshot: `complete` when all its bytes are written, `flushed` when they are
      on the disk. */
  datatype File = File(generation: Generation, content: nat, complete: bool, flushed: bool)

  /** How far a write has come. */
  datatype Phase = Idle | Opened(name: nat) | Written(name: nat) | Flushed(name: nat) | Renamed

  datatype Process = Down | Up(active: Option<Generation>, phase: Phase)

  /** `versions` are what a loss of power may leave as the snapshot; the last is what a reader sees now.
      `temps` are the temporary files, with those of processes that were killed.
      `floor` is the generation of the last version known to be on the disk, `log` the generations that
      restarts came back with. `blind` records a start that could not read a snapshot that was there,
      `forgot` a loss of power that left an older version than the one seen before. */
  datatype System = System(versions: seq<Option<File>>, temps: map<nat, File>, process: Process,
                           floor: Option<Generation>, log: seq<Generation>, blind: bool, forgot: bool)

  /** How a step of a write ends: it succeeds, it fails and its file is removed, or it fails and so does the
      removal, which is ignored. */
  datatype Deed = Done | Undone | Littered

  datatype Step =
    | Start(readable: bool)
    | Accept(generation: Generation)
    | Submit(generation: Generation, content: nat, name: nat)
    | Write(deed: Deed)
    | Flush(deed: Deed)
    | Rename(deed: Deed)
    | FlushDirectory(ok: bool)
    | Kill
    | LosePower(left: nat)

  const FRESH := System([None], map[], Down, None, [], false, false)

  predicate WellFormed(s: System) {
    && s.versions != []
    && (s.process.Up? ==> match s.process.phase
        case Opened(n) => n in s.temps
        case Written(n) => n in s.temps
        case Flushed(n) => n in s.temps
        case _ => true)
  }

  function Visible(s: System): Option<File>
    requires WellFormed(s)
  {
    s.versions[|s.versions| - 1]
  }

  function In(s: System, phase: Phase): System
    requires s.process.Up?
  {
    s.(process := s.process.(phase := phase))
  }

  predicate Enabled(s: System, step: Step)
    requires WellFormed(s)
  {
    match step
    case Start(_) => s.process == Down
    // an older generation than the active one is refused
    case Accept(g) => s.process.Up? && s.process.phase == Idle && Below(s.process.active, Some(g))
    // the temporary file must not exist
    case Submit(g, _, name) =>
      s.process.Up? && s.process.phase == Idle && Below(s.process.active, Some(g)) && name !in s.temps
    case Write(_) => s.process.Up? && s.process.phase.Opened?
    case Flush(_) => s.process.Up? && s.process.phase.Written?
    case Rename(_) => s.process.Up? && s.process.phase.Flushed?
    case FlushDirectory(_) => s.process.Up? && s.process.phase == Renamed
    case Kill => s.process.Up?
    case LosePower(left) => left < |s.versions|
  }

  /** What a loss of power makes of a file. */
  function Torn(f: File): File {
    if f.flushed then f else f.(complete := false)
  }

  function TornVersion(v: Option<File>): Option<File> {
    if v.None? then v else Some(Torn(v.value))
  }

  function GenerationOf(v: Option<File>): Option<Generation> {
    if v.None? then None else Some(v.value.generation)
  }

  /** No snapshot is below any. */
  predicate Below(a: Option<Generation>, b: Option<Generation>) {
    a.None? || (b.Some? && a.value <= b.value)
  }

  /** The temporary files after a step of a write on `n` failed. */
  function Cleared(temps: map<nat, File>, n: nat, deed: Deed): map<nat, File> {
    if deed == Littered then temps else temps - {n}
  }

  function Take(s: System, step: Step): System
    requires WellFormed(s) && Enabled(s, step)
  {
    match step
    case Start(readable) =>
      if Visible(s).None? then s.(process := Up(None, Idle))
      else if readable && Visible(s).value.complete then
        s.(process := Up(Some(Visible(s).value.generation), Idle), log := s.log + [Visible(s).value.generation])
      else
        // an unreadable snapshot is reported, and the process goes on as if there were none
        s.(process := Up(None, Idle), blind := true)
    // accepted, but not even a temporary file could be opened
    case Accept(g) => s.(process := Up(Some(g), Idle))
    case Submit(g, content, name) =>
      s.(process := Up(Some(g), Opened(name)), temps := s.temps[name := File(g, content, false, false)])
    case Write(deed) =>
      var n := s.process.phase.name;
      if deed == Done then In(s, Written(n)).(temps := s.temps[n := s.temps[n].(complete := true)])
      else In(s, Idle).(temps := Cleared(s.temps, n, deed))
    case Flush(deed) =>
      var n := s.process.phase.name;
      if deed == Done then In(s, Flushed(n)).(temps := s.temps[n := s.temps[n].(flushed := true)])
      else In(s, Idle).(temps := Cleared(s.temps, n, deed))
    case Rename(deed) =>
      var n := s.process.phase.name;
      if deed == Done then In(s, Renamed).(temps := s.temps - {n}, versions := s.versions + [Some(s.temps[n])])
      else In(s, Idle).(temps := Cleared(s.temps, n, deed))
    case FlushDirectory(ok) =>
      if ok then In(s, Idle).(versions := [Visible(s)], floor := GenerationOf(Visible(s)))
      else In(s, Idle)
    case Kill => s.(process := Down)
    case LosePower(left) =>
      s.(process := Down, versions := [TornVersion(s.versions[left])], temps := map n <- s.temps :: Torn(s.temps[n]),
         forgot := s.forgot || left < |s.versions| - 1)
  }

  /** Any schedule: a step that is not possible when its turn comes does nothing. */
  ghost function Run(s: System, steps: seq<Step>): (r: System)
    requires WellFormed(s)
    ensures WellFormed(r)
    decreases |steps|
  {
    if steps == [] then s
    else Run(if Enabled(s, steps[0]) then Take(s, steps[0]) else s, steps[1..])
  }

  // ---------------------------------------------------------------- every run

  /** A version of the snapshot was written and flushed as a whole. */
  predicate Whole(v: Option<File>) {
    v.Some? ==> v.value.complete && v.value.flushed
  }

  /** Every version is whole, and a file that is about to be renamed is too. */
  ghost predicate Intact(s: System) {
    && WellFormed(s)
    && (forall i :: 0 <= i < |s.versions| ==> Whole(s.versions[i]))
    && (s.process.Up? && s.process.phase.Written? ==> s.temps[s.process.phase.name].complete)
    && (s.process.Up? && s.process.phase.Flushed? ==>
          s.temps[s.process.phase.name].complete && s.temps[s.process.phase.name].flushed)
  }

  /** As long as every start could read what was there: generations grow along the versions, and nothing that
      is on the disk, seen by a reader or being written is behind what it replaces. */
  ghost predicate Growing(s: System) {
    && WellFormed(s)
    && (forall i, j :: 0 <= i <= j < |s.versions| ==> Below(GenerationOf(s.versions[i]), GenerationOf(s.versions[j])))
    && Below(s.floor, GenerationOf(s.versions[0]))
    && (s.process.Up? ==> match s.process.active
        case None => Visible(s).None? && s.process.phase == Idle
        case Some(g) => Below(GenerationOf(Visible(s)), Some(g)))
    && (s.process.Up? && s.process.active.Some? ==> match s.process.phase
        case Opened(n) => s.temps[n].generation == s.process.active.value
        case Written(n) => s.temps[n].generation == s.process.active.value
        case Flushed(n) => s.temps[n].generation == s.process.active.value
        case _ => true)
  }

  /** Restarts came back with generations that never went down, unless the disk itself forgot. */
  ghost predicate Logged(s: System) {
    && WellFormed(s)
    && (!s.forgot ==> forall i, j :: 0 <= i <= j < |s.log| ==> s.log[i] <= s.log[j])
    && (!s.forgot ==> forall i :: 0 <= i < |s.log| ==> Below(Some(s.log[i]), GenerationOf(Visible(s))))
  }

  lemma StepIntact(s: System, step: Step)
    requires Intact(s) && Enabled(s, step)
    ensures Intact(Take(s, step))
  {
  }

  /** A rename puts a version on top that is not behind. */
  lemma RenameGrows(s: System, deed: Deed)
    requires Growing(s) && Enabled(s, Rename(deed))
    ensures Growing(Take(s, Rename(deed)))
  {
  }

  lemma LossGrows(s: System, left: nat)
    requires Growing(s) && Enabled(s, LosePower(left))
    ensures Growing(Take(s, LosePower(left)))
  {
  }

  lemma StepGrows(s: System, step: Step)
    requires Growing(s) && Enabled(s, step) && !Take(s, step).blind
    ensures Growing(Take(s, step)) && Below(s.floor, Take(s, step).floor)
  {
    if step.Rename? {
      RenameGrows(s, step.deed);
    } else if step.LosePower? {
      LossGrows(s, step.left);
    }
  }

  /** What a reader sees next is not behind what it saw before, unless the disk forgot. */
  lemma StepSees(s: System, step: Step)
    requires Growing(s) && Enabled(s, step) && !Take(s, step).blind
    ensures Take(s, step).forgot || Below(GenerationOf(Visible(s)), GenerationOf(Visible(Take(s, step))))
    ensures s.forgot ==> Take(s, step).forgot
    ensures Take(s, step).log == s.log
         || (&& Visible(s).Some? && Visible(Take(s, step)) == Visible(s)
             && Take(s, step).log == s.log + [Visible(s).value.generation])
  {
  }

  lemma StepLogs(s: System, step: Step)
    requires Growing(s) && Logged(s) && Enabled(s, step) && !Take(s, step).blind
    ensures Logged(Take(s, step))
  {
    StepSees(s, step);
    hide Take, Growing;
  }

  function Next(s: System, step: Step): (r: System)
    requires WellFormed(s)
    ensures WellFormed(r)
  {
    if Enabled(s, step) then Take(s, step) else s
  }

  lemma {:induction false} RunIntact(s: System, steps: seq<Step>)
    requires Intact(s)
    ensures Intact(Run(s, steps))
    decreases |steps|
  {
    if steps != [] {
      if Enabled(s, steps[0]) {
        StepIntact(s, steps[0]);
      }
      RunIntact(Next(s, steps[0]), steps[1..]);
    }
  }

  /** A start that has been blind stays on record. */
  lemma {:induction false} BlindStays(s: System, steps: seq<Step>)
    requires WellFormed(s) && s.blind
    ensures Run(s, steps).blind
    decreases |steps|
  {
    if steps != [] {
      BlindStays(Next(s, steps[0]), steps[1..]);
    }
  }

  lemma {:induction false} RunGrows(s: System, steps: seq<Step>)
    requires Growing(s) && Logged(s) && !Run(s, steps).blind
    ensures Growing(Run(s, steps)) && Logged(Run(s, steps)) && Below(s.floor, Run(s, steps).floor)
    decreases |steps|
  {
    hide Take, Logged;
    if steps != [] {
      var next := Next(s, steps[0]);
      if next.blind {
        BlindStays(next, steps[1..]);
      }
      if Enabled(s, steps[0]) {
        StepGrows(s, steps[0]);
        StepLogs(s, steps[0]);
      }
      RunGrows(next, steps[1..]);
    }
  }

  lemma {:induction false} RunAppends(s: System, first: seq<Step>, rest: seq<Step>)
    requires WellFormed(s)
    ensures Run(s, first + rest) == Run(Run(s, first), rest)
    decreases |first|
  {
    if first == [] {
      assert first + rest == rest;
    } else {
      assert (first + rest)[1..] == first[1..] + rest;
      RunAppends(Next(s, first[0]), first[1..], rest);
    }
  }

  /** Wherever a crash comes, what it leaves as the snapshot is no file or a whole one; a start that is able
      to read the file restores from it. */
  lemma NeverTorn(steps: seq<Step>, i: nat)
    ensures var s := Run(FRESH, steps); i < |s.versions| ==> Whole(s.versions[i])
    ensures var s := Run(FRESH, steps);
      Enabled(s, Start(true)) ==> Take(s, Start(true)).process == Up(GenerationOf(Visible(s)), Idle)
  {
    RunIntact(FRESH, steps);
  }

  /** A generation whose snapshot has reached the disk is never gone back behind: not by a failed write, a
      kill or a loss of power, as long as no start failed to read a snapshot that was there. */
  lemma DurableIsKept(steps: seq<Step>, more: seq<Step>, i: nat)
    requires !Run(FRESH, steps + more).blind
    requires i < |Run(FRESH, steps + more).versions|
    ensures Below(Run(FRESH, steps).floor, GenerationOf(Run(FRESH, steps + more).versions[i]))
  {
    RunAppends(FRESH, steps, more);
    var s := Run(FRESH, steps);
    if s.blind {
      BlindStays(s, more);
    }
    RunGrows(FRESH, steps);
    RunGrows(s, more);
  }

  /** The snapshot is never ahead of the process: what is active is at least what any crash could leave, and a
      process with nothing active has no snapshot. */
  lemma SnapshotIsNotAhead(steps: seq<Step>, i: nat)
    requires !Run(FRESH, steps).blind
    ensures var s := Run(FRESH, steps);
      s.process.Up? && i < |s.versions| ==> Below(GenerationOf(s.versions[i]), s.process.active)
  {
    RunGrows(FRESH, steps);
    var s := Run(FRESH, steps);
    if s.process.Up? && i < |s.versions| {
      assert Below(GenerationOf(s.versions[i]), GenerationOf(s.versions[|s.versions| - 1]));
    }
  }

  /** Restarts come back with generations that never go down, if no start failed to read a snapshot that was
      there and no loss of power undid a rename. */
  lemma RestartsOnlyGrow(steps: seq<Step>, i: nat, j: nat)
    requires !Run(FRESH, steps).blind && !Run(FRESH, steps).forgot
    requires i <= j < |Run(FRESH, steps).log|
    ensures Run(FRESH, steps).log[i] <= Run(FRESH, steps).log[j]
  {
    RunGrows(FRESH, steps);
  }

  function Storing(g: Generation, content: nat, name: nat, writes: Deed, flushes: Deed, renames: Deed, settles: bool)
    : seq<Step>
  {
    [Submit(g, content, name), Write(writes), Flush(flushes), Rename(renames), FlushDirectory(settles)]
  }

  /** The outcome of the first of the steps that fails, or success. */
  function FirstFailure(writes: Deed, flushes: Deed, renames: Deed): Deed {
    if writes != Done then writes else if flushes != Done then flushes else renames
  }

  lemma RunFirst(s: System, a: Step, rest: seq<Step>)
    requires WellFormed(s)
    ensures WellFormed(Next(s, a)) && Run(s, [a] + rest) == Run(Next(s, a), rest)
  {
    assert ([a] + rest)[1..] == rest;
  }

  /** What is left of a write that has ended does nothing. */
  lemma {:induction false} Skips(s: System, rest: seq<Step>)
    requires WellFormed(s) && s.process.Up? && s.process.phase == Idle
    requires forall i :: 0 <= i < |rest| ==>
        rest[i].Write? || rest[i].Flush? || rest[i].Rename? || rest[i].FlushDirectory?
    ensures Run(s, rest) == s
    decreases |rest|
  {
    if rest != [] {
      Skips(s, rest[1..]);
    }
  }

  /** Where a write ends from a temporary file that is `file` so far, on success and on failure. */
  ghost function Landed(s: System, n: nat, file: File, settles: bool): System
    requires s.process.Up?
  {
    var end := In(s, Idle).(temps := s.temps - {n});
    if settles then end.(versions := [Some(file)],
                         floor := Some(file.generation)) else end.(versions := s.versions + [Some(file)])
  }

  ghost function Abandoned(s: System, n: nat, file: File, deed: Deed): System
    requires s.process.Up?
  {
    In(s, Idle).(temps := Cleared(s.temps[n := file], n, deed))
  }

  lemma FromFlushed(s: System, n: nat, renames: Deed, settles: bool)
    requires WellFormed(s) && s.process.Up? && s.process.phase == Flushed(n)
    ensures Run(s, [Rename(renames), FlushDirectory(settles)]) ==
              if renames == Done then Landed(s, n, s.temps[n], settles) else Abandoned(s, n, s.temps[n], renames)
  {
    var next := Next(s, Rename(renames));
    RunFirst(s, Rename(renames), [FlushDirectory(settles)]);
    RunFirst(next, FlushDirectory(settles), []);
    assert s.temps[n := s.temps[n]] == s.temps;
  }

  lemma FromWritten(s: System, n: nat, flushes: Deed, renames: Deed, settles: bool)
    requires WellFormed(s) && s.process.Up? && s.process.phase == Written(n)
    ensures Run(s, [Flush(flushes), Rename(renames), FlushDirectory(settles)]) ==
              if flushes == Done && renames == Done then Landed(s, n, s.temps[n].(flushed := true), settles)
              else Abandoned(s, n, s.temps[n].(flushed := flushes == Done || s.temps[n].flushed),
                             FirstFailure(Done, flushes, renames))
  {
    var next := Next(s, Flush(flushes));
    RunFirst(s, Flush(flushes), [Rename(renames), FlushDirectory(settles)]);
    if flushes == Done {
      FromFlushed(next, n, renames, settles);
      assert next.temps - {n} == s.temps - {n};
      assert next.temps[n := next.temps[n]] == next.temps;
    } else {
      Skips(next, [Rename(renames), FlushDirectory(settles)]);
      assert s.temps[n := s.temps[n]] == s.temps;
    }
    hide Run;
  }

  lemma FromOpened(s: System, n: nat, writes: Deed, flushes: Deed, renames: Deed, settles: bool)
    requires WellFormed(s) && s.process.Up? && s.process.phase == Opened(n)
    requires !s.temps[n].complete && !s.temps[n].flushed
    ensures var file := s.temps[n].(complete := writes == Done, flushed := writes == Done && flushes == Done);
      Run(s, [Write(writes), Flush(flushes), Rename(renames), FlushDirectory(settles)]) ==
        if FirstFailure(writes, flushes, renames) == Done then Landed(s, n, file, settles)
        else Abandoned(s, n, file, FirstFailure(writes, flushes, renames))
  {
    var next := Next(s, Write(writes));
    RunFirst(s, Write(writes), [Flush(flushes), Rename(renames), FlushDirectory(settles)]);
    if writes == Done {
      FromWritten(next, n, flushes, renames, settles);
      assert next.temps - {n} == s.temps - {n};
      var file := s.temps[n].(complete := true, flushed := flushes == Done);
      assert next.temps[n := file] == s.temps[n := file];
    } else {
      Skips(next, [Flush(flushes), Rename(renames), FlushDirectory(settles)]);
      assert s.temps[n := s.temps[n]] == s.temps;
    }
    hide Run;
  }

  /** The generations a process accepts along `steps`, in order. */
  ghost function Accepted(s: System, steps: seq<Step>): seq<Generation>
    requires WellFormed(s)
    decreases |steps|
  {
    if steps == [] then []
    else
      var accepts := Enabled(s, steps[0]) && (steps[0].Accept? || steps[0].Submit?);
      (if accepts then [steps[0].generation] else []) + Accepted(Next(s, steps[0]), steps[1..])
  }

  /** Whatever fails to be written, a process is at the generation it accepted last, and it accepts none that is behind
      the one it is at. */
  lemma {:induction false} ActiveIsTheLastAccepted(s: System, steps: seq<Step>)
    requires WellFormed(s) && s.process.Up?
    requires forall i :: 0 <= i < |steps| ==> !steps[i].Kill? && !steps[i].LosePower?
    ensures var process, accepted := Run(s, steps).process, Accepted(s, steps);
            && process.Up?
            && process.active == (if accepted == [] then s.process.active else Some(accepted[|accepted| - 1]))
            && (forall i :: 0 <= i < |accepted| ==> Below(s.process.active, Some(accepted[i])))
            && (forall i, j :: 0 <= i < j < |accepted| ==> accepted[i] <= accepted[j])
    decreases |steps|
  {
    if steps != [] {
      var next := Next(s, steps[0]);
      NextIsUp(s, steps[0]);
      ActiveIsTheLastAccepted(next, steps[1..]);
      RunFirst(s, steps[0], steps[1..]);
      assert [steps[0]] + steps[1..] == steps;
      hide Take, Run;
    }
  }

  lemma NextIsUp(s: System, step: Step)
    requires WellFormed(s) && s.process.Up? && !step.Kill? && !step.LosePower?
    ensures var next := Next(s, step);
            && next.process.Up?
            && if Enabled(s, step) && (step.Accept? || step.Submit?) then
                 next.process.active == Some(step.generation) && Below(s.process.active, Some(step.generation))
               else next.process.active == s.process.active
  {
  }

  /** A write puts exactly the submitted snapshot in place of the one before, whole; or it leaves the snapshot
      alone, and at most the temporary file it was on behind. */
  lemma StoreOutcome(s: System, g: Generation, content: nat, name: nat, writes: Deed, flushes: Deed, renames: Deed,
                     settles: bool)
    requires WellFormed(s) && Enabled(s, Submit(g, content, name))
    ensures var file := Some(File(g, content, true, true));
      Run(s, Storing(g, content, name, writes, flushes, renames, settles)) ==
        match FirstFailure(writes, flushes, renames)
        case Undone => s.(process := Up(Some(g), Idle))
        case Littered =>
          var left := File(g, content, writes == Done, writes == Done && flushes == Done);
          s.(process := Up(Some(g), Idle), temps := s.temps[name := left])
        case Done =>
          if settles then s.(versions := [file], floor := Some(g), process := Up(Some(g), Idle))
          else s.(versions := s.versions + [file], process := Up(Some(g), Idle))
  {
    hide Run;
    var first := Take(s, Submit(g, content, name));
    var rest := [Write(writes), Flush(flushes), Rename(renames), FlushDirectory(settles)];
    assert Storing(g, content, name, writes, flushes, renames, settles) == [Submit(g, content, name)] + rest;
    RunFirst(s, Submit(g, content, name), rest);
    FromOpened(first, name, writes, flushes, renames, settles);
    hide Take, Enabled;
    var left := File(g, content, writes == Done, writes == Done && flushes == Done);
    assert first.temps[name := left] == s.temps[name := left] && s.temps[name := left] - {name} == s.temps;
    assert first.temps - {name} == s.temps;
  }

  /** Both conditions are needed. A start that cannot read the snapshot, from whatever state, goes on to write
      the static configuration as generation 0 over it, and the next restart comes back with that. */
  lemma BlindStartForgets(s: System, content: nat, name: nat)
    requires WellFormed(s) && s.process == Down && Visible(s).Some? && name !in s.temps
    ensures var store := Storing(0, content, name, Done, Done, Done, true);
      var end := Run(s, [Start(false)] + (store + [Kill, Start(true)]));
      end.log == s.log + [0] && end.versions == [Some(File(0, content, true, true))]
  {
    var store := Storing(0, content, name, Done, Done, Done, true);
    var s1 := Take(s, Start(false));
    RunFirst(s, Start(false), store + [Kill, Start(true)]);
    StoreOutcome(s1, 0, content, name, Done, Done, Done, true);
    RunAppends(s1, store, [Kill, Start(true)]);
    var s2 := Run(s1, store);
    RunFirst(s2, Kill, [Start(true)]);
    RunFirst(Next(s2, Kill), Start(true), []);
  }

  lemma RunOfFour(s: System, a: Step, b: Step, c: Step, d: Step)
    requires WellFormed(s)
    ensures Run(s, [a, b, c, d]) == Next(Next(Next(Next(s, a), b), c), d)
  {
    hide Next, Take, Enabled, WellFormed;
    var s1 := Next(s, a);
    var s2 := Next(s1, b);
    var s3 := Next(s2, c);
    RunFirst(s, a, [b, c, d]);
    RunFirst(s1, b, [c, d]);
    RunFirst(s2, c, [d]);
    RunFirst(s3, d, []);
    assert Run(Next(s3, d), []) == Next(s3, d);
    hide Run;
    assert [a, b, c, d] == [a] + [b, c, d] && [b, c, d] == [b] + [c, d] && [c, d] == [c] + [d] && [d] == [d] + [];
  }

  lemma StartRestores(s: System, file: File)
    requires WellFormed(s) && s.process == Down && Visible(s) == Some(file) && Whole(Some(file))
    ensures var up := Next(s, Start(true)); up.log == s.log + [file.generation] && up.versions == s.versions
  {
  }

  lemma LossLeaves(s: System, file: File)
    requires WellFormed(s) && s.versions[0] == Some(file) && Whole(Some(file))
    ensures var dark := Next(s, LosePower(0));
      dark.log == s.log && dark.versions == [Some(file)] && dark.process == Down
  {
  }

  lemma KilledAndBack(s: System, file: File)
    requires WellFormed(s) && s.process.Up? && Visible(s) == Some(file) && Whole(Some(file))
    ensures var up := Next(Next(s, Kill), Start(true)); up.log == s.log + [file.generation] && up.versions == s.versions
  {
    var down := Next(s, Kill);
    assert down == s.(process := Down);
    hide Take;
    StartRestores(down, file);
  }

  lemma DarkAndBack(s: System, file: File)
    requires WellFormed(s) && s.versions[0] == Some(file) && Whole(Some(file))
    ensures Next(Next(s, LosePower(0)), Start(true)).log == s.log + [file.generation]
  {
    hide Take;
    LossLeaves(s, file);
    StartRestores(Next(s, LosePower(0)), file);
  }

  lemma PowerGoesBack(s: System, older: File, newer: File)
    requires WellFormed(s) && s.process.Up? && s.versions == [Some(older), Some(newer)]
    requires Whole(Some(older)) && Whole(Some(newer))
    ensures Run(s, [Kill, Start(true), LosePower(0), Start(true)]).log == s.log + [newer.generation, older.generation]
  {
    hide Run, Take, Next, Enabled, Whole;
    RunOfFour(s, Kill, Start(true), LosePower(0), Start(true));
    KilledAndBack(s, newer);
    var up := Next(Next(s, Kill), Start(true));
    DarkAndBack(up, older);
    assert up.log + [older.generation] == s.log + [newer.generation, older.generation];
  }

  /** A directory that could not be flushed lets a later loss of power take a restart back to the generation
      before, although a restart had come back with the newer one. */
  lemma UnflushedDirectoryForgets(s: System, g: Generation, content: nat, name: nat)
    requires Intact(s) && |s.versions| == 1 && Enabled(s, Submit(g, content, name))
    requires s.versions[0].Some? && s.versions[0].value.generation < g
    ensures var store := Storing(g, content, name, Done, Done, Done, false);
      var end := Run(s, store + [Kill, Start(true), LosePower(0), Start(true)]);
      end.log == s.log + [g, s.versions[0].value.generation]
  {
    var store := Storing(g, content, name, Done, Done, Done, false);
    StoreOutcome(s, g, content, name, Done, Done, Done, false);
    RunAppends(s, store, [Kill, Start(true), LosePower(0), Start(true)]);
    hide Run, Storing;
    PowerGoesBack(Run(s, store), s.versions[0].value, File(g, content, true, true));
  }

  // ---------------------------------------------------------------- writing a snapshot

  /** The store as the program has it. */
  class SnapshotStore {
    var versions: seq<Option<File>>
    var temps: map<nat, File>
    var process: Process
    var floor: Option<Generation>
    var log: seq<Generation>
    var blind: bool
    var forgot: bool
    var counter: nat

    ghost function Value(): System
      reads this
    {
      System(versions, temps, process, floor, log, blind, forgot)
    }

    constructor ()
      ensures Value() == FRESH
    {
      versions, temps, process, floor, log, blind, forgot, counter := [None], map[], Down, None, [], false, false, 0;
    }

    /** Reads the snapshot when the process starts; one that is there and cannot be read is an error, after
        which the process goes on without. */
    method Load(readable: bool) returns (error: bool)
      requires WellFormed(Value()) && process == Down
      modifies this
      ensures Value() == Take(old(Value()), Start(readable))
      ensures error <==> Visible(old(Value())).Some? && !(readable && Visible(old(Value())).value.complete)
    {
      var file := versions[|versions| - 1];
      error := false;
      if file.None? {
        process := Up(None, Idle);
      } else if readable && file.value.complete {
        process, log := Up(Some(file.value.generation), Idle), log + [file.value.generation];
      } else {
        process, blind, error := Up(None, Idle), true, true;
      }
    }

    /** Counts up to a name that is not taken. */
    method FreshName() returns (name: nat)
      modifies this`counter
      ensures name !in temps && counter == name + 1 > old(counter)
    {
      ghost var taken := temps.Keys;
      while counter in temps
        invariant counter >= old(counter)
        invariant forall n :: n in temps && n >= counter ==> n in taken
        decreases |taken|
      {
        taken := taken - {counter};
        counter := counter + 1;
      }
      name, counter := counter, counter + 1;
    }

    /** The bytes of a new file, and their flush. */
    method WriteOut(name: nat, g: Generation, content: nat, writes: Deed, flushes: Deed) returns (file: File)
      modifies this`temps
      ensures file == File(g, content, writes == Done,
                           writes == Done && flushes == Done) && temps == old(temps)[name := file]
    {
      file := File(g, content, false, false);
      temps := temps[name := file];
      if writes == Done {
        file := file.(complete := true);
        temps := temps[name := file];
        if flushes == Done {
          file := file.(flushed := true);
          temps := temps[name := file];
        }
      }
    }

    /** The rename, and the flush of the directory. */
    method RenameOver(file: File, settles: bool)
      modifies this`versions, this`floor
      ensures versions == if settles then [Some(file)] else old(versions) + [Some(file)]
      ensures floor == if settles then Some(file.generation) else old(floor)
    {
      versions := versions + [Some(file)];
      if settles {
        versions, floor := [Some(file)], Some(file.generation);
      }
    }

    /** A write under a name that no file has. */
    method StoreUnder(name: nat, g: Generation, content: nat, writes: Deed, flushes: Deed, renames: Deed, settles: bool)
      returns (ok: bool)
      requires WellFormed(Value()) && Enabled(Value(), Submit(g, content, name))
      modifies this`temps, this`process, this`versions, this`floor
      ensures Value() == Run(old(Value()), Storing(g, content, name, writes, flushes, renames, settles))
      ensures ok <==> FirstFailure(writes, flushes, renames) == Done
    {
      StoreOutcome(Value(), g, content, name, writes, flushes, renames, settles);
      hide Run, Take, Enabled, Storing;
      process := Up(Some(g), Idle);
      var file := WriteOut(name, g, content, writes, flushes);
      var failure := FirstFailure(writes, flushes, renames);
      ok := failure == Done;
      temps := Cleared(temps, name, failure);
      assert failure != Littered ==> temps == old(temps);
      if ok {
        RenameOver(file, settles);
      }
    }

    /** One accepted submission written out: a new file, its bytes, its flush, the rename, the directory. The
        first of them to fail ends the write; the file it was on is removed, if it can be. */
    method Store(g: Generation, content: nat, opens: bool, writes: Deed, flushes: Deed, renames: Deed, settles: bool)
      returns (ok: bool, name: nat)
      requires WellFormed(Value()) && process.Up? && process.phase == Idle && Below(process.active, Some(g))
      modifies this
      ensures name !in old(temps)
      ensures var steps := if opens then Storing(g, content, name, writes, flushes, renames, settles) else [Accept(g)];
              Value() == Run(old(Value()), steps)
      ensures ok <==> opens && writes == Done && flushes == Done && renames == Done
      ensures !ok ==> versions == old(versions) && process == Up(Some(g), Idle) && forall n <- old(temps) :: n in temps
    {
      ghost var s := Value();
      name := FreshName();
      if opens {
        ok := StoreUnder(name, g, content, writes, flushes, renames, settles);
        StoreOutcome(s, g, content, name, writes, flushes, renames, settles);
        hide Run, Take, Enabled, Storing;
      } else {
        RunFirst(s, Accept(g), []);
        ok, process := false, Up(Some(g), Idle);
      }
    }
  }
}
