/** Every interleaving of writers, proxies and checkers over the commit tables: exactly
when a check answers for the latest write of a key, and when for an older one. */
module CommitProtocol {
  import opened CommitTables

  /** Where the latest write of a key stands at the coordinator. */
  datatype Stage =
    | Quiet                   // no write in progress: the writer's check has returned
    | Forgot                  // the old commit is erased
    | Marked(failures: nat)   // pending, after that many failed attempts
    | Sent                    // an attempt succeeded
    | Dropped                 // all attempts failed and the mark is erased

  /** What is known of a key besides the tables: the latest generation, its stage,
      the generations reported committed, and the plans still to be reported. */
  datatype KeyState = KeyState(gen: nat, stage: Stage, good: set<nat>, owing: multiset<nat>)

  const FRESH: KeyState := KeyState(0, Quiet, {}, multiset{})

  datatype World = World(tables: Tables, keys: map<string, KeyState>)

  const START: World := World(Tables(map[], map[]), map[])

  datatype Step =
    | Begin(key: string)
    | SetMark(key: string, size: int, stripe: int)
    | AttemptOk(key: string)
    | AttemptFails(key: string, effect: bool)
    | Drop(key: string)
    | Reports(key: string, gen: nat, commit: bool)
    | Check(key: string, done: bool)

  function At(w: World, key: string): KeyState { if key in w.keys then w.keys[key] else FRESH }

  /** Which step may happen: a writer starts the next write of a key only when its
      check has returned, and a proxy that was given a plan reports it once. */
  ghost predicate Enabled(w: World, step: Step) {
    CanStep(w.tables, At(w, step.key), step)
  }

  ghost predicate CanStep(t: Tables, s: KeyState, step: Step) {
    match step
    case Begin(_) => s.stage.Quiet?
    case SetMark(_, _, _) => s.stage.Forgot?
    case AttemptOk(_) => s.stage.Marked? && s.stage.failures < 3
    case AttemptFails(_, _) => s.stage.Marked? && s.stage.failures < 3
    case Drop(_) => s.stage.Marked? && s.stage.failures == 3
    case Reports(_, gen, _) => gen in s.owing
    case Check(key, done) => !Waits(t, key) && (done ==> s.stage.Sent? || s.stage.Dropped?)
  }

  /** What a step does to the tables. */
  function TablesAfter(t: Tables, s: KeyState, step: Step): Tables {
    match step
    case Begin(key) => Forget(t, key)
    case SetMark(key, size, stripe) => Mark(t, key, Info(size, stripe, s.gen))
    case Drop(key) => Unmark(t, key)
    case Reports(key, _, commit) => Report(t, key, commit)
    case _ => t
  }

  /** And to its key. A failed attempt may have reached the proxy all the same. */
  function StateAfter(s: KeyState, step: Step): KeyState {
    match step
    case Begin(_) => s.(gen := s.gen + 1, stage := Forgot)
    case SetMark(_, _, _) => s.(stage := Marked(0))
    case AttemptOk(_) => s.(stage := Sent, owing := s.owing + multiset{s.gen})
    case AttemptFails(_, effect) =>
      s.(stage := if s.stage.Marked? then Marked(s.stage.failures + 1) else s.stage,
         owing := if effect then s.owing + multiset{s.gen} else s.owing)
    case Drop(_) => s.(stage := Dropped)
    case Reports(_, gen, commit) =>
      s.(good := if commit then s.good + {gen} else s.good, owing := s.owing - multiset{gen})
    case Check(_, done) => if done then s.(stage := Quiet) else s
  }

  function Apply(w: World, step: Step): World {
    var s := At(w, step.key);
    World(TablesAfter(w.tables, s, step), w.keys[step.key := StateAfter(s, step)])
  }

  /** A step leaves the other keys alone. */
  lemma {:induction false} Elsewhere(w: World, step: Step, key: string)
    ensures At(Apply(w, step), key) == if key == step.key then StateAfter(At(w, key), step) else At(w, key)
    ensures var t, t' := w.tables, Apply(w, step).tables; key != step.key ==>
      && (key in t'.updating <==> key in t.updating) && (key in t'.committed <==> key in t.committed)
      && (key in t.updating ==> t'.updating[key] == t.updating[key])
      && (key in t.committed ==> t'.committed[key] == t.committed[key])
  {
    hide StateAfter;
  }

  function After(steps: seq<Step>): World {
    if steps == [] then START else Apply(After(steps[..|steps| - 1]), steps[|steps| - 1])
  }

  ghost predicate Run(steps: seq<Step>) {
    forall i :: 0 <= i < |steps| ==> Enabled(After(steps[..i]), steps[i])
  }

  lemma {:induction false} RunPrefix(steps: seq<Step>, n: nat)
    requires Run(steps) && n <= |steps|
    ensures Run(steps[..n])
  {
    hide Enabled; hide After;
    forall i | 0 <= i < n ensures Enabled(After(steps[..n][..i]), steps[..n][i]) {
      assert steps[..n][..i] == steps[..i];
    }
  }

  lemma {:induction false} AfterStep(steps: seq<Step>, i: nat)
    requires i < |steps|
    ensures After(steps[..i + 1]) == Apply(After(steps[..i]), steps[i])
  {
    assert steps[..i + 1][..i] == steps[..i];
  }

  // ------------------------------------------------------------------
  // What was written and reported, read off the steps themselves.

  /** Writes of a key begun so far. */
  function Begun(steps: seq<Step>, key: string): nat {
    if steps == [] then 0 else Begun(steps[..|steps| - 1], key) + if steps[|steps| - 1] == Begin(key) then 1 else 0
  }

  ghost predicate Reported(steps: seq<Step>, key: string, n: nat) {
    exists i :: 0 <= i < |steps| && steps[i] == Reports(key, n, true)
  }

  function CommitsStep(rest: set<nat>, step: Step, key: string): set<nat> {
    if step == Begin(key) then {}
    else if step.Reports? && step.key == key && step.commit then rest + {step.gen}
    else rest
  }

  /** The generations that commit reports named since the key's last write began. */
  function Commits(steps: seq<Step>, key: string): set<nat> {
    if steps == [] then {} else CommitsStep(Commits(steps[..|steps| - 1], key), steps[|steps| - 1], key)
  }

  function HeardStep(rest: set<nat>, step: Step, key: string): set<nat> {
    if step.SetMark? && step.key == key then {}
    else if step.Reports? && step.key == key then rest + {step.gen}
    else rest
  }

  /** The generations reported either way since the key was last marked. */
  function Heard(steps: seq<Step>, key: string): set<nat> {
    if steps == [] then {} else HeardStep(Heard(steps[..|steps| - 1], key), steps[|steps| - 1], key)
  }

  function ToldStep(rest: set<nat>, step: Step, key: string): set<nat> {
    if step.Reports? && step.key == key then rest + {step.gen} else rest
  }

  /** The generations ever reported. */
  function Told(steps: seq<Step>, key: string): set<nat> {
    if steps == [] then {} else ToldStep(Told(steps[..|steps| - 1], key), steps[|steps| - 1], key)
  }

  /** Whatever the steps, run or not: a check answers "committed" exactly if some commit
      report of its key came since the last write began. */
  lemma {:induction false} AnswerIs(steps: seq<Step>, key: string)
    ensures Answer(After(steps).tables, key) <==> Commits(steps, key) != {}
  {
    hide Apply;
    if steps != [] {
      var before, last := steps[..|steps| - 1], steps[|steps| - 1];
      AnswerIs(before, key);
      Elsewhere(After(before), last, key);
      if last.key == key { AnswerStep(After(before), last, Commits(before, key)); }
    }
  }

  lemma {:induction false} AnswerStep(w: World, step: Step, commits: set<nat>)
    requires Answer(w.tables, step.key) <==> commits != {}
    ensures Answer(Apply(w, step).tables, step.key) <==> CommitsStep(commits, step, step.key) != {}
  {
  }

  lemma {:induction false} Bookkeeping(steps: seq<Step>, key: string, n: nat)
    ensures At(After(steps), key).gen == Begun(steps, key)
    ensures n in At(After(steps), key).good <==> Reported(steps, key, n)
  {
    hide Reported; hide Apply; hide StateAfter;
    if steps == [] {
      NoneReported(key, n);
    } else {
      var before, last := steps[..|steps| - 1], steps[|steps| - 1];
      Bookkeeping(before, key, n);
      ReportedStep(steps, key, n);
      Elsewhere(After(before), last, key);
      StateKeeps(At(After(before), key), last, n);
    }
  }

  lemma {:induction false} StateKeeps(s: KeyState, step: Step, n: nat)
    ensures StateAfter(s, step).gen == s.gen + if step.Begin? then 1 else 0
    ensures n in StateAfter(s, step).good <==> n in s.good || (step.Reports? && step.gen == n && step.commit)
  {}

  lemma {:induction false} NoneReported(key: string, n: nat)
    ensures !Reported([], key, n)
  {}

  lemma {:induction false} ReportedStep(steps: seq<Step>, key: string, n: nat)
    requires steps != []
    ensures var m := |steps| - 1;
      Reported(steps, key, n) <==> Reported(steps[..m], key, n) || steps[m] == Reports(key, n, true)
  {
    var m := |steps| - 1;
    var rest := steps[..m];
    if Reported(rest, key, n) {
      var i :| 0 <= i < m && rest[i] == Reports(key, n, true);
      assert steps[i] == Reports(key, n, true);
    }
    if steps[m] == Reports(key, n, true) { assert Reported(steps, key, n); }
    if Reported(steps, key, n) && steps[m] != Reports(key, n, true) {
      var i :| 0 <= i < |steps| && steps[i] == Reports(key, n, true);
      assert rest[i] == Reports(key, n, true);
    }
  }

  // ------------------------------------------------------------------
  // In every run, with or without attempts that fail but reach the proxy.

  /** No report is for a write to come, and the latest write's own reports are among
      those heard since it began. */
  ghost predicate GensOk(t: Tables, key: string, s: KeyState, commits: set<nat>, heard: set<nat>, told: set<nat>) {
    CommitsOk(s, commits) && HeardOk(t, key, s, heard, told)
  }

  ghost predicate CommitsOk(s: KeyState, commits: set<nat>) {
    && (forall n :: n in s.owing ==> n <= s.gen) && (forall n :: n in s.good ==> n <= s.gen)
    && commits <= s.good && (s.gen in s.good <==> s.gen in commits)
  }

  ghost predicate HeardOk(t: Tables, key: string, s: KeyState, heard: set<nat>, told: set<nat>) {
    && (forall n :: n in s.owing ==> n <= s.gen) && (forall n :: n in told ==> n <= s.gen)
    && heard <= told && (s.stage.Forgot? ==> s.gen !in s.owing && s.gen !in told)
    && (s.stage.Marked? || s.stage.Sent? ==>
      (s.gen in told <==> s.gen in heard) && (key in t.updating <==> heard == {}))
  }

  lemma {:induction false} RunGens(steps: seq<Step>, key: string)
    requires Run(steps)
    ensures GensOk(After(steps).tables, key, At(After(steps), key), Commits(steps, key), Heard(steps, key),
      Told(steps, key))
  {
    hide Enabled; hide Apply; hide GensOk;
    if steps == [] {
      GensStart(key);
    } else {
      var n := |steps| - 1;
      RunPrefix(steps, n);
      RunGens(steps[..n], key);
      GensStep(steps, key);
    }
  }

  lemma {:induction false} GensStart(key: string)
    ensures GensOk(START.tables, key, At(START, key), {}, {}, {})
  {}

  lemma {:induction false} GensStep(steps: seq<Step>, key: string)
    requires steps != []
    requires var before := steps[..|steps| - 1];
      && Enabled(After(before), steps[|steps| - 1])
      && GensOk(After(before).tables, key, At(After(before), key), Commits(before, key), Heard(before, key),
        Told(before, key))
    ensures GensOk(After(steps).tables, key, At(After(steps), key), Commits(steps, key), Heard(steps, key),
      Told(steps, key))
  {
    hide Apply; hide StateAfter; hide CanStep;
    var before, last := steps[..|steps| - 1], steps[|steps| - 1];
    var w := After(before);
    Elsewhere(w, last, key);
    if last.key == key {
      hide GensOk;
      GensHere(w.tables, key, At(w, key), last, Commits(before, key), Heard(before, key), Told(before, key));
      TablesOf(w, last);
    }
  }

  lemma {:induction false} TablesOf(w: World, step: Step)
    ensures Apply(w, step).tables == TablesAfter(w.tables, At(w, step.key), step)
  {}

  lemma {:induction false} GensHere(t: Tables, key: string, s: KeyState, step: Step, commits: set<nat>, heard: set<nat>,
          told: set<nat>)
    requires step.key == key && CanStep(t, s, step) && GensOk(t, key, s, commits, heard, told)
    ensures GensOk(TablesAfter(t, s, step), key, StateAfter(s, step), CommitsStep(commits, step, key),
      HeardStep(heard, step, key), ToldStep(told, step, key))
  {
    hide CommitsOk; hide HeardOk; hide StateAfter; hide TablesAfter; hide CanStep;
    CommitsHere(t, s, step, commits);
    HeardHere(t, s, step, heard, told);
  }

  lemma {:induction false} CommitsHere(t: Tables, s: KeyState, step: Step, commits: set<nat>)
    requires CanStep(t, s, step) && CommitsOk(s, commits)
    ensures CommitsOk(StateAfter(s, step), CommitsStep(commits, step, step.key))
  {
    if step.Reports? {
      hide CommitsOk;
      CommitsReports(t, s, step, commits);
    }
  }

  lemma {:induction false} CommitsReports(t: Tables, s: KeyState, step: Step, commits: set<nat>)
    requires step.Reports? && CanStep(t, s, step) && CommitsOk(s, commits)
    ensures CommitsOk(StateAfter(s, step), CommitsStep(commits, step, step.key))
  {}

  lemma {:induction false} HeardHere(t: Tables, s: KeyState, step: Step, heard: set<nat>, told: set<nat>)
    requires CanStep(t, s, step) && HeardOk(t, step.key, s, heard, told)
    ensures HeardOk(TablesAfter(t, s, step), step.key, StateAfter(s, step), HeardStep(heard, step, step.key),
      ToldStep(told, step, step.key))
  {
    if step.Reports? {
      hide HeardOk;
      HeardReports(t, s, step, heard, told);
    }
  }

  lemma {:induction false} HeardReports(t: Tables, s: KeyState, step: Step, heard: set<nat>, told: set<nat>)
    requires step.Reports? && CanStep(t, s, step) && HeardOk(t, step.key, s, heard, told)
    ensures HeardOk(TablesAfter(t, s, step), step.key, StateAfter(s, step), HeardStep(heard, step, step.key),
      ToldStep(told, step, step.key))
  {}

  /** Some commit report came since the key's last write began, but each was for an
      older write. */
  ghost predicate LateCommit(steps: seq<Step>, key: string) {
    Commits(steps, key) != {} && forall n :: n in Commits(steps, key) ==> n < Begun(steps, key)
  }

  /** After any run, the answer is the latest write's, except exactly after a late commit. */
  lemma {:induction false} ExactAt(steps: seq<Step>, key: string)
    requires Run(steps)
    ensures Reported(steps, key, Begun(steps, key)) ==> Answer(After(steps).tables, key)
    ensures (Answer(After(steps).tables, key) <==> Reported(steps, key, Begun(steps, key))) <==> !LateCommit(steps, key)
  {
    hide Enabled; hide Apply; hide Run; hide Reported;
    RunGens(steps, key);
    AnswerIs(steps, key);
    Bookkeeping(steps, key, Begun(steps, key));
  }

  /** In every run a check answers for the latest write of its key, except exactly after
      a late commit. */
  lemma {:induction false} CheckExact(steps: seq<Step>, i: nat)
    requires Run(steps) && i < |steps| && steps[i].Check?
    ensures var key, before := steps[i].key, steps[..i];
      && (Reported(before, key, Begun(before, key)) ==> Answer(After(before).tables, key))
      && ((Answer(After(before).tables, key) <==> Reported(before, key, Begun(before, key))) <==>
        !LateCommit(before, key))
  {
    hide Enabled; hide Apply; hide Run; hide Reported;
    RunPrefix(steps, i);
    ExactAt(steps[..i], steps[i].key);
  }

  // ------------------------------------------------------------------
  // Whether a write can be answered for wrongly is settled when it begins.

  /** With no further write of the key, these steps lead to a check that answers "committed"
      for an unreported write. */
  ghost predicate Misleads(steps: seq<Step>, more: seq<Step>, key: string) {
    var all := steps + more;
    && Begin(key) !in more && Run(all) && Enabled(After(all), Check(key, false))
    && Answer(After(all).tables, key) && !Reported(all, key, Begun(all, key))
  }

  /** A write can be answered for wrongly exactly if a plan of an older write of its key is
      still to be reported when it begins. */
  lemma {:induction false} BeginDecides(steps: seq<Step>, key: string)
    requires Run(steps) && Enabled(After(steps), Begin(key))
    ensures (exists more :: Misleads(steps + [Begin(key)], more, key)) <==> At(After(steps), key).owing != multiset{}
  {
    hide Misleads; hide Run; hide Enabled; hide After;
    var begun := steps + [Begin(key)];
    RunStep(steps, Begin(key));
    if At(After(steps), key).owing != multiset{} {
      var n :| n in At(After(steps), key).owing;
      Misled(steps, key, n);
    } else {
      forall more ensures !Misleads(begun, more, key) {
        NotMisled(steps, more, key);
      }
    }
  }

  lemma {:induction false} RunStep(steps: seq<Step>, step: Step)
    requires Run(steps) && Enabled(After(steps), step)
    ensures Run(steps + [step]) && After(steps + [step]) == Apply(After(steps), step)
  {
    hide Enabled; hide Apply;
    var all := steps + [step];
    assert all[..|steps|] == steps;
    forall i | 0 <= i < |all| ensures Enabled(After(all[..i]), all[i]) {
      if i < |steps| { assert all[..i] == steps[..i]; }
    }
  }

  /** The late report does it, right after the key is marked. */
  lemma {:induction false} Misled(steps: seq<Step>, key: string, n: nat)
    requires Run(steps) && Enabled(After(steps), Begin(key)) && n in At(After(steps), key).owing
    ensures Misleads(steps + [Begin(key)], [SetMark(key, 0, 0), Reports(key, n, true)], key)
  {
    hide Run; hide After; hide GensOk; hide Reported;
    var s1, s2 := Begin(key), SetMark(key, 0, 0);
    var s3 := Reports(key, n, true);
    RunStep(steps, s1);
    RunStep(steps + [s1], s2);
    RunStep(steps + [s1] + [s2], s3);
    var all := steps + [s1] + [s2] + [s3];
    assert all == steps + [s1] + [s2, s3];
    OldOnes(steps, key);
    Bookkeeping(all, key, Begun(all, key));
  }

  lemma {:induction false} OldOnes(steps: seq<Step>, key: string)
    requires Run(steps)
    ensures var s := At(After(steps), key);
      (forall n :: n in s.owing ==> n <= s.gen) && forall n :: n in s.good ==> n <= s.gen
  {
    hide Run; hide After;
    RunGens(steps, key);
  }

  /** Only the latest write is owed, and only it has been reported since it began. */
  ghost predicate OnlyLatest(s: KeyState, commits: set<nat>) {
    (forall n :: n in s.owing ==> n == s.gen) && forall n :: n in commits ==> n == s.gen
  }

  lemma {:induction false} NotMisled(steps: seq<Step>, more: seq<Step>, key: string)
    requires Run(steps) && Enabled(After(steps), Begin(key)) && At(After(steps), key).owing == multiset{}
    ensures !Misleads(steps + [Begin(key)], more, key)
  {
    hide Run; hide After; hide Enabled; hide Reported; hide Apply;
    var begun := steps + [Begin(key)];
    if Misleads(begun, more, key) {
      RunStep(steps, Begin(key));
      Elsewhere(After(steps), Begin(key), key);
      NoneSince(steps, key);
      StaysLatest(begun, more, key);
      ExactAt(begun + more, key);
      Bookkeeping(begun + more, key, 0);
    }
  }

  lemma {:induction false} NoneSince(steps: seq<Step>, key: string)
    ensures Commits(steps + [Begin(key)], key) == {}
  {}

  lemma {:induction false} StaysLatest(steps: seq<Step>, more: seq<Step>, key: string)
    requires Run(steps + more) && Begin(key) !in more && OnlyLatest(At(After(steps), key), Commits(steps, key))
    ensures OnlyLatest(At(After(steps + more), key), Commits(steps + more, key))
  {
    hide Run; hide Enabled; hide Apply; hide OnlyLatest;
    if more == [] {
      assert steps + more == steps;
    } else {
      var all, m := steps + more, |more| - 1;
      var before, last := steps + more[..m], more[m];
      assert all[..|all| - 1] == before;
      RunPrefix(all, |all| - 1);
      StaysLatest(steps, more[..m], key);
      LastEnabled(all);
      LatestStep(After(before), last, key, Commits(before, key));
    }
  }

  lemma {:induction false} LastEnabled(steps: seq<Step>)
    requires Run(steps) && steps != []
    ensures Enabled(After(steps[..|steps| - 1]), steps[|steps| - 1])
  {}

  lemma {:induction false} LatestStep(w: World, step: Step, key: string, commits: set<nat>)
    requires Enabled(w, step) && step != Begin(key) && OnlyLatest(At(w, key), commits)
    ensures OnlyLatest(At(Apply(w, step), key), CommitsStep(commits, step, key))
  {
    hide Apply; hide StateAfter; hide CanStep; hide OnlyLatest;
    Elsewhere(w, step, key);
    if step.key == key { LatestHere(w.tables, At(w, key), step, commits); }
  }

  lemma {:induction false} LatestHere(t: Tables, s: KeyState, step: Step, commits: set<nat>)
    requires CanStep(t, s, step) && !step.Begin? && OnlyLatest(s, commits)
    ensures OnlyLatest(StateAfter(s, step), CommitsStep(commits, step, step.key))
  {
    if step.Reports? { assert forall n :: n in s.owing - multiset{step.gen} ==> n in s.owing; }
  }

  // ------------------------------------------------------------------
  // The writer's own check.

  /** Every report since the key was marked was for an older write. */
  ghost predicate LateAnswer(steps: seq<Step>, key: string) {
    forall n :: n in Heard(steps, key) ==> n < Begun(steps, key)
  }

  /** In every run the writer's own check returns after its write was reported or dropped,
      except exactly after a late answer. */
  lemma {:induction false} WriterExact(steps: seq<Step>, i: nat)
    requires Run(steps) && i < |steps| && steps[i].Check? && steps[i].done
    ensures var key, before := steps[i].key, steps[..i]; var stage := At(After(before), key).stage;
      && (stage.Dropped? || stage.Sent?)
      && (stage.Sent? ==>
            Heard(before, key) != {} && (Begun(before, key) in Told(before, key) <==> !LateAnswer(before, key)))
  {
    hide Apply;
    var key, before := steps[i].key, steps[..i];
    RunPrefix(steps, i);
    RunGens(before, key);
    Bookkeeping(before, key, 0);
    assert Enabled(After(before), steps[i]);
  }

  // ------------------------------------------------------------------
  // What rules a late report out: no failed attempt of the key reached the proxy.

  ghost predicate Faithful(steps: seq<Step>, key: string) {
    forall i :: 0 <= i < |steps| ==> steps[i] != AttemptFails(key, true)
  }

  /** What holds of such a key. */
  ghost predicate KeyOk(t: Tables, key: string, s: KeyState) {
    && (key in t.updating <==> s.stage.Marked? || (s.stage.Sent? && s.gen in s.owing))
    && (key in t.committed <==> s.gen in s.good)
    && (key in t.updating ==> t.updating[key].gen == s.gen)
    && (key in t.committed ==> t.committed[key].gen == s.gen)
    && (forall n :: n in s.owing ==> n == s.gen && s.owing[n] == 1 && s.stage.Sent?)
    && (forall n :: n in s.good ==> n <= s.gen)
    && (s.gen in s.good ==> s.gen !in s.owing && (s.stage.Sent? || s.stage.Quiet?))
  }

  lemma {:induction false} StepKeeps(w: World, step: Step, key: string)
    requires KeyOk(w.tables, key, At(w, key)) && Enabled(w, step) && step != AttemptFails(key, true)
    ensures KeyOk(Apply(w, step).tables, key, At(Apply(w, step), key))
  {
    hide Apply; hide StateAfter; hide CanStep;
    Elsewhere(w, step, key);
    if step.key == key {
      hide KeyOk;
      KeyHere(w.tables, At(w, key), step);
      TablesOf(w, step);
    }
  }

  lemma {:induction false} KeyHere(t: Tables, s: KeyState, step: Step)
    requires KeyOk(t, step.key, s) && CanStep(t, s, step) && step != AttemptFails(step.key, true)
    ensures KeyOk(TablesAfter(t, s, step), step.key, StateAfter(s, step))
  {
    if step.Reports? {
      hide KeyOk;
      KeyReports(t, s, step);
    }
  }

  lemma {:induction false} KeyReports(t: Tables, s: KeyState, step: Step)
    requires step.Reports? && KeyOk(t, step.key, s) && CanStep(t, s, step)
    ensures KeyOk(TablesAfter(t, s, step), step.key, StateAfter(s, step))
  {}

  lemma {:induction false} RunKeeps(steps: seq<Step>, key: string)
    requires Run(steps) && Faithful(steps, key)
    ensures KeyOk(After(steps).tables, key, At(After(steps), key))
  {
    hide Enabled; hide Apply; hide KeyOk;
    if steps == [] {
      StartOk(key);
    } else {
      var n := |steps| - 1;
      RunPrefix(steps, n);
      RunKeeps(steps[..n], key);
      StepKeeps(After(steps[..n]), steps[n], key);
    }
  }

  lemma {:induction false} StartOk(key: string)
    ensures KeyOk(START.tables, key, At(START, key))
  {}

  /** Then a check answers "committed" exactly if the latest write of its key was reported
      committed: no late commit can have come. */
  lemma {:induction false} CheckAnswers(steps: seq<Step>, i: nat)
    requires Run(steps) && i < |steps| && steps[i].Check? && Faithful(steps[..i], steps[i].key)
    ensures var key, before := steps[i].key, steps[..i];
      !LateCommit(before, key) && (Answer(After(before).tables, key) <==> Reported(before, key, Begun(before, key)))
  {
    hide Enabled; hide Apply; hide Run; hide Reported;
    var key, before := steps[i].key, steps[..i];
    RunPrefix(steps, i);
    RunKeeps(before, key);
    Bookkeeping(before, key, Begun(before, key));
    CheckExact(steps, i);
  }

  /** And the writer's own check returns only when its write was reported or dropped. */
  lemma {:induction false} WriterWaits(steps: seq<Step>, i: nat)
    requires Run(steps) && i < |steps| && steps[i].Check? && steps[i].done && Faithful(steps[..i], steps[i].key)
    ensures var key, before := steps[i].key, steps[..i]; var s := At(After(before), key);
      s.stage.Dropped? || (s.stage.Sent? && s.owing == multiset{} && Begun(before, key) in Told(before, key))
  {
    hide Apply; hide GensOk;
    var key, before := steps[i].key, steps[..i];
    var s := At(After(before), key);
    RunPrefix(steps, i);
    RunKeeps(before, key);
    OnlyOwn(before, key);
    WriterExact(steps, i);
    Bookkeeping(before, key, 0);
    assert Enabled(After(before), steps[i]);
  }

  /** Only the latest write's own reports are heard once it is marked. */
  lemma {:induction false} OnlyOwn(steps: seq<Step>, key: string)
    requires Run(steps) && Faithful(steps, key)
    ensures var s := At(After(steps), key);
      s.stage.Marked? || s.stage.Sent? ==> forall n :: n in Heard(steps, key) ==> n == s.gen
  {
    hide Enabled; hide Apply; hide KeyOk;
    if steps != [] {
      var n := |steps| - 1;
      RunPrefix(steps, n);
      RunKeeps(steps[..n], key);
      OnlyOwn(steps[..n], key);
      OwnStep(steps, key);
    }
  }

  lemma {:induction false} OwnStep(steps: seq<Step>, key: string)
    requires steps != []
    requires var before := steps[..|steps| - 1]; var s := At(After(before), key);
      && Enabled(After(before), steps[|steps| - 1]) && KeyOk(After(before).tables, key, s)
      && (s.stage.Marked? || s.stage.Sent? ==> forall n :: n in Heard(before, key) ==> n == s.gen)
    ensures var s := At(After(steps), key);
      s.stage.Marked? || s.stage.Sent? ==> forall n :: n in Heard(steps, key) ==> n == s.gen
  {
    hide Apply; hide TablesAfter;
    var before, last := steps[..|steps| - 1], steps[|steps| - 1];
    Elsewhere(After(before), last, key);
  }

  // ------------------------------------------------------------------
  // Why a failed attempt must have no effect.

  /** The first write is dropped although its first attempt reached the proxy; its
      late report then commits the second write, which nobody has reported. */
  function LateReport(key: string): seq<Step> {
    [Begin(key), SetMark(key, 0, 0), AttemptFails(key, true), AttemptFails(key, false),
     AttemptFails(key, false), Drop(key), Check(key, true),
     Begin(key), SetMark(key, 0, 0), Reports(key, 1, true), Check(key, false)]
  }

  ghost predicate Reaches(steps: seq<Step>, n: nat, w: World) {
    n <= |steps| && Run(steps[..n]) && After(steps[..n]) == w
  }

  lemma {:induction false} Extend(steps: seq<Step>, n: nat, w: World)
    requires Reaches(steps, n, w) && n < |steps| && Enabled(w, steps[n])
    ensures Reaches(steps, n + 1, Apply(w, steps[n]))
  {
    hide Enabled; hide Apply;
    AfterStep(steps, n);
    var more := steps[..n + 1];
    forall i | 0 <= i < |more| ensures Enabled(After(more[..i]), more[i]) {
      assert more[..i] == steps[..i];
      if i < n { assert steps[..n][..i] == steps[..i] && steps[..n][i] == steps[i]; }
    }
  }

  /** A world with one key: its mark, its commit and its state. */
  function Solo(key: string, mark: nat, commit: nat, s: KeyState): World {
    World(Tables(if mark == 0 then map[] else map[key := Info(0, 0, mark)],
      if commit == 0 then map[] else map[key := Info(0, 0, commit)]),
          map[key := s])
  }

  lemma {:induction false} Move(steps: seq<Step>, n: nat, key: string, mark: nat, commit: nat, s: KeyState, mark': nat,
          commit': nat, s': KeyState)
    requires Reaches(steps, n, Solo(key, mark, commit, s)) && n < |steps|
    requires Enabled(Solo(key, mark, commit, s), steps[n])
    requires Apply(Solo(key, mark, commit, s), steps[n]) == Solo(key, mark', commit', s')
    ensures Reaches(steps, n + 1, Solo(key, mark', commit', s'))
  {
    hide Enabled; hide Apply; hide Solo;
    Extend(steps, n, Solo(key, mark, commit, s));
  }

  lemma {:induction false} FirstMarked(key: string)
    ensures Reaches(LateReport(key), 2, Solo(key, 1, 0, KeyState(1, Marked(0), {}, multiset{})))
  {
    hide Reaches;
    var steps := LateReport(key);
    StartReached(steps);
    Extend(steps, 0, START);
    assert Apply(START, steps[0]) == Solo(key, 0, 0, KeyState(1, Forgot, {}, multiset{}));
    Move(steps, 1, key, 0, 0, KeyState(1, Forgot, {}, multiset{}), 1, 0, KeyState(1, Marked(0), {}, multiset{}));
  }

  lemma {:induction false} StartReached(steps: seq<Step>)
    ensures Reaches(steps, 0, START)
  {
    assert steps[..0] == [];
  }

  lemma {:induction false} FirstFailed(key: string)
    ensures Reaches(LateReport(key), 5, Solo(key, 1, 0, KeyState(1, Marked(3), {}, multiset{1})))
  {
    hide Reaches;
    var steps := LateReport(key);
    FirstMarked(key);
    assert multiset{} + multiset{1} == multiset{1};
    Move(steps, 2, key, 1, 0, KeyState(1, Marked(0), {}, multiset{}), 1, 0, KeyState(1, Marked(1), {}, multiset{1}));
    Move(steps, 3, key, 1, 0, KeyState(1, Marked(1), {}, multiset{1}), 1, 0, KeyState(1, Marked(2), {}, multiset{1}));
    Move(steps, 4, key, 1, 0, KeyState(1, Marked(2), {}, multiset{1}), 1, 0, KeyState(1, Marked(3), {}, multiset{1}));
  }

  lemma {:induction false} FirstDropped(key: string)
    ensures Reaches(LateReport(key), 7, Solo(key, 0, 0, KeyState(1, Quiet, {}, multiset{1})))
  {
    hide Reaches;
    var steps := LateReport(key);
    FirstFailed(key);
    Move(steps, 5, key, 1, 0, KeyState(1, Marked(3), {}, multiset{1}), 0, 0, KeyState(1, Dropped, {}, multiset{1}));
    Move(steps, 6, key, 0, 0, KeyState(1, Dropped, {}, multiset{1}), 0, 0, KeyState(1, Quiet, {}, multiset{1}));
  }

  lemma {:induction false} SecondCommitted(key: string)
    ensures Reaches(LateReport(key), 10, Solo(key, 0, 2, KeyState(2, Marked(0), {1}, multiset{})))
  {
    hide Reaches;
    var steps := LateReport(key);
    FirstDropped(key);
    Move(steps, 7, key, 0, 0, KeyState(1, Quiet, {}, multiset{1}), 0, 0, KeyState(2, Forgot, {}, multiset{1}));
    Move(steps, 8, key, 0, 0, KeyState(2, Forgot, {}, multiset{1}), 2, 0, KeyState(2, Marked(0), {}, multiset{1}));
    assert {} + {1} == {1} && multiset{1} - multiset{1} == multiset{};
    Move(steps, 9, key, 2, 0, KeyState(2, Marked(0), {}, multiset{1}), 0, 2, KeyState(2, Marked(0), {1}, multiset{}));
  }

  /** Without that assumption a check can answer "committed" for an unreported write. */
  lemma {:induction false} LateReportCommits(key: string)
    ensures var steps, before := LateReport(key), LateReport(key)[..10];
      && Run(steps) && steps[10].Check? && Answer(After(before).tables, key)
      && !Reported(before, key, Begun(before, key)) && LateCommit(before, key)
  {
    hide Apply; hide Run; hide Enabled; hide Reported; hide LateCommit; hide After;
    SecondCommitted(key);
    LateRun(key);
    var steps := LateReport(key);
    Bookkeeping(steps[..10], key, 2);
    CheckExact(steps, 10);
  }

  lemma {:induction false} LateRun(key: string)
    ensures Run(LateReport(key)) && Answer(After(LateReport(key)[..10]).tables, key)
  {
    hide Apply; hide Run;
    var steps := LateReport(key);
    SecondCommitted(key);
    Extend(steps, 10, Solo(key, 0, 2, KeyState(2, Marked(0), {1}, multiset{})));
    assert steps[..11] == steps;
  }
}
