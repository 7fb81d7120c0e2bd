/**
 * The parsing pipeline: a feeder process, parser processes and a collector
 * that hand files on through bounded queues, one step at a time.
 */
module ParsePipeline {
  import opened Options

  type File = string

  datatype FeederPc = Polling | Popping | Putting(file: File) | Stopped

  datatype ParserPc = Looking | Taking | Parsing(file: File) | Returning(file: File) | Ended

  datatype Parser = Parser(pc: ParserPc, pending: Option<File>)

  /** The collector: it gathers results, then tells the feeder and every parser to stop, and waits for them. */
  datatype MainPc = Collecting | Delivering(file: File) | Quitting | Stopping(sent: int) | Finished

  /** In the queue of jobs, None is the sentinel that stops a parser. */
  datatype State = State(todo: seq<File>, feeder: FeederPc, feederQuit: bool, jobs: seq<Option<File>>,
      parsers: seq<Parser>,
                         results: seq<File>, main: MainPc, delivered: seq<File>)

  ghost predicate Init(s: State, files: seq<File>) {
    && s.todo == files && files != [] && s.feeder == Polling && !s.feederQuit && s.jobs == [] && s.results == []
    && s.main == Collecting && s.delivered == [] && |s.parsers| > 0
    && forall i :: 0 <= i < |s.parsers| ==> s.parsers[i] == Parser(Looking, None)
  }

  // ----- the steps

  datatype Action =
    | FeederQuits | FeederPolls | FeederPops | FeederPuts | FeederFull
    | ParserLooks(i: int) | ParserTakes(i: int) | ParserEmpty(i: int)
    | ParserParses(i: int) | ParserReturns(i: int) | ParserFull(i: int)
    | MainEnds | MainGets | MainDelivers | MainQuits | MainSentinel | MainJoins

  ghost predicate IsParser(s: State, i: int) {
    0 <= i < |s.parsers|
  }

  ghost predicate AllStopped(s: State) {
    s.feeder == Stopped && forall i :: IsParser(s, i) ==> s.parsers[i].pc == Ended
  }

  ghost predicate Enabled(s: State, total: int, a: Action) {
    match a
    case FeederQuits => s.feeder == Polling && s.feederQuit
    case FeederPolls => s.feeder == Polling
    case FeederPops => s.feeder == Popping
    case FeederPuts => s.feeder.Putting? && |s.jobs| < |s.parsers|
    case FeederFull => s.feeder.Putting?
    case ParserLooks(i) => IsParser(s, i) && s.parsers[i].pc == Looking
    case ParserTakes(i) => IsParser(s, i) && s.parsers[i].pc == Taking && s.jobs != []
    case ParserEmpty(i) => IsParser(s, i) && s.parsers[i].pc == Taking
    case ParserParses(i) => IsParser(s, i) && s.parsers[i].pc.Parsing?
    case ParserReturns(i) => IsParser(s, i) && s.parsers[i].pc.Returning?
    case ParserFull(i) => IsParser(s, i) && s.parsers[i].pc.Returning?
    case MainEnds => s.main == Collecting && |s.delivered| >= total
    case MainGets => s.main == Collecting && |s.delivered| < total && s.results != []
    case MainDelivers => s.main.Delivering?
    case MainQuits => s.main == Quitting
    case MainSentinel => s.main.Stopping? && s.main.sent < |s.parsers| && |s.jobs| < |s.parsers|
    case MainJoins => s.main.Stopping? && s.main.sent >= |s.parsers| && AllStopped(s)
  }

  ghost function Become(s: State, i: int, p: Parser): State
    requires IsParser(s, i)
  {
    s.(parsers := s.parsers[i := p])
  }

  ghost function After(s: State, total: int, a: Action): State
    requires Enabled(s, total, a)
  {
    match a
    case FeederQuits => s.(feeder := Stopped, feederQuit := false)
    case FeederPolls => s.(feeder := Popping)
    case FeederPops =>
      if s.todo == [] then s.(feeder := Stopped)
      else s.(todo := s.todo[..|s.todo| - 1], feeder := Putting(s.todo[|s.todo| - 1]))
    case FeederPuts => s.(jobs := s.jobs + [Some(s.feeder.file)], feeder := Polling)
    case FeederFull => s.(todo := [s.feeder.file] + s.todo, feeder := Polling)
    case ParserLooks(i) =>
      var p := s.parsers[i];
      Become(s, i, if p.pending.Some? then Parser(Returning(p.pending.value), None) else p.(pc := Taking))
    case ParserTakes(i) =>
      Become(s.(jobs := s.jobs[1..]), i, s.parsers[i].(pc := if s.jobs[0].Some? then Parsing(s.jobs[0].value)
        else Ended))
    case ParserEmpty(i) => Become(s, i, s.parsers[i].(pc := Looking))
    case ParserParses(i) => Become(s, i, s.parsers[i].(pc := Returning(s.parsers[i].pc.file)))
    case ParserReturns(i) =>
      Become(s.(results := s.results + [s.parsers[i].pc.file]), i, s.parsers[i].(pc := Looking))
    case ParserFull(i) => Become(s, i, Parser(Looking, Some(s.parsers[i].pc.file)))
    case MainEnds => s.(main := Quitting)
    case MainGets => s.(main := Delivering(s.results[0]), results := s.results[1..])
    case MainDelivers => s.(main := Collecting, delivered := s.delivered + [s.main.file])
    case MainQuits => s.(main := Stopping(0), feederQuit := true)
    case MainSentinel => s.(main := Stopping(s.main.sent + 1), jobs := s.jobs + [None])
    case MainJoins => s.(main := Finished)
  }

  // ----- where the files are

  /** Files are counted by weights: by one each, or by whether they are a given file. */
  type Weight = File -> int

  ghost function Weigh(files: seq<File>, w: Weight): int {
    if files == [] then 0 else w(files[0]) + Weigh(files[1..], w)
  }

  ghost function Hand(p: Parser, w: Weight): int {
    (match p.pc
     case Parsing(f) => w(f)
     case Returning(f) => w(f)
     case _ => 0)
    + (if p.pending.Some? then w(p.pending.value) else 0)
  }

  ghost function Hands(ps: seq<Parser>, w: Weight): int {
    if ps == [] then 0 else Hand(ps[0], w) + Hands(ps[1..], w)
  }

  ghost function Queued(jobs: seq<Option<File>>, w: Weight): int {
    if jobs == [] then 0 else (if jobs[0].Some? then w(jobs[0].value) else 0) + Queued(jobs[1..], w)
  }

  ghost function FeederHand(f: FeederPc, w: Weight): int {
    if f.Putting? then w(f.file) else 0
  }

  ghost function MainHand(m: MainPc, w: Weight): int {
    if m.Delivering? then w(m.file) else 0
  }

  /** What all files weigh, wherever they are. */
  ghost function Everywhere(s: State, w: Weight): int {
    Weigh(s.todo, w) + FeederHand(s.feeder, w) + Queued(s.jobs, w) + Hands(s.parsers, w) + Weigh(s.results, w)
      + MainHand(s.main, w)
    + Weigh(s.delivered, w)
  }

  lemma {:induction false} HandsUpdate(ps: seq<Parser>, i: int, p: Parser, w: Weight)
    requires 0 <= i < |ps|
    ensures Hands(ps[i := p], w) + Hand(ps[i], w) == Hands(ps, w) + Hand(p, w)
  {
    hide Hand;
    if i == 0 {
      assert ps[i := p][1..] == ps[1..];
    } else {
      HandsUpdate(ps[1..], i - 1, p, w);
      assert ps[i := p][1..] == ps[1..][i - 1 := p];
    }
  }

  lemma {:induction false} QueuedLast(jobs: seq<Option<File>>, j: Option<File>, w: Weight)
    ensures Queued(jobs + [j], w) == Queued(jobs, w) + if j.Some? then w(j.value) else 0
  {
    if jobs == [] {
      assert jobs + [j] == [j];
    } else {
      QueuedLast(jobs[1..], j, w);
      assert (jobs + [j])[1..] == jobs[1..] + [j];
    }
  }

  lemma {:induction false} WeighLast(files: seq<File>, f: File, w: Weight)
    ensures Weigh(files + [f], w) == Weigh(files, w) + w(f)
  {
    if files == [] {
      assert files + [f] == [f];
    } else {
      WeighLast(files[1..], f, w);
      assert (files + [f])[1..] == files[1..] + [f];
    }
  }

  ghost function Count(jobs: seq<Option<File>>): int {
    if jobs == [] then 0 else (if jobs[0].None? then 1 else 0) + Count(jobs[1..])
  }

  ghost function EndedAmong(ps: seq<Parser>): int {
    if ps == [] then 0 else (if ps[0].pc.Ended? then 1 else 0) + EndedAmong(ps[1..])
  }

  lemma {:induction false} CountLast(jobs: seq<Option<File>>, j: Option<File>)
    ensures Count(jobs + [j]) == Count(jobs) + if j.None? then 1 else 0
  {
    if jobs == [] {
      assert jobs + [j] == [j];
    } else {
      CountLast(jobs[1..], j);
      assert (jobs + [j])[1..] == jobs[1..] + [j];
    }
  }

  lemma {:induction false} EndedUpdate(ps: seq<Parser>, i: int, p: Parser)
    requires 0 <= i < |ps|
    ensures EndedAmong(ps[i := p]) == EndedAmong(ps) - (if ps[i].pc.Ended? then 1 else 0)
      + (if p.pc.Ended? then 1 else 0)
  {
    if i == 0 {
      assert ps[i := p][1..] == ps[1..];
    } else {
      EndedUpdate(ps[1..], i - 1, p);
      assert ps[i := p][1..] == ps[1..][i - 1 := p];
    }
  }

  // ----- the invariant

  ghost predicate Working(s: State) {
    Count(s.jobs) == 0 && EndedAmong(s.parsers) == 0 && !s.feederQuit && (s.feeder == Stopped ==> s.todo == [])
  }

  ghost predicate PhaseOk(s: State, total: int) {
    match s.main
    case Collecting => Working(s)
    case Delivering(_) => Working(s)
    case Quitting => Working(s) && |s.delivered| >= total
    case Stopping(k) => 0 <= k <= |s.parsers| && Count(s.jobs) + EndedAmong(s.parsers) == k && |s.delivered| >= total
    case Finished => AllStopped(s) && |s.delivered| >= total
  }

  ghost predicate Inv(s: State, files: seq<File>) {
    && (forall w :: Everywhere(s, w) == Weigh(files, w))
    && |s.parsers| > 0 && |s.jobs| <= |s.parsers|
    && OneAtATime(s)
    && PhaseOk(s, |files|)
  }

  // ----- every step keeps it

  ghost predicate OneAtATime(s: State) {
    forall i :: IsParser(s, i) && s.parsers[i].pending.Some? ==> s.parsers[i].pc == Looking
  }

  ghost predicate ByFeeder(a: Action) {
    a.FeederQuits? || a.FeederPolls? || a.FeederPops? || a.FeederPuts? || a.FeederFull?
  }

  ghost predicate ByMain(a: Action) {
    a.MainEnds? || a.MainGets? || a.MainDelivers? || a.MainQuits? || a.MainSentinel? || a.MainJoins?
  }

  lemma FeederConserves(s: State, total: int, a: Action, w: Weight)
    requires Enabled(s, total, a) && ByFeeder(a)
    ensures Everywhere(After(s, total, a), w) == Everywhere(s, w)
  {
    hide Hands;
    hide Queued;
    var t := After(s, total, a);
    match a {
      case FeederPops =>
        if s.todo != [] {
          WeighLast(t.todo, s.todo[|s.todo| - 1], w);
          assert s.todo == t.todo + [s.todo[|s.todo| - 1]];
        }
      case FeederPuts => QueuedLast(s.jobs, Some(s.feeder.file), w);
      case FeederFull => assert t.todo[1..] == s.todo;
      case _ =>
    }
  }

  lemma MainConserves(s: State, total: int, a: Action, w: Weight)
    requires Enabled(s, total, a) && ByMain(a)
    ensures Everywhere(After(s, total, a), w) == Everywhere(s, w)
  {
    hide Hands;
    hide Queued;
    match a {
      case MainSentinel => QueuedLast(s.jobs, None, w);
      case MainDelivers => WeighLast(s.delivered, s.main.file, w);
      case _ =>
    }
  }

  lemma ParserConserves(s: State, total: int, a: Action, w: Weight)
    requires Enabled(s, total, a) && !ByFeeder(a) && !ByMain(a) && OneAtATime(s)
    ensures Everywhere(After(s, total, a), w) == Everywhere(s, w)
  {
    hide Hands;
    var t := After(s, total, a);
    HandsUpdate(s.parsers, a.i, t.parsers[a.i], w);
    match a {
      case ParserReturns(i) => WeighLast(s.results, s.parsers[i].pc.file, w);
      case _ =>
    }
  }

  lemma Conserved(s: State, total: int, a: Action, w: Weight)
    requires Enabled(s, total, a) && OneAtATime(s)
    ensures Everywhere(After(s, total, a), w) == Everywhere(s, w)
  {
    if ByFeeder(a) {
      FeederConserves(s, total, a, w);
    } else if ByMain(a) {
      MainConserves(s, total, a, w);
    } else {
      ParserConserves(s, total, a, w);
    }
  }

  /** With all files delivered, nothing is left anywhere else. */
  ghost predicate Drained(s: State) {
    s.todo == [] && !s.feeder.Putting? && Queued(s.jobs, One()) == 0 && Hands(s.parsers, One()) == 0 && s.results == []
      && !s.main.Delivering?
  }

  ghost function One(): Weight {
    (f: File) => 1
  }

  ghost function Is(g: File): Weight {
    (f: File) => if f == g then 1 else 0
  }

  lemma {:induction false} WeighOne(files: seq<File>)
    ensures Weigh(files, One()) == |files|
  {
    if files != [] {
      WeighOne(files[1..]);
    }
  }

  lemma {:induction false} WeighIs(files: seq<File>, g: File)
    ensures Weigh(files, Is(g)) == multiset(files)[g]
  {
    if files != [] {
      WeighIs(files[1..], g);
      assert files == [files[0]] + files[1..];
    }
  }

  lemma {:induction false} HandsNatural(ps: seq<Parser>)
    ensures Hands(ps, One()) >= 0
  {
    if ps != [] {
      HandsNatural(ps[1..]);
    }
  }

  lemma {:induction false} QueuedNatural(jobs: seq<Option<File>>)
    ensures Queued(jobs, One()) == |jobs| - Count(jobs) && 0 <= Count(jobs) <= |jobs|
  {
    if jobs != [] {
      QueuedNatural(jobs[1..]);
    }
  }

  lemma DeliveredAll(s: State, files: seq<File>)
    requires (forall w :: Everywhere(s, w) == Weigh(files, w)) && |s.delivered| >= |files|
    ensures Drained(s) && |s.delivered| == |files|
  {
    assert Everywhere(s, One()) == Weigh(files, One());
    WeighOne(files);
    WeighOne(s.todo);
    WeighOne(s.results);
    WeighOne(s.delivered);
    HandsNatural(s.parsers);
    QueuedNatural(s.jobs);
  }

  /** The files delivered are the files to parse, each as often. */
  lemma ExactlyOnce(s: State, files: seq<File>)
    requires (forall w :: Everywhere(s, w) == Weigh(files, w)) && |s.delivered| >= |files|
    ensures multiset(s.delivered) == multiset(files)
  {
    DeliveredAll(s, files);
    forall g ensures multiset(s.delivered)[g] == multiset(files)[g] {
      assert Everywhere(s, Is(g)) == Weigh(files, Is(g));
      NothingHeld(s, Is(g));
      WeighIs(s.delivered, g);
      WeighIs(files, g);
    }
  }

  lemma NothingHeld(s: State, w: Weight)
    requires Drained(s)
    ensures Everywhere(s, w) == Weigh(s.delivered, w)
  {
    EmptyHands(s.parsers, w);
    EmptyQueue(s.jobs, w);
  }

  lemma {:induction false} EmptyHands(ps: seq<Parser>, w: Weight)
    requires Hands(ps, One()) == 0
    ensures Hands(ps, w) == 0
  {
    if ps != [] {
      HandsNatural(ps[1..]);
      EmptyHands(ps[1..], w);
    }
  }

  lemma {:induction false} EmptyQueue(jobs: seq<Option<File>>, w: Weight)
    requires Queued(jobs, One()) == 0
    ensures Queued(jobs, w) == 0
  {
    if jobs != [] {
      QueuedNatural(jobs[1..]);
      EmptyQueue(jobs[1..], w);
    }
  }

  // ----- phases

  lemma {:induction false} EndedRange(ps: seq<Parser>)
    ensures 0 <= EndedAmong(ps) <= |ps|
    ensures EndedAmong(ps) == 0 ==> forall i :: 0 <= i < |ps| ==> !ps[i].pc.Ended?
    ensures EndedAmong(ps) < |ps| ==> exists i :: 0 <= i < |ps| && !ps[i].pc.Ended?
  {
    if ps != [] {
      EndedRange(ps[1..]);
      if !ps[0].pc.Ended? {
        forall i | 0 < i < |ps| && EndedAmong(ps) == 0 ensures !ps[i].pc.Ended? {
          assert ps[i] == ps[1..][i - 1];
        }
      } else if EndedAmong(ps) < |ps| {
        var i :| 0 <= i < |ps[1..]| && !ps[1..][i].pc.Ended?;
        assert ps[i + 1] == ps[1..][i];
      }
    }
  }

  lemma CountStep(s: State, total: int, a: Action)
    requires Enabled(s, total, a)
    ensures var t := After(s, total, a);
      Count(t.jobs) + EndedAmong(t.parsers) == Count(s.jobs) + EndedAmong(s.parsers) + if a == MainSentinel then 1
        else 0
    ensures Count(s.jobs) == 0 && a != MainSentinel ==> Count(After(s, total, a).jobs) == 0
  {
    var t := After(s, total, a);
    QueuedNatural(s.jobs);
    QueuedNatural(t.jobs);
    if a == MainSentinel {
      CountLast(s.jobs, None);
    } else if a == FeederPuts {
      CountLast(s.jobs, Some(s.feeder.file));
    } else if !ByFeeder(a) && !ByMain(a) {
      EndedUpdate(s.parsers, a.i, t.parsers[a.i]);
    }
  }

  lemma PhaseStep(s: State, files: seq<File>, a: Action)
    requires Inv(s, files) && Enabled(s, |files|, a)
    ensures PhaseOk(After(s, |files|, a), |files|)
  {
    hide Everywhere;
    hide Count;
    hide EndedAmong;
    CountStep(s, |files|, a);
    QueuedNatural(s.jobs);
    EndedRange(s.parsers);
    QueuedNatural(After(s, |files|, a).jobs);
    EndedRange(After(s, |files|, a).parsers);
  }

  lemma StepKeeps(s: State, files: seq<File>, a: Action)
    requires Inv(s, files) && Enabled(s, |files|, a)
    ensures Inv(After(s, |files|, a), files)
  {
    var t := After(s, |files|, a);
    forall w ensures Everywhere(t, w) == Weigh(files, w) {
      Conserved(s, |files|, a, w);
    }
    PhaseStep(s, files, a);
    hide Everywhere;
    hide PhaseOk;
  }

  lemma {:induction false} Idle(ps: seq<Parser>, w: Weight)
    requires forall i :: 0 <= i < |ps| ==> ps[i] == Parser(Looking, None)
    ensures Hands(ps, w) == 0 && EndedAmong(ps) == 0
  {
    if ps != [] {
      Idle(ps[1..], w);
    }
  }

  lemma InitInv(s: State, files: seq<File>)
    requires Init(s, files)
    ensures Inv(s, files)
  {
    forall w ensures Everywhere(s, w) == Weigh(files, w) {
      Idle(s.parsers, w);
    }
    Idle(s.parsers, One());
  }

  // ----- whole runs

  ghost predicate Step(s: State, total: int, t: State) {
    exists a :: Enabled(s, total, a) && t == After(s, total, a)
  }

  ghost predicate Run(run: seq<State>, files: seq<File>) {
    && |run| > 0 && Init(run[0], files)
    && forall i :: 0 < i < |run| ==> Step(run[i - 1], |files|, run[i])
  }

  lemma {:induction false} Reachable(run: seq<State>, files: seq<File>, i: nat)
    requires Run(run, files) && i < |run|
    ensures Inv(run[i], files)
  {
    if i == 0 {
      InitInv(run[0], files);
    } else {
      Reachable(run, files, i - 1);
      assert Step(run[i - 1], |files|, run[i]);
      var a :| Enabled(run[i - 1], |files|, a) && run[i] == After(run[i - 1], |files|, a);
      StepKeeps(run[i - 1], files, a);
    }
  }

  /** The generator of results ends only when every file has been delivered exactly as often as it was to be parsed. */
  lemma EndsComplete(run: seq<State>, files: seq<File>, i: nat)
    requires Run(run, files) && i < |run| && Enabled(run[i], |files|, MainEnds)
    ensures multiset(run[i].delivered) == multiset(files)
  {
    Reachable(run, files, i);
    ExactlyOnce(run[i], files);
  }

  /** A finished run has delivered every file and stopped every process. */
  lemma FinishedRun(run: seq<State>, files: seq<File>, i: nat)
    requires Run(run, files) && i < |run| && run[i].main == Finished
    ensures multiset(run[i].delivered) == multiset(files) && AllStopped(run[i])
  {
    Reachable(run, files, i);
    ExactlyOnce(run[i], files);
  }

  // ----- no stall

  /** A step that is no time-out and no look at an empty queue. */
  ghost predicate Useful(s: State, a: Action) {
    && !a.FeederFull? && !a.ParserEmpty? && !a.ParserFull?
    && (a.ParserLooks? && IsParser(s, a.i) ==> s.parsers[a.i].pending.Some? || s.jobs != [])
  }

  ghost predicate CanProceed(s: State, total: int) {
    exists a :: Enabled(s, total, a) && Useful(s, a)
  }

  lemma ParserCan(s: State, total: int, i: int)
    requires IsParser(s, i) && !s.parsers[i].pc.Ended? && (s.jobs != [] || Hand(s.parsers[i], One()) > 0)
      && OneAtATime(s)
    ensures CanProceed(s, total)
  {
    match s.parsers[i].pc {
      case Looking => assert Enabled(s, total, ParserLooks(i)) && Useful(s, ParserLooks(i));
      case Taking => assert Enabled(s, total, ParserTakes(i)) && Useful(s, ParserTakes(i));
      case Parsing(_) => assert Enabled(s, total, ParserParses(i)) && Useful(s, ParserParses(i));
      case Returning(_) => assert Enabled(s, total, ParserReturns(i)) && Useful(s, ParserReturns(i));
    }
  }

  lemma {:induction false} SomeHand(ps: seq<Parser>) returns (i: int)
    requires Hands(ps, One()) > 0
    ensures 0 <= i < |ps| && Hand(ps[i], One()) > 0
  {
    if Hand(ps[0], One()) > 0 {
      i := 0;
    } else {
      var j := SomeHand(ps[1..]);
      i := j + 1;
    }
  }

  lemma FeederCan(s: State, total: int)
    requires s.feeder == Polling || s.feeder == Popping || (s.feeder.Putting? && |s.jobs| < |s.parsers|)
    ensures CanProceed(s, total)
  {
    if s.feeder == Polling {
      assert Enabled(s, total, FeederPolls) && Useful(s, FeederPolls);
    } else if s.feeder == Popping {
      assert Enabled(s, total, FeederPops) && Useful(s, FeederPops);
    } else {
      assert Enabled(s, total, FeederPuts) && Useful(s, FeederPuts);
    }
  }

  lemma CollectingCan(s: State, files: seq<File>)
    requires Inv(s, files) && s.main == Collecting && |s.delivered| < |files|
    ensures CanProceed(s, |files|)
  {
    EndedRange(s.parsers);
    if s.results != [] {
      assert Enabled(s, |files|, MainGets) && Useful(s, MainGets);
    } else if s.feeder != Stopped && (s.feeder.Putting? ==> |s.jobs| < |s.parsers|) {
      FeederCan(s, |files|);
    } else if s.jobs != [] {
      ParserCan(s, |files|, 0);
    } else {
      assert Everywhere(s, One()) == Weigh(files, One());
      WeighOne(files);
      WeighOne(s.delivered);
      var i := SomeHand(s.parsers);
      ParserCan(s, |files|, i);
    }
  }

  lemma StoppingCan(s: State, files: seq<File>)
    requires Inv(s, files) && s.main.Stopping?
    ensures CanProceed(s, |files|)
  {
    DeliveredAll(s, files);
    QueuedNatural(s.jobs);
    EndedRange(s.parsers);
    if s.main.sent < |s.parsers| {
      assert Enabled(s, |files|, MainSentinel) && Useful(s, MainSentinel);
    } else if s.feeder != Stopped {
      FeederCan(s, |files|);
    } else if i :| IsParser(s, i) && s.parsers[i].pc != Ended {
      if s.jobs == [] {
        AllEnded(s.parsers, i);
      }
      ParserCan(s, |files|, i);
    } else {
      assert Enabled(s, |files|, MainJoins) && Useful(s, MainJoins);
    }
  }

  lemma {:induction false} AllEnded(ps: seq<Parser>, i: int)
    requires 0 <= i < |ps| && ps[i].pc != Ended
    ensures EndedAmong(ps) < |ps|
  {
    EndedRange(ps[1..]);
    if i > 0 {
      AllEnded(ps[1..], i - 1);
    }
  }

  /** As long as a run has not finished, some process can take a step that brings it on. */
  lemma NoStall(run: seq<State>, files: seq<File>, i: nat)
    requires Run(run, files) && i < |run| && run[i].main != Finished
    ensures CanProceed(run[i], |files|)
  {
    var s := run[i];
    Reachable(run, files, i);
    match s.main {
      case Collecting =>
        if |s.delivered| < |files| {
          CollectingCan(s, files);
        } else {
          assert Enabled(s, |files|, MainEnds) && Useful(s, MainEnds);
        }
      case Delivering(_) => assert Enabled(s, |files|, MainDelivers) && Useful(s, MainDelivers);
      case Quitting => assert Enabled(s, |files|, MainQuits) && Useful(s, MainQuits);
      case Stopping(_) => StoppingCan(s, files);
    }
  }

  // ----- an end in sight

  /** The useful steps still ahead of a job: None is a sentinel. */
  ghost function JobAhead(j: Option<File>): int {
    if j.Some? then 9 else 1
  }

  ghost function JobsAhead(jobs: seq<Option<File>>): int {
    if jobs == [] then 0 else JobAhead(jobs[0]) + JobsAhead(jobs[1..])
  }

  ghost function ParserAhead(p: Parser): int {
    (match p.pc
     case Looking => 2
     case Taking => 1
     case Parsing(_) => 6
     case Returning(_) => 5
     case Ended => 0)
    + (if p.pending.Some? then 6 else 0)
  }

  ghost function ParsersAhead(ps: seq<Parser>): int {
    if ps == [] then 0 else ParserAhead(ps[0]) + ParsersAhead(ps[1..])
  }

  ghost function FeederAhead(f: FeederPc): int {
    match f
    case Polling => 2
    case Popping => 1
    case Putting(_) => 12
    case Stopped => 0
  }

  ghost function MainAhead(m: MainPc, parsers: nat): int {
    match m
    case Collecting => 2 * parsers + 3
    case Delivering(_) => 2 * parsers + 4
    case Quitting => 2 * parsers + 2
    case Stopping(k) => 2 * (parsers - k) + 1
    case Finished => 0
  }

  /** A bound on the useful steps that a state has ahead of it. */
  ghost function Ahead(s: State): int {
    12 * |s.todo| + FeederAhead(s.feeder) + JobsAhead(s.jobs) + ParsersAhead(s.parsers) + 2 * |s.results|
    + MainAhead(s.main, |s.parsers|)
  }

  lemma {:induction false} JobsLast(jobs: seq<Option<File>>, j: Option<File>)
    ensures JobsAhead(jobs + [j]) == JobsAhead(jobs) + JobAhead(j)
  {
    if jobs == [] {
      assert jobs + [j] == [j];
    } else {
      JobsLast(jobs[1..], j);
      assert (jobs + [j])[1..] == jobs[1..] + [j];
    }
  }

  lemma {:induction false} ParsersUpdate(ps: seq<Parser>, i: int, p: Parser)
    requires 0 <= i < |ps|
    ensures ParsersAhead(ps[i := p]) == ParsersAhead(ps) - ParserAhead(ps[i]) + ParserAhead(p)
  {
    hide ParserAhead;
    if i == 0 {
      assert ps[i := p][1..] == ps[1..];
    } else {
      ParsersUpdate(ps[1..], i - 1, p);
      assert ps[i := p][1..] == ps[1..][i - 1 := p];
    }
  }

  lemma {:induction false} JobsNatural(jobs: seq<Option<File>>)
    ensures JobsAhead(jobs) >= 0
  {
    if jobs != [] {
      JobsNatural(jobs[1..]);
    }
  }

  lemma {:induction false} ParsersNatural(ps: seq<Parser>)
    ensures ParsersAhead(ps) >= 0
  {
    if ps != [] {
      ParsersNatural(ps[1..]);
    }
  }

  /** Every useful step brings the end nearer. */
  lemma StepFalls(s: State, files: seq<File>, a: Action)
    requires Inv(s, files) && Enabled(s, |files|, a) && Useful(s, a)
    ensures 0 <= Ahead(After(s, |files|, a)) < Ahead(s)
  {
    hide Everywhere;
    hide ParsersAhead;
    var t := After(s, |files|, a);
    PhaseStep(s, files, a);
    JobsNatural(t.jobs);
    ParsersNatural(t.parsers);
    if a.FeederPuts? {
      JobsLast(s.jobs, Some(s.feeder.file));
    } else if a.MainSentinel? {
      JobsLast(s.jobs, None);
    } else if !ByFeeder(a) && !ByMain(a) {
      ParsersUpdate(s.parsers, a.i, t.parsers[a.i]);
    }
  }

  ghost predicate UsefulStep(s: State, total: int, t: State) {
    exists a :: Enabled(s, total, a) && Useful(s, a) && t == After(s, total, a)
  }

  /** A run that takes only useful steps from some point on has no more steps from there than the bound says. */
  lemma {:induction false} UsefulRunEnds(run: seq<State>, files: seq<File>, i: nat, j: nat)
    requires Run(run, files) && i <= j < |run|
    requires forall k :: i < k <= j ==> UsefulStep(run[k - 1], |files|, run[k])
    ensures j - i <= Ahead(run[i]) - Ahead(run[j])
    ensures i < j ==> Ahead(run[j]) >= 0
    decreases j
  {
    hide Enabled;
    hide Useful;
    hide After;
    hide Ahead;
    if i < j {
      UsefulRunEnds(run, files, i, j - 1);
      Reachable(run, files, j - 1);
      assert UsefulStep(run[j - 1], |files|, run[j]);
      var a :| Enabled(run[j - 1], |files|, a) && Useful(run[j - 1], a) && run[j] == After(run[j - 1], |files|, a);
      StepFalls(run[j - 1], files, a);
    }
  }

  lemma Extended(run: seq<State>, files: seq<File>, t: State)
    requires Run(run, files) && UsefulStep(run[|run| - 1], |files|, t)
    ensures Run(run + [t], files)
  {
    hide Enabled;
    hide Useful;
    hide After;
    var more := run + [t];
    assert Step(run[|run| - 1], |files|, t);
    forall k | 0 < k < |more| ensures Step(more[k - 1], |files|, more[k]) {
      assert k < |run| ==> more[k - 1] == run[k - 1] && more[k] == run[k] && Step(run[k - 1], |files|, run[k]);
    }
  }

  /** Every run can be brought to its end by useful steps alone. */
  lemma {:induction false} Finishes(run: seq<State>, files: seq<File>) returns (more: seq<State>)
    requires Run(run, files)
    ensures run <= more && Run(more, files) && more[|more| - 1].main == Finished
    ensures forall k :: |run| <= k < |more| ==> UsefulStep(more[k - 1], |files|, more[k])
    decreases Ahead(run[|run| - 1])
  {
    hide Ahead;
    hide Enabled;
    hide Useful;
    hide After;
    hide Init;
    var s := run[|run| - 1];
    if s.main == Finished {
      more := run;
    } else {
      NoStall(run, files, |run| - 1);
      Reachable(run, files, |run| - 1);
      var a :| Enabled(s, |files|, a) && Useful(s, a);
      var t := After(s, |files|, a);
      assert UsefulStep(s, |files|, t);
      StepFalls(s, files, a);
      Extended(run, files, t);
      more := Finishes(run + [t], files);
      assert more[|run| - 1] == s && more[|run|] == t;
    }
  }
}
