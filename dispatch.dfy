/**
 * The dispatcher (`read_package`): a fixed table from three-letter workout
 * codes to training classes, whose constructor receives the sensor values
 * positionally.
 */
module Dispatch {
  import opened Results
  import opened Workouts
  import opened Info

  /** The training classes the table can name. */
  datatype Kind = SwimmingKind | RunningKind | WalkingKind

  /** Why reading a package fails. */
  datatype Fault =
    | UnknownCode(code: string)                 // the table lookup raises KeyError
    | WrongArity(kind: Kind, given: nat)        // the constructor call raises TypeError

  /** The lookup table of `read_package`. */
  const Table: map<string, Kind> := map["SWM" := SwimmingKind, "RUN" := RunningKind, "WLK" := WalkingKind]

  /**
   * How many positional values each constructor takes: the three base values
   * that go on to `Training.__init__`, then the class's own fields.
   */
  function Arity(k: Kind): (n: nat)
    ensures n >= 3
  {
    match k
    case SwimmingKind => 5
    case RunningKind => 3
    case WalkingKind => 4
  }

  /** Calls the class's constructor with the values in order. */
  function Construct(k: Kind, args: seq<real>): (w: Workout)
    requires |args| == Arity(k)
    ensures w.action == args[0] && w.duration == args[1] && w.weight == args[2]
    ensures k == WalkingKind ==> w.Walking? && w.height == args[3]
    ensures k == SwimmingKind ==> w.Swimming? && w.lengthPool == args[3] && w.countPool == args[4]
    ensures k == SwimmingKind <==> w.Swimming?
    ensures k == RunningKind <==> w.Running?
    ensures k == WalkingKind <==> w.Walking?
  {
    match k
    case SwimmingKind => Swimming(args[0], args[1], args[2], args[3], args[4])
    case RunningKind => Running(args[0], args[1], args[2])
    case WalkingKind => Walking(args[0], args[1], args[2], args[3])
  }

  /** The table knows exactly the three codes, each naming its class. */
  lemma TableEntries()
    ensures Table.Keys == {"SWM", "RUN", "WLK"}
    ensures Table["SWM"] == SwimmingKind && Table["RUN"] == RunningKind && Table["WLK"] == WalkingKind
  {
  }

  /**
   * A class's arity is exactly the number of its fields: constructing from
   * that many values and reading the fields back gives the same values, none
   * dropped and none reordered.
   */
  lemma ArityCountsFields(k: Kind, args: seq<real>)
    requires |args| == Arity(k)
    ensures PackageOf(Construct(k, args)).1 == args
  {
    match k
    case SwimmingKind => assert args == [args[0], args[1], args[2], args[3], args[4]];
    case RunningKind => assert args == [args[0], args[1], args[2]];
    case WalkingKind => assert args == [args[0], args[1], args[2], args[3]];
  }

  /**
   * `read_package(work_type, dt)`. The code is looked up first, so an
   * unknown code is reported even when the argument count is also wrong;
   * no default variant is ever returned.
   */
  function ReadPackage(code: string, args: seq<real>): (r: Result<Workout, Fault>)
    ensures code !in {"SWM", "RUN", "WLK"} ==> r == Err(UnknownCode(code))
    ensures r.Ok? <==> code in Table && |args| == Arity(Table[code])
  {
    if code !in Table then
      Err(UnknownCode(code))
    else
      var k := Table[code];
      if |args| != Arity(k) then Err(WrongArity(k, |args|)) else Ok(Construct(k, args))
  }

  /** The code and value list that describe a training: the inverse of `ReadPackage`. */
  function PackageOf(w: Workout): (p: (string, seq<real>))
  {
    match w
    case Swimming(a, d, m, l, c) => ("SWM", [a, d, m, l, c])
    case Running(a, d, m) => ("RUN", [a, d, m])
    case Walking(a, d, m, h) => ("WLK", [a, d, m, h])
  }

  /** Running takes three values: action, duration, weight. */
  lemma ReadRunning(action: real, duration: real, weight: real)
    ensures ReadPackage("RUN", [action, duration, weight]) == Ok(Running(action, duration, weight))
  {
  }

  /** Sports walking takes four values: action, duration, weight, height. */
  lemma ReadWalking(action: real, duration: real, weight: real, height: real)
    ensures ReadPackage("WLK", [action, duration, weight, height])
            == Ok(Walking(action, duration, weight, height))
  {
  }

  /** Swimming takes five values: action, duration, weight, pool length, pool count. */
  lemma ReadSwimming(action: real, duration: real, weight: real, lengthPool: real, countPool: real)
    ensures ReadPackage("SWM", [action, duration, weight, lengthPool, countPool])
            == Ok(Swimming(action, duration, weight, lengthPool, countPool))
  {
  }

  /** A known code with the wrong number of values fails with an arity fault naming the count. */
  lemma WrongArityFails(code: string, args: seq<real>)
    requires code in Table && |args| != Arity(Table[code])
    ensures ReadPackage(code, args) == Err(WrongArity(Table[code], |args|))
  {
  }

  /** Every training is read back from its own code and values. */
  lemma {:induction false} PackageRoundTrip(w: Workout)
    ensures ReadPackage(PackageOf(w).0, PackageOf(w).1) == Ok(w)
  {
    match w
    case Swimming(a, d, m, l, c) => ReadSwimming(a, d, m, l, c);
    case Running(a, d, m) => ReadRunning(a, d, m);
    case Walking(a, d, m, h) => ReadWalking(a, d, m, h);
  }

  /** Every successful read comes from exactly the code and values of the training it builds. */
  lemma ReadPackageIsInjective(code: string, args: seq<real>)
    requires ReadPackage(code, args).Ok?
    ensures PackageOf(ReadPackage(code, args).value) == (code, args)
  {
    var k := Table[code];
    match k
    case SwimmingKind => assert args == [args[0], args[1], args[2], args[3], args[4]];
    case RunningKind => assert args == [args[0], args[1], args[2]];
    case WalkingKind => assert args == [args[0], args[1], args[2], args[3]];
  }

  /** The label of the summary names the class the code selected. */
  lemma ReadPackageLabel(code: string, args: seq<real>)
    requires ReadPackage(code, args).Ok?
    ensures ClassName(ReadPackage(code, args).value)
            == if code == "RUN" then "Running" else if code == "WLK" then "SportsWalking" else "Swimming"
  {
  }
}
