/**
 * read_package: the registry of workout codes and the construction of a
 * workout from a code and a positional argument list.
 */
module Packages {

  import opened Wrappers
  import opened Workouts

  /** The classes the registry maps to, one per workout code. */
  datatype WorkoutType = Swim | Run | Walk

  /** The code under which the registry lists a class. */
  function Code(w: WorkoutType): string
  {
    match w
    case Swim => "SWM"
    case Run => "RUN"
    case Walk => "WLK"
  }

  /** Number of constructor parameters: (action, duration, weight) plus the extras. */
  function Arity(w: WorkoutType): nat
  {
    match w
    case Swim => 5
    case Run => 3
    case Walk => 4
  }

  /** The registry's entries in insertion order, which is the order of its keys. */
  const Registry: seq<WorkoutType> := [Swim, Run, Walk]

  /** The class a workout was constructed from. */
  function TypeOf(t: Training): WorkoutType
  {
    match t
    case Running(_, _, _) => Run
    case SportsWalking(_, _, _, _) => Walk
    case Swimming(_, _, _, _, _) => Swim
  }

  /** The arguments a workout was constructed from, in parameter order. */
  function Arguments(t: Training): (args: seq<real>)
    ensures |args| == Arity(TypeOf(t))
  {
    match t
    case Running(a, d, w) => [a, d, w]
    case SportsWalking(a, d, w, h) => [a, d, w, h]
    case Swimming(a, d, w, l, c) => [a, d, w, l, c]
  }

  /** `tag in activities` followed by `activities[tag]`, searching the entries in order. */
  function Lookup(tag: string, entries: seq<WorkoutType>): (r: Option<WorkoutType>)
    ensures r.Some? <==> exists i :: 0 <= i < |entries| && Code(entries[i]) == tag
    ensures r.Some? ==> Code(r.value) == tag && r.value in entries
  {
    if entries == [] then None
    else if Code(entries[0]) == tag then Some(entries[0])
    else Lookup(tag, entries[1..])
  }

  /** The registry's keys, in order. */
  function Codes(entries: seq<WorkoutType>): (codes: seq<string>)
    ensures |codes| == |entries|
    ensures forall i :: 0 <= i < |entries| ==> codes[i] == Code(entries[i])
  {
    if entries == [] then [] else [Code(entries[0])] + Codes(entries[1..])
  }

  /** Python's `sep.join(parts)`. */
  function Join(parts: seq<string>, sep: string): string
  {
    if |parts| == 0 then ""
    else if |parts| == 1 then parts[0]
    else parts[0] + sep + Join(parts[1..], sep)
  }

  /** The errors read_package can end in. */
  datatype Error =
      /** ValueError, with the message the source formats. */
    | UnsupportedWorkoutType(message: string)
      /** TypeError from calling the constructor with the wrong number of arguments. */
    | ArityMismatch(workout: WorkoutType, expected: nat, given: nat)

  /** The ValueError message for a code the registry does not hold. */
  function UnsupportedMessage(tag: string): (msg: string)
    ensures msg == tag + " is not a supported workout type (try one of these: SWM, RUN, WLK)"
  {
    var listing := Join(Codes(Registry), ", ");
    RegistryListing();
    assert " is not a supported workout type (try one of these: " + listing + ")"
        == " is not a supported workout type (try one of these: SWM, RUN, WLK)";
    tag + " is not a supported workout type (try one of these: " + listing + ")"
  }

  /** The codes of the registry, joined as the message lists them. */
  lemma RegistryListing()
    ensures Join(Codes(Registry), ", ") == "SWM, RUN, WLK"
  {
    assert Codes(Registry) == ["SWM", "RUN", "WLK"];
    assert Join(["WLK"], ", ") == "WLK";
    assert Join(["RUN", "WLK"], ", ") == "RUN, WLK";
  }

  /** `cls(*data)`: all-or-nothing construction from positional arguments. */
  function Construct(w: WorkoutType, data: seq<real>): (r: Result<Training, Error>)
    ensures r.Err? <==> |data| != Arity(w)
    ensures r.Err? ==> r.error == ArityMismatch(w, Arity(w), |data|)
    ensures r.Ok? ==> TypeOf(r.value) == w && Arguments(r.value) == data
  {
    if |data| != Arity(w) then Err(ArityMismatch(w, Arity(w), |data|))
    else match w
      case Swim => Ok(Swimming(data[0], data[1], data[2], data[3], data[4]))
      case Run => Ok(Running(data[0], data[1], data[2]))
      case Walk => Ok(SportsWalking(data[0], data[1], data[2], data[3]))
  }

  /** read_package(workout_type, data). */
  function ReadPackage(tag: string, data: seq<real>): (r: Result<Training, Error>)
    ensures tag !in ["SWM", "RUN", "WLK"] ==>
      r == Err(UnsupportedWorkoutType(tag + " is not a supported workout type (try one of these: SWM, RUN, WLK)"))
    ensures tag == "SWM" ==> (r.Ok? <==> |data| == 5)
    ensures tag == "RUN" ==> (r.Ok? <==> |data| == 3)
    ensures tag == "WLK" ==> (r.Ok? <==> |data| == 4)
    ensures r.Err? ==> (r.error.UnsupportedWorkoutType? <==> tag !in ["SWM", "RUN", "WLK"])
    ensures r.Err? && r.error.ArityMismatch? ==>
      Code(r.error.workout) == tag && r.error.expected == Arity(r.error.workout) && r.error.given == |data|
    ensures r.Ok? ==> Code(TypeOf(r.value)) == tag && Arguments(r.value) == data
  {
    match Lookup(tag, Registry)
    case None =>
      Err(UnsupportedWorkoutType(UnsupportedMessage(tag)))
    case Some(w) =>
      Construct(w, data)
  }

  /** Constructing a workout from its own code and arguments gives it back. */
  lemma ReadPackageRoundTrip(t: Training)
    ensures ReadPackage(Code(TypeOf(t)), Arguments(t)) == Ok(t)
  {
  }
}
