/** The option-resolution block of main(): from the parsed namespace to the
    keyword arguments handed to the evaluator, or an early exit, or an
    exception raised on the way. */
module Resolver {
  import opened Values

  const EditionMessage: string := "Must choose an edition to evaluate.Add \"-h\" to see options."
  const TrackMessage: string := "Must choose a track for 2017. Add \"-h\" to see options"

  /** The full duration list used when no duration key is in the namespace. */
  const AllDurations: Value := VList([VStr("1s"), VStr("10s"), VStr("120s")])

  /** The arguments of the evaluator call. */
  datatype Request = Request(
    submission: Value,
    njobs: Value,
    output: Value,
    edition: Value,
    track: Value,
    language: Value,
    tasks: Value,
    distance: Value,
    normalize: Value,
    duration: Value)

  /** Why resolution stopped before the evaluator was called: an error was
      logged and sys.exit(1) was called, or an exception was raised. */
  datatype Abort = Exit(messages: seq<string>) | Raise(exc: Exception)

  /** Attribute access `args.<key>`. */
  function Attr(args: Bag, key: Key): Result<Value, Abort>
  {
    if key in args then Success(args[key]) else Failure(Raise(AttributeError(key)))
  }

  /** Attribute access guarded by `'<key>' in args`, with `fallback` when absent. */
  function Get(args: Bag, key: Key, fallback: Value): Value
  {
    if key in args then args[key] else fallback
  }

  /** The track, None when the namespace has no track key. */
  function TrackOf(args: Bag): Value {
    Get(args, Track, VNone)
  }

  /** The edition; None stops with the edition message. */
  function EditionOf(args: Bag): Result<Value, Abort> {
    var edition :- Attr(args, Edition);
    if edition == VNone then Failure(Exit([EditionMessage])) else Success(edition)
  }

  /** The 2017 edition needs a track. */
  function CheckTrack(args: Bag, track: Value): Result<Value, Abort> {
    var edition :- Attr(args, Edition);
    if edition == VStr("2017") && track == VNone then Failure(Exit([TrackMessage]))
    else Success(track)
  }

  /** The locals `distance` and `normalize`, chosen by edition and track;
      None when no branch assigns them. */
  function DistanceNormalize(args: Bag, edition: Value): Result<Option<(Value, Value)>, Abort> {
    if edition == VStr("both") then
      var d17 :- Attr(args, Distance17);
      var d19 :- Attr(args, Distance19);
      var n :- Attr(args, Normalize);
      Success(Some((VList([d17, d19]), n)))
    else if edition == VStr("2017") then
      var track :- Attr(args, Track);
      if track == VStr("track2") then Success(Some((VNone, VNone)))
      else ScalarDistance(args)
    else if edition == VStr("2019") then
      ScalarDistance(args)
    else
      Success(None)
  }

  /** The branch shared by 2019 and the other 2017 tracks. */
  function ScalarDistance(args: Bag): Result<Option<(Value, Value)>, Abort> {
    var d :- Attr(args, Distance);
    var n :- Attr(args, Normalize);
    Success(Some((d, n)))
  }

  /** The language filter: None when absent, a string promoted to a list. */
  function LanguageOf(args: Bag): Value {
    Promote(Get(args, Language, VNone))
  }

  /** The duration filter: the full list when absent, a string promoted to a list. */
  function DurationOf(args: Bag): Value {
    if Duration in args then Promote(args[Duration]) else AllDurations
  }

  /** The task folder, None when absent. */
  function TaskFolderOf(args: Bag): Value {
    Get(args, TaskFolder, VNone)
  }

  /** The whole resolution, in the order main() performs it, up to and
      including the reads made while building the evaluator call. A request
      is produced only for one of the three editions, with a track under
      2017; the only early exits are the edition and track messages; the
      only exceptions are a missing attribute and the unbound distance. */
  function Resolve(args: Bag): (r: Result<Request, Abort>)
    ensures r.Success? ==> r.value.edition in {VStr("2017"), VStr("2019"), VStr("both")}
    ensures r.Success? ==> Edition in args && r.value.edition == args[Edition]
    ensures r.Success? ==> r.value.track == TrackOf(args)
    ensures r.Success? && r.value.edition == VStr("2017") ==> r.value.track != VNone
    ensures r.Success? ==> r.value.duration.VList? || (Duration in args && args[Duration] == r.value.duration)
    ensures r.Failure? && r.error.Exit? ==> r.error.messages in {[EditionMessage], [TrackMessage]}
    ensures r.Failure? && r.error.Raise? ==>
      r.error.exc.AttributeError? || r.error.exc == UnboundLocalError(Distance)
  {
    var track := TrackOf(args);
    var edition :- EditionOf(args);
    var _ :- CheckTrack(args, track);
    var dn :- DistanceNormalize(args, edition);
    var language := LanguageOf(args);
    var duration := DurationOf(args);
    var tasks := TaskFolderOf(args);
    var submission :- Attr(args, Submission);
    var njobs :- Attr(args, NJobs);
    var output :- Attr(args, Output);
    if dn.None? then Failure(Raise(UnboundLocalError(Distance)))
    else Success(Request(submission, njobs, output, edition, track, language, tasks,
                         dn.value.0, dn.value.1, duration))
  }
}
