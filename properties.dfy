/** What the resolution and the exit mapping promise, stated over every
    namespace and over the namespaces the grammar can produce. */
module Properties {
  import opened Values
  import opened Grammar
  import opened Resolver
  import opened Dispatcher

  /** v is a string from `options`. */
  predicate InChoices(v: Value, options: seq<string>) {
    v.VStr? && v.s in options
  }

  /** A resolved language filter: "all" (None) or one language of `options`. */
  predicate LanguageFilter(v: Value, options: seq<string>) {
    v == VNone || (v.VList? && |v.items| == 1 && InChoices(v.items[0], options))
  }

  /** A resolved duration filter: a nonempty list of duration names. */
  predicate DurationFilter(v: Value) {
    v.VList? && |v.items| > 0 && forall x :: x in v.items ==> InChoices(x, Durations)
  }

  /** A namespace of path `p` holds a key exactly when one of the parsers
      the path runs through declares it, and holds a value that parser's
      declaration admits: no key comes from a parser off the path. */
  lemma KeysComeFromPath(p: Path, bag: Bag)
    requires Producible(p, bag)
    ensures forall k :: k in bag <==> exists i :: 0 <= i < |Chain(p)| && StepArg(Chain(p)[i], k).Some?
    ensures forall k :: k in bag ==>
      exists i :: 0 <= i < |Chain(p)| && StepArg(Chain(p)[i], k).Some? && Admits(StepArg(Chain(p)[i], k).value, bag[k])
  {
    forall k
      ensures k in bag <==> exists i :: 0 <= i < |Chain(p)| && StepArg(Chain(p)[i], k).Some?
      ensures k in bag ==>
        exists i :: 0 <= i < |Chain(p)| && StepArg(Chain(p)[i], k).Some? && Admits(StepArg(Chain(p)[i], k).value, bag[k])
    {
      LookupFindsStep(Chain(p), k);
      if k in bag {
        var i :| 0 <= i < |Chain(p)| && Lookup(Chain(p), k) == StepArg(Chain(p)[i], k);
        assert Admits(StepArg(Chain(p)[i], k).value, bag[k]);
      }
    }
  }

  // ---------------------------------------------------------------- edition

  /** An edition key holding None stops with the edition message and exit
      status 1, whatever else the namespace holds; and that exit happens
      only then. */
  lemma EditionRequired(args: Bag, evaluate: Request -> EvalOutcome)
    ensures Main(args, evaluate) == Exit1([EditionMessage])
        <==> Edition in args && args[Edition] == VNone
  {
  }

  /** With no sub-command the namespace holds exactly the top-level keys, and
      main() exits with status 1 after the edition message. */
  lemma NoEditionExits(bag: Bag, evaluate: Request -> EvalOutcome)
    requires Producible(Top, bag)
    ensures bag.Keys == {Submission, Output, NJobs, Edition}
    ensures Main(bag, evaluate) == Exit1([EditionMessage])
  {
  }

  // ------------------------------------------------------------------ track

  /** Edition 2017 with no track (key absent or None) stops with the track
      message and exit status 1; and that exit happens only then. */
  lemma TrackRequiredFor2017(args: Bag, evaluate: Request -> EvalOutcome)
    ensures Main(args, evaluate) == Exit1([TrackMessage])
        <==> Edition in args && args[Edition] == VStr("2017") && TrackOf(args) == VNone
  {
  }

  /** `2017` without a track sub-command exits with status 1 after the track
      message. */
  lemma Edition2017WithoutTrackExits(bag: Bag, evaluate: Request -> EvalOutcome)
    requires Producible(Ed2017, bag)
    ensures Main(bag, evaluate) == Exit1([TrackMessage])
  {
  }

  /** Under 2019 and both the namespace has no track key: the track resolves
      to None and no track error is raised. */
  lemma NoTrackOutside2017(p: Path, bag: Bag, evaluate: Request -> EvalOutcome)
    requires p == Ed2019 || p == EdBoth
    requires Producible(p, bag)
    ensures Track !in bag && TrackOf(bag) == VNone
    ensures Main(bag, evaluate) != Exit1([TrackMessage])
  {
    assert DeclOf(p, Track).None?;
    TrackRequiredFor2017(bag, evaluate);
  }

  /** The `track2` branch is dead: no path stores track2 under the track key. */
  lemma Track2Unreachable(p: Path, bag: Bag)
    requires Producible(p, bag)
    ensures TrackOf(bag) != VStr("track2")
  {
    if p !in {Ed2017, Ed2017Track1} {
      assert DeclOf(p, Track).None?;
    }
  }

  // ---------------------------------------------------- distance, normalize

  /** Distance and normalize by (edition, track): a pair of metrics and the
      bag's normalize under both, nothing for 2017/track2, the scalar
      distance and normalize for 2019 and the other 2017 tracks, and no
      assignment at all for any other edition. */
  lemma DistanceByEditionTrack(args: Bag, edition: Value)
    requires edition == VStr("both") ==> {Distance17, Distance19, Normalize} <= args.Keys
    requires edition == VStr("2017") ==> Track in args
    requires (edition == VStr("2019") || (edition == VStr("2017") && args[Track] != VStr("track2")))
             ==> {Distance, Normalize} <= args.Keys
    ensures edition == VStr("both") ==>
      DistanceNormalize(args, edition)
      == Success(Some((VList([args[Distance17], args[Distance19]]), args[Normalize])))
    ensures edition == VStr("2017") && args[Track] == VStr("track2") ==>
      DistanceNormalize(args, edition) == Success(Some((VNone, VNone)))
    ensures (edition == VStr("2019") || (edition == VStr("2017") && args[Track] != VStr("track2"))) ==>
      DistanceNormalize(args, edition) == Success(Some((args[Distance], args[Normalize])))
    ensures edition !in {VStr("both"), VStr("2017"), VStr("2019")} ==>
      DistanceNormalize(args, edition) == Success(None)
  {
  }

  /** Under both, normalize is read from a key the both parser never
      declares: every namespace of that path faults there. */
  lemma BothFaults(bag: Bag, evaluate: Request -> EvalOutcome)
    requires Producible(EdBoth, bag)
    ensures Normalize !in bag
    ensures Main(bag, evaluate) == Propagate(AttributeError(Normalize))
  {
    BothNamespace(bag);
  }

  lemma BothNamespace(bag: Bag)
    requires Producible(EdBoth, bag)
    ensures Normalize !in bag && Distance17 in bag && Distance19 in bag
    ensures bag[Edition] == VStr("both")
  {
    assert bag[Edition] == VStr("both");
  }


  /** An edition no branch handles leaves distance unbound, and the call
      faults reading it. */
  lemma UnknownEditionFaults(args: Bag, evaluate: Request -> EvalOutcome)
    requires Edition in args && args[Edition] !in {VNone, VStr("both"), VStr("2017"), VStr("2019")}
    requires {Submission, NJobs, Output} <= args.Keys
    ensures Main(args, evaluate) == Propagate(UnboundLocalError(Distance))
  {
  }

  // --------------------------------------------------- language, duration

  /** Language: None when the key is absent, a string promoted to a
      one-element list, None kept as None. */
  lemma LanguageCases(args: Bag)
    ensures Language !in args ==> LanguageOf(args) == VNone
    ensures Language in args && args[Language].VStr? ==>
      LanguageOf(args) == VList([args[Language]])
    ensures Language in args && args[Language] == VNone ==> LanguageOf(args) == VNone
  {
  }

  /** Duration: the full list when the key is absent, a string promoted to a
      one-element list, a list kept as it is. */
  lemma DurationCases(args: Bag)
    ensures Duration !in args ==> DurationOf(args) == DurationDefault
    ensures Duration in args && args[Duration].VStr? ==>
      DurationOf(args) == VList([args[Duration]])
    ensures Duration in args && args[Duration].VList? ==> DurationOf(args) == args[Duration]
  {
  }

  // ------------------------------------------------- the two working paths

  /** What a `2017 track1` namespace holds, key by key. */
  predicate Track1Values(bag: Bag) {
    Submission in bag && Output in bag && NJobs in bag && Edition in bag && Language in bag &&
    Track in bag && Distance in bag && Duration in bag && Normalize in bag && TaskFolder in bag &&
    Distance17 !in bag && Distance19 !in bag &&
    bag[Submission].VStr? && bag[Output].VStr? && bag[NJobs].VInt? &&
    bag[Edition] == VStr("2017") && bag[Track] == VStr("track1") &&
    (bag[Language] == VNone || InChoices(bag[Language], Languages17)) &&
    InChoices(bag[Distance], Distances17) &&
    (bag[Duration] == DurationDefault || InChoices(bag[Duration], Durations)) &&
    (bag[Normalize] == VInt(1) || bag[Normalize].VStr?) &&
    bag[TaskFolder].VStr?
  }

  /** Parsing `2017 track1` yields a namespace of that shape. */
  lemma Track1Namespace(bag: Bag)
    requires Producible(Ed2017Track1, bag)
    ensures Track1Values(bag)
  {
    assert bag[Submission].VStr?;
    assert bag[Output].VStr?;
    assert bag[NJobs].VInt?;
    assert bag[Edition] == VStr("2017");
    assert bag[Language] == VNone || InChoices(bag[Language], Languages17);
    assert bag[Track] == VStr("track1");
    assert InChoices(bag[Distance], Distances17);
    assert bag[Duration] == DurationDefault || InChoices(bag[Duration], Durations);
    assert bag[Normalize] == VInt(1) || bag[Normalize].VStr?;
    assert bag[TaskFolder].VStr?;
  }

  /** `2017 track1`: the request carries the bag's values, with language and
      duration promoted; every field lies in its declared domain; and the
      exit status is the evaluator's outcome mapped. */
  lemma Track1Resolution(bag: Bag, evaluate: Request -> EvalOutcome)
    requires Track1Values(bag)
    ensures Resolve(bag).Success?
    ensures Resolve(bag).value == Request(
      bag[Submission], bag[NJobs], bag[Output], VStr("2017"), VStr("track1"),
      Promote(bag[Language]), bag[TaskFolder], bag[Distance], bag[Normalize],
      Promote(bag[Duration]))
    ensures bag[Duration] == DurationDefault ==> Resolve(bag).value.duration == AllDurations
    ensures bag[Duration].VStr? ==> Resolve(bag).value.duration == VList([bag[Duration]])
    ensures var r := Resolve(bag).value;
      InChoices(r.distance, Distances17) &&
      (r.normalize == VInt(1) || r.normalize.VStr?) &&
      LanguageFilter(r.language, Languages17) &&
      DurationFilter(r.duration) &&
      r.tasks.VStr? && r.submission.VStr? && r.output.VStr? && r.njobs.VInt?
    ensures Main(bag, evaluate) == ExitOf(evaluate(Resolve(bag).value))
  {
  }

  /** What a `2019` namespace holds, key by key. */
  predicate Edition19Values(bag: Bag) {
    Submission in bag && Output in bag && NJobs in bag && Edition in bag && Language in bag &&
    Distance in bag && Normalize in bag && TaskFolder in bag &&
    Track !in bag && Duration !in bag && Distance17 !in bag && Distance19 !in bag &&
    bag[Submission].VStr? && bag[Output].VStr? && bag[NJobs].VInt? &&
    bag[Edition] == VStr("2019") &&
    (bag[Language] == VNone || InChoices(bag[Language], Languages19)) &&
    InChoices(bag[Distance], Distances19) &&
    (bag[Normalize] == VInt(1) || bag[Normalize].VStr?) &&
    bag[TaskFolder].VStr?
  }

  /** Parsing `2019` yields a namespace of that shape. */
  lemma Edition19Namespace(bag: Bag)
    requires Producible(Ed2019, bag)
    ensures Edition19Values(bag)
  {
    assert bag[Submission].VStr?;
    assert bag[Output].VStr?;
    assert bag[NJobs].VInt?;
    assert bag[Edition] == VStr("2019");
    assert bag[Language] == VNone || InChoices(bag[Language], Languages19);
    assert InChoices(bag[Distance], Distances19);
    assert bag[Normalize] == VInt(1) || bag[Normalize].VStr?;
    assert bag[TaskFolder].VStr?;
  }

  /** `2019`: the request carries the bag's values, language promoted,
      no track and the full duration list; every field lies in its declared
      domain; and the exit status is the evaluator's outcome mapped. */
  lemma Edition19Resolution(bag: Bag, evaluate: Request -> EvalOutcome)
    requires Edition19Values(bag)
    ensures Resolve(bag).Success?
    ensures Resolve(bag).value == Request(
      bag[Submission], bag[NJobs], bag[Output], VStr("2019"), VNone,
      Promote(bag[Language]), bag[TaskFolder], bag[Distance], bag[Normalize],
      AllDurations)
    ensures var r := Resolve(bag).value;
      InChoices(r.distance, Distances19) &&
      (r.normalize == VInt(1) || r.normalize.VStr?) &&
      LanguageFilter(r.language, Languages19) &&
      DurationFilter(r.duration) &&
      r.tasks.VStr? && r.submission.VStr? && r.output.VStr? && r.njobs.VInt?
    ensures Main(bag, evaluate) == ExitOf(evaluate(Resolve(bag).value))
  {
  }

  // -------------------------------------------------------------- defaults

  /** The metric options: cosine by default at every node, with the 2017
      metrics under track1 and for `-d17`, and the 2019 metrics under 2019
      and for `-d19`. */
  lemma MetricDeclarations(p: Path, key: Key)
    requires DeclOf(p, key).Some? && key in {Distance, Distance17, Distance19}
    ensures DeclOf(p, key).value.default == Default(VStr("cosine"))
    ensures DeclOf(p, key).value.kind
      == Choice(if p == Ed2019 || key == Distance19 then ["cosine", "KL", "levenshtein"]
                else ["cosine", "KL"])
    ensures p in {Ed2017Track1, Ed2019, EdBoth}
  {
  }

  /** The duration default is exactly the list the resolver falls back to,
      and the language options default to None ("all"). */
  lemma FilterDefaults(p: Path)
    ensures DeclOf(p, Duration).Some? ==> p == Ed2017Track1 && DeclOf(p, Duration).value.default == Default(AllDurations)
    ensures DeclOf(p, Language).Some? <==> p in {Ed2017, Ed2017Track1, Ed2019}
    ensures DeclOf(p, Language).Some? ==> DeclOf(p, Language).value.default == Default(VNone)
  {
  }

  // ------------------------------------------------------------ exit status

  /** How main() ends, for every namespace the grammar can produce, path by
      path. */
  lemma ExitStatusByPath(p: Path, bag: Bag, evaluate: Request -> EvalOutcome)
    requires Producible(p, bag)
    ensures p == Top ==> Main(bag, evaluate) == Exit1([EditionMessage])
    ensures p == Ed2017 ==> Main(bag, evaluate) == Exit1([TrackMessage])
    ensures p == EdBoth ==> Main(bag, evaluate) == Propagate(AttributeError(Normalize))
    ensures p in {Ed2017Track1, Ed2019} ==>
      Resolve(bag).Success? && Main(bag, evaluate) == ExitOf(evaluate(Resolve(bag).value))
  {
    match p
    case Top => NoEditionExits(bag, evaluate);
    case Ed2017 => Edition2017WithoutTrackExits(bag, evaluate);
    case EdBoth => BothFaults(bag, evaluate);
    case Ed2017Track1 => Track1Namespace(bag); Track1Resolution(bag, evaluate);
    case Ed2019 => Edition19Namespace(bag); Edition19Resolution(bag, evaluate);
  }
}
