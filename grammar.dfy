/** The command-line grammar of the evaluation tool as a static table:
    for each path through the edition/track sub-commands, the arguments
    declared along it, with their value domains and defaults, and the
    namespaces that parsing along that path can produce. */
module Grammar {
  import opened Values

  /** The sub-command paths the parser accepts. No edition given is `Top`;
      `2017` without a track is `Ed2017`. The `track2` sub-parser is
      commented out in the source, so no path selects it. */
  datatype Path = Top | Ed2017 | Ed2017Track1 | Ed2019 | EdBoth

  /** How an argument constrains the value stored under its key. */
  datatype Kind =
    | Positional              // a required positional: any string
    | Choice(options: seq<string>)   // an option restricted to `choices`
    | Text                    // an option without type or choices: any string
    | Integer                 // an option with type=int
    | Selector(chosen: Value) // a sub-parser dest: fixed by the chosen path

  /** One add_argument (or add_subparsers dest) call: its kind and the
      default stored when it is not supplied (positionals and selectors
      have none). The key it stores under is where the table puts it. */
  datatype Decl = Decl(kind: Kind, default: DefaultValue)

  datatype DefaultValue = NoDefault | Default(v: Value)

  const Languages17: seq<string> := ["english", "french", "mandarin", "lang1", "lang2"]
  const Languages19: seq<string> := ["english", "surprise"]
  const Distances17: seq<string> := ["cosine", "KL"]
  const Distances19: seq<string> := ["cosine", "KL", "levenshtein"]
  const Durations: seq<string> := ["1s", "10s", "120s"]
  /** The `-dr` default: the list of every duration. */
  const DurationDefault: Value := VList([VStr("1s"), VStr("10s"), VStr("120s")])

  /** Arguments of the top-level parser. */
  function RootArg(k: Key): Option<Decl> {
    match k
    case Submission => Some(Decl(Positional, NoDefault))
    case Output => Some(Decl(Positional, NoDefault))
    case NJobs => Some(Decl(Integer, Default(VInt(1))))
    case _ => None
  }

  /** Arguments of the 2017 edition parser: `-l` hangs off the edition,
      not off track1. */
  function Edition17Arg(k: Key): Option<Decl> {
    match k
    case Language => Some(Decl(Choice(Languages17), Default(VNone)))
    case _ => None
  }

  /** Arguments of the 2017 track1 parser. */
  function Track1Arg(k: Key): Option<Decl> {
    match k
    case Distance => Some(Decl(Choice(Distances17), Default(VStr("cosine"))))
    case Duration => Some(Decl(Choice(Durations), Default(DurationDefault)))
    case Normalize => Some(Decl(Text, Default(VInt(1))))
    case TaskFolder => Some(Decl(Positional, NoDefault))
    case _ => None
  }

  /** Arguments of the 2019 edition parser. */
  function Edition19Arg(k: Key): Option<Decl> {
    match k
    case Language => Some(Decl(Choice(Languages19), Default(VNone)))
    case Distance => Some(Decl(Choice(Distances19), Default(VStr("cosine"))))
    case Normalize => Some(Decl(Text, Default(VInt(1))))
    case TaskFolder => Some(Decl(Positional, NoDefault))
    case _ => None
  }

  /** Arguments of the `both` parser: its language option is commented out
      in the source, and it declares no `-n`. */
  function BothArg(k: Key): Option<Decl> {
    match k
    case TaskFolder => Some(Decl(Positional, NoDefault))
    case Distance17 => Some(Decl(Choice(Distances17), Default(VStr("cosine"))))
    case Distance19 => Some(Decl(Choice(Distances19), Default(VStr("cosine"))))
    case _ => None
  }

  /** The five parsers the source builds. */
  datatype Parser = RootParser | Parser17 | Track1Parser | Parser19 | BothParser

  /** The arguments a parser declares with add_argument. */
  function OwnArg(q: Parser, k: Key): Option<Decl> {
    match q
    case RootParser => RootArg(k)
    case Parser17 => Edition17Arg(k)
    case Track1Parser => Track1Arg(k)
    case Parser19 => Edition19Arg(k)
    case BothParser => BothArg(k)
  }

  /** The dest of the sub-parser group a parser holds: the edition on the
      top-level parser, the track on the 2017 parser. */
  function GroupDest(q: Parser): Option<Key> {
    match q
    case RootParser => Some(Edition)
    case Parser17 => Some(Track)
    case _ => None
  }

  /** One parser on a path, with the value its sub-parser group stores:
      the chosen sub-parser's name, or None when none is chosen (ignored
      for a parser without a group). */
  datatype Step = Step(parser: Parser, chosen: Value)

  /** The argument a step declares under `k`: its group's dest, set to the
      chosen name, or one of its own arguments. */
  function StepArg(s: Step, k: Key): Option<Decl> {
    if GroupDest(s.parser) == Some(k) then Some(Decl(Selector(s.chosen), NoDefault))
    else OwnArg(s.parser, k)
  }

  /** The parsers a path runs through, from the top-level parser down. */
  function Chain(p: Path): seq<Step> {
    match p
    case Top => [Step(RootParser, VNone)]
    case Ed2017 => [Step(RootParser, VStr("2017")), Step(Parser17, VNone)]
    case Ed2017Track1 =>
      [Step(RootParser, VStr("2017")), Step(Parser17, VStr("track1")), Step(Track1Parser, VNone)]
    case Ed2019 => [Step(RootParser, VStr("2019")), Step(Parser19, VNone)]
    case EdBoth => [Step(RootParser, VStr("both")), Step(BothParser, VNone)]
  }

  /** The first declaration found, looking in `a` before `b`. */
  function Either(a: Option<Decl>, b: Option<Decl>): Option<Decl> {
    if a.Some? then a else b
  }

  /** The declaration of key `k` in the first step of `chain` declaring it. */
  function Lookup(chain: seq<Step>, k: Key): Option<Decl> {
    if chain == [] then None else Either(StepArg(chain[0], k), Lookup(chain[1..], k))
  }

  /** A key is declared along a chain exactly when one of its steps declares
      it, and its declaration is that step's. */
  lemma {:induction false} LookupFindsStep(chain: seq<Step>, k: Key)
    ensures Lookup(chain, k).Some? <==> exists i :: 0 <= i < |chain| && StepArg(chain[i], k).Some?
    ensures Lookup(chain, k).Some? ==>
      exists i :: 0 <= i < |chain| && Lookup(chain, k) == StepArg(chain[i], k)
  {
    if chain != [] {
      LookupFindsStep(chain[1..], k);
      if StepArg(chain[0], k).None? {
        forall i | 0 < i < |chain| ensures StepArg(chain[i], k) == StepArg(chain[1..][i - 1], k) {}
      }
    }
  }

  /** The argument declared under key `k` along path `p`, if any: the
      top-level parser, the edition selector, the edition parser, and for
      2017 the track selector and the track parser. The top-level keys are
      everywhere, the track only under 2017, `-d` and `-n` only under
      2017/track1 and 2019 (not under both), the task folder at every
      final node, `-dr` only under 2017/track1, `-d17`/`-d19` only under
      both; the edition key holds the name of the path's edition. */
  function DeclOf(p: Path, k: Key): (r: Option<Decl>)
    ensures k in {Submission, Output, NJobs, Edition} ==> r.Some?
    ensures k == Track ==> (r.Some? <==> p in {Ed2017, Ed2017Track1})
    ensures k in {Distance, Normalize} ==> (r.Some? <==> p in {Ed2017Track1, Ed2019})
    ensures k == TaskFolder ==> (r.Some? <==> p in {Ed2017Track1, Ed2019, EdBoth})
    ensures k == Duration ==> (r.Some? <==> p == Ed2017Track1)
    ensures k in {Distance17, Distance19} ==> (r.Some? <==> p == EdBoth)
    ensures k == Edition ==> r == Some(Decl(Selector(
      match p
      case Top => VNone
      case Ed2017 | Ed2017Track1 => VStr("2017")
      case Ed2019 => VStr("2019")
      case EdBoth => VStr("both")), NoDefault))
  {
    LookupShort(Chain(p), k);
    Lookup(Chain(p), k)
  }

  /** Lookup along a chain of at most three steps, unrolled. */
  lemma LookupShort(chain: seq<Step>, k: Key)
    requires |chain| <= 3
    ensures Lookup(chain, k)
      == if chain == [] then None
         else Either(StepArg(chain[0], k),
              if |chain| == 1 then None
              else Either(StepArg(chain[1], k),
                   if |chain| == 2 then None else StepArg(chain[2], k)))
  {
    if |chain| >= 2 {
      assert chain[1..][0] == chain[1];
      if |chain| == 3 {
        assert chain[1..][1..] == [chain[2]];
        assert Lookup([chain[2]], k) == StepArg(chain[2], k) by {
          assert [chain[2]][1..] == [];
        }
      } else {
        assert chain[1..][1..] == [];
      }
    } else if |chain| == 1 {
      assert chain[1..] == [];
    }
  }

  /** The values parsing can store for one argument. */
  predicate Admits(d: Decl, v: Value) {
    (d.default.Default? && v == d.default.v) ||
    match d.kind
    case Positional => v.VStr?
    case Choice(options) => v.VStr? && v.s in options
    case Text => v.VStr?
    case Integer => v.VInt?
    case Selector(chosen) => v == chosen
  }

  /** The namespaces the grammar produces along path `p`: exactly the
      declared keys, each holding a value its argument admits. */
  predicate Producible(p: Path, bag: Bag) {
    forall k: Key ::
      (k in bag <==> DeclOf(p, k).Some?) &&
      (k in bag ==> Admits(DeclOf(p, k).value, bag[k]))
  }
}
