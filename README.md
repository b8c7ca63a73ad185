# ZeroSpeech 2020 evaluation command line: option resolution

A Dafny model of the command-line front end of the ZeroSpeech 2020
evaluation tool (`zerospeech2020/evaluation/main.py`, function `main()`).
After argparse has parsed the command line into a namespace, `main()`
turns that namespace into the keyword arguments of the evaluator
(`Evaluation2020`), exits early with status 1 when no edition, or no
track under 2017, was chosen, and maps the evaluator's outcome to the
process's exit status. The model covers:

- **Grammar** (`grammar.dfy`): the edition/track sub-command tree as a
  static table. Each of the five parsers has its own arguments and,
  for the top-level and 2017 parsers, the dest of its sub-parser group.
  A path (`Top` = no edition, `Ed2017`, `Ed2017Track1`, `Ed2019`,
  `EdBoth`) is the chain of parsers it runs through. `DeclOf(p, k)` gives
  the argument declared under namespace key `k` along path `p`, with its
  kind (positional, choices, free text, integer, sub-parser selector) and
  its default. `Producible(p, bag)` says
  which namespaces parsing along `p` can yield: exactly the declared keys,
  each holding its default or an admitted value.
- **Resolver** (`resolver.dfy`): `Resolve` follows the resolution block
  step by step (track, edition, track check, distance/normalize,
  language, duration, task folder, then the reads made while building the
  evaluator call) and returns a `Request` or an `Abort` (an early exit with
  its logged message, or a raised exception).
- **Dispatcher** (`dispatcher.dfy`): `ExitOf` is the try/except around
  `evaluate()`; `Main` composes resolution and evaluation and yields
  `Exit0`, `Exit1(messages)` or `Propagate(exception)`.
- **Properties** (`properties.dfy`): the behaviour of every path, the
  (edition, track) table for distance and normalize, the promotion rules
  for language and duration, and the declared defaults and domains.

The namespace is a `map<Key, Value>`: a key that is absent from the map
is one no argument on the chosen path declares, which is what the
source's `'x' in args` tests observe. Reading an absent key as an
attribute (`args.x`) raises `AttributeError(x)`. `Value` covers what the
namespace stores: None, strings, integers and lists.

Two behaviours of the source are reproduced as written:

- Under `both`, the source reads `args.normalize`, but the `both`
  sub-parser declares no `-n`. Every namespace of that path therefore
  ends in `AttributeError(Normalize)` (`BothFaults`), not in a request.
- The branch for `2017`/`track2` sets distance and normalize to None. It
  is kept in `DistanceNormalize`, but the `track2` sub-parser is commented
  out, so no producible namespace reaches it (`Track2Unreachable`). The
  code raises no "unsupported combination" error for it and has no
  separate validation step. The model follows the code here.

The edition message is modelled byte for byte. It includes the missing
space between "evaluate." and "Add", which comes from concatenating the
two string literals in the source. An edition value other than the three
names leaves `distance` unassigned. The evaluator call then raises
`UnboundLocalError` (`UnknownEditionFaults`). The grammar cannot produce
such a value.

Resolution is a function, so resolving the same namespace twice always
gives the same request. Every request field is either a value the
namespace holds under a key declared on that path or a fixed default.
`Track1Resolution` and `Edition19Resolution` state this field by field.

## Model

| member | source | states |
|---|---|---|
| Grammar.DeclOf | zerospeech2020/evaluation/main.py:14-99 | the submission, output, njobs and edition keys are declared on every path; track only under 2017; `-d` and `-n` only under 2017/track1 and 2019, never under both; `-dr` only under 2017/track1; `-d17`/`-d19` only under both; the task folder at every final node; the edition key holds the chosen edition's name (None with no sub-command) |
| Grammar.LookupFindsStep | zerospeech2020/evaluation/main.py:27-47 | along a chain of nested parsers a key is declared exactly when one of the parsers on the chain declares it, and its declaration is that parser's |
| Properties.KeysComeFromPath | zerospeech2020/evaluation/main.py:27-99 | a producible namespace holds a key exactly when a parser on the chosen path declares it, with a value that declaration admits, so no key comes from a parser off the path |
| Properties.MetricDeclarations | zerospeech2020/evaluation/main.py:49-99 | every metric option defaults to cosine; `-d` under track1 and `-d17` offer {cosine, KL}; `-d` under 2019 and `-d19` offer {cosine, KL, levenshtein}; no other path declares a metric |
| Properties.FilterDefaults | zerospeech2020/evaluation/main.py:37-71 | only 2017/track1 declares `-dr`, and its default is the full list the resolver falls back to; `-l` exists exactly under 2017, 2017/track1 and 2019, with default None |
| Resolver.Resolve | zerospeech2020/evaluation/main.py:105-172 | a request exists only for editions 2017, 2019 and both; its edition is the namespace's edition and its track the namespace's track (None when absent), non-None under 2017; its duration is a list unless a non-string, non-list value is passed through unchanged; the only early exits are the edition and track messages; the only exceptions are a missing attribute and the unbound distance |
| Properties.EditionRequired | zerospeech2020/evaluation/main.py:111-117 | main() exits 1 with exactly the edition message if and only if the edition key holds None, whatever else the namespace holds |
| Properties.NoEditionExits | zerospeech2020/evaluation/main.py:28-31 | with no sub-command the namespace holds only submission, output, njobs and edition, and main() exits 1 with the edition message |
| Properties.TrackRequiredFor2017 | zerospeech2020/evaluation/main.py:105-121 | main() exits 1 with exactly the track message if and only if the edition is 2017 and the track is absent or None |
| Properties.Edition2017WithoutTrackExits | zerospeech2020/evaluation/main.py:43-47 | `2017` without a track sub-command always exits 1 with the track message |
| Properties.NoTrackOutside2017 | zerospeech2020/evaluation/main.py:105-109 | under 2019 and both the namespace has no track key, the track resolves to None, and the track error is never raised |
| Properties.Track2Unreachable | zerospeech2020/evaluation/main.py:127-129 | no producible namespace holds track2, so the track2 branch is dead |
| Properties.DistanceByEditionTrack | zerospeech2020/evaluation/main.py:123-132 | both gives distance `[distance17, distance19]` and the namespace's normalize; 2017/track2 gives (None, None); 2019 and the other 2017 tracks give the scalar distance and normalize; any other edition assigns neither |
| Properties.BothNamespace | zerospeech2020/evaluation/main.py:89-99 | a both namespace holds distance17, distance19 and edition "both", and no normalize key |
| Properties.BothFaults | zerospeech2020/evaluation/main.py:124-126 | every both namespace makes main() raise AttributeError for normalize |
| Properties.UnknownEditionFaults | zerospeech2020/evaluation/main.py:130-169 | an edition outside the three names leaves distance unbound, so the evaluator call raises UnboundLocalError |
| Properties.LanguageCases | zerospeech2020/evaluation/main.py:134-141 | language is None when the key is absent, `[s]` when it holds the string s, None when it holds None |
| Properties.DurationCases | zerospeech2020/evaluation/main.py:143-150 | duration is the full `['1s','10s','120s']` when the key is absent, `[v]` for a string v, and a list is kept as it is |
| Properties.Track1Namespace | zerospeech2020/evaluation/main.py:37-62 | a 2017/track1 namespace holds exactly its ten keys, each with its default or an admitted value |
| Properties.Track1Resolution | zerospeech2020/evaluation/main.py:105-172 | for a namespace with the 2017/track1 keys and values, resolution succeeds with the namespace's values (language and duration promoted); the distance is in {cosine, KL}; the language is None or one 2017 language; the duration is a nonempty list of 1s/10s/120s (full by default, `[v]` for a supplied v); exit status is the evaluator's outcome mapped |
| Properties.Edition19Namespace | zerospeech2020/evaluation/main.py:66-81 | a 2019 namespace holds exactly its eight keys, each with its default or an admitted value |
| Properties.Edition19Resolution | zerospeech2020/evaluation/main.py:105-172 | for a namespace with the 2019 keys and values, resolution succeeds with track None, the full duration list, language promoted, and the distance in {cosine, KL, levenshtein}; exit status is the evaluator's outcome mapped |
| Dispatcher.ExitOf | zerospeech2020/evaluation/main.py:159-178 | a normal return is exit 0; a ValueError logs exactly "fatal error: <message>" then the contact hint and exits 1; any other exception propagates uncaught |
| Dispatcher.Main | zerospeech2020/evaluation/main.py:105-178 | main() exits 0 if and only if resolution succeeded and the evaluator returned; resolution's early exits and exceptions end main() unchanged |
| Properties.ExitStatusByPath | zerospeech2020/evaluation/main.py:101-178 | for every producible namespace: no edition exits 1, 2017 without track exits 1, both propagates AttributeError(normalize), and 2017/track1 and 2019 reach the evaluator |

## Left out

- Argparse itself is not modelled: tokenising, unknown-flag and out-of-choice rejection, help and epilog text. It is a library outside this code. The model starts from the namespace, and `Producible` describes what parsing can yield.
- Logging setup is a process-wide side effect and is left out. Logged lines appear only as the messages carried by `Exit1`.
- `Evaluation2020` and `evaluate()` are the external scoring engine and are not part of this model. The evaluator is a parameter `Request -> EvalOutcome`, whose outcome is a return, a `ValueError` with a message, or any other exception. The `log` handle passed to it is not modelled.
- `sys.exit` is not modelled as real process termination. It becomes the `Exit1` value.
- `njobs`, `submission`, `output` and the task folder are passed through uninterpreted.
- A ValueError subclass is caught by the source like a ValueError. The model has only the two outcome classes "ValueError" and "other".
