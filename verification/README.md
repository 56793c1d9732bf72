# Configuration checks of deeplenstronomy, in Dafny

deeplenstronomy simulates strong-lensing images from a YAML configuration.
Before it simulates anything, `deeplenstronomy/check.py` runs the class
`AllChecks` over two parsed dictionaries:

- the full configuration, with defaults filled in;
- the configuration as the user wrote it.

Each `check_` method returns a list of messages:

- `check_top_level_existence`: the six sections exist.
- `check_low_level_existence`: fifteen required parameters exist.
- `check_not_allowed_to_be_drawn_from_a_distribution`: ten parameters are not
  distributions.
- `check_valid_geometry`: the GEOMETRY section's configurations, planes,
  objects, noise sources and time series are well formed. Their indices run
  1, 2, 3, … at every level, and the configuration FRACTIONs sum into (0, 1].

The runner gathers every message. A check that raises contributes
"CheckFunctionError: <name>". The runner raises `ConfigFileError` when there
is any message.

The model is imperative where the source is:

- Each check is a method with loops, proved equal to a specification
  function. The geometry check's specification is a fold per source loop.
- The runner is a method whose loop gathers the outcomes of the four checks.
- Properties are lemmas over the specification functions.

Modules:

| file | module | contents |
|---|---|---|
| `outcomes.dfy` | `Outcomes` | `Option`, and `Result` (`Ok` or `Crash`). Any exception a check does not catch is `Crash`. |
| `strings.dfy` | `Strings` | `str.split`, `str.join`, `startswith`, substring search, `int()` of a key suffix |
| `config_tree.dfy` | `ConfigTree` | Parsed values with ordered dictionaries. Subscripting, lookup along a dotted path, keypath enumeration, `float()`. |
| `indexing.dfy` | `Indexing` | The `len(detected) != max(detected)` density test |
| `section_checks.dfy` | `SectionChecks` | The three existence/shape checks |
| `geometry_spec.dfy` | `GeometrySpec` | The geometry check as folds over the tree. It keeps the source's message texts. |
| `geometry_check.dfy` | `GeometryCheck` | The geometry check's loops, proved equal to the folds |
| `geometry_props.dfy` | `GeometryProps` | What the geometry check promises |
| `geometry_messages.dfy` | `GeometryMessages` | Which defect of a configuration, plane, object, noise source or time series draws which message |
| `runner.dfy` | `Runner` | `AllChecks.__init__` |
| `findings.dfy` | `Findings` | Four geometry-check defects, as written |

### Where the model departs from the code as written

Some lines of `check.py` cannot run as written, or evidently do something other
than what was meant. At each of these the model follows the evident intent:

- Lines 137 and 143 lack the `+` before `" .FRACTION is missing"` and
  `" .FRACTION must be a float"`, so the file does not parse. The model
  supplies the `+` and keeps the text, leading space included.
- `self.config_dict` is read (lines 55, 117, …) but never assigned.
  `config_dict_format` is handed the list `param.split('.')` as one argument
  (lines 84, 104). The model reads the as-authored configuration and looks
  each path up one subscript at a time.
- Line 224 calls `config_lookup` and `config_dict_format` without `self.`.
  The model uses the instance's lookup.
- The NOISE_SOURCE density test (lines 253-254) runs over each
  configuration's own noise sources, and is skipped for a configuration that
  has none (`Indexing.OptionalDensityCheck`). Noise sources are optional. As
  written, the list is shared (line 121): `max([])` there raises only while
  no configuration so far has had a noise source. The corrected test never
  aborts the check (`GeometryCheck.ConfigurationCompletes`).

Five more defects are listed under Findings, each with a Dafny member for the
code as written: four in the geometry check and the unassigned
`self.config_dict`.

Every other behaviour follows the code. In particular:

- A crash loses the whole check's output. `int()` of a key suffix that is not
  an integer raises ValueError (lines 128, 155, 172). `max([])` raises on an
  empty index list (lines 188, 249, 258). A non-dictionary where `.keys()`
  is called, a missing PARAMETERS (line 163) and `float()` of a non-numeric
  string (line 140) all raise. The model makes each of these `Crash`.
- Only `TypeError` is caught at lines 132, 142, 159, 176, 199 and 241. So the
  "needs a valid integer index" messages can never be produced.
- Messages keep the source's spelling: "CEOMETRY." at line 147, and no space
  before "is missing from the Config File" at line 86.
- The two parameter checks read the as-authored configuration. The code does
  this, although "must resolve in the full tree" could suggest otherwise.
- An index of 0 or below is parsed and reported as an invalid entry, yet it
  still counts for the density test: indices 0 and 2 pass it
  (`GeometryMessages.ZeroIndexPassesDensity`).
- Repeated indices fool the density test as well. PLANE_1, PLANE_01 and
  PLANE_3 give the indices 1, 1 and 3, which pass it although PLANE_2 is
  missing (`GeometryMessages.DuplicateIndexPassesDensity`). The test is exact
  only for distinct positive indices (`Indexing.DensityMeansRun`).
- A configuration with no keys at all aborts at `max([])` (line 249), so its
  "must have at least one PLANE" message (line 147) is never seen.
- The time-series lookup at line 224 takes the first keypath under SPECIES
  that contains `.name.`. Keypaths list every key, nested ones included. So
  for SPECIES {LENS: {NAME: LENS, MODEL: ia}} the first match is
  SPECIES.LENS.NAME, whose value is a string, and `.keys()` raises
  (`GeometryMessages.LeafSpeciesPathAborts`).
- A valid configuration is accepted only once the fixes above and the
  corrections under Findings are made. As written, every configuration is
  rejected (`Runner.AlwaysRaisesAsWritten`).

## Model

| member | source | states |
|---|---|---|
| Runner.RunChecks | deeplenstronomy/check.py:16-47 | The gathered messages are each check's messages, concatenated in check order. A raising check is replaced by its CheckFunctionError message. ConfigFileError is raised iff the total is non-empty. |
| Runner.RunCheck | deeplenstronomy/check.py:33-36 | Running the i-th name of the check list gives that check's outcome. The four names are in `dir()` order. |
| Runner.CheckIsolated | deeplenstronomy/check.py:32-40 | Every check's contribution appears whole and contiguous in the total, right after the contributions of the checks before it. No check's output is lost because another raised. |
| Runner.CrashReported | deeplenstronomy/check.py:35-38 | A check that raises leaves "CheckFunctionError: <name>" in the total |
| Runner.GatheredEmpty | deeplenstronomy/check.py:40-43 | The total is empty iff every check completed with no message |
| Runner.RaisedIffDefect | deeplenstronomy/check.py:43-45 | ConfigFileError is raised iff some check reports a message or raises. Both directions are stated. |
| Runner.AlwaysRaisesAsWritten | deeplenstronomy/check.py:54-55 | As written, the total always holds the CheckFunctionError of the low-level and geometry checks, so every configuration is rejected |
| SectionChecks.CheckTopLevelExistence | deeplenstronomy/check.py:58-63 | The loop yields, in DATASET, SURVEY, IMAGE, COSMOLOGY, SPECIES, GEOMETRY order, "Missing <NAME> section from config file" for each section absent from the full configuration |
| SectionChecks.TopLevelReport | deeplenstronomy/check.py:58-63 | Exactly one message per absent section and none per present section. There is no other message. The result is empty iff all six sections are present. |
| SectionChecks.TopLevelCounts | deeplenstronomy/check.py:60-62 | For any list of distinct names, each absent name is reported exactly once and each present name never |
| SectionChecks.SectionsDistinct | deeplenstronomy/check.py:60 | The six section names are distinct |
| SectionChecks.MissingSectionInjective | deeplenstronomy/check.py:62 | Different sections give different messages |
| SectionChecks.CheckLowLevelExistence | deeplenstronomy/check.py:65-88 | The loop over the fifteen required paths, in set iteration order, gives the scan's outcome |
| SectionChecks.LowLevelReport | deeplenstronomy/check.py:65-88 | The check raises iff some required path runs into a non-dictionary. Otherwise each required path is reported exactly once when a key on it is missing and never when it resolves. Nothing else is reported, and nothing at all when every path resolves. |
| SectionChecks.CheckNotAllowedToBeDrawn | deeplenstronomy/check.py:90-111 | The loop over the ten fixed paths, in set iteration order, gives the scan's outcome |
| SectionChecks.NotAllowedReport | deeplenstronomy/check.py:102-111 | Absent paths are skipped. A present path is reported exactly once iff its value is a dictionary (a distribution). Scalars and lists draw nothing, and there is no other message. |
| SectionChecks.MustExistScan | deeplenstronomy/check.py:82-86 | The low-level report over any enumerated set of paths |
| SectionChecks.NotDistributionScan | deeplenstronomy/check.py:102-110 | The distribution report over any enumerated set of paths |
| SectionChecks.Verdict | deeplenstronomy/check.py:83-86 | One path raises iff the lookup hits a non-dictionary, since only KeyError is caught. A required path draws a message iff a key is missing. A fixed path draws one iff it resolves to a dictionary. |
| SectionChecks.ScanReport | deeplenstronomy/check.py:82-86 | Over an enumeration of a path set, the scan crashes iff some path crashes. Each path's message occurs once iff its verdict is a hit. Every message comes from a hit. |
| SectionChecks.ParamScanCrash | deeplenstronomy/check.py:82-84 | The scan crashes iff some path in the order crashes |
| SectionChecks.ParamScanCount | deeplenstronomy/check.py:85-86 | A path's message occurs as often as the path is listed when it is a hit, and otherwise never |
| SectionChecks.ParamScanMessages | deeplenstronomy/check.py:86 | Every message of the scan names a listed path whose verdict is a hit |
| SectionChecks.ParamMessageInjective | deeplenstronomy/check.py:86 | Different paths give different messages |
| SectionChecks.ParamOrderIrrelevant | deeplenstronomy/check.py:82 | The set iteration order changes neither whether the check crashes nor the multiset of its messages |
| SectionChecks.SameCount | deeplenstronomy/check.py:102 | Two iteration orders give every message the same number of times |
| ConfigTree.Get | deeplenstronomy/check.py:136 | Subscripting by a key finds an entry with that key iff the key is present |
| ConfigTree.Subscript | deeplenstronomy/check.py:163 | Subscripting succeeds iff the value is a dictionary holding the key |
| ConfigTree.GetUnique | deeplenstronomy/check.py:136-140 | In a dictionary with distinct keys, subscripting by an entry's key yields that entry's value |
| ConfigTree.KeypathResolves | deeplenstronomy/check.py:21-26 | Every keypath of a well-formed tree resolves when looked up along its dotted parts |
| ConfigTree.EntryKeypaths | deeplenstronomy/check.py:21-26 | Every key is a keypath, and so is every key below it prefixed with its path |
| ConfigTree.ResolvedPathIsKeypath | deeplenstronomy/check.py:51-55 | A path that resolves, joined with dots, is one of the keypaths. Lookup and keypath enumeration agree. |
| ConfigTree.FloatOf | deeplenstronomy/check.py:140 | `float()` raises TypeError exactly on a dictionary, list or None, and returns a number unchanged |
| Strings.LastSegment | deeplenstronomy/check.py:128 | `k.split('_')[-1]`: the longest suffix without an underscore, preceded by an underscore when shorter than the key |
| Strings.Split | deeplenstronomy/check.py:84 | `str.split(c)` yields at least one piece, and no piece holds the separator |
| Strings.SplitJoin | deeplenstronomy/check.py:52 | Splitting undoes joining with the separator when no part holds it |
| Strings.SplitAtSeparator | deeplenstronomy/check.py:84 | Splitting at a first separator gives the leading piece and then the split of the rest |
| Strings.ParseInt | deeplenstronomy/check.py:128 | `int()` of a key suffix succeeds iff it is a non-empty digit string, optionally after a `+` or `-`. The value is the digits' decimal value, negated after `-`. |
| Strings.ContainsAt | deeplenstronomy/check.py:183 | `find(w) != -1` holds iff `w` starts at some offset of the string |
| Indexing.Max | deeplenstronomy/check.py:188 | `max()` of a non-empty list is an element, and no element exceeds it |
| Indexing.DensityCheck | deeplenstronomy/check.py:188-189 | The density test raises iff no index was detected. Otherwise it yields its one message iff the count differs from the largest index. |
| Indexing.OptionalDensityCheck | deeplenstronomy/check.py:253-254 | The density test for noise sources, which are optional: it draws its one message iff some index was detected and the count differs from the largest index. It never raises. |
| Indexing.DensityMeansRun | deeplenstronomy/check.py:249-250 | For distinct positive indices, count == max iff the indices are exactly 1..max |
| Indexing.SkippedIndexReported | deeplenstronomy/check.py:258-259 | Indices 1, 2, 4 draw the "must be indexed as 1, 2, 3, ..." message |
| Indexing.DenseIndicesAccepted | deeplenstronomy/check.py:253-254 | Indices 1, 2, 3 draw no message |
| Indexing.Run | deeplenstronomy/check.py:249 | The run 1..n has exactly n members |
| GeometryCheck.CheckValidGeometry | deeplenstronomy/check.py:113-265 | The check's loops compute exactly the geometry fold over the as-authored configuration |
| GeometryCheck.CheckConfigurations | deeplenstronomy/check.py:122-254 | The loop over GEOMETRY keys gathers exactly the configuration fold's messages, configuration indices and fractions |
| GeometryCheck.CheckConfiguration | deeplenstronomy/check.py:123-254 | One configuration's messages, index and fraction, as its fold step defines them |
| GeometryCheck.CheckFraction | deeplenstronomy/check.py:135-143 | The FRACTION test's messages and fraction, as the FRACTION step defines them |
| GeometryCheck.CheckChildren | deeplenstronomy/check.py:149-246 | The loop over a configuration's children gathers exactly the child fold's messages, PLANE indices and NOISE_SOURCE indices |
| GeometryCheck.CheckPlane | deeplenstronomy/check.py:152-189 | One plane's messages and index, as its fold step defines them |
| GeometryCheck.CheckObjects | deeplenstronomy/check.py:166-185 | The loop over a plane's keys gathers exactly the object fold's messages and OBJECT indices |
| GeometryCheck.CheckNamedEntry | deeplenstronomy/check.py:169-185 | One OBJECT's or NOISE_SOURCE's messages and index, as its step defines them |
| GeometryCheck.CheckTimeseries | deeplenstronomy/check.py:210-242 | The TIMESERIES block's messages, as its step defines them |
| GeometryCheck.CheckTimeseriesObjects | deeplenstronomy/check.py:219-228 | The loop over TIMESERIES.OBJECTS gathers exactly the per-object fold's messages |
| GeometryCheck.CheckNites | deeplenstronomy/check.py:236-242 | The NITES conversion loop, stopping at the first failure as the comprehension does |
| GeometrySpec.MatchingPaths | deeplenstronomy/check.py:183 | The SPECIES paths mentioning ".name." are exactly the keypaths with the prefix that contain it. A non-string name raises iff some keypath has the prefix. |
| GeometrySpec.FractionSumCheck | deeplenstronomy/check.py:261-263 | The FRACTION-sum message is produced iff the sum is not in (0, 1] |
| GeometrySpec.NamedEntry | deeplenstronomy/check.py:169-185 | An OBJECT or NOISE_SOURCE raises iff its key has no integer suffix, or its value is not a string while some SPECIES keypath exists. Its recorded index is its key's suffix. |
| GeometrySpec.PlaneEntry | deeplenstronomy/check.py:152-164 | A plane that completes is a dictionary with PARAMETERS, and its recorded index is its key's suffix |
| GeometrySpec.NitesFrom | deeplenstronomy/check.py:238-242 | The NITES test yields nothing or its one message |
| GeometrySpec.TimeseriesEntry | deeplenstronomy/check.py:213 | A TIMESERIES block that completes is a dictionary |
| GeometrySpec.TimeseriesObject | deeplenstronomy/check.py:221 | A listed object that is not a string raises |
| GeometrySpec.Classify | deeplenstronomy/check.py:152-245 | A child is an unexpected entry iff it is no PLANE_, no NOISE_SOURCE_, not TIMESERIES and not FRACTION |
| GeometrySpec.FractionEntry | deeplenstronomy/check.py:135-143 | The FRACTION test raises iff FRACTION is a non-numeric string, and contributes at most one fraction |
| GeometrySpec.ConfigurationEntry | deeplenstronomy/check.py:122-131 | A configuration that completes is a dictionary, and its recorded index is its key's suffix |
| GeometryProps.GeometryReport | deeplenstronomy/check.py:257-263 | A completed geometry check ends with two tests. The CONFIGURATION density test runs over the configuration indices read from the keys. The FRACTION-sum test runs over the fractions the configurations declare. The sum message is present iff that sum is outside (0, 1]. |
| GeometryProps.EmptyGeometryAborts | deeplenstronomy/check.py:116-118 | An empty GEOMETRY section aborts the check at `max([])`, so its "needs at least one CONFIGURATION" message is never seen |
| GeometryProps.ConfigurationsIndices | deeplenstronomy/check.py:126-131 | The configuration loop records one index per GEOMETRY key, read from that key, in key order |
| GeometryProps.ConfigIndexAt | deeplenstronomy/check.py:128-131 | The j-th recorded configuration index is the suffix of the j-th key |
| GeometryProps.ConfigurationsFractions | deeplenstronomy/check.py:135-141 | The loop collects exactly the FRACTIONs that convert to numbers, in key order |
| GeometryProps.ObjectIndices | deeplenstronomy/check.py:166-175 | The object loop records the index of every OBJECT_ key of the plane, in key order |
| GeometryProps.PlaneDensity | deeplenstronomy/check.py:187-189 | A completed plane's messages end with the OBJECT density test over its OBJECT_ indices |
| GeometryProps.ChildIndices | deeplenstronomy/check.py:149-198 | The child loop records exactly the PLANE_ indices and the NOISE_SOURCE_ indices of the configuration's keys |
| GeometryProps.ChildStepIndices | deeplenstronomy/check.py:155-198 | One child adds its own key's index to the PLANE or NOISE_SOURCE list, by its prefix |
| GeometryProps.ConfigurationDensity | deeplenstronomy/check.py:248-254 | A completed configuration has a PLANE. Its messages end with the PLANE density test over its own PLANE_ indices, then the NOISE_SOURCE density test over its own NOISE_SOURCE_ indices, which draws nothing when there are none. |
| GeometryProps.PlaneRedshift | deeplenstronomy/check.py:162-164 | A completed plane draws "REDSHIFT is missing" iff its PARAMETERS lack REDSHIFT |
| GeometryProps.NamedEntrySpecies | deeplenstronomy/check.py:179-185 | An OBJECT or NOISE_SOURCE draws exactly one "missing from the SPECIES section" message when its name matches no SPECIES keypath, or is not a string. When it matches, it draws none. |
| GeometryProps.UnmatchedObjectReported | deeplenstronomy/check.py:183-185 | An OBJECT whose name no SPECIES keypath contains is reported in the check's output |
| GeometryProps.UnmatchedNoiseSourceReported | deeplenstronomy/check.py:206-208 | A NOISE_SOURCE whose name no SPECIES keypath contains is reported in the check's output |
| GeometryProps.UnknownGeometryKeyReported | deeplenstronomy/check.py:123-124 | A GEOMETRY key without the CONFIGURATION_ prefix is reported as an invalid entry |
| GeometryProps.UnknownChildReported | deeplenstronomy/check.py:244-246 | A configuration child that is no PLANE_, NOISE_SOURCE_, TIMESERIES or FRACTION is reported as not a valid entry |
| GeometryProps.GeometryKeeps | deeplenstronomy/check.py:122-254 | Every configuration's messages survive into the check's output. No later configuration masks them. |
| GeometryProps.ConfigurationKeeps | deeplenstronomy/check.py:123-246 | A configuration's child messages survive into its own messages, and an unprefixed key is reported |
| GeometryProps.ChildKept | deeplenstronomy/check.py:150-246 | Every plane's and noise source's messages survive the child loop, and an unexpected child is reported |
| GeometryProps.ObjectKept | deeplenstronomy/check.py:167-185 | Every OBJECT's messages survive the object loop |
| GeometryProps.FractionSumExamples | deeplenstronomy/check.py:261-263 | Fractions [0.5, 0.6] and [0.0] draw the sum message, and [0.4, 0.5] does not |
| GeometryMessages.NamedEntryMessages | deeplenstronomy/check.py:172-204 | A completed OBJECT or NOISE_SOURCE is reported as an invalid entry iff its index is below 1, and as "must be a single name" iff its value is not a string |
| GeometryMessages.PlaneIndexReported | deeplenstronomy/check.py:155-157 | A completed plane whose index is below 1 is reported as an invalid entry |
| GeometryMessages.FractionMessages | deeplenstronomy/check.py:135-143 | FRACTION draws ".FRACTION is missing" iff it is absent, and ".FRACTION must be a float" iff it is present and `float()` raises TypeError on it. It declares a fraction iff neither message is drawn. |
| GeometryMessages.ConfigurationMessages | deeplenstronomy/check.py:128-143 | A completed configuration is a dictionary. It is reported as an invalid entry when its index is below 1, and its FRACTION messages reach its own messages. |
| GeometryMessages.EmptyConfigurationAborts | deeplenstronomy/check.py:146-147 | A configuration with no keys aborts the check at the PLANE density test (line 249) |
| GeometryMessages.ZeroIndexPassesDensity | deeplenstronomy/check.py:155-158 | PLANE_0 and PLANE_-1 parse as 0 and -1, and the indices 0 and 2 pass the density test of line 249 |
| GeometryMessages.DuplicateIndexPassesDensity | deeplenstronomy/check.py:155-158 | PLANE_1 and PLANE_01 both parse as 1, PLANE_3 as 3, and the indices 1, 1 and 3 pass the density test of line 249 |
| GeometryCheck.ConfigurationCompletes | deeplenstronomy/check.py:122-254 | A configuration completes iff its key has an integer index, it is a dictionary, its FRACTION test and child loop complete, and it has at least one PLANE. Noise sources are not required. |
| GeometryMessages.TimeseriesObjectMessages | deeplenstronomy/check.py:220-228 | A listed object that completes is a string. It is reported as missing from SPECIES when no SPECIES keypath contains it. It is reported as missing from the configuration when no keypath of the configuration contains it. Otherwise its first SPECIES keypath leads to a dictionary, and that dictionary's lack of MODEL is reported. |
| GeometryMessages.TimeseriesObjectKept | deeplenstronomy/check.py:220-228 | Every listed object's messages survive the OBJECTS loop |
| GeometryMessages.NitesReport | deeplenstronomy/check.py:238-242 | The NITES test is silent iff every entry converts. Otherwise, at the first entry that does not convert, it reports "must be numeric" on a TypeError and aborts on a ValueError. |
| GeometryMessages.TimeseriesReport | deeplenstronomy/check.py:211-242 | A completed TIMESERIES block is a dictionary. A missing OBJECTS or NITES is reported as missing, and one that is not a list as "must be a list". Every listed object is a string whose messages reach the block's messages. In a completed block, the first NITES entry that does not convert is one `float()` raises TypeError on, and "must be numeric" is reported. |
| GeometryMessages.LeafSpeciesPathAborts | deeplenstronomy/check.py:221-224 | With SPECIES {LENS: {NAME: LENS, MODEL: ia}}, listing LENS under TIMESERIES.OBJECTS aborts the check: the first matching keypath ends at a string |
| Findings.RedshiftTestAsWritten | deeplenstronomy/check.py:163 | As written, the test can fire only when the plane's key is among its own PARAMETERS |
| Findings.RedshiftMissedAsWritten | deeplenstronomy/check.py:163-164 | As written, a PLANE_1 with empty PARAMETERS is not reported |
| Findings.ClassifyAsWritten | deeplenstronomy/check.py:150-246 | As written, the child dispatch has no FRACTION branch |
| Findings.FractionFlaggedAsWritten | deeplenstronomy/check.py:245-246 | As written, FRACTION falls into the unexpected-entry branch |
| Findings.FractionNotFlagged | deeplenstronomy/check.py:135-150 | With FRACTION set aside, a configuration's FRACTION adds nothing to its child loop |
| Findings.NoiseDensityAsWritten | deeplenstronomy/check.py:121 | As written, the NOISE_SOURCE test of a configuration runs over the indices of all configurations so far. It raises only when none has a noise source. |
| Findings.SharedNoiseListAsWritten | deeplenstronomy/check.py:253-254 | Two configurations each with NOISE_SOURCE_1: as written the second is reported, though its own indices are dense |
| Findings.NoNoiseSourceAsWritten | deeplenstronomy/check.py:121 | As written, a configuration without noise sources aborts the check when no earlier configuration had one, and passes after one that had. The per-configuration test reports nothing for it. |
| Findings.FirstNoiseListAgrees | deeplenstronomy/check.py:253-254 | On the first configuration that has noise sources, the code's test and the per-configuration test give the same messages |
| Findings.NoiseIndexAsWritten | deeplenstronomy/check.py:195 | As written, the NOISE_SOURCE index is read from the last OBJECT key visited. It raises when no plane was visited. |
| Findings.StaleObjectKeyAsWritten | deeplenstronomy/check.py:195-198 | As written, NOISE_SOURCE_1 after a plane ending in OBJECT_2 is recorded as 2, where its own key gives 1 |

## Left out

- Printing and exit: `kind_output` and the print/`sys.exit()` of `run_checks` (lines 269-289) are console I/O. The runner returns the messages and whether ConfigFileError is raised.
- Reflection: `dir()`, `eval` and the string-built lookups (lines 29, 36, 55) are replaced by an explicit list of the four checks in `dir()` order and a structural lookup.
- `KeyPathDict` internals: `deeplenstronomy.utils` is not part of this model. Keypaths are every dictionary key of the tree, dotted, in pre-order. `for x in self.config` is taken to enumerate them.
- Set iteration order of the two parameter sets (lines 67, 92): it is a parameter of the model, required to enumerate the set. `SectionChecks.ParamOrderIrrelevant` shows that only the message order depends on it.
- Floating point: FRACTION and NITES values are reals, and the sum is exact. `float()` of a string is a decimal parser that accepts digits with an optional sign and fraction. Whitespace, exponents, `inf`, `nan` and underscores are not modelled. A string it rejects aborts the check, as ValueError does.
- ConfigTree.FloatOf: the value `float()` gives for a numeric string is not constrained. The contract states only which values raise TypeError and that numbers pass unchanged.
- Strings.ParseInt: surrounding whitespace and non-ASCII decimal digits, both of which Python's `int()` accepts, are rejected here. A key suffix such as `" 1"` or `"١"` therefore aborts the check in the model but not in Python.
- GeometryMessages.TimeseriesObjectMessages: each message is stated in one direction: a listed object with the defect draws the message. That a sound object draws none is not stated.
- GeometryMessages.TimeseriesReport: states which defects of a TIMESERIES block are reported. It does not state that a well-formed block draws no message.
- GeometryMessages.ConfigurationMessages: states which configuration-level defects are reported. It does not state that a sound configuration draws none of these messages.
- Line 224 as written raises NameError whenever a listed time-series object has a SPECIES path. Only the intended lookup is modelled.
- The "needs a valid integer index greater than zero" messages (lines 133, 160, 177, 200) are unreachable: `int()` of a string raises ValueError, which is not caught. No member models them.
- `distributions.py`, `PopSim/population.py` and `test/test_all.py` are not part of this model. They draw random parameters or drive the simulation, and are not among the checks.

## Findings

| source | as written | input that shows it | evidently intended | confidence | as-written member | corrected member |
|---|---|---|---|---|---|---|
| deeplenstronomy/check.py:163 | `'REDSHIFT' not in config_k in params.keys()` is a chained comparison. It tests that REDSHIFT is not a substring of the plane key, and that the plane key is a PARAMETERS key. | PLANE_1 whose PARAMETERS are empty: not reported | report the plane iff its PARAMETERS lack REDSHIFT | high, not executed | Findings.RedshiftMissedAsWritten | GeometryProps.PlaneRedshift |
| deeplenstronomy/check.py:150 | The FRACTION key is iterated with the plane, noise and time-series children. It falls into the unexpected-entry branch at line 245. | any configuration with a FRACTION: "GEOMETRY.CONFIGURATION_1.FRACTION is not a valid entry" | FRACTION is not a child | high, not executed | Findings.FractionFlaggedAsWritten | Findings.FractionNotFlagged |
| deeplenstronomy/check.py:121 | `detected_noise_sources` is created once for all configurations but tested per configuration (line 253) | CONFIGURATION_1 and CONFIGURATION_2 each with NOISE_SOURCE_1: the second is told to index 1, 2, 3, ... | test each configuration's own noise sources, and skip a configuration that has none, since noise sources are optional. As written, such a configuration aborts the check only when no earlier one had a noise source (Findings.NoNoiseSourceAsWritten). | high, not executed | Findings.SharedNoiseListAsWritten | GeometryProps.ConfigurationDensity |
| deeplenstronomy/check.py:195 | The NOISE_SOURCE index is read from `obj_k`, the last key of the last plane's object loop | NOISE_SOURCE_1 after a plane whose last key is OBJECT_2: recorded as index 2 | read the index from the noise source's own key | high, not executed | Findings.StaleObjectKeyAsWritten | GeometryProps.ChildStepIndices |
| deeplenstronomy/check.py:55 | `self.config_dict` is never assigned, so the lookup helper and the geometry check raise AttributeError | any configuration at all: CheckFunctionError for the low-level, distribution and geometry checks | read the as-authored configuration passed to the constructor | high, not executed | Runner.AlwaysRaisesAsWritten | Runner.RaisedIffDefect |
