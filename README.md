# IRH verification core, modelled in Dafny

This project models the exact, non-numerical core of the Intrinsic
Resonance Holography (IRH) code base. That core is the machinery the
project uses to check that its code corresponds to theory, plus its small
quaternion algebra:

- **Compliance checker** (`scripts/verify_compliance.py`). A
  `ComplianceChecker` object collects violations (severity "error"),
  warnings (any other severity) and a count of passed checks. Three checks
  feed it:
  - the critical documentation files exist;
  - the two manuscripts exist;
  - every `def compute_…`/`def calculate_…` header under `python/src` has a
    docstring citing the theory.

  It then reports, and `main` exits with 0 exactly when no violation was
  filed. Modules: `Compliance` (checker class, checks, `Run`),
  `ComplianceRecords` (violation records, their dictionaries, the report,
  and how a run of verdicts is filed) and `ComplianceScan` (the header
  regex, the docstring window, line numbers and the four reference patterns).
- **Runtime transparency engine** (`src/logging/transparency_engine.py`,
  module `RuntimeTransparency`). An append-only list of `TransparencyLog`
  records. Each record is logged with a message that joins the given parts
  with `" | "` in a fixed order. There are three convenience loggers,
  copy, clear and export operations, and a lazily created global engine.
- **Theoretical-step log** (`python/src/irh/verification/transparency.py`,
  module `TheoreticalStepLog`). A separate engine whose append is gated on
  its verbosity, together with its module-level instance.
- **Reference decorator** (`python/src/irh/verification/annotations.py`,
  module `Annotations`). `theoretical_reference` appends a record to the
  function's shared reference list and rewrites its docstring with a
  guarded append. It returns a pass-through wrapper.
- **Quaternions** (`python/src/irh/core/v22/quaternion.py`, module
  `Quaternions`). The Hamilton product, sum, difference, conjugate, squared
  norm, norm, inverse, normalisation and the array round trip, over `real`.
- **QNCD** (`python/src/irh/core/v22/qncd.py`, module `Qncd`).
  `compute_qncd`, the distance 1 − ⟨q1/|q1|, q2/|q2|⟩² clipped to [0, 1],
  as written. It is proved equal to the square-root-free form
  1 − dot(q1,q2)² / (|q1|² |q2|²), and from that form its symmetry,
  scale invariance and test values follow.
- **Uncertainty values** (`python/src/irh/verification/uncertainty.py`,
  module `Uncertainty`). `+` and `*` of values with uncertainties,
  propagated in quadrature, and of a value with a plain number.

Helper modules: `Wrappers` (Option, Result), `Text` (the Python string
operations used: `find`, `in`, `count`, `join`, `strip`, and ASCII
character classes), `RealSqrt` (the square root as a parameter `sqrt`
constrained by `IsSqrt`), `RealArith` (small lemmas on real squares and
quotients) and `Payloads` (the dictionaries the loggers carry).

Python floats are modelled as Dafny `real`s, so every arithmetic identity
here holds exactly. `np.sqrt` is a function parameter satisfying
`sqrt(x) >= 0 && sqrt(x) * sqrt(x) == x` for `x >= 0`.

## Model

| member | source | states |
|---|---|---|
| RealSqrt.SqrtUnique | python/src/irh/core/v22/quaternion.py:49 | any two functions meeting `IsSqrt` agree on every non-negative argument, so the `sqrt` parameter stands for `np.sqrt`'s exact root |
| Quaternions.Mul | python/src/irh/core/v22/quaternion.py:22-34 | definition: the Hamilton product, component by component (its properties: BasisProducts, MulConjugate, NormSqMultiplicative, MulScaleLeft/Right) |
| Quaternions.Add | python/src/irh/core/v22/quaternion.py:36-37 | definition: the componentwise sum (AddSubCancel) |
| Quaternions.Sub | python/src/irh/core/v22/quaternion.py:39-40 | definition: the componentwise difference (AddSubCancel) |
| Quaternions.Conjugate | python/src/irh/core/v22/quaternion.py:42-43 | definition: w kept, x, y, z negated (ConjugateInvolution, MulConjugate) |
| Quaternions.NormSq | python/src/irh/core/v22/quaternion.py:45-46 | definition: the sum of the four squares (NormSqZero, NormSqMultiplicative) |
| Quaternions.Scale | python/src/irh/core/v22/quaternion.py:55-56 | definition: every component times one real, the form the divisions of `inverse` and `normalize` take (DivIsScale) |
| Quaternions.ToArray | python/src/irh/core/v22/quaternion.py:64-65 | definition: the components in the order w, x, y, z (ArrayRoundTrip) |
| Quaternions.Norm | python/src/irh/core/v22/quaternion.py:48-49 | the norm is the non-negative root of `norm_sq`, and it is zero exactly for the zero quaternion |
| Quaternions.Inverse | python/src/irh/core/v22/quaternion.py:51-56 | fails exactly for the zero quaternion, with ZeroDivisionError "Cannot invert zero quaternion" |
| Quaternions.Normalize | python/src/irh/core/v22/quaternion.py:58-62 | fails exactly for the zero quaternion, with ZeroDivisionError "Cannot normalize zero quaternion" |
| Quaternions.FromArray | python/src/irh/core/v22/quaternion.py:67-69 | fails (IndexError) exactly when fewer than four entries are given; otherwise the components are the first four entries |
| Quaternions.NormSqZero | python/src/irh/core/v22/quaternion.py:45-46 | `norm_sq` is non-negative and zero exactly for the zero quaternion |
| Quaternions.MulConjugate | python/src/irh/core/v22/quaternion.py:22-46 | q·conj(q) and conj(q)·q are both the real quaternion `norm_sq(q)` |
| Quaternions.MulScaleRight | python/src/irh/core/v22/quaternion.py:22-34 | scaling the right factor by c scales the Hamilton product by c |
| Quaternions.MulScaleLeft | python/src/irh/core/v22/quaternion.py:22-34 | scaling the left factor by c scales the Hamilton product by c |
| Quaternions.InverseIsInverse | python/src/irh/core/v22/quaternion.py:51-56 | conj(q)/norm_sq(q) is a left and a right inverse of q when norm_sq(q) ≠ 0 |
| Quaternions.DivNormSq | python/src/irh/core/v22/quaternion.py:58-62 | dividing every component by n divides `norm_sq` by n² |
| Quaternions.DivIsScale | python/src/irh/core/v22/quaternion.py:51-62 | componentwise division by n is scaling by 1/n |
| Quaternions.InverseIsTwoSided | python/src/irh/core/v22/quaternion.py:51-56 | for every non-zero q, `inverse` succeeds and q·inverse(q) == inverse(q)·q == (1,0,0,0) |
| Quaternions.NormalizeIsUnit | python/src/irh/core/v22/quaternion.py:58-62 | for every non-zero q, `normalize` succeeds with q scaled by 1/norm(q), which has `norm_sq` 1 |
| Quaternions.BasisProducts | python/tests/v22/test_quaternion.py:23-39 | i·j = k, j·i = −k, i·i = −1, so the product does not commute |
| Quaternions.AddSubCancel | python/src/irh/core/v22/quaternion.py:36-40 | (p + q) − q == p, and componentwise addition commutes |
| Quaternions.ConjugateInvolution | python/src/irh/core/v22/quaternion.py:42-43 | conjugating twice is the identity, and conj(p·q) == conj(q)·conj(p) |
| Quaternions.NormSqMultiplicative | python/src/irh/core/v22/quaternion.py:22-46 | norm_sq(p·q) == norm_sq(p)·norm_sq(q) (Euler's four-square identity) |
| Quaternions.ArrayRoundTrip | python/src/irh/core/v22/quaternion.py:64-69 | from_numpy(to_numpy(q)) == q, and to_numpy(from_numpy(a)) is a's first four entries |
| Qncd.Dot | python/src/irh/core/v22/qncd.py:49 | definition: the Euclidean inner product in R^4 (DotScale, CauchySchwarz) |
| Qncd.SqrtFreeQncd | python/src/irh/core/v22/qncd.py:15-22 | definition: the documented distance 1 − dot(q1,q2)²/(\|q1\|²\|q2\|²), 1 for a zero input; equal to `compute_qncd` by QncdClosedForm |
| Qncd.Fidelity | python/src/irh/core/v22/qncd.py:51-52 | definition: dot(q1,q2)²/(\|q1\|²\|q2\|²) for non-zero states (FidelityBounds, NormalizedFidelity) |
| Qncd.Clip | python/src/irh/core/v22/qncd.py:58 | `np.clip` lands in [lo, hi] and leaves a value already inside unchanged |
| Qncd.ComputeQncd | python/src/irh/core/v22/qncd.py:11-58 | the distance lies in [0, 1], and it is 1 when either state is the zero quaternion (normalisation raised) |
| Qncd.Lagrange | python/src/irh/core/v22/qncd.py:49-52 | \|p\|²\|q\|² − dot(p,q)² is a sum of six squares |
| Qncd.CauchySchwarz | python/src/irh/core/v22/qncd.py:49-52 | dot(p,q)² ≤ \|p\|²\|q\|² |
| Qncd.FidelityBounds | python/src/irh/core/v22/qncd.py:49-55 | the fidelity of two non-zero states lies in [0, 1], so the unclipped distance lies there too |
| Qncd.NormalizedFidelity | python/src/irh/core/v22/qncd.py:36-52 | the squared dot product of the normalised states equals dot(q1,q2)²/(\|q1\|²\|q2\|²) |
| Qncd.QncdClosedForm | python/src/irh/core/v22/qncd.py:36-58 | `compute_qncd` is the square-root-free distance for every pair, so the clip never changes the value |
| Qncd.QncdSymmetric | python/tests/v22/test_qncd.py:12-17 | d(q1, q2) == d(q2, q1) for every pair |
| Qncd.QncdSelfZero | python/tests/v22/test_qncd.py:7-10 | d(q, q) == 0 for every non-zero q |
| Qncd.DotScale | python/src/irh/core/v22/qncd.py:49 | dot(c·p, e·q) == c·e·dot(p, q) |
| Qncd.FidelityScaleInvariant | python/src/irh/core/v22/qncd.py:36-52 | scaling a state by c ≠ 0 keeps it non-zero and leaves the fidelity unchanged |
| Qncd.QncdScaleInvariant | python/src/irh/core/v22/qncd.py:26-38 | scaling either argument by c ≠ 0 leaves the distance unchanged, since both states are normalised first |
| Qncd.QncdAntipodalZero | python/tests/v22/test_qncd.py:29-38 | d(q, −q) == 0 for every non-zero q |
| Qncd.QncdOrthogonal | python/tests/v22/test_qncd.py:19-27 | two non-zero states with dot product 0 are at distance 1 |
| Qncd.FidelityOrthogonal | python/src/irh/core/v22/qncd.py:49-52 | orthogonal non-zero states have fidelity 0 |
| Qncd.FidelityHalf | python/src/irh/core/v22/qncd.py:49-52 | \|q1\|² = 1, \|q2\|² = 2 and dot 1 give fidelity 1/2 |
| Qncd.QncdHalf | python/tests/v22/test_qncd.py:40-47 | every pair with \|q1\|² = 1, \|q2\|² = 2 and dot 1 is at distance 1/2 |
| Qncd.QncdIntermediate | python/tests/v22/test_qncd.py:40-47 | (1,0,0,0) against (1,1,0,0) is at distance 0.5 |
| Uncertainty.Combined | python/src/irh/verification/uncertainty.py:21 | the provenance is `Combined(` + s1 + `, ` + s2 + `)`: it starts with "Combined(" and keeps both sources in order |
| Uncertainty.Add | python/src/irh/verification/uncertainty.py:17-23 | two values: the values add, u² == u1² + u2² with u ≥ 0, and sources are combined; a number k shifts only the value |
| Uncertainty.Mul | python/src/irh/verification/uncertainty.py:25-33 | two values: Python's division error whenever either value is 0 (the float case; see Left out), else the product of the values with combined source; a number k gives value·k, uncertainty·\|k\|, same source |
| Uncertainty.MulUncertainty | python/src/irh/verification/uncertainty.py:26-31 | for non-zero values the product's uncertainty is ≥ 0 and its square is (u1·v2)² + (u2·v1)² |
| Uncertainty.AddCommutes | python/src/irh/verification/uncertainty.py:18-21 | the sum of two values has the same value and uncertainty in either order |
| Uncertainty.NumberIdentities | python/src/irh/verification/uncertainty.py:17-33 | adding the number 0 or multiplying by the number 1 returns the value unchanged |
| Uncertainty.PropagationExample | python/tests/v22/test_verification.py:27-42 | 10 ± 1 plus 20 ± 2 is 30 with u² = 5; their product is 200 with u² = 800 (u ≈ 28.28) |
| ComplianceRecords.ToDict | scripts/verify_compliance.py:27-34 | the dictionary has exactly the five keys, each holding its field, with None as null |
| ComplianceRecords.ToDictRoundTrip | scripts/verify_compliance.py:27-34 | every violation can be read back unchanged from its dictionary |
| ComplianceRecords.FromDict | scripts/verify_compliance.py:27-34 | definition: reads a violation back from its five keys; the inverse of `to_dict` by ToDictRoundTrip |
| ComplianceRecords.ExportAll | scripts/verify_compliance.py:178-179 | one `to_dict` per record, in insertion order |
| ComplianceRecords.ReportOf | scripts/verify_compliance.py:174-186 | compliant exactly when there are no violations; the summary totals are the list lengths and the pass count; the two lists are exactly the `to_dict` exports of the records, in insertion order, and read back to them |
| ComplianceRecords.ExportsReadBack | scripts/verify_compliance.py:178-179 | every exported entry reads back as the record at its position |
| ComplianceRecords.WarningsDoNotAffectCompliance | scripts/verify_compliance.py:177 | the verdict does not depend on the warnings or on the pass count |
| ComplianceRecords.Errors | scripts/verify_compliance.py:52-57 | a run of verdicts files at most one violation per verdict |
| ComplianceRecords.Warns | scripts/verify_compliance.py:52-57 | a run of verdicts files at most one warning per verdict |
| ComplianceRecords.Passes | scripts/verify_compliance.py:52-66 | each verdict is exactly one of a pass, a violation and a warning |
| ComplianceRecords.OutcomesAppend | scripts/verify_compliance.py:52-66 | handing over a + b files the errors, warnings and passes of a, then those of b |
| ComplianceRecords.ErrorsAppend | scripts/verify_compliance.py:54-55 | the violations of a + b are those of a followed by those of b |
| ComplianceRecords.WarnsAppend | scripts/verify_compliance.py:56-57 | the warnings of a + b are those of a followed by those of b |
| ComplianceRecords.PassesAppend | scripts/verify_compliance.py:64-66 | the passes of a + b are those of a plus those of b |
| ComplianceRecords.FiledWhereSeverityPoints | scripts/verify_compliance.py:54-57 | a record is among the violations iff it was flagged with severity "error", and among the warnings iff flagged with any other severity |
| ComplianceRecords.NoErrors | scripts/verify_compliance.py:54-57 | with no flagged "error" verdict nothing is filed as a violation |
| ComplianceRecords.Record | scripts/verify_compliance.py:52-66 | definition: a pass increments the count, a record of severity "error" is appended to the violations, any other to the warnings |
| ComplianceRecords.RecordAll | scripts/verify_compliance.py:52-66 | definition: verdicts handed over one after the other (RecordAllParts, RecordAllAppend) |
| ComplianceRecords.RecordAllAppend | scripts/verify_compliance.py:188-192 | running two checks one after the other is handing over their verdicts concatenated |
| ComplianceRecords.RecordStep | scripts/verify_compliance.py:52-66 | handing over one more verdict extends the prefix recorded so far |
| ComplianceRecords.RecordAllParts | scripts/verify_compliance.py:43-66 | the checker ends with its lists extended by the errors and the warnings in order, and the passes counted |
| ComplianceScan.WordRun | scripts/verify_compliance.py:86 | `\w+` is greedy: the end of the longest run of word characters |
| ComplianceScan.SpaceRun | scripts/verify_compliance.py:86 | `\s*`: the end of the longest run of whitespace |
| ComplianceScan.ColonOnLine | scripts/verify_compliance.py:86 | `.*?:` finds the first colon with no newline before it, and fails exactly when no colon is on the line |
| ComplianceScan.HeaderEnd | scripts/verify_compliance.py:86 | the header ends just after a colon following the parameter list |
| ComplianceScan.NameBody | scripts/verify_compliance.py:86 | a name is matched only after `def ` and with the prefix `compute_` or `calculate_` |
| ComplianceScan.ParamList | scripts/verify_compliance.py:86 | `\s*\([^)]*\)` ends at a closing parenthesis |
| ComplianceScan.NameEnd | scripts/verify_compliance.py:86 | the name `compute_\w+`/`calculate_\w+` ends after the `def ` |
| ComplianceScan.MatchAt | scripts/verify_compliance.py:85-88 | a match at i starts at i with `def `, ends at a colon, and `group(1)` is the name between |
| ComplianceScan.MatchedName | scripts/verify_compliance.py:86 | the captured name is all word characters and is `compute_` or `calculate_` followed by at least one more |
| ComplianceScan.FindAll | scripts/verify_compliance.py:85-90 | every match `re.finditer` yields is a match of the header regex at its start |
| ComplianceScan.FindAllOrdered | scripts/verify_compliance.py:85-90 | the matches come in order and do not overlap |
| ComplianceScan.FindAllComplete | scripts/verify_compliance.py:85-90 | no header is missed: every position where the regex matches starts or lies inside a reported match |
| ComplianceScan.Window | scripts/verify_compliance.py:96 | `content[start:start+2000]` with Python's clamping of the end |
| ComplianceScan.Docstring | scripts/verify_compliance.py:95-96 | `"""(.*?)"""` with DOTALL finds the text between the first triple quote of the window and the first triple quote that starts after it; none exactly when no two non-overlapping triple quotes exist |
| ComplianceScan.DocstringFirstPair | scripts/verify_compliance.py:95-96 | of two quoted pairs, the first one's text is the docstring |
| ComplianceScan.LazyBody | scripts/verify_compliance.py:95 | the lazy body never contains a triple quote |
| ComplianceScan.LineNumber | scripts/verify_compliance.py:111 | the line reported is at least 1, at most start + 1, and 1 exactly when no newline precedes the match |
| ComplianceScan.LineNumberStep | scripts/verify_compliance.py:111 | moving one character forward moves down a line exactly when that character is a newline |
| ComplianceScan.SearchFrom | scripts/verify_compliance.py:101-106 | `re.search` succeeds exactly when the pattern matches at some position |
| ComplianceScan.PatternAt | scripts/verify_compliance.py:101-106 | definition: the four reference patterns (IGNORECASE version, equation, section sign, appendix letter) matching at one position |
| ComplianceScan.HasReference | scripts/verify_compliance.py:101-106 | true exactly when one of the four reference patterns occurs in the docstring |
| ComplianceScan.ReferenceExamples | scripts/verify_compliance.py:102-103 | "per IRH v21.4" and "Eq. 3" both count as references |
| ComplianceScan.MatchOutcome | scripts/verify_compliance.py:90-127 | a pass carries "Function … has theoretical reference"; a flagged header is a warning with the file and line, "Missing Docstring" exactly when no docstring is found, else "Missing Theoretical Reference", each with its message |
| ComplianceScan.MatchPasses | scripts/verify_compliance.py:98-109 | a header passes exactly when a docstring is found and one of the four patterns occurs in it |
| ComplianceScan.MatchOutcomes | scripts/verify_compliance.py:90-127 | exactly one verdict per header, in order |
| ComplianceScan.Skipped | scripts/verify_compliance.py:77-78 | definition: a path containing `__pycache__` or a name containing `test_` |
| ComplianceScan.FileMatches | scripts/verify_compliance.py:76-88 | skipped (`__pycache__`, `test_`) and unreadable files yield no headers; the others yield regex matches |
| ComplianceScan.FileOutcomes | scripts/verify_compliance.py:76-130 | a file contributes one verdict per header found in it, in order |
| ComplianceScan.ScanOutcomes | scripts/verify_compliance.py:76-127 | definition: the verdicts of all files, file after file (ScanOnlyWarns) |
| ComplianceScan.OnlyWarnsAppend | scripts/verify_compliance.py:112-127 | concatenating two runs of warning-only verdicts stays warning-only |
| ComplianceScan.FileOnlyWarns | scripts/verify_compliance.py:112-127 | everything a file's scan flags is a warning |
| ComplianceScan.ScanOnlyWarns | scripts/verify_compliance.py:70-130 | the function scan never files a violation, so it cannot make the repository non-compliant |
| Compliance.CriticalOutcome | scripts/verify_compliance.py:141-151 | definition: a pass for an existing critical file, else an "error" "Missing Critical File" naming it |
| Compliance.ManuscriptOutcome | scripts/verify_compliance.py:162-172 | definition: a pass for an existing manuscript, else a "warning" "Missing Manuscript" naming it |
| Compliance.CriticalOutcomes | scripts/verify_compliance.py:136-151 | definition: the verdicts on the critical files, in list order |
| Compliance.ManuscriptOutcomes | scripts/verify_compliance.py:157-172 | definition: the verdicts on the manuscripts, in list order |
| Compliance.AllOutcomes | scripts/verify_compliance.py:188-192 | definition: critical files, then manuscripts, then the function scan |
| Compliance.CriticalErrors | scripts/verify_compliance.py:141-151 | the critical-file check files one error per missing critical file, each "Missing Critical File" naming it, and no warning |
| Compliance.OneCritical | scripts/verify_compliance.py:141-151 | one critical file yields an error exactly when it is missing, and never a warning |
| Compliance.ManuscriptsOnlyWarn | scripts/verify_compliance.py:162-172 | the manuscript check files no error and one warning per missing manuscript |
| Compliance.OneManuscript | scripts/verify_compliance.py:162-172 | one manuscript yields a warning exactly when it is missing, and never an error |
| Compliance.CriticalErrorsIff | scripts/verify_compliance.py:141-151 | the critical-file check files no error exactly when every critical file exists |
| Compliance.CompliantIffCriticalFilesPresent | scripts/verify_compliance.py:188-192 | all three checks together file no violation exactly when both critical files exist |
| Compliance.ComplianceChecker.constructor | scripts/verify_compliance.py:40-45 | a new checker holds no violations, no warnings and no passes |
| Compliance.ComplianceChecker.AddViolation | scripts/verify_compliance.py:52-57 | an "error" is appended to the violations, anything else to the warnings; the other list and the pass count stay unchanged |
| Compliance.ComplianceChecker.AddPass | scripts/verify_compliance.py:64-66 | the pass count grows by one and both lists stay unchanged |
| Compliance.ComplianceChecker.Hand | scripts/verify_compliance.py:52-66 | one verdict handed to the checker changes its state as `Record` says |
| Compliance.ComplianceChecker.CheckCriticalFiles | scripts/verify_compliance.py:132-151 | the checker's new state is the old one with each critical file's verdict recorded, in list order |
| Compliance.ComplianceChecker.CheckManuscriptReferences | scripts/verify_compliance.py:153-172 | the checker's new state is the old one with each manuscript's verdict recorded, in list order |
| Compliance.ComplianceChecker.CheckTheoreticalReferences | scripts/verify_compliance.py:70-130 | the checker's new state is the old one with every header of every file recorded, file after file |
| Compliance.ComplianceChecker.GenerateReport | scripts/verify_compliance.py:174-186 | compliant exactly when there are no violations; summary totals from the state; the two lists are exactly the `to_dict` exports of the checker's lists, in order |
| Compliance.ComplianceChecker.RunAllChecks | scripts/verify_compliance.py:188-192 | the three checks run in order: critical files, manuscripts, function scan |
| Compliance.Run | scripts/verify_compliance.py:212-237 | the report of a fresh checker after all checks; exit code 0 when compliant and 1 otherwise, so 0 exactly when both critical files exist |
| RuntimeTransparency.Given | src/logging/transparency_engine.py:110-113 | definition: the truth value of an optional string |
| RuntimeTransparency.MessageParts | src/logging/transparency_engine.py:109-119 | definition: the operation part, then each optional part in fixed order when given (MessageShape, MessageBare, MessageFull) |
| RuntimeTransparency.MessageShape | src/logging/transparency_engine.py:109-121 | the message has one part per given argument plus the operation, and always starts with "Operation: " + operation |
| RuntimeTransparency.MessageBare | src/logging/transparency_engine.py:109-121 | with nothing (or only empty values) given, the message is the operation part alone |
| RuntimeTransparency.MessageFull | src/logging/transparency_engine.py:109-121 | with everything given, Operation, Reference, Formula, Inputs, Outputs, Metadata appear in that order, separated by " \| " |
| RuntimeTransparency.ResultMessage | src/logging/transparency_engine.py:134-141 | a result's message starts with "Operation: " + operation + " \| Outputs: " and the rendered result, whatever keywords are given |
| RuntimeTransparency.Export | src/logging/transparency_engine.py:161-173 | an exported record has the ISO timestamp and carries every other field unchanged |
| RuntimeTransparency.TransparencyEngine.constructor | src/logging/transparency_engine.py:49-63 | a new engine has no records |
| RuntimeTransparency.TransparencyEngine.LogComputation | src/logging/transparency_engine.py:65-124 | exactly one record appended at the end, with absent dictionaries stored as empty ones; the message is the joined parts |
| RuntimeTransparency.TransparencyEngine.LogStep | src/logging/transparency_engine.py:126-132 | exactly one record is appended: DEBUG, timestamp `now`, the step as operation, no reference or formula, empty inputs and outputs, metadata the keywords plus "details"; the message is the joined parts |
| RuntimeTransparency.TransparencyEngine.LogResult | src/logging/transparency_engine.py:134-141 | exactly one record is appended: INFO, timestamp `now`, no reference or formula, empty inputs, outputs {"result": result}, the keywords as metadata; the message is the joined parts and starts with the operation and then the outputs |
| RuntimeTransparency.TransparencyEngine.LogError | src/logging/transparency_engine.py:143-149 | exactly one record is appended: ERROR, timestamp `now`, no reference or formula, empty inputs and outputs, metadata the keywords plus "error"; the message is the joined parts |
| RuntimeTransparency.TransparencyEngine.GetLogs | src/logging/transparency_engine.py:151-153 | returns the engine's records, in order, without changing the engine |
| RuntimeTransparency.TransparencyEngine.ClearLogs | src/logging/transparency_engine.py:155-157 | afterwards there are no records |
| RuntimeTransparency.TransparencyEngine.ExportLogs | src/logging/transparency_engine.py:159-173 | one export per record, same length and order, and the engine unchanged |
| RuntimeTransparency.GlobalEngine.constructor | src/logging/transparency_engine.py:177 | the global engine starts as None |
| RuntimeTransparency.GlobalEngine.GetTransparencyEngine | src/logging/transparency_engine.py:180-185 | the engine is created empty on the first call; later calls return the same object |
| RuntimeTransparency.GlobalEngine.LogTransparency | src/logging/transparency_engine.py:188-191 | one record appended to the global engine, which is created first when there is none |
| RuntimeTransparency.SameEngineTwice | src/logging/transparency_engine.py:180-185 | two calls in a row return one and the same engine |
| TheoreticalStepLog.StepMessage | python/src/irh/verification/transparency.py:38 | the message is "Computing " + action + " per " + manuscript + ", " + equation, segment by segment |
| TheoreticalStepLog.StepMessageExample | python/tests/v22/test_verification.py:17-25 | ("TestAction", "Doc1", "Eq1") gives "Computing TestAction per Doc1, Eq1" |
| TheoreticalStepLog.TransparencyEngine.constructor | python/src/irh/verification/transparency.py:18-22 | a new engine keeps the verbosity and has no entries |
| TheoreticalStepLog.TransparencyEngine.LogTheoreticalStep | python/src/irh/verification/transparency.py:24-49 | with verbosity > 0 one INFO entry is appended with the step message and the details (or an empty context); otherwise nothing changes |
| TheoreticalStepLog.StepLogModule.constructor | python/src/irh/verification/transparency.py:72 | the module-level engine is created with verbosity 1 and no entries |
| TheoreticalStepLog.StepLogModule.GetTransparencyEngine | python/src/irh/verification/transparency.py:74-75 | always the one module-level engine |
| TheoreticalStepLog.ClearedEngineLogsOneStep | python/tests/v22/test_verification.py:17-25 | after clearing, one step leaves one entry with the expected message and "key" ↦ "value" in its context |
| Annotations.RefList.constructor | python/src/irh/verification/annotations.py:21-22 | a new reference list is empty |
| Annotations.PyFunction.constructor | python/src/irh/verification/annotations.py:20 | a function object with its behaviour and docstring and no reference list yet |
| Annotations.PyFunction.Wrap | python/src/irh/verification/annotations.py:42-46 | `functools.wraps`: same behaviour, docstring and reference list as the wrapped function |
| Annotations.PyFunction.Call | python/src/irh/verification/annotations.py:43-44 | calling returns what the function computes for those arguments |
| Annotations.Body | python/src/irh/verification/annotations.py:32 | definition: "Theoretical Reference: " + manuscript + ", " + equation (BodyLead) |
| Annotations.Tail | python/src/irh/verification/annotations.py:33-34 | definition: " - " + description only when a non-empty description is given |
| Annotations.Line | python/src/irh/verification/annotations.py:32-34 | definition: the reference and its tail (LineLead) |
| Annotations.DocAddition | python/src/irh/verification/annotations.py:32-34 | definition: the line after a newline and four spaces (AdditionMarked, StrippedAddition) |
| Annotations.RewriteDoc | python/src/irh/verification/annotations.py:36-40 | definition: the guarded append or the stripped addition (RewriteMarked, RewriteIdempotent, RewriteKeepsText) |
| Annotations.BodyLead | python/src/irh/verification/annotations.py:32 | the reference text starts with the marker, the manuscript and a comma |
| Annotations.StripIndent | python/src/irh/verification/annotations.py:40 | stripping on the left removes exactly the newline-and-four-spaces indent |
| Annotations.LineLead | python/src/irh/verification/annotations.py:32-34 | the added line, with or without the description, starts with the marker, the manuscript and a comma |
| Annotations.StrippedAddition | python/src/irh/verification/annotations.py:39-40 | the stripped addition is the line without its indent, at least up to the manuscript's comma |
| Annotations.StrippedWholeLine | python/src/irh/verification/annotations.py:39-40 | with a description ending in a visible character, stripping removes only the indent |
| Annotations.AdditionMarked | python/src/irh/verification/annotations.py:32-34 | the marker "Theoretical Reference:" follows the indent of the addition |
| Annotations.StrippedMarked | python/src/irh/verification/annotations.py:39-40 | an absent or empty docstring becomes text starting with the marker |
| Annotations.RewriteMarked | python/src/irh/verification/annotations.py:36-40 | after decoration the docstring always contains "Theoretical Reference:" |
| Annotations.RewriteIdempotent | python/src/irh/verification/annotations.py:36-38 | decorating a second time leaves the docstring of the first decoration unchanged |
| Annotations.RewriteKeepsText | python/src/irh/verification/annotations.py:36-38 | a non-empty docstring without the marker gets the addition appended, keeping its old text as a prefix |
| Annotations.TheoreticalReference | python/src/irh/verification/annotations.py:20-46 | one record appended to the (created if absent) shared list, the docstring rewritten, and a fresh wrapper sharing both returned |
| Annotations.TestBody | python/tests/v22/test_verification.py:6-15 | the reference text of the test is "Theoretical Reference: Test Manuscript, Eq. 1.0" |
| Annotations.DecoratedDummy | python/tests/v22/test_verification.py:6-15 | a decorated fresh function has one record with the given manuscript and equation, a docstring containing the reference, and still returns 42 |
| Text.Lower | scripts/verify_compliance.py:102 | ASCII case folding as `re.IGNORECASE` compares letters: upper-case letters move by 32, others stay |
| Text.Find | scripts/verify_compliance.py:95-96 | the first occurrence at or after `from`, or none when there is none |
| Text.Contains | python/src/irh/verification/annotations.py:37 | `sub in s` holds exactly when sub occurs at some index |
| Text.CountChar | scripts/verify_compliance.py:111 | `count` is at most the length and zero exactly when the character is absent |
| Text.CountCharAppend | scripts/verify_compliance.py:111 | counting is additive over concatenation |
| Text.Join | src/logging/transparency_engine.py:121 | `sep.join`: one part is itself, more parts are the join of all but the last, the separator, then the last |
| Text.JoinStartsWithFirst | src/logging/transparency_engine.py:121 | a join starts with its first part |
| Text.JoinAppend | src/logging/transparency_engine.py:121 | joining one more part appends the separator and the part |
| Text.Strip | python/src/irh/verification/annotations.py:40 | `strip` never lengthens and leaves no `str.isspace` character (ASCII and Unicode whitespace) at either end |
| Text.StripLeft | python/src/irh/verification/annotations.py:40 | a suffix whose removed prefix is all `str.isspace` characters and which does not start with one |
| Text.StripRight | python/src/irh/verification/annotations.py:40 | a prefix whose removed suffix is all `str.isspace` characters and which does not end with one |
| Text.StripLeftSkips | python/src/irh/verification/annotations.py:40 | stripping on the left removes exactly the leading whitespace run |
| Text.StripRightKeeps | python/src/irh/verification/annotations.py:40 | stripping on the right keeps everything up to the last visible character |

## Left out

- Floating point: every operation is over exact reals, so rounding and the `np.isclose` tolerances of the tests are not modelled. `np.sqrt` is a parameter satisfying `IsSqrt`, and `np.clip` is `Qncd.Clip`.
- Uncertainty.Mul: fails with `Failure("float division by zero")` for every zero value, which is what the source does when the zero-valued operand holds plain Python floats. When its value or uncertainty is a numpy scalar, as the `np.sqrt` uncertainty of every combined value is (uncertainty.py:20, 29), numpy's division returns inf or nan with a RuntimeWarning instead of raising, and the source returns a value with a nan or infinite uncertainty (for `UV(1,1,"A") + UV(-1,1,"B")` times `UV(2,1,"C")`, uncertainty nan). That case is not modelled, since the model has no numpy scalars, infinities or nan.
- Uncertainty.MulUncertainty: states the square of the product's uncertainty, not the square root itself, because the root is the `sqrt` parameter.
- `UncertaintyValue.__repr__`, `Quaternion` and report printing: float formatting, not modelled.
- Filesystem, `glob` and `open` in the compliance script: the existing paths are a set, and the scanned files are a sequence of `SourceFile`s. `relative_to` is the `relPath` field. A read that raises is content `None`, which records nothing, as the `except` at lines 129-130 does.
- Regular expressions: hand-written matchers for the five patterns the scan uses. `\w`, `\s` and `\d` are ASCII only, and `re.IGNORECASE` is ASCII case folding. Unicode classes and folding are not modelled.
- `verify_compliance.py`: `argparse`, the `--report` JSON dump, the verbose `log` and the prints in `add_violation`, `add_pass` and `main` are I/O.
- Python dictionaries are Dafny maps, so key order is not modelled. The text Python prints for a dictionary in a log message is the parameter `render`.
- Records and dictionaries are values. So the model does not capture the sharing the source has: `get_logs` copies only the list (line 153), so the records it returns are the engine's own mutable objects; `log_computation` stores the caller's own dictionaries (lines 101-103); and `export_logs` hands out those same dictionary objects (lines 168-170). A caller that mutates any of them changes the engine's records in the source.
- Clocks: `datetime.now()` is the parameter `now`, and `isoformat` is a parameter.
- The `logging` module: the handler setup in `__init__`, the level filtering, and the `getattr(self.logger, level.lower(), …)` dispatch at line 123 are left out. `LogComputation` returns the message it would hand to the logger.
- RuntimeTransparency.TransparencyEngine.LogStep and LogError: require that the keywords do not already hold "details" or "error", because Python rejects such a call before the body runs.
- `log_theoretical_step`: its console prints at lines 39-42 are I/O. `verify_invariant` (lines 51-69) is a float comparison under `np.isclose`.
- Annotations: `__wrapped__`, `__name__` and the other attributes `functools.wraps` copies beyond the docstring and the reference list are left out. A Python function is a `PyFunction` object with a behaviour, a docstring and an optional reference list.
- Numerical modules left out as floating-point linear algebra or random sampling: `harmony.py`, `cancellation.py`, `cymatics.py` and `action.py`. The `tests/unit/test_placeholder.py` filesystem check and the package `__init__.py` re-exports are also left out.
