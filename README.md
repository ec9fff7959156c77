# Haystack evaluation metrics and the docx converter, in Dafny

This project models two parts of the Haystack framework and proves properties
of the models.

**The evaluation harness** (`haystack/evaluation/eval.py`) covers several pieces:

- `eval` runs a pipeline or component once per input and collects an
  `EvaluationResult`.
- The result tags its runnable as `"pipeline"` or `"component"` by type name.
- `calculate_metrics` sends a built-in `Metric` to its table entry, and sends a
  caller-supplied callable to the custom-metric hook.
- The lexical scores are exact match and token-overlap F1.
- Recall, MRR and MAP are stubs that return `None`.
- Only the zero-sample branch of the semantic answer similarity (SAS) is
  modelled.

**The docx converter** (`haystack/components/converters/docx.py`) has two parts:

- `DocxToDocument.run` reads each source and parses it as a docx file. It skips
  the source if either step fails. It builds one document per readable source.
  The content is the paragraph texts joined by `"\n"`. The metadata is the
  source's own metadata, then the docx core properties, then the caller's
  metadata, with later entries winning.
- `_get_docx_metadata` copies 15 named core properties under `docx_`-prefixed
  keys. It skips any whose value is `None` or `""`.

Files:

- `Wrappers.dfy`: `Option` and `Result`. These stand in for Python's `None` and
  for raised exceptions.
- `Strings.dfy`: `sep.join(parts)` and `s.split(sep)` for a one-character
  separator, and their round trip.
- `Tokens.dfy`: Python's `str.split()` with no arguments. It uses Python's
  whitespace set and produces maximal non-whitespace runs.
- `LexicalMetrics.dfy`: per-sample F1 over token multisets, aggregate F1, and
  exact match, all over exact `real`s.
- `Evaluation.dfy`: the `Metric` enum, the metric result values, the
  `Runnable` and `EvaluationResult` classes, the dispatch, and the `Eval` loop.
- `DocxConverter.dfy`: the property filter loop, the metadata merge, and the
  conversion loop with its reference function `ConvertAll`.

Some code is outside this model. It is passed in as function-valued parameters:

- `get_answers_from_output` (may fail), `preprocess_text` for one string, and
  the model-backed part of SAS: the `Collaborators` datatype.
- The runnable's `run`: `Runnable.behaviour`.
- `get_bytestream_from_source` and the python-docx parser: `fetch` and `parse`
  in `DocxConverter.Run`.

`Runnable` keeps a ghost log of every input given to `Run`. That is how `Eval`
states that each input is run exactly once, in order, and that nothing runs
when the lengths differ.

## Model

| member | source | states |
|---|---|---|
| `Evaluation.RunnableTypeOf` | haystack/evaluation/eval.py:43-47 | the runnable type is "pipeline" exactly when the type name is `Pipeline`, and "component" otherwise |
| `Evaluation.EvaluationResult.constructor` | haystack/evaluation/eval.py:31-47 | the result keeps the runnable, inputs, outputs and expected outputs as given, and its runnable type is computed from the runnable's type name |
| `Evaluation.Runnable.Run` | haystack/evaluation/eval.py:324 | a run returns the runnable's result for that input and appends the input to the log of calls |
| `Evaluation.EvaluationResult.Answers` | haystack/evaluation/eval.py:121-126 | predictions are extracted from the outputs, then labels from the expected outputs; the first extraction error is the result |
| `Evaluation.EvaluationResult.CalculateRecall` | haystack/evaluation/eval.py:73-74 | the only entry is "recall", and its value is "not computed" |
| `Evaluation.EvaluationResult.CalculateMap` | haystack/evaluation/eval.py:76-77 | the only entry is "mean_average_precision", and its value is "not computed" |
| `Evaluation.EvaluationResult.CalculateMrr` | haystack/evaluation/eval.py:79-80 | the only entry is "mean_reciprocal_rank", and its value is "not computed" |
| `Evaluation.StubMetricsNotComputed` | haystack/evaluation/eval.py:51-80 | for any options and outputs, a request for recall, MRR or MAP succeeds with a single entry whose value is never a number |
| `Evaluation.EvaluationResult.CalculateF1` | haystack/evaluation/eval.py:98-148 | extraction errors propagate; answer lists of different lengths raise; otherwise the single entry "f1" is the aggregate F1, lies in [0, 1], and is 0.0 for no samples |
| `Evaluation.EvaluationResult.CalculateEm` | haystack/evaluation/eval.py:150-193 | extraction errors propagate; lists of different lengths raise; otherwise "exact_match" is 0.0 for no samples, else the number of positions whose normalised prediction equals the normalised label divided by n, which lies in [0, 1] |
| `Evaluation.EvaluationResult.CalculateSas` | haystack/evaluation/eval.py:234-245 | extraction errors propagate; lists of different lengths raise; no samples give "sas" 0.0 and "scores" the one-element list [0.0]; otherwise the model scores the normalised answers |
| `Evaluation.EvaluationResult.CalculateMetrics` | haystack/evaluation/eval.py:51-71 | each of the six built-in metrics reaches its own scorer; a custom metric is called with this result and the options |
| `Evaluation.Eval` | haystack/evaluation/eval.py:297-327 | different lengths of inputs and expected outputs fail with both lengths and nothing runs; otherwise each input runs once, in order, up to the first failing run, whose error is returned; success happens exactly when every run succeeds, and then the outputs are the run results in input order |
| `LexicalMetrics.NumSame` | haystack/evaluation/eval.py:86-87 | computes `sum((Counter(label) & Counter(pred)).values())` as the size of the multiset intersection; no contract of its own; NumSameBounds, NumSameSymmetric and NumSameFull carry its properties |
| `LexicalMetrics.F1Single` | haystack/evaluation/eval.py:82-96 | computes `_compute_f1_single` branch by branch: the no-answer case, the no-overlap case, then the harmonic mean of precision and recall; no contract of its own; F1NoAnswer, F1Disjoint, F1ClosedForm, F1Bounds, F1Symmetric and F1PerfectIff carry its properties |
| `LexicalMetrics.NumSameBounds` | haystack/evaluation/eval.py:86-87 | the size of the multiset intersection of the label and prediction tokens is at most the length of each list |
| `LexicalMetrics.NumSameSymmetric` | haystack/evaluation/eval.py:86-87 | the intersection size does not depend on which side is the label |
| `LexicalMetrics.NumSameFull` | haystack/evaluation/eval.py:86-87 | an intersection as large as both token lists means the lists are equal as multisets |
| `LexicalMetrics.F1NoAnswer` | haystack/evaluation/eval.py:88-90 | when either token list is empty, F1 is 1 if both are empty and 0 otherwise |
| `LexicalMetrics.F1Disjoint` | haystack/evaluation/eval.py:91-92 | non-empty token lists that share no token score 0 |
| `LexicalMetrics.F1ClosedForm` | haystack/evaluation/eval.py:93-96 | for non-empty token lists, the harmonic mean of precision and recall equals 2·num_same/(len(pred)+len(label)) |
| `LexicalMetrics.F1Bounds` | haystack/evaluation/eval.py:82-96 | per-sample F1 lies in [0, 1] |
| `LexicalMetrics.F1Symmetric` | haystack/evaluation/eval.py:82-96 | per-sample F1 is unchanged when label and prediction are swapped |
| `LexicalMetrics.F1PerfectIff` | haystack/evaluation/eval.py:82-96 | per-sample F1 is 1 exactly when the two token lists are equal as multisets, including two empty lists |
| `LexicalMetrics.F1PartialOverlapExample` | haystack/evaluation/eval.py:93-96 | "the cat sat" against "the cat sat on the mat" scores 2/3 |
| `LexicalMetrics.Normalized` | haystack/evaluation/eval.py:134-135 | applies the per-string normaliser to every answer, keeping order and length; no contract of its own; used by ExactMatch, CalculateEm and CalculateSas |
| `LexicalMetrics.Tokenize` | haystack/evaluation/eval.py:137-139 | computes `[t.split() for t in texts]` after normalising each text; no contract of its own; Tokens.SplitYieldsTokens, Tokens.SplitEmptyIff and Tokens.SplitKeepsCharacters carry the properties of each element |
| `LexicalMetrics.F1Scores` | haystack/evaluation/eval.py:141-144 | computes the per-sample F1 of each zipped label/prediction pair, in sample order; no contract of its own; F1ScoreBounds, F1ScoreIdentical and F1OneOfTwo carry its properties |
| `LexicalMetrics.Mean` | haystack/evaluation/eval.py:146 | computes `np.mean` of a non-empty list as the exact sum divided by the length; no contract of its own; MeanBounds carries its property |
| `LexicalMetrics.F1Score` | haystack/evaluation/eval.py:128-146 | it fails exactly on a length mismatch; no samples score 0.0; otherwise the score is the mean of the per-sample F1 of the normalised, whitespace-split answers |
| `LexicalMetrics.F1ScoreBounds` | haystack/evaluation/eval.py:138-146 | aggregate F1 of equal-length lists succeeds and lies in [0, 1] |
| `LexicalMetrics.F1ScoreIdentical` | haystack/evaluation/eval.py:138-146 | non-empty predictions identical to their labels score 1.0 |
| `LexicalMetrics.F1OneOfTwo` | haystack/evaluation/eval.py:138-146 | two single-token samples, one matching and one not, have aggregate F1 1/2 |
| `LexicalMetrics.MeanBounds` | haystack/evaluation/eval.py:146 | the mean of values in [lo, hi] lies in [lo, hi] |
| `LexicalMetrics.MatchScores` | haystack/evaluation/eval.py:190 | computes `np.array(predictions) == np.array(labels)` as 1.0/0.0 per position; no contract of its own; ExactMatchIsFraction ties its mean to MatchCount |
| `LexicalMetrics.MatchCount` | haystack/evaluation/eval.py:190-191 | is the independent reference count of positions where prediction equals label; no contract of its own; MatchCountBounds carries its properties |
| `LexicalMetrics.ExactMatch` | haystack/evaluation/eval.py:181-191 | it fails exactly on a length mismatch; no samples score 0.0 |
| `LexicalMetrics.MatchCountBounds` | haystack/evaluation/eval.py:190 | the count of matching positions is at most n; it equals n exactly when every position matches, and 0 exactly when none does |
| `LexicalMetrics.ExactMatchIsFraction` | haystack/evaluation/eval.py:187-191 | exact match equals the count of positions whose normalised prediction equals the normalised label, divided by n |
| `LexicalMetrics.ExactMatchBounds` | haystack/evaluation/eval.py:187-191 | exact match lies in [0, 1]; it is 1 exactly when every normalised pair matches, and 0 exactly when none does |
| `LexicalMetrics.ExactMatchOneOfTwo` | haystack/evaluation/eval.py:190-191 | one matching and one differing sample give exact match 1/2 |
| `Tokens.Split` | haystack/evaluation/eval.py:138-139 | computes `s.split()` without a separator: the maximal runs of non-whitespace characters, in order; no contract of its own; SplitYieldsTokens, SplitEmptyIff, SplitKeepsCharacters and SplitJoinSpace carry its properties |
| `Tokens.SplitYieldsTokens` | haystack/evaluation/eval.py:138-139 | every token produced by `split()` is non-empty and contains no whitespace |
| `Tokens.SplitEmptyIff` | haystack/evaluation/eval.py:138-139 | `split()` yields no tokens exactly when the text is all whitespace, which is when an answer counts as "no answer" |
| `Tokens.SplitKeepsCharacters` | haystack/evaluation/eval.py:138-139 | the tokens, concatenated, are the text with its whitespace removed |
| `Tokens.SplitJoinSpace` | haystack/evaluation/eval.py:138-139 | splitting tokens joined by single spaces gives the tokens back |
| `DocxConverter.Kept` | haystack/components/converters/docx.py:129-131 | holds when the core properties have the attribute and its value is neither None nor ""; a predicate, no contract; MetaFromContents and GetDocxMetadata use it |
| `DocxConverter.MetaFrom` | haystack/components/converters/docx.py:110-133 | is the reference for `_get_docx_metadata`: the prefixed map of the kept properties, visited in list order; no contract of its own; MetaFromContents carries its properties and GetDocxMetadata is proved equal to it |
| `DocxConverter.MetaFromContents` | haystack/components/converters/docx.py:110-133 | a key "docx_"+p appears exactly for the listed properties p that are present and neither None nor ""; it carries p's value; every key has the prefix and a listed property as suffix |
| `DocxConverter.GetDocxMetadata` | haystack/components/converters/docx.py:98-133 | the loop builds the filtered, prefixed property map: exactly the kept properties of the fixed 15-name list, with their values, and no other keys |
| `DocxConverter.MergeMeta` | haystack/components/converters/docx.py:92 | the merged keys are the union; a caller key wins over a docx key, which wins over a stream key; every other key keeps its value |
| `DocxConverter.NormalizeMetadata` | haystack/components/converters/docx.py:58-71 | gives one dictionary per source: empty ones for no metadata, the same one repeated for a single dictionary, the list itself for a list of the right length; a list of another length fails |
| `DocxConverter.Zip` | haystack/components/converters/docx.py:73 | pairs sources with metadata up to the shorter length, position by position |
| `DocxConverter.ConvertOne` | haystack/components/converters/docx.py:74-94 | the document one source yields: nothing when reading or parsing fails, otherwise the newline-joined paragraphs with the merged metadata; no contract of its own; SkipUnreadable and ConvertAllLength use it |
| `DocxConverter.ConvertAll` | haystack/components/converters/docx.py:70-96 | the reference for the loop of `run`: the documents of the (source, metadata) pairs, in order; no contract of its own; Run is proved equal to it, and ConvertAllAppend, SkipUnreadable, ConvertAllLength and ConvertAllFromSources carry its properties |
| `DocxConverter.Run` | haystack/components/converters/docx.py:49-96 | a metadata-length error is returned as is; otherwise the documents are exactly those the reference conversion gives for the (source, metadata) pairs, in order |
| `DocxConverter.ConvertAllAppend` | haystack/components/converters/docx.py:73-94 | converting two runs of sources gives the first run's documents followed by the second's |
| `DocxConverter.SkipUnreadable` | haystack/components/converters/docx.py:74-89 | a source that cannot be read or parsed adds no document and does not affect the documents of the sources after it |
| `DocxConverter.ConvertAllLength` | haystack/components/converters/docx.py:70-96 | there are never more documents than sources; when every source converts, there is exactly one document per source, in source order |
| `DocxConverter.ConvertAllFromSources` | haystack/components/converters/docx.py:73-94 | every document produced is the conversion of one of the sources |
| `DocxConverter.ContentIsParagraphs` | haystack/components/converters/docx.py:81-82 | splitting the content on newlines gives back the paragraphs, if there is at least one and none contains a newline |
| `Strings.Join` | haystack/components/converters/docx.py:82 | computes `sep.join(parts)` for a one-character separator; no contract of its own; SplitOnJoin and Tokens.SplitJoinSpace carry its properties |
| `Strings.SplitOnJoin` | haystack/components/converters/docx.py:82 | `sep.join` followed by `split(sep)` gives back the parts, when none contains the separator |

## Left out

- The SAS model path (eval.py:250-294) is left out: the configuration probe,
  cross-encoder or bi-encoder scoring, cosine similarity and sigmoid
  squashing. For non-empty samples, `Collaborators.similarity` computes the
  whole result. The zero-sample branch is kept as written: its score list is
  `[0.0]`, not an empty list.
- Evaluation.EvaluationResult.CalculateSas: its contract names no SAS property
  beyond the zero-sample and error branches, because the model-backed scoring
  is outside this model.
- `get_answers_from_output` and `preprocess_text` are in `eval_utils`. That file
  is not part of this model. Both are parameters. `preprocess_text` is applied
  one string at a time, so the list keeps its length.
- `MetricsResult` is in `haystack.evaluation.metrics`, which is not part of this
  model. It is modelled as a map from metric name to value.
- LexicalMetrics.MatchScores: numpy string equality, which ignores trailing NUL
  characters, is modelled as plain string equality. So `"a\x00"` and `"a"`
  match in the source but not in the model.
- Floating point is left out. numpy means and the F1 arithmetic use exact
  `real`s, so floating-point rounding is not modelled.
- Python keyword-argument binding is left out. For example, calling a stub
  metric with keyword options raises `TypeError`. The model passes one options
  value to every metric and the stubs ignore it.
- The `metrics_import.check()` and `docx_import.check()` dependency probes are
  left out, along with logging and the `@component` decorator.
- `type(runnable).__name__` is given as the string `Runnable.typeName`. A
  subclass of `Pipeline` with another name is tagged "component", as in the
  source.
- An exception from `runnable.run` is a `Failure` value. The model's runnable
  always answers the same input the same way, so stateful runnables are not
  modelled.
- `get_bytestream_from_source` and python-docx parsing are the parameters
  `fetch` and `parse`. Each returns `None` for what the source reports as an
  exception. Extracting paragraph text is part of `parse`.
- `normalize_metadata` lives in `converters/utils`, which is not part of this
  model. It is modelled from its documented behaviour.
- `hasattr` on the core properties is modelled as key presence in a map.
  Property values are limited to strings, integers, timestamps and `None`.
- The `Document` fields other than content and metadata (identifier, embedding
  and so on) are left out.
