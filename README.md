# CellPhoneDB job worker and protein-complex exporter, in Dafny

This project models two pieces of CellPhoneDB.

**The protein-complex exporter.** It takes the multidata table and the interactions table. It keeps the
multidata rows whose `id_multidata` occurs in the `multidata_1_id` or `multidata_2_id` column of some
interaction, and projects them onto the thirteen export columns (`name` … `tags_reason`). Tables are
`Frame(columns, rows)`, where each row is a map from column labels to cells. The interactor id list is
the two columns concatenated with repetitions dropped. Ids are compared with Python's `==`, under which
`True` equals `1` and `False` equals `0`. A column lookup on a missing column is the `KeyError` result.

**The queue worker.** It polls the jobs queue and hands each job to the plot handler or to the method
handler. The choice depends only on whether the queue is named `plot_jobs`. The worker publishes exactly
one response per job on the result queue and stops after three jobs.
- A plot job is routed on its `type`: `dot_plot`, `heatmaps_plot`, or an `UnknownPlotType` failure.
- A method job is routed on the truthiness of its `iterations`: the statistical analysis with four
  outputs, or the non-statistical analysis with three.
- Output objects are named after the `job_id` (`plot__<id>.png`, `pvalues_simple_<id>.txt`, …). Keys of one
  kind are different for ids that render differently, but keys of different kinds can coincide across jobs:
  a non-statistical job with id `simple_7` and a statistical job with id `7` both write
  `significant_means_simple_7.txt`.
- A raised exception becomes a failure response that carries the job's `job_id`. A known exception gives
  the error id `str(e)` and a message built from its optional description and hint. Any other exception
  gives `unknown_error` with an empty message.

What storage, the analysis launchers and the R plotters do is an input. `Effects` gives, for each
external step, whether it completes or raises, plus the set of files the plotter wrote. A message body is
empty, not a JSON object, or a decoded JSON object (`map<string, Json>`). `Consume` is the loop. It reads
a finite sequence of poll results and returns:
- the published responses, in order;
- the job counter;
- the number of polls made;
- whether an exception escaped the loop.

Modules: `ProteinComplexExport` (exporter.dfy), `Values` (values.dfy: JSON values, Python truthiness and
`str()`), `Handlers` (handlers.dfy: the per-job logic), `Worker` (worker.dfy: the loop).

Points where the code's behaviour may be unexpected:
- `iterations` selects the statistical path by Python truthiness, not by `> 0`. A negative count, or a
  non-empty string such as `"0"`, also selects it.
- The analysis output keys end in `.txt`.
- The loop has no bound on empty polls: while the queue stays empty the worker polls forever. The model
  stops when its sequence of polls runs out.
- A message with an empty body is taken from the queue (it is not acknowledged) but is treated like an
  empty poll: `all(job)` is false, so no response is published and the counter does not move.
- When the body has no `job_id`, or is not a JSON object, the handler raises. Building the error response
  then raises again, outside any `try`, and ends the process. The model's `Crashed` outcome is this case.
  It is the only way a processed job can go without a response.

## Model

| member | source | states |
|---|---|---|
| ProteinComplexExport.DropDuplicates | cellphonedb/src/core/exporters/protein_complex_cellphonedb.py:5-6 | `drop_duplicates` answers Python's `in` exactly as the series does, holds no two values that are `==` (so `True` and `1` are one value), and never grows the series |
| ProteinComplexExport.InteractorIdsExact | cellphonedb/src/core/exporters/protein_complex_cellphonedb.py:5-6 | `id in` the interactor id list holds if and only if the id is `==` to the `multidata_1_id` or the `multidata_2_id` of some interaction |
| ProteinComplexExport.KeptPositions | cellphonedb/src/core/exporters/protein_complex_cellphonedb.py:8 | the positions where the membership mask is true: each is a row whose id is `==` to some id in the list, they increase strictly, and every such row's position is among them |
| ProteinComplexExport.TrueIdMatchesOne | cellphonedb/src/core/exporters/protein_complex_cellphonedb.py:8 | a multidata row whose id is `True` is kept when the id list holds `1`, as Python's `in` compares with `==` |
| ProteinComplexExport.MissingColumns | cellphonedb/src/core/exporters/protein_complex_cellphonedb.py:10-13 | the labels the selection reports as missing are exactly the wanted labels not among the table's columns |
| ProteinComplexExport.Call | cellphonedb/src/core/exporters/protein_complex_cellphonedb.py:4-13 | the export fails with a non-empty KeyError exactly when a looked-up column is missing; otherwise its columns are the thirteen export columns in order, every row holds exactly those, and it has at most as many rows as the multidata table |
| ProteinComplexExport.ExportSelectsInteractingRows | cellphonedb/src/core/exporters/protein_complex_cellphonedb.py:5-13 | the exported rows are the projections of the multidata rows at a strictly increasing sequence of positions, and a position is in it exactly when that row's id occurs in an interactor column (sound, complete, order kept, duplicates all kept) |
| ProteinComplexExport.ExportSound | cellphonedb/src/core/exporters/protein_complex_cellphonedb.py:5-8 | every exported row is the projection of a multidata row whose id occurs in `multidata_1_id` or `multidata_2_id` |
| ProteinComplexExport.ExportComplete | cellphonedb/src/core/exporters/protein_complex_cellphonedb.py:8 | the projection of every multidata row whose id occurs in an interactor column is exported |
| ProteinComplexExport.ExportRowShape | cellphonedb/src/core/exporters/protein_complex_cellphonedb.py:10-13 | each exported row has exactly the thirteen export columns, and its values are those of one multidata row |
| ProteinComplexExport.NothingKeptWithoutIds | cellphonedb/src/core/exporters/protein_complex_cellphonedb.py:8 | with an empty id list the mask keeps no row |
| ProteinComplexExport.ExportOfNoInteractions | cellphonedb/src/core/exporters/protein_complex_cellphonedb.py:5-8 | an interactions table without rows exports no rows |
| ProteinComplexExport.KeptPositionsByMembership | cellphonedb/src/core/exporters/protein_complex_cellphonedb.py:8 | the kept positions depend only on which ids are in the list, not on its order or repetitions |
| ProteinComplexExport.ExportDependsOnlyOnInteractorIds | cellphonedb/src/core/exporters/protein_complex_cellphonedb.py:5-8 | two interaction tables with the same interactor columns in which the same ids occur export the same table (or the same KeyError): the order of interactions, repetitions and which column or row names an id do not matter |
| Handlers.KeyRoundTrip | run_cellphonedb_rabbitmq.py:106 | reading the job id back out of a storage key `<prefix><job_id><suffix>` gives `str(job_id)` |
| Handlers.OutputKeyInjective | run_cellphonedb_rabbitmq.py:236-239 | jobs whose ids render differently get different storage keys of the same kind |
| Handlers.OutputKeysDistinct | run_cellphonedb_rabbitmq.py:233-266 | within one statistical, non-statistical or heatmaps response, distinct outputs have distinct storage keys |
| Handlers.DotPlotResults | run_cellphonedb_rabbitmq.py:95-126 | the dot plot succeeds exactly when `file_means` and `file_pvalues` are strings and staging, plotting and upload complete and `plot__<job_id>.png` was written, answering `{job_id, files:{plot}}`; a key that is not a string raises a TypeError (an unknown exception); a missing plot raises the PlotException |
| Handlers.HeatmapsPlotResults | run_cellphonedb_rabbitmq.py:129-159 | the heatmaps succeed exactly when `file_pvalues` is a string and staging, plotting and upload complete and both `plot_count__<job_id>.png` and `plot_count_log__<job_id>.png` were written; either one missing raises the PlotException, and a `file_pvalues` that is not a string raises a TypeError (an unknown exception) |
| Handlers.PlotFirstError | run_cellphonedb_rabbitmq.py:95-159 | once the keys are strings, a dot or heatmaps plot raises the exception of the first of staging, plotting and (once the plots exist) upload that raises |
| Handlers.ProcessPlot | run_cellphonedb_rabbitmq.py:170-198 | a plot job without `job_id` raises; every response it returns carries the job's `job_id` |
| Handlers.PlotRouting | run_cellphonedb_rabbitmq.py:175-198 | `dot_plot` and `heatmaps_plot` go to their handlers, with the job's `file_means` and `file_pvalues` (`None` when absent); a plot job is answered with a failure exactly when its type is neither, and that failure has id `UnknownPlotType` and a message ending with the given type |
| Handlers.StatisticalAnalysis | run_cellphonedb_rabbitmq.py:221-247 | returns the four outputs (p-values, means, significant means and deconvoluted, each `_simple_<job_id>.txt`) exactly when `threshold` and `result_precision` are given and the launch and upload complete |
| Handlers.NonStatisticalAnalysis | run_cellphonedb_rabbitmq.py:250-270 | returns the three outputs, significant means as `significant_means_<job_id>.txt`, exactly when `threshold` and `result_precision` are given and the launch and upload complete |
| Handlers.AnalysisFirstError | run_cellphonedb_rabbitmq.py:221-270 | an analysis that does not complete raises a KeyError when `threshold` or `result_precision` is missing, otherwise the launch's exception, otherwise the upload's |
| Handlers.ProcessMethod | run_cellphonedb_rabbitmq.py:201-218 | a method job without `job_id` raises; what it returns is a success that carries the job's `job_id` |
| Handlers.MethodFirstError | run_cellphonedb_rabbitmq.py:201-216 | fields and steps are taken in order (`file_meta`, reading the meta table, `file_counts`, reading the counts, `log`/`num_pc` and the subsampler when subsampling, `iterations`); the first missing field raises a KeyError and the first failing step raises its own exception; past them the job is the analysis `iterations` selects |
| Handlers.MethodRouting | run_cellphonedb_rabbitmq.py:205-216 | a completed method job names the statistical outputs when `iterations` is truthy and the non-statistical ones otherwise, so it names p-values exactly when `iterations` is truthy; it completes exactly when `file_meta`, `file_counts`, `iterations`, `threshold` and `result_precision` are present (and `log` and `num_pc` when it subsamples) and every step completes, a missing field being a KeyError |
| Handlers.ErrorResponse | run_cellphonedb_rabbitmq.py:299-335 | the error response is a failure that carries the given job id; a known exception gives the id `str(e)` and the message built from its description and hint, any other gives `unknown_error` with an empty message |
| Handlers.ErrorMessageShape | run_cellphonedb_rabbitmq.py:306-307 | the message is empty exactly when there is neither description nor hint; it starts with `" <description>."` and ends with `" <hint>."` when they are present, and is `" <description>. <hint>."` when both are; an absent part and an empty one are omitted alike |
| Worker.Handle | run_cellphonedb_rabbitmq.py:285-335 | handling a job ends the process exactly when its body is not a JSON object with `job_id`; otherwise the one response published carries that `job_id` |
| Worker.HandleReportsOutcome | run_cellphonedb_rabbitmq.py:286-334 | for a body with `job_id`, the response published is the handler's own when the handler returns, and the error response for the exception when it raises |
| Worker.KnownErrorReported | run_cellphonedb_rabbitmq.py:299-317 | a known exception raised while a method job reads its meta table is published as a failure with the exception's `str()` as id and the message built from its description and hint |
| Worker.FailedJobAnsweredWithFailure | run_cellphonedb_rabbitmq.py:299-335 | a job with a `job_id` whose handler raises is answered with a failure carrying that `job_id` |
| Worker.Jobs | run_cellphonedb_rabbitmq.py:283-285 | the jobs among some polls are never more than the polls |
| Worker.JobsCount | run_cellphonedb_rabbitmq.py:285 | the number of jobs is the number of polls that returned a non-empty message |
| Worker.HandlerChoice | run_cellphonedb_rabbitmq.py:287-290 | handling depends on the queue name only through whether it equals `plot_jobs` |
| Worker.Consume | run_cellphonedb_rabbitmq.py:280-342 | the counter equals the number of published responses and never exceeds 3; the k-th response is the handling of the k-th job and carries its `job_id`; the counter moves once per non-empty poll; the loop stops right after the third job, when an exception escapes, or when no poll is left |

## Left out

- Broker connection, channel, `basic_qos` and reconnection are network I/O and are not modelled. Publishing is appending to a sequence and always succeeds. A publish that fails after a reconnect is not modelled.
- Storage reads and writes, temporary files and `os.path.exists` are inputs (`Effects`): each step completes or raises, and the plotter's written files are a set of names.
- The analysis launchers, the R plotters and the `Subsampler` class are not part of this model. Whether they complete or raise is an input.
- Environment-variable loading and `exit(1)`, logging, traceback printing and the one-second pause are side effects without a bearing on the responses.
- JSON decoding and encoding: a body is empty, not a JSON object, or a decoded object. Fractional numbers, arrays and nested objects are abstracted to their truth value and their `str()`.
- The `float()`/`int()` coercions of `threshold`, `pvalue`, `iterations`, `result_precision`, `num_pc` and `num_cells` are part of the external steps that use them. A failed coercion is that step raising an unknown exception.
- Handlers.PlotException: the PlotException class is not part of this model. It is taken to render as its message, with no description and no hint.
- The key order of the published JSON objects is not modelled: `files` is a map.
- ProteinComplexExport.Call: frames with a repeated column label are not modelled (`WellFormed` excludes them). With a repeated `id_multidata`, pandas raises a ValueError in the membership mask; with a repeated export column, the selection has more than thirteen columns.
- ProteinComplexExport.Call: cells are integers, strings, booleans or null. Floating-point and NaN ids, and hence `1.0 == 1`, are not modelled, and neither is the index of the filtered frame: the model keeps the rows and their order, not their index labels.
- ProteinComplexExport.Call: for an empty multidata table the model returns an empty table with the thirteen columns. In pandas, the mask built by `.apply` on an empty `id_multidata` keeps that column's dtype; unless the column is boolean, `multidatas[mask]` reads the empty mask as a list of column labels, selects no columns, and the selection at protein_complex_cellphonedb.py:10-13 then raises a KeyError.
- `Series.append`, `reset_index` and the `.apply` mechanics are modelled only by their result: a list of ids and a membership mask.
