# mageai-monitoring, modelled in Dafny

mageai-monitoring is a Cloud Run service that turns Mage AI pipeline events,
delivered by Pub/Sub as CloudEvents, into Google Cloud Monitoring gauges. A
dispatcher decodes each event, asks every registered handler whether it
`match`es, and runs `handle` on the ones that do, in registration order.
Most handlers react to the completion (`status == "COMPLETED"`) of one
pipeline (`pipesv2_approval`, `pipesv2_wrangling`, `pipesv2_selection`,
`pipesv2_evaluation`, `pipesv2_submission`, `pipesv2_release`). They read the
tables named in the event's `variables` from BigQuery, compute totals,
shares, counts and ratios, and emit one or more gauges labelled with the
partner. A `HandlerBadRequestError` turns into a 400 response with its
message. Any other exception turns into a 500, so that Pub/Sub redelivers the
event. When every matched handler returns, or none matches, the response is
a 204.

The project models:

- the decoded JSON message, and the Python operations the handlers apply to
  it (`Json`): truthiness, `dict.get`, indexing, `in`, `str()`;
- the monitoring client and `emit_gauge_metric`, including the local-mode
  logging client (`Metrics`);
- the warehouse as a map from fully qualified table names to rows, with the
  SQL the handlers send rendered as functions on rows (`Warehouse`);
- every handler family, each as a specification function `...Run` that
  gives the requests a `handle` call sends or the exception it raises. An
  imperative `Handle` method sends those requests to the client and is
  proved against that function. Lemmas then state what the handler promises;
- the handler registry (`Registry`), the current dispatcher (`Dispatcher`),
  the older dispatcher and pipeline-run counter (`LegacyDispatcher`,
  `LegacyPipelineRun`), and the entry point with its lazily built dispatcher
  (`Service`).

Some inputs are parameters of the model, not computed by it: base64/UTF-8/JSON
decoding, ISO-8601 timestamp parsing, `str()` of non-string values, and the
iteration order of Python sets and of grouped query results. They are bundled
in `HandlerBase.Env`. A lemma that needs "each group once" assumes only that
the order lists each element exactly once.

## Model

| member | source | states |
|---|---|---|
| Processable.HandleProcessableMetrics | handlers/processable_base.py:79-192 | the requests sent and the outcome are exactly those `EffectOf` gives for `ProcessableRun`: payload check, defensive pipeline check, both table variables, probed totals, share, partner, timestamp, one or two gauges |
| Processable.ProcessableRun | handlers/processable_base.py:156-164 | every label of a handled message is a string: the partner is passed through `str()` |
| Processable.ApprovalMatch | handlers/processable_approval.py:58-62 | answers `True` exactly on a completed `pipesv2_approval` run, and `False` when the message has no payload |
| Processable.ApprovalHandle | handlers/processable_approval.py:81-87 | runs the base handler with the approval configuration (input tables, `approved="true"`) |
| Processable.WranglingMatch | handlers/processable_wrangling.py:58-66 | answers `True` exactly on a completed `pipesv2_wrangling` run, and `False` on a falsy payload |
| Processable.WranglingHandle | handlers/processable_wrangling.py:86-92 | runs the base handler with the wrangling configuration (refined output tables, `approved="false"`) |
| Processable.ProcessableMetrics | handlers/processable_base.py:108-192 | a handled run emits the processable total (zero for a missing table) and, only when processable plus unprocessable is positive, the processable share; every metric goes to the run project at the source timestamp with exactly the `approved` label and the partner as text |
| Processable.ProcessableRunValue | handlers/processable_base.py:156-192 | a handled message sends the total gauge and, when processable plus unprocessable is positive, the share gauge, both with the same labels and the source timestamp |
| Processable.ProcessableRelativeIsShare | handlers/processable_base.py:148-153 | with non-negative amounts the relative metric lies in [0, 1], and is 1 when the unprocessable table is missing |
| Processable.ProcessableBothTablesMissing | handlers/processable_base.py:63-66 | with neither table present only the total is emitted, with value 0 |
| Processable.ProcessableIgnoresOtherRuns | handlers/processable_base.py:86-88 | a payload about another pipeline or an unfinished run returns without a metric |
| Processable.ProcessableCheckOrder | handlers/processable_base.py:90-99 | the processable variable is checked first, then the unprocessable one, then the partner, each with its own message |
| Processable.ProcessableNeedsPayload | handlers/processable_base.py:79-82 | a missing or falsy payload is a bad request with the payload message |
| PreFiltered.HandlePreFilteredMetrics | handlers/pre_filtered_base.py:73-164 | the requests sent and the outcome are exactly those `EffectOf` gives for `PreFilteredRun`: payload check, defensive check, both variables, one unprobed query over both tables, partner, timestamp, two gauges |
| PreFiltered.PreFilteredRun | handlers/pre_filtered_base.py:131-139 | every label of a handled message is a string: the partner is passed through `str()` |
| PreFiltered.WranglingMatch | handlers/pre_filtered_wrangling.py:58-66 | answers `True` exactly on a completed `pipesv2_wrangling` run, and `False` on a falsy payload |
| PreFiltered.WranglingHandle | handlers/pre_filtered_wrangling.py:86-92 | runs the base handler with the refined output tables and `approved="false"` |
| PreFiltered.ApprovalMatch | handlers/pre_filtered_approval.py:64-68 | answers `True` exactly on a completed `pipesv2_approval` run, and `False` when the message has no payload |
| PreFiltered.ApprovalHandle | handlers/pre_filtered_approval.py:87-176 | the requests sent and the outcome are exactly those `EffectOf` gives for `ApprovalRun`: payload by indexing, relative value against the processable total alone |
| PreFiltered.ApprovalRun | handlers/pre_filtered_approval.py:143-151 | every label of a handled message is a string: the partner is passed through `str()` |
| PreFiltered.PreFilteredMetrics | handlers/pre_filtered_base.py:102-164 | a handled run requires both tables, emits the unprocessable total and its share of unprocessable plus processable, at the source timestamp with exactly the `approved` label and the partner as text |
| PreFiltered.PreFilteredMissingTableFails | handlers/pre_filtered_base.py:103-125 | with either table missing the query fails and nothing is emitted |
| PreFiltered.PreFilteredRelativeBounded | handlers/pre_filtered_base.py:115-119 | with non-negative amounts the relative metric lies in [0, 1] |
| PreFiltered.PreFilteredCheckOrder | handlers/pre_filtered_base.py:84-93 | the unprocessable variable is checked before the processable one, each with its own message |
| PreFiltered.ApprovalMetrics | handlers/pre_filtered_approval.py:114-176 | the approval handler emits to the run project the unprocessable total and its ratio to the processable total (0 when that is not positive), at the source timestamp, labelled `approved="true"` and the partner as text |
| PreFiltered.PayloadHandlingDiffers | handlers/pre_filtered_approval.py:87-92 | without a payload key the base handler reports a bad request and the approval handler fails on the key; on a `{}` payload the approval handler returns without a metric |
| PostFiltered.HandlePostFilteredMetrics | handlers/post_filtered_base.py:78-175 | the requests sent and the outcome are exactly those `EffectOf` gives for `PostFilteredRun`: payload check, defensive check, both variables, probed excluded total, unprobed savings total, ratio, partner, timestamp, two gauges |
| PostFiltered.PostFilteredRun | handlers/post_filtered_base.py:142-150 | every label of a handled message is a string: the partner is passed through `str()` |
| PostFiltered.SelectionMatch | handlers/post_filtered_selection.py:58-66 | answers `True` exactly on a completed `pipesv2_selection` run, and `False` on a falsy payload |
| PostFiltered.SelectionHandle | handlers/post_filtered_selection.py:85-91 | runs the base handler with the excluded and savings tables and `approved="false"` |
| PostFiltered.PostFilteredMetrics | handlers/post_filtered_base.py:105-175 | a handled run requires the savings table, emits the excluded `vl_glosa_arvo` total (0 for a missing table) and its ratio to the savings total (0 when that is not positive), at the source timestamp with exactly the `approved` label and the partner as text |
| PostFiltered.PostFilteredNeedsSavingsTable | handlers/post_filtered_base.py:125-133 | a missing savings table raises, whatever the excluded table holds |
| PostFiltered.PostFilteredCheckOrder | handlers/post_filtered_base.py:89-96 | the excluded variable is checked before the savings variable, each with its own message |
| Savings.HandleSavingsMetrics | handlers/savings_base.py:71-153 | the requests sent and the outcome are exactly those `EffectOf` gives for `SavingsRun`: payload, defensive check, savings variable, partner, timestamp, then a probed grouped query with two gauges per result row |
| Savings.SavingsRun | handlers/savings_base.py:126-130 | every label of a handled message is a string, the partner and the agent being passed through `str()` |
| Savings.EvaluationMatch | handlers/savings_evaluation.py:56-60 | answers `True` exactly on a completed `pipesv2_evaluation` run, and `False` when the message has no payload |
| Savings.EvaluationHandle | handlers/savings_evaluation.py:78-83 | runs the base handler with `savings_output_table` and `approved="false"` |
| Savings.AllAgentCallsAt | handlers/savings_base.py:121-150 | result row `i` yields gauge `2i` (its group total) and gauge `2i+1` (its row count), both labelled with its agent |
| Savings.AllAgentCallsLength | handlers/savings_base.py:121-150 | the loop sends exactly two requests per result row |
| Savings.SavingsMetrics | handlers/savings_base.py:103-150 | with a table present, every `agent_id` group yields exactly two gauges, its `vl_glosa_arvo` total and its row count, labelled `partner`, `agent_id` (with `NULL` as "None") and `approved` |
| Savings.AgentPair | handlers/savings_base.py:121-150 | the two gauges of one result row carry its group total and its row count under the same labels `partner`, `agent_id`, `approved` |
| Savings.AgentMetrics | handlers/savings_base.py:121-150 | over the rows of a table, two gauges per `agent_id` group, one group per pair, carrying its total and row count and labelled with that agent |
| Savings.RunReadsTable | handlers/savings_base.py:103-120 | a completed run naming an existing table sends the gauges of that table's agent groups, in result order |
| Savings.SavingsMissingTableEmitsNothing | handlers/savings_base.py:151-153 | a missing table returns without any metric |
| Savings.SavingsPartnerBeforeTable | handlers/savings_base.py:87-90 | a missing partner is a bad request even when the table does not exist |
| SelectedSavings.ApprovalMatch | handlers/selected_savings_approval.py:63-67 | answers `True` exactly on a completed `pipesv2_approval` run, and `False` when the message has no payload |
| SelectedSavings.ApprovalHandle | handlers/selected_savings_approval.py:85-158 | the requests sent and the outcome are exactly those `EffectOf` gives for `ApprovalRun`: payload, defensive check before reading the variables, table variable, partner, timestamp, then one gauge per grouped row of a probed table |
| SelectedSavings.EmitApproved | handlers/selected_savings_approval.py:138-155 | the loop over the result rows sends exactly `ApprovedCalls`: one gauge per agent, in result order |
| SelectedSavings.ApprovalRun | handlers/selected_savings_approval.py:142-146 | every label of a handled message is a string, the partner and the agent being passed through `str()` |
| SelectedSavings.ApprovedCallsAt | handlers/selected_savings_approval.py:138-155 | result row `i` yields request `i`: its group's `vl_glosa_arvo` total, labelled with partner, agent and source |
| SelectedSavings.ApprovedCallsLength | handlers/selected_savings_approval.py:138-155 | the loop sends one request per result row |
| SelectedSavings.ApprovalMetrics | handlers/selected_savings_approval.py:123-155 | with a table present, every `agent_id` group yields exactly one gauge of the approved metric, valued at its total and labelled `partner`, `agent_id`, `source="selected_savings"` |
| SelectedSavings.ApprovalMissingTableEmitsNothing | handlers/selected_savings_approval.py:156-158 | a missing table returns without any metric |
| SelectedSavings.ApprovalCheckOrder | handlers/selected_savings_approval.py:99-109 | the table variable is checked before the partner, each with its own message |
| BatchHistory.Prepare | handlers/new_beneficiaries_base.py:79-136 | a successful preparation has a dict of variables whose `partner` is truthy and is the partner of the inputs |
| BatchHistory.PrepareReadsTables | handlers/new_beneficiaries_base.py:232-245 | with both batch tables present, the batch is the rows of both, and the history is both historical tables exactly when both exist |
| BatchHistory.PrepareMissingBatch | handlers/new_beneficiaries_base.py:298-302 | a missing batch table is a bad request naming both batch variables as given |
| BatchHistory.PrepareTimestampBeforePartner | handlers/new_beneficiaries_base.py:120-132 | an unreadable timestamp fails with an internal error before the partner is checked |
| BatchHistory.PrepareCheckOrder | handlers/new_beneficiaries_base.py:86-109 | the four table variables are checked in order, each with its own message |
| BatchHistory.PrepareNeedsPayload | handlers/new_beneficiaries_base.py:79-82 | a missing or falsy payload is a bad request |
| NewBeneficiaries.HandleNewBeneficiariesMetrics | handlers/new_beneficiaries_base.py:79-302 | the requests sent and the outcome are exactly those `EffectOf` gives for `NewBeneficiariesRun`: preparation, then one gauge per result row, in result order |
| NewBeneficiaries.NewBeneficiariesRun | handlers/new_beneficiaries_base.py:133-136 | every label of a handled message is a string, the partner and the category being passed through `str()` |
| NewBeneficiaries.ApprovalMatch | handlers/new_beneficiaries_approval.py:56-60 | answers `True` exactly on a completed `pipesv2_approval` run, and `False` when the message has no payload |
| NewBeneficiaries.ApprovalHandle | handlers/new_beneficiaries_approval.py:79-86 | runs the base handler with the approval input tables as batch, the output tables as history, and `approved="true"` |
| NewBeneficiaries.CategoryCallsLength | handlers/new_beneficiaries_base.py:249-264 | the loop sends one request per result row |
| NewBeneficiaries.CategoryCallsAt | handlers/new_beneficiaries_base.py:249-264 | result row `i` becomes request `i`, valued at its category's share and labelled with partner, `approved` and category |
| NewBeneficiaries.NewPctBounded | handlers/new_beneficiaries_base.py:218-226 | `new_pct` lies in [0, 1] |
| NewBeneficiaries.BatchClaimsNotHistory | handlers/new_beneficiaries_base.py:180-197 | historical rows that are claims of the batch never make a beneficiary old: a history made only of batch claims scores 1 |
| NewBeneficiaries.SeenBeneficiaryNotNew | handlers/new_beneficiaries_base.py:168-216 | a category whose every batch beneficiary appears in a recent historical claim outside the batch scores 0 |
| NewBeneficiaries.CategoryCallsDescribe | handlers/new_beneficiaries_base.py:245-296 | when the result lists each category once, there is exactly one gauge per category, valued at its `new_pct` (or 1.0 without history) |
| NewBeneficiaries.NewBeneficiariesMetrics | handlers/new_beneficiaries_base.py:138-296 | with both historical tables, one gauge per batch category that has a beneficiary, valued at the share of its beneficiaries unseen in the 90 days before the event day; without them, one gauge of 1.0 per non-`NULL` batch category |
| NewBeneficiaries.TablesMetrics | handlers/new_beneficiaries_base.py:245-296 | over the contents of the four tables: one gauge per category, valued at its `new_pct` against the history when both historical tables exist and at 1.0 otherwise |
| NewBeneficiaries.RunReadsTables | handlers/new_beneficiaries_base.py:240-296 | with the batch tables present, the run is the category gauges over the rows of the named tables, with the history only when both historical tables exist |
| NewBeneficiaries.NewBeneficiariesValuesBounded | handlers/new_beneficiaries_base.py:245-296 | every emitted value lies in [0, 1] |
| NewProviders.NewProvidersRun | handlers/new_providers_base.py:189-249 | a handled message sends exactly one request, of the `new_pct_3mo` provider metric (the query returns a single row), with string labels only |
| NewProviders.HandleNewProvidersMetrics | handlers/new_providers_base.py:78-255 | the requests sent and the outcome are exactly those `EffectOf` gives for `NewProvidersRun` |
| NewProviders.NewPctBounded | handlers/new_providers_base.py:199-206 | `new_pct` lies in [0, 1] |
| NewProviders.NewProvidersMetrics | handlers/new_providers_base.py:140-249 | the gauge is labelled with partner and `approved` and is valued at the share of the batch's distinct providers unseen in the 90 days before the event day, or 1.0 when either historical table is missing; in both cases it lies in [0, 1] |
| NewProviders.BatchClaimsNotHistory | handlers/new_providers_base.py:165-188 | historical rows that are claims of the batch do not count as seen: a history made only of batch claims scores 1 |
| NewProviders.KnownProvidersScoreZero | handlers/new_providers_base.py:189-198 | a batch whose every provider appears in a recent historical claim outside the batch scores 0 |
| VolumeRatio.RatioMeaning | handlers/providers_volume_ratio_base.py:182-189 | the intended ratio is the latest month's distinct count over the previous month's, 1.0 when the previous month is empty, and never negative |
| VolumeRatio.RatioAsWrittenOnEmptyLatest | handlers/providers_volume_ratio_base.py:173-178 | with an empty latest month and a non-empty previous one, the query as written reports 1.0 where the intended ratio is 0 |
| VolumeRatio.RatioAsWrittenAgreesOtherwise | handlers/beneficiaries_volume_ratio_base.py:181-189 | in every other case the ratio as written and the intended ratio agree |
| VolumeRatio.VolumeRatioRun | handlers/providers_volume_ratio_base.py:206-231 | a handled message sends exactly one request, of the handler's volume-ratio metric, with string labels only |
| VolumeRatio.HandleVolumeRatioMetrics | handlers/providers_volume_ratio_base.py:79-237 | the requests sent and the outcome are exactly those `EffectOf` gives for `VolumeRatioRun` |
| VolumeRatio.ProvidersWranglingMatch | handlers/providers_volume_ratio_wrangling.py:55-63 | answers `True` exactly on a completed `pipesv2_wrangling` run, and `False` on a falsy payload |
| VolumeRatio.ProvidersWranglingHandle | handlers/providers_volume_ratio_wrangling.py:84-91 | runs the providers base handler with the refined output tables as batch, the refined historical tables as history, and `approved="false"` |
| VolumeRatio.VolumeRatioMetrics | handlers/beneficiaries_volume_ratio_base.py:145-235 | the gauge carries the partner and `approved` labels and the ratio of the distinct keys of the last 30 days (batch included) to those of days 60 to 30, or 1.0 when either historical table is missing; it is never negative |
| VolumeRatio.MonthsAdjacent | handlers/providers_volume_ratio_base.py:124-128 | the previous month ends where the last month begins, and no historical row falls in both |
| VolumeRatio.BatchKeysAreLatest | handlers/providers_volume_ratio_base.py:141-149 | every key of the batch counts in the latest month, whatever the batch row's date |
| Submission.RequireTables | handlers/unsent_claims.py:103-114 | the table variables pass exactly when each is truthy, and then they are returned in order |
| Submission.TableRefs | handlers/unsent_claims.py:123-135 | one qualified reference per table variable |
| Submission.Prepare | handlers/unsent_claims.py:87-140 | a successful preparation yields one reference per table variable |
| Submission.WindowEnd | handlers/unsent_claims.py:166-171 | the end is at or after every ingestion of the run's submitted rows, and is the event time minus 20 minutes when the run has none |
| Submission.WindowEndIsRunIngestion | handlers/unsent_claims.py:150-158 | when the run has submitted rows, the end is the ingestion time of one of them: the window never takes another run's time |
| Submission.WindowInclusive | handlers/unsent_claims.py:173-183 | a row is in the window exactly when it was ingested within two days up to the end, both ends included |
| Submission.PrepareCheckOrder | handlers/unsent_claims.py:103-114 | the first missing table variable, in order, is the one reported |
| Submission.RequireTablesFirstFailure | handlers/unsent_claims.py:103-114 | the table checks stop at the first falsy variable and report its message |
| Submission.PrepareChecksPartnerThenRunId | handlers/unsent_claims.py:115-120 | with every table variable present, the partner is checked before the run id |
| Submission.StatusLabels | handlers/unsent_claims.py:263 | the partner as given and the status form string labels exactly when the partner is a string and the status is not `NULL` |
| Submission.FirstUnlabelled | handlers/unsent_claims.py:258-279 | the position of the first status whose labels are not all strings, every earlier one having string labels; the length of the list when there is none |
| UnsentClaims.Claims | handlers/unsent_claims.py:179-189 | one projected claim (`id_arvo`, `vl_pago`, `vl_info`) per row, in order |
| UnsentClaims.SendableOf | handlers/unsent_claims.py:214-220 | a claim is kept exactly when it was among the claims and is not matched by a non-sendable id; a claim without `id_arvo` is always kept |
| UnsentClaims.MatchesOf | handlers/unsent_claims.py:227-232 | the `INNER JOIN` pairs a submitted row with exactly the sendable claims of the same non-`NULL` `id_arvo` |
| UnsentClaims.Match | handlers/unsent_claims.py:66-74 | answers `True` exactly on a completed `pipesv2_submission` run, and `False` on a falsy payload |
| UnsentClaims.UnsentClaimsRun | handlers/unsent_claims.py:87-279 | the computation succeeds exactly when preparation passes and all four tables exist; every request then goes to the run project under the `vl_pago` or the `vl_info` metric, labelled with the partner as given, at the source timestamp |
| UnsentClaims.Handle | handlers/unsent_claims.py:87-279 | the requests sent and the outcome are exactly those `EffectOf` gives for `UnsentClaimsRun`: preparation, an unprobed query over the four tables, then two gauges per result row |
| UnsentClaims.EmitStatusGauges | handlers/unsent_claims.py:258-279 | the loop over the result rows sends the `vl_pago` and `vl_info` gauges of each status in result order, and raises at the first status whose labels are not all strings, as `SendAll` of the status gauges says |
| UnsentClaims.StatusGaugesSent | handlers/unsent_claims.py:258-279 | sending the status gauges returns with all of them when every status has string labels, and otherwise raises after the gauges of the statuses before the first that has not |
| UnsentClaims.StatusGaugesOutcome | handlers/unsent_claims.py:258-279 | over a non-empty result, the loop returns exactly when the partner is a string and no status is `NULL`; a non-string partner sends nothing; otherwise it raises at the first `NULL` status, having sent the gauges of those before it |
| UnsentClaims.StatusCallsLength | handlers/unsent_claims.py:258-279 | the loop builds two requests per result row; how many of them are sent is stated by `StatusGaugesOutcome` |
| UnsentClaims.StatusCallsAt | handlers/unsent_claims.py:258-279 | result row `i` yields gauge `2i` (`vl_pago` share) and `2i+1` (`vl_info` share), labelled with the raw partner and the status; these are the requests the loop attempts, in order |
| UnsentClaims.StatusCallsDescribe | handlers/unsent_claims.py:233-253 | two gauges per status of the result, `SUBMITTED_SUCCESS` always among them, each valued at its share of the sendable totals (1.0 with no sendable `vl_pago`): the requests the loop attempts, which are all sent only when the partner is a string and no status is `NULL` |
| UnsentClaims.UnsentClaimsMetrics | handlers/unsent_claims.py:164-279 | once every check passes and the tables exist, the handler computes two gauges per status of the result; it returns having sent them all exactly when the partner is a string and no status is `NULL`, a non-string partner sends nothing, and any raise is the emission's |
| UnsentClaims.UnsendableStatusExcluded | handlers/unsent_claims.py:201-206 | a claim of the window under validation, expired or excluded is not sendable |
| UnsentClaims.PendingInvoiceExcluded | handlers/unsent_claims.py:191-213 | every claim of the window on an invoice with a claim sent for validation is not sendable, whatever its own status |
| UnsentClaims.SendableIsIngested | handlers/unsent_claims.py:179-220 | the sendable claims are exactly the claims of historical rows ingested in the window that are not excluded |
| UnsentClaims.UnmatchedStatusScoresZero | handlers/unsent_claims.py:242-252 | a status nobody submitted, and the `NULL` status, score 0 against a non-zero total |
| UnsentClaims.JoinedEmpty | handlers/unsent_claims.py:227-232 | a status that no submitted row carries joins no claim |
| UnsentSavings.StatusTotals | handlers/unsent_savings.py:195-208 | one result row per status group, in result order, carrying that group's `vl_glosa_arvo` total |
| UnsentSavings.FindTotal | handlers/unsent_savings.py:230-235 | the inner loop returns the total of the first result row of the status, and 0.0 when no row has it |
| UnsentSavings.Match | handlers/unsent_savings.py:70-78 | answers `True` exactly on a completed `pipesv2_submission` run, and `False` on a falsy payload |
| UnsentSavings.UnsentSavingsRun | handlers/unsent_savings.py:90-248 | the computation succeeds exactly when preparation passes and all four tables exist; every request then goes to the run project under the savings metric, labelled with the partner as given, at the source timestamp |
| UnsentSavings.Report | handlers/unsent_savings.py:140-248 | once the tables are found, every gauge of the report, the 1.0 fallback or a per-status share, goes to the run project under the savings metric with the raw partner and the source timestamp |
| UnsentSavings.Handle | handlers/unsent_savings.py:90-248 | the requests sent and the outcome are exactly those `EffectOf` gives for `UnsentSavingsRun`: preparation, three unprobed queries over the window ending at the run's exact latest ingestion, then either the single 1.0 gauge or one gauge per seen status |
| UnsentSavings.TotalAcceptedSplits | handlers/unsent_savings.py:160-191 | the accepted total is the window's selected savings plus the internal and the manual validations accepted in the window |
| UnsentSavings.TotalForFinds | handlers/unsent_savings.py:229-235 | when each status appears once in the result, the search finds that status's own total |
| UnsentSavings.TotalForAbsent | handlers/unsent_savings.py:231-235 | a status absent from the result is given 0.0 |
| UnsentSavings.TotalForIsGroupTotal | handlers/unsent_savings.py:195-235 | looked up by status, the result gives each status the total of the run's rows with that status, zero when none has it |
| UnsentSavings.StatusCallsLength | handlers/unsent_savings.py:229-248 | the loop builds one request per seen status; how many of them are sent is stated by `StatusGaugesOutcome` |
| UnsentSavings.StatusCallsAt | handlers/unsent_savings.py:229-248 | the `i`-th request is the gauge of the `i`-th status, valued at its found total over the accepted total: the request the loop attempts at that position |
| UnsentSavings.StatusCallsDescribe | handlers/unsent_savings.py:223-248 | with accepted savings, one gauge per seen status, `SUBMISSION_SUCCESS` always among them, each its run total over the accepted total: the requests the loop attempts, which are all sent only when the partner is a string and no status is `NULL` |
| UnsentSavings.EmitStatusGauges | handlers/unsent_savings.py:229-248 | the loop over the seen statuses sends one gauge each, its found total over the accepted total (0.0 when nothing was accepted), and raises at the first status whose labels are not all strings, as `SendAll` of the status gauges says |
| UnsentSavings.StatusGaugesSent | handlers/unsent_savings.py:229-248 | sending the status gauges returns with all of them when every status has string labels, and otherwise raises after the gauges of the statuses before the first that has not |
| UnsentSavings.StatusGaugesOutcome | handlers/unsent_savings.py:229-248 | over a non-empty result, the loop returns exactly when the partner is a string and no status is `NULL`; a non-string partner sends nothing; otherwise it raises at the first `NULL` status, having sent the gauges of those before it |
| UnsentSavings.NothingAcceptedReportsOne | handlers/unsent_savings.py:210-221 | with no accepted savings in the window the handler computes a single gauge of 1.0 labelled `SUBMISSION_SUCCESS`, sent exactly when the partner is a string; otherwise the emission raises and nothing is sent |
| UnsentSavings.AcceptedReportsStatuses | handlers/unsent_savings.py:223-248 | with accepted savings the handler computes one gauge per seen status; it returns having sent them all exactly when the partner is a string and no status is `NULL`, a non-string partner sends nothing, and any raise is the emission's |
| UnsentSavings.MissingTableFails | handlers/unsent_savings.py:143-208 | any of the four tables missing is an internal error with nothing sent |
| UnsentSavings.WholeSecond | handlers/unsent_savings.py:143-146 | `FORMAT_TIMESTAMP('%Y-%m-%d %H:%M:%S', t)` keeps the whole second at or below `t`, and is strictly below `t` when `t` has a fraction of a second |
| UnsentSavings.WindowEndAt | handlers/unsent_savings.py:138-156 | the exact end, `COALESCE(MAX(ingested_at), source_timestamp - 20 minutes)`, is at or after every ingestion of the run |
| UnsentSavings.WholeSecondsAgree | handlers/unsent_savings.py:143-162 | at whole-second resolution the cut changes nothing, and the exact window is the one `Report` reads |
| UnsentSavings.ExactWindowKeepsRun | handlers/unsent_claims.py:166-175 | with the exact end, every row of the run ingested in the two days up to its latest ingestion is read, the latest included |
| UnsentSavings.AsWrittenDropsLatest | handlers/unsent_savings.py:143-162 | as written, when the run's latest ingestion is not on a whole second, a row of the run that the exact window reads is left out of the queried window |
| UnsentSavings.SubSecondRowDropped | handlers/unsent_savings.py:143-162 | a run whose one row was ingested at 1.5 seconds: the exact window reads that row and the handler's window reads no row at all |
| ExpiredValidation.ExpiredSum | handlers/expired_validation_claims.py:134-171 | the unprobed query succeeds exactly when the table exists, and is then the `vl_glosa_arvo` total of its rows ingested in the two days and updated in the 30 minutes up to the event with status `EXPIRED` |
| ExpiredValidation.ExpiredTotal | handlers/expired_validation_claims.py:119-123 | the two queries succeed exactly when both tables exist, and give the sum of their expired totals |
| ExpiredValidation.Match | handlers/expired_validation_claims.py:62-70 | answers `True` exactly on a completed `pipesv2_release` run, and `False` on a falsy payload |
| ExpiredValidation.Prepare | handlers/expired_validation_claims.py:82-116 | preparation passes only with the truthy partner of the payload's variables, kept as given, and with the parsed source timestamp |
| ExpiredValidation.ExpiredValidationRun | handlers/expired_validation_claims.py:82-132 | a handled message builds exactly one gauge request, under the expired-total metric type; it is sent only when the partner is a string (`ExpiredMetrics`) |
| ExpiredValidation.Handle | handlers/expired_validation_claims.py:72-132 | the requests sent and the outcome are exactly those `EffectOf` gives for `ExpiredValidationRun` |
| ExpiredValidation.SelectNonNegative | handlers/expired_validation_claims.py:148-157 | filtering rows keeps every amount non-negative when it was before |
| ExpiredValidation.ExpiredMetrics | handlers/expired_validation_claims.py:116-132 | the single gauge is the expired total of the internal table plus that of the manual table, at the source timestamp, labelled with the partner only, and never negative over non-negative tables; it is sent exactly when the partner is a string, and otherwise the emission raises with nothing sent |
| ExpiredValidation.NestedGroupReadFirst | handlers/expired_validation_claims.py:87-95 | a nested validation group that is present but not a dict raises before any variable is checked |
| ExpiredValidation.ExpiredCheckOrder | handlers/expired_validation_claims.py:97-106 | the partner, then the internal table, then the manual table are required, each failing with its own bad-request message |
| ExpiredValidation.ExpiredMissingTableFails | handlers/expired_validation_claims.py:121-122 | a missing internal or manual table is an internal error with no gauge sent |
| Json.GetOr | dispatcher.py:30-31 | `d.get(k, default)` answers only on a dict: the value when the key is present (even `null`), the default when it is absent |
| Json.Field | handlers/pipeline_run.py:70 | `d.get(k)` on a dict never raises and agrees with the general `get` with a `None` default |
| Json.Index | handlers/pre_filtered_approval.py:87 | `d[k]` succeeds exactly on a dict holding the key, and gives that key's value |
| Json.Contains | handlers/pipeline_run.py:42-47 | `k in c` is key membership on a dict and raises on `None`, a boolean or a number |
| Json.PyStr | handlers/pipeline_run.py:75 | `str()` of a string is the string itself |
| Json.OccursAt | metrics.py:87-88 | a pattern found at any position counts as occurring in the string |
| Json.OccursIffSubstring | handlers/pipeline_run.py:46 | Python's substring `in` holds exactly when the pattern matches at some position |
| Metrics.MonitoringClient.constructor | metrics.py:102-117 | a new client has received no request |
| Metrics.MonitoringClient.CreateTimeSeries | metrics.py:51 | each `create_time_series` call is recorded after the earlier ones, with its name and series |
| Metrics.EmitGaugeMetric | metrics.py:15-51 | with string label values, emitting sends exactly one request: the one time series of `Gauge`, under `projects/<id>`, with metric type `custom.googleapis.com/<name>`, the labels, a `global` resource and one point; a label value that is not a string makes `labels.update` raise before anything is sent |
| Metrics.Gauge | metrics.py:35-47 | a gauge request can be built exactly when every label value is a string |
| Metrics.StrLabelsSingle | metrics.py:40 | a single label can be set exactly when its value is a string |
| Metrics.AllBuildableConcat | metrics.py:40 | requests sent in two parts can all be built exactly when each part can |
| Metrics.GaugeDeterminesArguments | metrics.py:35-47 | two gauge requests are equal only when project, name, value, labels and timestamp are all equal, so a request identifies what was emitted |
| Metrics.LoggedCreateTimeSeries | metrics.py:65-93 | the local-mode client writes one record per series, in order, and sends nothing |
| Metrics.RemoveAllFree | metrics.py:87-88 | `replace` of a pattern that does not occur leaves the string unchanged |
| Metrics.RemovePrefix | metrics.py:87-88 | removing a prefix that occurs nowhere else gives back the rest |
| Metrics.LoggedGaugeRoundTrip | metrics.py:85-92 | the logged record of an emitted gauge recovers its project, name, value, labels and timestamp, when neither id nor name contains the stripped prefix |
| Metrics.LoggedProjectIdDropsInnerPrefix | metrics.py:87 | a project id containing `projects/` is logged with that inner text removed too |
| Warehouse.Select | handlers/unsent_claims.py:179-189 | a `WHERE` keeps exactly the rows satisfying the condition |
| Warehouse.Latest | handlers/unsent_claims.py:168 | `MAX(t)` is the time of some row and no row is later; `NULL` only when no row has a time |
| Warehouse.Dedup | handlers/unsent_claims.py:184 | `UNION DISTINCT` keeps exactly the rows present, each once |
| Warehouse.InGroup | handlers/unsent_savings.py:205 | a `GROUP BY` group holds exactly the rows of that key, `NULL` included |
| Warehouse.InGroupOfNoGroup | handlers/unsent_claims.py:231 | a key no row carries forms an empty group |
| Warehouse.TotalAppend | handlers/unsent_savings.py:165-183 | the sum over a `UNION ALL` is the sum of the sums |
| Warehouse.TotalOfNone | handlers/processable_base.py:116 | `COALESCE(SUM(a), 0)` is 0.0 when no row has the amount |
| Warehouse.SqlSumCoalesces | handlers/processable_base.py:116 | `COALESCE(SUM(a), 0)` agrees with `SUM(a)` when that is not `NULL` |
| Warehouse.SubsetSize | handlers/new_beneficiaries_base.py:210 | a subset is no larger: new beneficiaries never outnumber all beneficiaries |
| Warehouse.EnumeratesSize | handlers/savings_base.py:115 | a grouped result lists as many rows as there are groups |
| Warehouse.DayCutoffIsMidnight | handlers/new_beneficiaries_base.py:123-126 | the date-only cutoff is the midnight starting the day 90 days before the event |
| HandlerBase.Base64Json | dispatcher.py:35-36 | the envelope decodes only from a string, to what the wire decoding gives, `None` when that fails |
| HandlerBase.EffectOf | handlers/base.py:30-42 | a handler that raises while computing sends nothing and passes its failure on; one whose requests all have string labels sends them all, in order, and returns |
| HandlerBase.SendAllDescribe | metrics.py:36-51 | emitting requests one after another returns exactly when every one can be built, and then sends them all; otherwise it raises after sending those before the first that cannot be built |
| HandlerBase.SendAllConcat | metrics.py:36-51 | emitting two runs of requests sends the first and, when that returned, then the second |
| HandlerBase.SendOne | metrics.py:36-51 | a single request is sent exactly when it can be built, and raises with nothing sent otherwise |
| HandlerBase.EffectOfPartial | metrics.py:40 | a request that cannot be built raises after the requests before it were sent, and none after it is sent |
| HandlerBase.EffectOfLateRaise | metrics.py:40 | a handler that raises after sending a request raised while emitting, never with a bad request |
| HandlerBase.EffectOfStringLabels | handlers/base.py:30-42 | a handler whose requests all have string labels raises, if at all, before sending any |
| HandlerBase.EffectOfOneRequest | handlers/base.py:30-42 | a handler that builds a single request raises, if at all, before sending it |
| HandlerBase.Require | handlers/processable_base.py:92-99 | a falsy required variable is a bad request with the given message; a truthy one is passed through |
| HandlerBase.IsCompletedRun | handlers/processable_base.py:87 | the defensive pipeline check answers on a dict payload and raises on any other |
| HandlerBase.MatchCompleted | handlers/processable_wrangling.py:58-66 | `match` answers `True` exactly on a dict payload of the pipeline with status `COMPLETED` |
| HandlerBase.MatchCompletedOrEmpty | handlers/processable_approval.py:58-62 | the `get("payload", {})` style answers `True` on exactly the same messages |
| HandlerBase.MatchStylesOnFalsyPayload | handlers/processable_approval.py:58-62 | on a falsy payload the first style answers `False`, the second raises unless the payload is `{}` |
| HandlerBase.MatchStylesAgreeOnTruthyPayload | handlers/processable_wrangling.py:58-66 | otherwise the two styles give the same answer |
| HandlerBase.SourceTimestamp | handlers/processable_base.py:166-169 | the timestamp is read exactly when the key is present, holds a string and parses |
| HandlerBase.FullTableRefQualifies | handlers/processable_base.py:101-103 | a qualified reference contains a dot, is left alone when qualified again, and adds the data project only to a name without a dot |
| HandlerBase.ProbedTotal | handlers/processable_base.py:110-126 | a probed table that is missing sums to 0.0, an existing one to its `COALESCE(SUM)` |
| HandlerBase.QueriedTotal | handlers/post_filtered_base.py:125-132 | an unprobed table sums as queried and raises when missing |
| HandlerBase.TotalNonNegative | handlers/processable_base.py:148-150 | a sum of non-negative amounts is non-negative |
| HandlerBase.ProbedTotalNonNegative | handlers/processable_base.py:110-146 | a probed total over non-negative tables is non-negative |
| HandlerBase.ShareOfSumBounded | handlers/processable_base.py:148-153 | a relative value lies in [0, 1], and is 1.0 when the other part is zero |
| PipelineRun.Match | handlers/pipeline_run.py:35-49 | `False` without a payload or a source timestamp; on a dict payload, `True` exactly when it has both `pipeline_uuid` and `status`; `True` only when both top-level keys are present |
| PipelineRun.PipelineRunRun | handlers/pipeline_run.py:51-88 | a handled event computes one request only for a message that describes a run (dict payload with `pipeline_uuid` and `status`, a source timestamp): a count of 1.0 under the count metric type, ending at the parsed source timestamp |
| PipelineRun.Handle | handlers/pipeline_run.py:51-88 | the requests sent and the outcome are exactly those `EffectOf` gives for `PipelineRunRun` |
| PipelineRun.RunLabels | handlers/pipeline_run.py:65-75 | the labels are all strings exactly when `pipeline_uuid` and `status` are strings: only the partner is passed through `str()` |
| PipelineRun.PipelineRunSent | handlers/pipeline_run.py:65-88 | a handled event is sent exactly when its `pipeline_uuid` and `status` are strings; otherwise the emission raises and nothing is sent |
| PipelineRun.PipelineRunMetric | handlers/pipeline_run.py:62-88 | a handled event that is sent has a string `pipeline_uuid` and `status`, and sends one count of 1.0 to the run project at the source timestamp, labelled with exactly pipeline, status and the stringified partner |
| PipelineRun.PipelineRunNeedsPartner | handlers/pipeline_run.py:70-74 | a falsy partner is a bad request with the partner message, and nothing is sent |
| PipelineRun.MatchedRunSucceeds | handlers/pipeline_run.py:42-88 | a matched dict event with dict variables, a partner, a parsable timestamp and a string pipeline and status is always handled, and its one count sent |
| PipelineRun.StatusNotTested | handlers/pipeline_run.py:46-49 | replacing the status by any value, `null` included, changes neither the match nor whether the count is computed; a string status is then sent as the original one, any other makes the emission raise |
| PipelineRun.StringPayloadMatches | handlers/pipeline_run.py:42-49 | a payload string that merely contains both key names matches, and the handler then raises |
| LegacyPipelineRun.EnvelopeData | src/handlers/pipeline_run.py:44-45 | the envelope data is read from a dict event, `None` without a `message`, and raises when `message` is not a dict |
| LegacyPipelineRun.Match | src/handlers/pipeline_run.py:37-59 | a raw event that is not a dict makes `match` raise; `True` only for a dict event whose envelope data is a string the wire decoding accepts |
| LegacyPipelineRun.Decode | src/handlers/pipeline_run.py:75-76 | decoding succeeds exactly on a string that the wire decoding accepts, and gives its value |
| LegacyPipelineRun.LegacyRun | src/handlers/pipeline_run.py:61-103 | a handled event computes one request, under the count metric type, only when its envelope data is a string the wire decoding accepts |
| LegacyPipelineRun.Handle | src/handlers/pipeline_run.py:61-103 | the requests sent and the outcome are exactly those `EffectOf` gives for `LegacyRun` |
| LegacyPipelineRun.DecodedEnvelopeAgrees | src/handlers/pipeline_run.py:49-59 | on an envelope that decodes, the older `match` and `handle` answer and send what the current ones do on the decoded message |
| LegacyPipelineRun.MalformedEnvelopeRaises | src/handlers/pipeline_run.py:49-50 | a non-empty envelope that does not decode makes `match` raise |
| LegacyPipelineRun.NoEnvelopeNoMatch | src/handlers/pipeline_run.py:44-47 | an event without envelope data, or with empty data, is not matched |
| LegacyPipelineRun.LegacyRunMetric | src/handlers/pipeline_run.py:77-103 | a handled event that is sent sends the same single count of 1.0, labelled with pipeline, status and partner from the decoded message, all strings |
| Registry.Match | handlers/base.py:17-28 | a modelled handler answers `True` only on a dict input, and every one except the older counter only on one with a `payload` |
| Registry.HandleEffect | handlers/base.py:30-42 | a modelled handler that raises after sending a request raises an internal error, never a bad request |
| Registry.Handle | handlers/base.py:30-42 | running a registered handler sends exactly the requests of its effect and ends as that effect says |
| Registry.HandleRunCounter | handlers/base.py:30-42 | running a pipeline-run counter, current or older, sends exactly the requests of its effect and ends as that effect says |
| Registry.HandleShare | handlers/base.py:30-42 | the same for the handlers that report a share or a total of warehouse tables |
| Registry.HandleWindowed | handlers/base.py:30-42 | the same for the handlers over a window of the warehouse's history |
| Registry.MatchesItsPipeline | handlers/processable_wrangling.py:58-66 | every metric handler's `match` answers `True` exactly on a completed run of its own pipeline |
| Registry.ConcreteHandlersFailCleanly | handlers/base.py:30-42 | a modelled handler that raises after sending a request is one of the two submission handlers, and the raise is its emission failing on a label that is not a string |
| Registry.RunCountersFailCleanly | handlers/pipeline_run.py:51-88 | a pipeline-run counter, current or older, that raises has sent nothing |
| Registry.ShareHandlersFailCleanly | handlers/processable_base.py:156-192 | a share or total handler that raises has sent nothing: its labels are all strings |
| Registry.WindowedHandlersFailCleanly | handlers/unsent_claims.py:258-279 | of the windowed handlers, only the two submission handlers can raise after sending a request, and then because a label is not a string |
| Registry.OtherPipelinesIgnored | handlers/unsent_claims.py:66-74 | a completed run of another pipeline is answered `False`, not a raise |
| Registry.MatchOnObjectAnswers | handlers/processable_approval.py:58-62 | on a dict message with a dict payload every metric handler's `match` answers rather than raises |
| Dispatcher.DecodeMessage | dispatcher.py:13-46 | a message is only ever decoded from a dict event, and is never `null` |
| Dispatcher.EnvelopeDecodedAsIs | dispatcher.py:33-39 | a non-empty envelope is decoded whatever it holds; it gives `None` when decoding fails or loads `null`, even if the event also has the direct shape |
| Dispatcher.DirectShape | dispatcher.py:41-46 | without envelope data, the event is returned unchanged exactly when it has both `payload` and `source_timestamp` |
| Dispatcher.Answers | dispatcher.py:86-88 | one `match` answer per registered handler |
| Dispatcher.Selected | dispatcher.py:85-95 | the collected positions are strictly increasing and within the registry |
| Dispatcher.SelectedDescribe | dispatcher.py:85-95 | the loop raises exactly when some `match` raises, and otherwise collects exactly the positions that answered `True` |
| Dispatcher.SelectedStep | dispatcher.py:86-89 | one more `True` appends its position, a `False` leaves the list unchanged |
| Dispatcher.SelectedFailureFinal | dispatcher.py:90-95 | after a raising `match` the later handlers are not asked |
| Dispatcher.MatchedIn | dispatcher.py:85-95 | the matched positions are strictly increasing and within the registry |
| Dispatcher.MatchedDescribe | dispatcher.py:85-95 | the match phase raises exactly when some handler's `match` raises, and otherwise lists exactly the handlers that answered `True`, in registration order |
| Dispatcher.MatchPhase | dispatcher.py:85-95 | the match loop computes exactly `MatchedIn` |
| Dispatcher.EffectsAt | dispatcher.py:103-105 | one effect per matched handler |
| Dispatcher.AllEmittedAppend | dispatcher.py:103-105 | the requests of one more handler come after the earlier ones |
| Dispatcher.RunInOrderReturns | dispatcher.py:103-117 | the execute loop returns exactly when every matched handler returns, and then all their requests are sent in order |
| Dispatcher.RunInOrderRaises | dispatcher.py:103-115 | otherwise it ends as the first handler that raised, with that handler's requests and those before it, none after |
| Dispatcher.FirstRaiseIndex | dispatcher.py:103-115 | a loop that raised has a first matched handler that raised, every one before it having returned |
| Dispatcher.RunInOrderFailureFinal | dispatcher.py:106-115 | once a handler has raised, the handlers after it do not run |
| Dispatcher.RunInOrderStep | dispatcher.py:103-105 | running one more handler after returning ones extends the outcome by that handler |
| Dispatcher.RunInOrderPrefixFinal | dispatcher.py:106-115 | the outcome is fixed by the prefix up to the first raise |
| Dispatcher.RunInOrderAllReturn | dispatcher.py:103-117 | when every matched handler returns, the loop returns with all their requests in order |
| Dispatcher.FirstRaise | dispatcher.py:103-115 | when the handlers before position `k` return and the one at `k` raises, the loop ends as that one, with the requests up to and including it |
| Dispatcher.LastRaise | dispatcher.py:103-115 | handlers that return up to a last one that raises: the loop ends as that one, with all their requests |
| Dispatcher.EffectsAtRealizes | dispatcher.py:103-105 | the effects of the matched handlers are those the handlers have, position by position |
| Dispatcher.HandleAt | dispatcher.py:104-105 | the `k`-th matched handler ends and sends as its effect says |
| Dispatcher.RunHandlers | dispatcher.py:103-115 | the execute loop ends and sends exactly as `RunInOrder` says of the matched handlers' effects |
| Dispatcher.ExecutePhase | dispatcher.py:103-115 | the execute loop over the matched positions ends and sends exactly as `Execute` says |
| Dispatcher.Execute | dispatcher.py:102-118 | no matched handler means nothing run and nothing sent; a raise is the raise of one of the matched handlers |
| Dispatcher.ResponseOf | dispatcher.py:106-118 | 204 exactly when all handlers returned, 400 with the handler's message exactly for a bad request, 500 otherwise |
| Dispatcher.Route | dispatcher.py:84-118 | the response is 204, 400 or 500, and requests are sent only when some handler matched |
| Dispatcher.MatchAndExecute | dispatcher.py:84-118 | the two phases answer and send exactly as `Route` says |
| Dispatcher.HandlerDispatcher.constructor | dispatcher.py:52-59 | the dispatcher keeps the handlers it was given |
| Dispatcher.DispatchRun | dispatcher.py:61-118 | `dispatch` raises exactly when decoding raises, and sends requests only for an event that decodes to a message |
| Dispatcher.HandlerDispatcher.Dispatch | dispatcher.py:61-118 | `dispatch` answers and sends as `DispatchRun`, which refuses an event that decodes to nothing, `null` included, and an exception that escapes it sends nothing |
| Dispatcher.UndecodableRefused | dispatcher.py:77-79 | an event that decodes to nothing (neither shape, or an envelope that does not load or loads `null`) is answered 400 with nothing sent |
| Dispatcher.RouteDescribe | dispatcher.py:84-118 | a raising `match` gives 500 with nothing sent, no match gives 204, otherwise 204 exactly when every matched handler returned, and then all their requests are sent |
| Dispatcher.BadRequestReported | dispatcher.py:106-111 | a bad request from a matched handler is answered 400 with its message, after the requests of the handlers before it and its own |
| Dispatcher.RouteAgrees | dispatcher.py:84-118 | two registries whose `match` answers and handler effects agree position by position are answered and send alike |
| LegacyDispatcher.HandlerDispatcher.constructor | src/dispatcher.py:14-21 | the older dispatcher keeps the handlers it was given |
| LegacyDispatcher.HandlerDispatcher.Dispatch | src/dispatcher.py:23-74 | the older `dispatch` runs the same two phases on the raw event and never lets an exception escape |
| LegacyDispatcher.GenerationsAgree | src/dispatcher.py:36-74 | on an enveloped run event that decodes to a value other than `null`, older dispatcher and counter answer and send exactly what the current ones do |
| LegacyDispatcher.MalformedEnvelopeDiffers | src/dispatcher.py:37-48 | on an envelope that does not decode, the current dispatcher answers 400 and the older one 500 |
| LegacyDispatcher.NullEnvelopeDiffers | src/dispatcher.py:37-48 | on an envelope holding the JSON document `null`, the current dispatcher answers 400 with nothing sent and the older one 500 |
| Service.CreateHandlers | main.py:25-88 | eight handlers in fixed order: the run counter with the run project first, the two handlers outside this model at positions 4 and 7, every other one a metric handler built with both projects |
| Service.AnswersOnCompletion | main.py:41-88 | on a completed run, the registry's `match` answers position by position as `CompletionAnswers` says |
| Service.SelectedPatternHead | main.py:41-63 | the first four answers select the run counter and at most one of the next three |
| Service.SelectedPattern | main.py:41-88 | such answers select the run counter and the handlers of that single pipeline |
| Service.SelectedOnCompletion | main.py:41-88 | the answers for a completed run select exactly `CompletionRoute` |
| Service.CompletionsRouted | main.py:41-88 | a completed approval run reaches positions 0, 1 and 5, a wrangling run 0, 2 and 6, a selection run 0 and 3, any other run only the counter |
| Service.Serve | main.py:122-129 | every event is answered 204, 400 or 500, and requests are sent only for an event that decodes to a message some handler matches |
| Service.ServeDescribe | main.py:122-129 | an event whose decoding raises is answered 500; one that decodes to nothing (neither shape, or an envelope that does not load or loads `null`) 400; any other gets the dispatcher's routing of the decoded message |
| Service.Initialise | main.py:111-120 | first-event initialisation succeeds exactly when the dispatcher is given only `handlers`, and then holds `create_handlers` |
| Service.InitAsWrittenRaises | main.py:116-120 | with the keywords passed as written, initialisation always raises |
| Service.Worker.constructor | main.py:92 | a new worker holds no dispatcher |
| Service.Worker.HandleCloudEvent | main.py:108-129 | the dispatcher is built on the first event only and kept afterwards; the response and requests are those of `Serve` |

## Notes on the source

- Both `dispatcher.py` and `src/dispatcher.py` stop at the first failing
  `match` or `handle`. A design that would carry on and report each failure
  as a gauge is not implemented by either, and the model follows the code.
- `handlers/unsent_claims.py:100` reads the variable
  `claims_submitted_output_table`, but the error message at line 114 names
  `submitted_claims_output_table`. The model keeps both as written.
- The status that is always reported is `SUBMITTED_SUCCESS` in
  `handlers/unsent_claims.py:236` and `SUBMISSION_SUCCESS` in
  `handlers/unsent_savings.py:211-227`. Each module uses its own source's
  constant.
- The two submission handlers end their window differently. The claims
  handler uses the exact `MAX(ingested_at)` (`handlers/unsent_claims.py:166-175`).
  The savings handler cuts it to a whole second
  (`handlers/unsent_savings.py:143-146`). The model reads the exact end in
  both, and the difference is reported under Findings.
- `main.py:41-88` registers eight handlers. The `Registry.Handler` datatype
  also covers the other handler classes of `handlers/`, so that their
  `match` and `handle` can be stated and dispatched.
- The current pipeline-run `match` tests keys with `in`. On a payload given
  as a string, that is a substring test, so such a payload can match and
  then make `handle` raise (`PipelineRun.StringPayloadMatches`).
- `emit_gauge_metric` copies the labels with `labels.update` at
  `metrics.py:40`, which raises `TypeError` on a value that is not a string.
  Most handlers pass the partner through `str()`, but the pipeline-run
  counter passes `pipeline_uuid` and `status` as given. The expired-claims
  handler and the two submission handlers pass the partner as given, and the
  submission handlers also pass the status, which is `None` for a `NULL`
  group. Such an event is answered 500. A submission handler may already
  have sent the gauges of the statuses before the first that fails
  (`UnsentClaims.StatusGaugesOutcome`, `UnsentSavings.StatusGaugesOutcome`).
- The JSON document `null` in an envelope loads as Python's `None`, so
  `dispatch` answers it 400 like an envelope that does not decode
  (`Dispatcher.EnvelopeDecodedAsIs`). The older counter's `match` raises on
  it instead, and the older dispatcher answers 500
  (`LegacyDispatcher.NullEnvelopeDiffers`).
- Decoding at `dispatcher.py:35` raises `TypeError`, outside the caught
  exceptions, when the envelope data is a truthy non-string. The exception
  escapes `dispatch`, and `main.py:125-129` answers 500
  (`Service.ServeDescribe`).

## Left out

- Network and client I/O: the BigQuery client, `create_monitoring_client`,
  `Config` and the Flask response objects. Clients become the
  `MonitoringClient` sink and the `Db` map, and responses a status and a body.
- Logging calls: they change no state and no response. Only the local-mode
  client's records are modelled (`Metrics.LoggedCreateTimeSeries`), as values
  returned, not written.
- Errors raised by the monitoring sink itself are not modelled: every
  `create_time_series` call is assumed to be accepted.
- The SQL text itself is not modelled. Each query is rendered as a function
  on rows with the same filters, joins and groups. BigQuery `NOT FOUND`
  becomes a missing key of `Db`.
- Floating point: every amount and share is a `real`, so rounding in
  `float` sums and divisions is not modelled.
- Timestamps are whole UTC seconds. Sub-second precision of
  `source_timestamp` and the `isoformat` rendering of point end times are not
  modelled. `Warehouse.DayCutoff` takes the calendar date in UTC, while
  `strftime("%Y-%m-%d")` takes it in the event's own UTC offset
  (handlers/new_beneficiaries_base.py:124-127,
  handlers/new_providers_base.py:123-126,
  handlers/providers_volume_ratio_base.py:124-128,
  handlers/beneficiaries_volume_ratio_base.py:125-130). For an event stamped
  with a non-UTC offset, the cutoff can fall one day off. The one place where
  sub-second precision changes a result, the window end of the savings
  submission handler, is modelled separately at tick resolution
  (`UnsentSavings.WindowEndAt`) and reported under Findings.
- The behaviour of base64, UTF-8 and JSON decoding, of `fromisoformat`, of
  `str()` on non-strings, and of Python set and grouped-result iteration
  order is given by `HandlerBase.Env`, not computed.
- HandlerBase.TableRef: a table variable that is truthy but not a string is
  an internal error at the point it is first used as a table name. The
  model does not tell apart the Python operations that would accept some
  such values.
- `PostFilteredApprovalHandler` and `SavingsApprovalHandler`, registered at
  `main.py:64-69` and `main.py:82-87`: their source is not part of this
  model. They are `Registry.OpaqueHandler` values passed to
  `Service.CreateHandlers`, known only by their `match` answers and their
  effect.
- `handlers/new_providers_base.py` and
  `handlers/beneficiaries_volume_ratio_base.py` have no concrete handler
  class among the modelled files. Their bases are modelled with a
  configuration parameter, and the registry holds no handler for them.
- A dispatcher that keeps running after a failure and reports it as a
  gauge is left out, because neither dispatcher does that (see Notes on the
  source).
- Concurrency between Cloud Run workers: each `Service.Worker` is one
  process with its own lazily built dispatcher.
- UnsentSavings.Handle: reads the window that ends at the run's exact
  latest ingestion. handlers/unsent_savings.py:143-146 cuts that end to a
  whole second with `FORMAT_TIMESTAMP`, so rows of the run ingested in the
  last fraction of that second are left out of both totals. The model's
  whole-second times hide the difference (`UnsentSavings.WholeSecondsAgree`),
  and it is reported under Findings.
- UnsentSavings.Report: computes the gauges over that exact window, the
  corrected one, for the same reason.
- VolumeRatio.VolumeRatioRun: emits the intended ratio
  (`VolumeRatio.Ratio`), not the `CROSS JOIN` ratio of the query as written.
  The difference is reported under Findings.
- VolumeRatio.HandleVolumeRatioMetrics: sends the gauge of `VolumeRatioRun`,
  so it emits the intended ratio, not the ratio the query as written reports
  (see Findings).
- VolumeRatio.ProvidersWranglingHandle: runs `HandleVolumeRatioMetrics`, so
  it too emits the intended ratio, not the one as written.
- VolumeRatio.VolumeRatioMetrics: states the intended ratio, which differs
  from the query as written when the latest month is empty (see Findings).
- Service.Worker.HandleCloudEvent: builds the dispatcher with `handlers`
  only, as `dispatcher.py:52-59` accepts, and not with the keywords of
  `main.py:116-120`. That call always raises, as reported under Findings.

## Findings

| source | as written | input that shows it | evidently intended | confidence | as-written member | corrected member |
|---|---|---|---|---|---|---|
| handlers/providers_volume_ratio_base.py:173-189 (also handlers/beneficiaries_volume_ratio_base.py:177-194) | counts are taken over `latest CROSS JOIN previous`, so both are 0 when the latest month is empty, and the `CASE` answers 1.0 | no key in the latest month, key `p1` in the previous month | ratio 0.0: the volume fell from one to none | not executed | VolumeRatio.RatioAsWrittenOnEmptyLatest | VolumeRatio.RatioMeaning |
| handlers/unsent_savings.py:143-162 (also lines 196-198) | the window end is `FORMAT_TIMESTAMP('%Y-%m-%d %H:%M:%S', COALESCE(MAX(ingested_at), …))`, which drops the fraction of the second, while `ingested_at` keeps microseconds; both `BETWEEN` windows end there | a run whose one submitted row was ingested at 1.5 seconds: the window ends at 1 second, before it, so the run's latest rows are missing from the per-status totals, and rows of the other tables ingested in that last half second from the accepted total | the window ends at the exact latest ingestion, as handlers/unsent_claims.py:166-175 computes it | not executed | UnsentSavings.SubSecondRowDropped | UnsentSavings.ExactWindowKeepsRun |
| main.py:116-120 | `HandlerDispatcher(handlers=..., monitoring_client=..., project_id=...)`, but `__init__` at dispatcher.py:52-59 takes only `handlers`; the `TypeError` is raised before the `try` at main.py:122 | any first event of a worker | the dispatcher built from the handlers, and the event dispatched | not executed | Service.InitAsWrittenRaises | Service.Worker.HandleCloudEvent |
