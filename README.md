# term_pa_spectrum in Dafny

A Dafny model of the sequential core of term_pa_spectrum. The program follows
whatever PulseAudio sink is playing, takes windows of 16-bit samples from that
sink's monitor source, turns each window into a spectrum, and prints the
spectrum as one line of bar or braille glyphs on the terminal. The model
covers three pieces.

- **The renderer** (`src/output.c`).
  - `output_init` builds the bin map from data index to display column, the
    per-column counts, the average factors and the displayed column count.
  - `output_print` runs one frame: the optional log transform, the reducers
    (max, average, overwrite), exp2 smoothing with adaptive limits,
    normalisation, quantisation, packing of sub-columns into a glyph index,
    and the NUL terminator.
  - The setters and `output_update_silence_buffer`, which builds the
    fixed-width silence line.
  - Modules: `Glyphs`, `BinMap`, `BinMapProperties`, `Render`,
    `RenderProperties`, `Output`. `Output.OutputContext` is the context, with
    its buffers as arrays.
- **The sink follower** (`src/pulseaudio_follow_sink.c`).
  - `FollowSink.State` is `state_t` as a class with `reset_state`, the stream,
    read, event, context and sink-list callbacks, and the control-loop step.
  - `WindowFill` specifies how the read callback fills the sample window.
  - Every PulseAudio call appends an `Effect` to a trace (`PaTrace`). Its
    outcomes (peek failure, disconnect failure, stream creation failure,
    operation state) are method parameters.
- **The frame policy and options** (`src/main.c`).
  - `FramePolicy` holds the silence and sleep rule of `process_data_from_pa`.
  - `Options` holds `find_string_var`, its five tables, how `output.c` decodes
    the resulting codes, and the acceptance rules of the numeric options.
  - `FrequencyAxis` builds the `graph_freq` axis that `output_init` needs to
    be ascending.

Conventions:
- Doubles are `real`.
- `log` and `exp` are function-valued parameters. The only thing assumed about
  `exp` is that it is positive, which keeps the sigmoid's denominator non-zero.
- C's `unsigned int` wrap-around is written out where the source relies on it:
  - `target_acc_index` starts at (unsigned) -1;
  - `wchar_index` is pre-incremented from (unsigned) -1;
  - the int options are stored into `unsigned int` fields.

## Model

| member | source | states |
|---|---|---|
| Glyphs.AlphabetOf | src/output.c:219-237 | bars: 9 levels, 1 point per character, a 9-glyph table; braille: 5 levels, 2 points per character, 25 glyphs; wide braille: the braille table with 1 point per character; levels^ppc never exceeds the table |
| Glyphs.PackIndex | src/output.c:361-378 | the base-`levels` packing of the sub-levels, first sub-column most significant, is below levels^ppc |
| Glyphs.GlyphOf | src/output.c:379 | the glyph lookup of a packed index is inside the alphabet's table |
| BinMap.EffectiveGrouping | src/output.c:119 | columns are grouped exactly when both a grouping and a grouping function are given, and then with the given grouping |
| BinMap.ColumnOf | src/output.c:171-172 | a kept frequency's grouped column is below numPoints; it is the truncated scaled position, except that the position numPoints (f == max) is clamped to the last column |
| BinMap.ColumnMonotone | src/output.c:171-172 | a higher frequency never gets an earlier grouped column |
| BinMap.BinsUpTo | src/output.c:158-177 | the loop state after i indices has numPoints counts; the counter is still (unsigned) -1 iff nothing was kept, is otherwise a column, and without grouping is the number of kept indices minus one |
| BinMap.InitialBins | src/output.c:140-158 | before the loop every count is 0 (calloc) |
| BinMap.BuildBins | src/output.c:158-177 | the loop, incrementing the counts array in place, ends in the state FinalBins specifies |
| BinMap.KeptStep | src/output.c:165-176 | a kept index i is mapped to the next target column, which exists, and its count goes up by one |
| BinMap.SkippedStep | src/output.c:161-163 | an index outside [min_freq, max_freq] leaves the loop state unchanged |
| BinMapProperties.ColumnBounds | src/output.c:175 | the bin map only holds indices already seen, each mapped to a column below numPoints |
| BinMapProperties.KeptIffInRange | src/output.c:159-175 | an index is in the bin map iff its frequency lies in the inclusive window |
| BinMapProperties.GroupedColumns | src/output.c:170-175 | with grouping, every kept index maps to the clamped scaled column of its frequency |
| BinMapProperties.UngroupedColumns | src/output.c:168-176 | without grouping, the k-th kept index gets column k-1 counting from 1 (0, 1, 2, ... in order), and the counts are 1 up to the number of kept indices and 0 after it |
| BinMapProperties.DataIndexRange | src/output.c:144-166 | min_data_index and max_data_index are the smallest and largest kept index, or data_length and 0 when none is kept; the counter ends on the last kept index's column, which has a count |
| BinMapProperties.CountsSum | src/output.c:176 | the counts add up to the number of kept indices |
| BinMapProperties.CountIsColumnCount | src/output.c:175-176 | each column's count is the number of data indices the bin map sends to it |
| BinMapProperties.SortedKeptRangeContiguous | src/output.c:159-166 | with ascending frequencies, every index between min_data_index and max_data_index is in the bin map |
| BinMapProperties.DisplayedPointsValue | src/output.c:187 | num_points = target + 1 wraps to 0 exactly when nothing is kept; otherwise it is the last kept index's column + 1, at most the allocated columns; without grouping it is the number of kept indices; the last displayed column has a count |
| BinMapProperties.SortedColumnsDisplayed | src/output.c:159-187 | with ascending frequencies, every mapped index has a column below the displayed count |
| BinMapProperties.ColumnBelowLast | src/output.c:159-175 | with ascending frequencies, a kept index's column is at most that of any later kept index |
| BinMapProperties.CountsOverDataRange | src/output.c:176 | every contributor of a column lies in [min_data_index, max_data_index], so the count is the number of indices of that range mapped to the column |
| BinMapProperties.DisplayedBins | src/output.c:158-188 | for ascending frequencies, what output_print relies on: the displayed columns fit, every index of the data range has a displayed column, the last displayed column has a contributor, and the counts count that range |
| Render.Max | src/output.c:34-37 | the max macro returns one of its arguments and is at least both |
| Render.Min | src/output.c:39-42 | the min macro returns one of its arguments and is at most both |
| Render.AvgFactor | src/output.c:179-185 | the factor of a positive count times the count is 1; the factor of 0 is 0 |
| Render.Scale | src/output.c:309-311 | every column times its factor |
| Render.Blend | src/output.c:331 | a populated column's new smoothed value is never negative |
| Render.MinOpt | src/output.c:332 | the running minimum starting at INFINITY (None) is the smaller of the old minimum and the new value |
| Render.Trunc | src/output.c:373 | C's double to int conversion: the floor for non-negative values, at most 0 for negative ones |
| Render.Quantise | src/output.c:373-375 | the truncated, clamped sub-level is below levels |
| Render.NumChars | src/output.c:209 | the line width n = ceil(num_points / ppc): n * ppc covers the points, (n - 1) * ppc does not |
| Render.NumCharsAtMostPoints | src/output.c:360 | a line is never wider than its number of points |
| Render.NulIndex | src/output.c:358-381 | after count pre-increments from (unsigned) -1, wchar_index is count - 1, or 2^32 - 1 when count is 0 |
| Render.GroupLevels | src/output.c:363-378 | glyph g's sub-levels are the levels of points g*ppc .. g*ppc+ppc-1, each below levels; past num_points a point starts at level 0 and still goes through the sigmoid |
| Render.GlyphLine | src/output.c:360-380 | one glyph from the table per group of ppc points, ceil(num_points / ppc) glyphs |
| Render.GlyphStarts | src/output.c:360 | the glyph loop starts a glyph at point g*ppc exactly for g below the line width |
| Render.SilenceLine | src/output.c:208-217 | exactly num_chars characters: the source string's characters, truncated, then spaces |
| RenderProperties.MaxReducer | src/output.c:289-301 | with the max reducer, the zeroed column ends at the largest of 0 and its contributions |
| RenderProperties.SumReducer | src/output.c:302-307 | with the average reducer, a column first holds the sum of its contributions |
| RenderProperties.LastWins | src/output.c:313-319 | without a reducer the last contribution wins, and a column nobody writes stays 0 |
| RenderProperties.ContributionCount | src/output.c:303-307 | a column has as many contributions as data indices mapped to it |
| RenderProperties.AverageIsMean | src/output.c:302-311 | with the factors 1/count, a populated column gets the mean of its contributions and an empty one gets 0 |
| RenderProperties.ScaledSum | src/output.c:302-311 | the average reducer leaves a column's sum times its factor |
| RenderProperties.MeanOfScaled | src/output.c:181 | a sum times the factor of its length is the mean |
| RenderProperties.TimesInverse | src/output.c:181-183 | multiplying by the factor of n divides by n, and the factor of 0 gives 0 |
| RenderProperties.SmoothedValues | src/output.c:329-338 | a populated column gets the blend of its old and accumulated values; an unpopulated column j > 0 copies the already-updated column j-1; an unpopulated column 0 keeps its old value |
| RenderProperties.SmoothedNonNegative | src/output.c:331-336 | smoothing keeps a non-negative buffer non-negative |
| RenderProperties.LocalMin | src/output.c:328-333 | local_min is the smallest new value of the populated columns, one of those values, and stays INFINITY iff no column is populated |
| RenderProperties.LocalMax | src/output.c:328-333 | local_max is the largest of 0 and the new values of the populated columns |
| RenderProperties.LocalMinBelowMax | src/output.c:328-333 | a finite local_min is non-negative and at most local_max |
| RenderProperties.LimitsStayOrdered | src/output.c:339-343 | blending keeps 0 <= min limit <= max limit |
| RenderProperties.QuantiseBuckets | src/output.c:373-375 | the sub-level q satisfies q <= x < q + 1 for x = level * lineal * levels, except at the two clamped ends |
| RenderProperties.QuantiseMonotone | src/output.c:373-375 | a higher level never gets a lower sub-level |
| RenderProperties.PackTwo | src/output.c:376-377 | two sub-columns pack as left * levels + right |
| RenderProperties.NulOverwritesLastGlyph | src/output.c:379-381 | as written, the returned line is the full glyph line without its last glyph, one character shorter than the silence line |
| RenderProperties.SingleColumnPrintsNothing | src/output.c:379-381 | as written, a one-column frame prints the empty line, while its silence line has one character |
| RenderProperties.EmptyFrameNulOutOfBounds | src/output.c:358-381 | as written, with no displayed column the NUL goes to index 2^32 - 1, past any line buffer |
| Output.ClampUnit | src/output.c:252-253 | max(min(x, 1), 0) is in [0, 1]; it is x inside, 0 below and 1 above |
| Output.MapKeepsSorted | src/output.c:121-125 | a non-decreasing function (log) keeps the frequencies ascending |
| Output.ApplyAll | src/output.c:123-125 | the log loop applies f to every frequency in place |
| Output.ApplyRange | src/output.c:282-286 | the transform loop applies f to values[min .. max] in place and leaves the rest unchanged |
| Output.AvgFactorsOf | src/output.c:179-185 | factor[c] is the AvgFactor of count[c] for every column |
| Output.InitConfigured | src/output.c:116-160 | output_init's arguments give the bin map loop a valid configuration on ascending frequencies |
| Output.BinFrequencies | src/output.c:116-185 | applies log to the frequencies under log grouping; the bins are FinalBins of the grouped frequencies and window; the bins and factors satisfy what output_print relies on |
| Output.ZeroColumns | src/output.c:289-291 | the displayed columns of acc_buffer are 0, and the columns from num_points on are unchanged |
| Output.CombineInto | src/output.c:293-320 | from zeroed columns, acc_buffer is the reducer fold over the data range, and the columns from num_points on are unchanged |
| Output.ScaleColumns | src/output.c:309-311 | each displayed column is multiplied by its average factor, and the columns from num_points on are unchanged |
| Output.ReduceInto | src/output.c:288-320 | acc_buffer's displayed columns are the reduced values of the data range, and the columns from num_points on are unchanged |
| Output.SmoothInto | src/output.c:328-338 | the buffer, local_min and local_max are those of the smoothing loop's specification |
| Output.PackGroup | src/output.c:361-378 | the inner loop's symbol index is the packing of the group's sub-levels |
| Output.GlyphsInto | src/output.c:358-380 | the outer loop writes ceil(num_points / ppc) glyphs, the glyph line, at the pre-incremented index |
| Output.OutputContext.Assemble | src/output.c:140-195 | the context over finished bins with default settings (bars, silence_str, no smoothing, factors 0.5/0.5, lineal factor 1, sigmoid 0) and the silence line built for them |
| Output.OutputContext.SetLinealScaleFactorOffset | src/output.c:200-202 | the lineal factor becomes 1 + offset |
| Output.OutputContext.SetSigmoidScaleFactor | src/output.c:204-206 | the sigmoid factor becomes the argument |
| Output.OutputContext.UpdateSilenceBuffer | src/output.c:208-217 | the silence buffer holds the silence line of the current width, NUL-terminated |
| Output.OutputContext.FillSilence | src/output.c:211-216 | the three loops leave buf[..n] as the silence line and buf[n] as NUL |
| Output.OutputContext.SetCharset | src/output.c:219-239 | the alphabet of the charset is selected and the silence line is rebuilt |
| Output.OutputContext.SetSilenceStr | src/output.c:241-244 | the provided string is stored and the silence line is rebuilt |
| Output.OutputContext.SetSmoothing | src/output.c:246-250 | the smoothing is stored and both adaptive limits restart at 0 |
| Output.OutputContext.SetSmoothingFactors | src/output.c:251-258 | each new factor is clamped into [0, 1], and each (old, new) pair sums to 1 |
| Output.OutputContext.PrintSilence | src/output.c:272-274 | the silence line, exactly ceil(num_points / ppc) characters wide |
| Output.OutputContext.Accumulate | src/output.c:288-320 | acc_buffer's displayed columns are the reduction of the values with the context's bin map and factors |
| Output.OutputContext.SmoothFrame | src/output.c:325-345 | the smooth buffer becomes the smoothing loop's buffer, at least one column is populated, and the limits are blended from local_min and local_max |
| Output.OutputContext.FillLine | src/output.c:353-380 | the line buffer starts with the glyph line of the frame's source buffer, ceil(num_points / ppc) glyphs |
| Output.OutputContext.RenderFrame | src/output.c:281-380 | transform, accumulation and smoothing as FrameDone states (without smoothing, the limits and the smooth buffer are untouched), then the frame's glyph line |
| Output.OutputContext.Print | src/output.c:276-383 | as written: one frame, then the line returned is the glyph line minus its last glyph, NUL-terminated |
| Output.OutputContext.PrintFull | src/output.c:276-383 | corrected: the line returned is the whole glyph line, as wide as the silence line; with no displayed column it is empty and the values are untouched |
| Output.OutputContext.Terminate | src/output.c:381 | the NUL at index k ends the line, which is the k characters before it |
| Output.Init | src/output.c:99-197 | the context over the grouped frequencies' final bins, abs_min and abs_max through log under the transform, default settings, num_points = target + 1 |
| PaTrace.LiveAfterOne | src/pulseaudio_follow_sink.c:276-280 | pa_stream_new makes a stream live, pa_stream_unref releases it, and other calls keep the live set |
| PaTrace.ReleaseOnly | src/pulseaudio_follow_sink.c:298-301 | disconnecting and unreferencing the only live stream leaves none |
| FollowSink.Padded | src/pulseaudio_follow_sink.c:214 | strncpy gives size characters: the source's characters, then NULs |
| FollowSink.Kept | src/pulseaudio_follow_sink.c:214-219 | the stored name is a prefix of the monitor name, at most 255 characters, and the whole name when it fits |
| FollowSink.PaddedReadsBack | src/pulseaudio_follow_sink.c:214 | a NUL-free name shorter than the buffer reads back as itself |
| FollowSink.StoredName | src/pulseaudio_follow_sink.c:214-219 | byte 255 is NUL iff the name has at most 255 characters; overwriting it keeps the first 255 characters |
| FollowSink.StrNCopy | src/pulseaudio_follow_sink.c:214 | strncpy into the 256-byte buffer |
| FollowSink.ReopenLive | src/pulseaudio_follow_sink.c:270-290 | after a reopen the new stream is the only live one, or there is none if it could not be made |
| FollowSink.State.constructor | src/pulseaudio_follow_sink.c:56-76 | write_index 0, silence flag set, not found, no context, no stream, source index PA_INVALID_INDEX, no flush, empty name |
| FollowSink.State.OnFlushComplete | src/pulseaudio_follow_sink.c:87-91 | the flush is over |
| FollowSink.State.OnStreamState | src/pulseaudio_follow_sink.c:92-105 | a FAILED or TERMINATED current stream is disconnected, released and forgotten; any other state or stream changes nothing |
| FollowSink.State.OnRead | src/pulseaudio_follow_sink.c:106-160 | empty read: nothing; peek failure: forget the sink and the source and leave the window; otherwise the batch is filled when data is present, aligned and no flush is under way, else ignored; then the fragment is dropped |
| FollowSink.State.CopyBatch | src/pulseaudio_follow_sink.c:121-154 | the window, write index and silence flag become the filler's, a stopped batch leaves a flush under way, and the deliveries, sleep and flush are recorded |
| FollowSink.State.OnSinkEvent | src/pulseaudio_follow_sink.c:163-182 | found is cleared exactly when a sink-facility event names the running sink; nothing else changes |
| FollowSink.State.OnSubscribeCompleted | src/pulseaudio_follow_sink.c:184-190 | quit when subscribing failed |
| FollowSink.State.OnContextState | src/pulseaudio_follow_sink.c:192-208 | quit on a failed or terminated context; subscribe and mark it ready once it is ready; any other state changes nothing |
| FollowSink.State.OnSinkInfo | src/pulseaudio_follow_sink.c:210-223 | for a running sink: a name of at most 255 characters sets running_index and found; a longer one is stored truncated to 255 characters and changes nothing else; other entries change nothing |
| FollowSink.State.ManageOperation | src/pulseaudio_follow_sink.c:257-262 | listing starts only when no sink is known and none is pending; a finished listing is released |
| FollowSink.State.Reopen | src/pulseaudio_follow_sink.c:264-294 | the old stream is disconnected and released before a new one is made; the source index becomes running_index; a failed disconnect quits and keeps the old stream and source; the stream counter advances exactly when a new stream is made |
| FollowSink.State.ControlStep | src/pulseaudio_follow_sink.c:256-294 | nothing before the context is ready; a reopen happens exactly when a sink is known whose index differs from the stream's source, so re-finding the same sink does not reopen; the pending sink listing is started or released as in ManageOperation; after a reopen the stream, source index and stream counter are those of Reopen, and otherwise they are unchanged |
| FollowSink.State.Shutdown | src/pulseaudio_follow_sink.c:298-302 | the stream is released and no stream is left live |
| WindowFill.Emit | src/pulseaudio_follow_sink.c:141-150 | a full window is delivered with the k-th answer; the write index restarts at 0 and the silence flag is set |
| WindowFill.FeedStopped | src/pulseaudio_follow_sink.c:145-149 | once a callback asked to wait, the rest of the batch changes nothing |
| WindowFill.FeedDescribed | src/pulseaudio_follow_sink.c:136-144 | every delivered window has n values, and its silence flag is true iff all its values are 0; the kept flag describes the new part of the window |
| WindowFill.FeedInOrder | src/pulseaudio_follow_sink.c:127-154 | the delivered windows followed by the filled part are the previously filled part followed by the samples read, exactly while no wait was asked; no sample is lost or duplicated |
| WindowFill.FeedCounts | src/pulseaudio_follow_sink.c:122-154 | with no wait asked, a batch of L samples from write index w makes (w + L) / n callbacks and leaves the write index at (w + L) % n |
| WindowFill.FeedAnswers | src/pulseaudio_follow_sink.c:141-150 | the batch goes on only while the callbacks answer 0, and its wait is the last callback's answer |
| WindowFill.StopEffects | src/pulseaudio_follow_sink.c:145-148 | a wait k sleeps k / 1000 whole seconds and then flushes the stream |
| WindowFill.BatchKeepsStreams | src/pulseaudio_follow_sink.c:141-148 | a batch neither makes nor releases a stream |
| WindowFill.FeedRun | src/pulseaudio_follow_sink.c:128-141 | storing a run that fits the window and then testing for a full window is what feeding its samples one at a time does |
| WindowFill.CopySamples | src/pulseaudio_follow_sink.c:136-139 | the for loop stores the run at consecutive window positions and ANDs the silence flag |
| WindowFill.CopyRound | src/pulseaudio_follow_sink.c:128-139 | one round stores the samples that fit; the remaining length drops to 0 exactly when the window is not filled |
| WindowFill.FillWindow | src/pulseaudio_follow_sink.c:127-154 | the while loop ends in the state Feed specifies, with its deliveries, sleep and flush |
| FramePolicy.AnswerAt | src/main.c:137-152 | the k-th call's answer is the rule applied to the counter the earlier calls left |
| FramePolicy.SoundResets | src/main.c:152-181 | a sound window shows the graph, asks for no sleep and resets the counter to 0 |
| FramePolicy.SilenceAfterSoundIsAwake | src/main.c:137-152 | the first silent window after sound shows the empty graph, returns 0, and the counter is that call's elapsed time |
| FramePolicy.StaysAsleep | src/main.c:137-142 | once past the threshold, every silent call shows the silence line, returns the sleep time, and leaves the counter |
| FramePolicy.SilenceAccumulates | src/main.c:137-150 | silent calls at least e ms apart either pass the threshold or grow the counter by at least e each |
| FramePolicy.FallsAsleep | src/main.c:137-150 | enough silent calls bring the counter past the threshold |
| FramePolicy.CallbackInfo.constructor | src/main.c:336-339 | the counter starts at 0, and the two int options are stored modulo 2^32 |
| FramePolicy.CallbackInfo.ProcessData | src/main.c:130-182 | the new counter, the returned wait and what is shown are the rule's answer for the old counter |
| Options.FirstIndex | src/main.c:100-105 | the first index whose spelling matches, with no match before it, or the table length |
| Options.Lookup | src/main.c:100-109 | None iff no entry is spelled value; otherwise the code of an entry so spelled, the only one when the names are distinct |
| Options.FindStringVar | src/main.c:100-109 | the loop returns the Lookup result |
| Options.TablesDistinct | src/main.c:76-98 | no table spells an entry twice |
| Options.CharsetNames | src/main.c:76-80 | -c accepts exactly bars, braille and wide_braille, each selecting the charset of that name |
| Options.GroupingNames | src/main.c:81-85 | -g accepts exactly none, lineal and log |
| Options.GroupingFuncNames | src/main.c:86-90 | -G accepts exactly none, max and avg |
| Options.TransformNames | src/main.c:91-94 | -t accepts exactly none and log, and only log selects the log transform |
| Options.SmoothingNames | src/main.c:95-98 | -m accepts exactly none and exp2 |
| Options.GroupingSwitchAgrees | src/output.c:119 | for table codes, the C test on the raw codes picks the same grouping as EffectiveGrouping |
| Options.AcceptInt | src/main.c:54-62 | an integer option is accepted iff atoi gives a non-zero value, negatives included, and the value is kept |
| Options.AcceptReal | src/main.c:64-72 | a real option is accepted iff atof gives a positive value, and the value is kept |
| FrequencyAxis.AxisValues | src/main.c:292-301 | the axis has n / 2 + 1 values |
| FrequencyAxis.FrequencyAxisOf | src/main.c:296-301 | the loop fills a fresh array with bin i at i * (rate / n) |
| FrequencyAxis.AxisAscending | src/main.c:296-301 | for a non-negative rate, the axis is ascending, starts at 0 and stays within rate / 2, as output_init assumes (src/output.c:160) |
| FrequencyAxis.NegativeRateDescends | src/main.c:218 | a negative -r value, which the option accepts, gives an axis that is not ascending |

## Left out

- The FFT and the magnitude computation in `process_data_from_pa` use a foreign library and floating point. The frame callback is modelled as its silence rule, and the values given to `output_print` are arbitrary.
- FollowSink.State.OnRead: the frame callback is assumed to leave the sample window unchanged. The FFT in `process_data_from_pa` runs a plan made with `FFTW_DESTROY_INPUT` (src/main.c:291) on that same buffer, so the C program only guarantees the positions below the write index. The contract's claim about the positions from the write index on holds only under this assumption.
- FollowSink.State.CopyBatch: the same assumption. After a delivery, the window positions from the write index on are whatever the FFT left behind.
- WindowFill.FillWindow: the same assumption. `Emit` keeps the delivered window in the buffer, while in C the callback may overwrite it. `Described` and `InOrder` only read the filled part, `buf[..w]`, and a window is complete when it is delivered.
- Render.Trunc: the double-to-`int` conversion at src/output.c:373 is modelled as exact truncation on unbounded integers. In C, a product outside [-2^31, 2^31) is undefined behaviour; on x86-64 it gives `INT_MIN`, which line 374 clamps to level 0. `-o` accepts any positive offset (src/main.c:64-72, 254), so such a product can occur.
- Render.Quantise: for a product of at least 2^31 it gives the top level, levels - 1, where C's result is undefined (level 0 on x86-64). RenderProperties.QuantiseBuckets and RenderProperties.QuantiseMonotone are stated about this model, not about C.
- Floating point: doubles and floats are exact `real`s. Rounding, INFINITY as the initial local_min (its role is played by `None`), and NaN are not modelled.
- Render.Normalised: with `max == min` (the frame's scaling range), C divides by zero. The model takes the level as 0.
- Output.Init: its requires excludes three cases.
  - Under grouping with `min_freq == max_freq`, a kept frequency's column is 0/0.
  - Under grouping with `num_points == 0`, `num_points - 1` wraps around.
  - Frequencies that are not ascending: src/output.c:160 assumes they are.
- Render.Sigmoid: `exp` and `log` are uninterpreted parameters. No identity about them is used, except `exp > 0` and, for the bin map under log grouping, that `log` does not decrease.
- Output.WindowBound: `log(min_freq)` and `log(max_freq)` are truncated to unsigned int. The model requires them to be non-negative, because a negative double converted to unsigned is undefined in C.
- Output.OutputContext.Assemble: it sets the defaults that `output_init`'s closing setter calls (src/output.c:190-194) produce directly, and does not call the setter methods.
- `output_deinit`, `malloc`, `calloc` and `free`: allocation is `new` and is assumed to succeed. The NULL return of `output_init` is not modelled.
- The PulseAudio client plumbing: the mainloop, the context, connect, subscribe, `pa_stream_new`, peek, drop, flush and quit. Each call is an `Effect` in the trace. Its outcome is a method parameter, and so is the pointer-alignment test (`Peek.aligned`).
- The `pa_stream_connect_record` result is only logged in the source, so the model records the call and ignores the outcome.
- FollowSink.State.OnSinkInfo: with `eol <= 0` the source dereferences the sink info without checking it, so a NULL info is excluded by the requires.
- The NULL return of `pa_context_get_sink_info_list`: a failed listing is not modelled. `ManageOperation` takes its running state as a parameter.
- The PulseAudio constants `PA_INVALID_INDEX`, `PA_SUBSCRIPTION_EVENT_FACILITY_MASK` and `PA_SUBSCRIPTION_EVENT_SINK` come from the PulseAudio headers, which are not part of this model.
- Timing: `timeSinceLastUpdate`, `clock_gettime` and `sleep`. The elapsed time is a parameter, and a sleep is an `Effect`.
- Printing: `printf`, `fflush`, `setlocale`, the stats line and the `DEBUG` output. The model returns the line, or what is shown, instead.
- Command-line handling: `getopt`, the help text, and the text-to-number parsing of `atoi` and `atof`. Only the acceptance rules are modelled, and exiting with status 1 is modelled as `None`.
- `size_t` lengths and the `int16` sample count are unbounded naturals, and the byte length is given as samples.
- Output.OutputContext.Print requires num_points > 0: with no displayed column, the source's store is out of bounds (second row of Findings).
- FrequencyAxis.FrequencyAxisOf requires n > 0, because the step divides by n. A negative `-n` value is not modelled.
- Options.GroupingSwitchAgrees is stated for the codes the tables hold. Codes outside the tables cannot come from the options.
- FramePolicy.CallbackInfo.ProcessData: the float counter is compared with an unsigned int threshold in C. Both are `real` here.

## Findings

| source | as written | input that shows it | evidently intended | confidence | as-written member | corrected member |
|---|---|---|---|---|---|---|
| src/output.c:379-381 | the NUL is stored at wchar_index, which is the index of the last glyph written, so the line returned by output_print lacks its last glyph | any frame with num_points > 0; with num_points = 1 the line is empty while the silence line is one character wide | the NUL at wchar_index + 1, so the frame line is ceil(num_points / ppc) glyphs wide like the silence line | not executed | RenderProperties.NulOverwritesLastGlyph | Output.OutputContext.PrintFull |
| src/output.c:358-381 | with num_points = 0 (no frequency in [min_freq, max_freq]), no glyph is written and the NUL is stored at (unsigned) -1 | a window whose frequencies all lie outside [min_freq, max_freq] | an empty line, with the NUL at index 0 | not executed | RenderProperties.EmptyFrameNulOutOfBounds | Output.OutputContext.PrintFull |
