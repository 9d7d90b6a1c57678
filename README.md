# 5-breaths: the meeting transcriber, the SNS diary and the chat router in Dafny

This project models the logic of three small browser applications and proves properties of it.

**The meeting transcriber** has these models:
- `Transcription` is the recognition session. It is a restart-resilient wrapper around the browser's speech engine, with the utterance store and its text, SRT and structured exports.
- `SpeakerRecognition` is the online speaker clusterer. It keeps a bounded history of pending feature vectors and speakers with capped feature lists and mean centroids.
- `MeetingApp` is the controller code that glues the two together. It covers attribution of finalised utterances, speaker renaming with backfill, clearing and autosave restore.
- `TimeFormat` holds the `MM:SS`, `HH:MM:SS` and SRT `HH:MM:SS,mmm` renderers.

**The SNS diary** (`SnsGap`) records an expectation and a satisfaction rating per SNS session. It classifies the gap between them and derives insights from the list of records.

**The Buddhist chat** (`BuddhistChat`) routes a message to a topic by keyword. It answers from the current host's wisdom table and keeps the chat history.

`Text` writes out the JavaScript string primitives the code relies on:
- `toString` on non-negative integers;
- `padStart`;
- `trim`, with the full ECMAScript white-space set;
- `includes`.

`Wrappers` gives `Option`, which stands for `null`.

**How events, timers and outside inputs are modelled:**
- Engine events are method calls: start outcomes, result spans, error codes and end.
- Timers are counters or queues of armed callbacks, each drained by an explicit `Fire*` step:
  - the 300 ms restart timer;
  - the 500 ms retry timer;
  - the 300 ms chat welcome;
  - the 1–2 s chat reply.
- Callbacks (`onResult`, `onInterim`, `onError`, `onEnd`) are return values.
- These come in as parameters:
  - the clock (`Date.now()`, ISO time strings);
  - `confirm` answers;
  - detection switches and audio features;
  - the contents of `localStorage`;
  - the opaque content tables (greetings and wisdom texts);
  - `Math.sqrt`.
- JavaScript's `Map` of speakers is a `seq` in insertion order.

Where the code and the application's own description disagree, the model follows the code:
- When the restart budget is exhausted, only `onEnd` fires; `isRunning` stays `true`.
- A silent frame makes `identifySpeaker` return `null`, not the previous speaker.
- `formatDuration` takes milliseconds.
- The diary's worst-type insight uses the worst-type reduce exactly as written, including its falsy test on an empty SNS type (see Findings) and the `worstSNS &&` test on its result. The intended reduce is modelled beside it.
- The consistency test for founding a speaker is the mean similarity of the *incoming* vector to each pending vector, not a pairwise consistency of the history.

## Model

| member | source | states |
|---|---|---|
| Text.NatToStringDigits | meeting-transcriber/transcription.js:285 | `n.toString()` is a non-empty string of decimal digits |
| Text.DecimalValueOfNatToString | meeting-transcriber/transcription.js:285 | reading the digits of `n.toString()` back gives n |
| Text.NatToStringInjective | meeting-transcriber/speaker-recognition.js:152 | different counters render differently, so `speaker_${k}` ids differ |
| Text.NatToStringLength | meeting-transcriber/transcription.js:285 | the rendering of n fits in w characters exactly when n < 10^w |
| Text.DecimalValueAppend | meeting-transcriber/transcription.js:285 | the value of a concatenation of digit strings is the left value shifted plus the right value |
| Text.PadStart | meeting-transcriber/transcription.js:285 | `padStart` yields the longer of the string's length and the width |
| Text.PaddedDecimal | meeting-transcriber/transcription.js:285 | a zero-padded number is all digits, max(length, width) long, and still denotes the number |
| Text.TrimShape | meeting-transcriber/transcription.js:213 | `trim` leaves a contiguous piece of the input that neither begins nor ends with white space |
| Text.TrimEmptyIff | meeting-transcriber/transcription.js:216 | a string trims to "" exactly when every character is white space |
| Text.TrimIdempotent | meeting-transcriber/transcription.js:213 | trimming twice is trimming once, so stored texts are already trimmed |
| Text.TrimUnpadded | meeting-transcriber/transcription.js:213 | a string that neither begins nor ends with white space is its own trim |
| Text.IndexOf | meeting-transcriber/transcription.js:185 | the first position at or after `from` where the key occurs, or None when there is none |
| Text.Includes | meeting-transcriber/transcription.js:185 | `includes` is true exactly when the key occurs somewhere in the text |
| TimeFormat.ClockSplit | meeting-transcriber/transcription.js:279-282 | hours, minutes < 60 and seconds < 60 recompose the total; hours < 100 iff total < 360000 s |
| TimeFormat.ClockFields | meeting-transcriber/transcription.js:284-285 | HH:MM:SS reads back as the seconds it renders; it is exactly 8 characters below 100 hours |
| TimeFormat.HmsFields | meeting-transcriber/transcription.js:285 | the three zero-padded fields have colons in place and read back as h, m and s |
| TimeFormat.ShortTimestamp | meeting-transcriber/transcription.js:278-287 | below one hour `formatTimestamp` is MM:SS of the whole minutes and seconds |
| TimeFormat.TimestampFields | meeting-transcriber/transcription.js:278-288 | below one hour: 5 characters MM:SS that read back as ms/1000; from one hour on: HH:MM:SS with hours ≥ 1 that reads back as ms/1000 |
| TimeFormat.SrtTimestampFields | meeting-transcriber/transcription.js:363-371 | HH:MM:SS,mmm reads back as the exact millisecond count; it is 12 characters below 100 hours |
| TimeFormat.DurationFields | meeting-transcriber/app.js:525-532 | `formatDuration` always shows HH:MM:SS, and its fields read back as the elapsed whole seconds |
| Transcription.RunShape | meeting-transcriber/transcription.js:211-231 | a result event appends one utterance per final non-blank span, in span order; see the note below the table |
| Transcription.NoFinalNoUtterance | meeting-transcriber/transcription.js:216-249 | interim and blank spans never change the utterance list |
| Transcription.RunPreview | meeting-transcriber/transcription.js:231-249 | the last non-blank span decides the preview: cleared if final, its trimmed text and the event timestamp otherwise |
| Transcription.RunKeepsIndexed | meeting-transcriber/transcription.js:221 | a result event keeps every utterance id equal to its position |
| Transcription.IndexedIdsIncrease | meeting-transcriber/transcription.js:221 | in an indexed store, ids strictly increase |
| Transcription.TotalCharsAppend | meeting-transcriber/transcription.js:311 | character totals add up over concatenated stores |
| Transcription.SpeakerIdsOccur | meeting-transcriber/transcription.js:312 | an id is counted exactly when some utterance carries it as a non-empty speaker id |
| Transcription.SpeakerCountBound | meeting-transcriber/transcription.js:310-320 | the speaker count of `getStats` never exceeds the number of utterances |
| Transcription.JoinAppend | meeting-transcriber/transcription.js:330 | `join` of a concatenation is the two joins with one separator between |
| Transcription.ExportTextAppend | meeting-transcriber/transcription.js:325-331 | one more utterance adds exactly one `[time] speaker: text` line after a newline |
| Transcription.ExportSrtAppend | meeting-transcriber/transcription.js:350-358 | one more utterance adds exactly one SRT block, numbered by its position, after a blank line |
| Transcription.SrtBlockTimes | meeting-transcriber/transcription.js:351-356 | block k begins with the number k+1 and spans the timestamp to timestamp + 3000 ms |
| Transcription.ExportStructured | meeting-transcriber/transcription.js:336-345 | the structured export carries the utterance list verbatim and its length as `totalUtterances` |
| Transcription.FindById | meeting-transcriber/transcription.js:301 | `find` returns the first index with that id, or None when no utterance has it |
| Transcription.FindIndexed | meeting-transcriber/transcription.js:300-305 | in an indexed store, the utterance with id k is at position k |
| Transcription.ErrorClassification | meeting-transcriber/transcription.js:98-139 | only "aborted" is silent and only "no-speech" is a status; every other code reaches `onError`, including both fatal ones |
| Transcription.Transcription.constructor | meeting-transcriber/transcription.js:6-28 | not running, no engine, language ja-JP, empty store, no start time, restart counter 0 |
| Transcription.Transcription.SetLanguage | meeting-transcriber/transcription.js:40-42 | the language is replaced |
| Transcription.Transcription.Start | meeting-transcriber/transcription.js:47-62 | unsupported or already running: nothing changes; otherwise start time set, counter 0, running, a fresh engine started |
| Transcription.Transcription.CreateRecognition | meeting-transcriber/transcription.js:67-73 | a fresh engine with the current language, continuous unless on mobile |
| Transcription.Transcription.StartRecognition | meeting-transcriber/transcription.js:179-200 | a start failure other than "already started" arms exactly one retry timer |
| Transcription.Transcription.FireRetryTimer | meeting-transcriber/transcription.js:189-198 | the retry rebuilds the engine only while still running |
| Transcription.Transcription.OnError | meeting-transcriber/transcription.js:98-139 | `isRunning` becomes false exactly for "not-allowed" and "audio-capture"; the notice is the code's message |
| Transcription.Transcription.OnEnd | meeting-transcriber/transcription.js:141-155 | a restart is armed and counted iff running with fewer than 100 restarts; otherwise `onEnd` fires; the counter stays ≤ 100 |
| Transcription.Transcription.FireRestartTimer | meeting-transcriber/transcription.js:147-151 | the deferred restart re-checks `isRunning` and only then restarts the engine |
| Transcription.Transcription.HandleResult | meeting-transcriber/transcription.js:205-258 | the spans from `resultIndex` on are processed in order with one timestamp (now − start); the store grows by exactly what `onResult` received |
| Transcription.Transcription.TakeSpans | meeting-transcriber/transcription.js:211-257 | the result loop's new store, preview and interim callbacks are those of the event semantics `Run` |
| Transcription.Transcription.TakeSpan | meeting-transcriber/transcription.js:212-256 | one span: skipped if blank, appended with id = length if final, otherwise the preview |
| Transcription.Transcription.Stop | meeting-transcriber/transcription.js:263-273 | not running and no engine, so a later `onend` cannot restart |
| Transcription.Transcription.Clear | meeting-transcriber/transcription.js:376-380 | the store, preview and start time are emptied |
| Transcription.Transcription.UpdateUtterance | meeting-transcriber/transcription.js:300-305 | the first utterance with that id gets the patched fields; with no such id nothing changes |
| Transcription.RestartBudget | meeting-transcriber/transcription.js:144-154 | of n spontaneous ends, exactly min(n, 100) restart and the rest only fire `onEnd`, while still running |
| Transcription.StopPreventsRestart | meeting-transcriber/transcription.js:141-155 | a restart armed before `stop()` (lines 263-273) does nothing, and the next end fires `onEnd` |
| Transcription.ThreeFinals | meeting-transcriber/transcription.js:206-230 | three final spans 1 s apart become ids 0, 1, 2 stamped 0, 1000, 2000 |
| Transcription.ThreeFinalsWords | meeting-transcriber/transcription.js:213 | the scenario's words are already trimmed |
| SpeakerRecognition.FeatureVector | meeting-transcriber/speaker-recognition.js:89-96 | 16 components: normalised centroid, zero-crossing rate, 10 × RMS, then each band / 20 |
| SpeakerRecognition.DotStep | meeting-transcriber/speaker-recognition.js:110-111 | the dot-product accumulator grows by one product per index |
| SpeakerRecognition.DotSymmetric | meeting-transcriber/speaker-recognition.js:106-114 | the dot product is symmetric |
| SpeakerRecognition.SimilaritySymmetric | meeting-transcriber/speaker-recognition.js:101-118 | cosine similarity is symmetric in its two vectors |
| SpeakerRecognition.Sims | meeting-transcriber/speaker-recognition.js:54-55 | one similarity per speaker, in insertion order |
| SpeakerRecognition.ArgMax | meeting-transcriber/speaker-recognition.js:51-60 | the best match has the largest similarity, and the first one wins on a tie (strict `>`) |
| SpeakerRecognition.NoCreationBelowMinimum | meeting-transcriber/speaker-recognition.js:123-132 | no speaker is founded below 5 pending vectors, and founding needs mean similarity > 0.8 |
| SpeakerRecognition.ColumnSumStep | meeting-transcriber/speaker-recognition.js:204-208 | the centroid accumulator grows by one vector's component at a time |
| SpeakerRecognition.ColumnSumOfCopies | meeting-transcriber/speaker-recognition.js:204-208 | the column sum of n copies of v is n·v[i] |
| SpeakerRecognition.CentroidOfCopies | meeting-transcriber/speaker-recognition.js:198-215 | the mean of n ≥ 1 copies of a vector is that vector |
| SpeakerRecognition.PushAllWindow | meeting-transcriber/speaker-recognition.js:78-81 | push-then-shift (also lines 183-186) keeps exactly the most recent `cap` entries, oldest dropped first |
| SpeakerRecognition.Find | meeting-transcriber/speaker-recognition.js:179 | `Map.get`: the position of the speaker with that id, or None when there is none |
| SpeakerRecognition.SpeakerIdInjective | meeting-transcriber/speaker-recognition.js:152 | distinct counters give distinct `speaker_k` ids |
| SpeakerRecognition.IdsDistinct | meeting-transcriber/speaker-recognition.js:151-152 | numbered speakers have pairwise distinct ids, manual ones (lines 281-282) included |
| SpeakerRecognition.NextIdIsFresh | meeting-transcriber/speaker-recognition.js:151-152 | the id the next creation uses is not taken, so `set` appends |
| SpeakerRecognition.NumberedExtend | meeting-transcriber/speaker-recognition.js:151-167 | appending the speaker with the next id and colour keeps the numbering |
| SpeakerRecognition.HasDimUniform | meeting-transcriber/speaker-recognition.js:201 | vectors of one dimension are uniform |
| SpeakerRecognition.PushCappedDim | meeting-transcriber/speaker-recognition.js:78-81 | a capped push keeps the dimension and the cap |
| SpeakerRecognition.FindAfterAppend | meeting-transcriber/speaker-recognition.js:159 | appending a speaker keeps every id found |
| SpeakerRecognition.FindLast | meeting-transcriber/speaker-recognition.js:159 | the speaker just appended is found |
| SpeakerRecognition.FindDistinct | meeting-transcriber/speaker-recognition.js:179 | with distinct ids, `get` of the k-th speaker's id is position k |
| SpeakerRecognition.FindKeptIds | meeting-transcriber/speaker-recognition.js:183-189 | updating speakers without changing ids keeps every lookup |
| SpeakerRecognition.ReplaceKeeps | meeting-transcriber/speaker-recognition.js:183-189 | replacing a speaker by one with the same id and colour keeps the numbering and the current id |
| SpeakerRecognition.SpeakerRecognition.constructor | meeting-transcriber/speaker-recognition.js:6-25 | no speakers, counter 0, empty history, no current speaker, enabled |
| SpeakerRecognition.SpeakerRecognition.SetEnabled | meeting-transcriber/speaker-recognition.js:30-32 | the switch is replaced |
| SpeakerRecognition.SpeakerRecognition.CalculateSimilarity | meeting-transcriber/speaker-recognition.js:101-118 | the loop computes the cosine similarity; 0 for a null or length-mismatched vector or a zero denominator |
| SpeakerRecognition.SpeakerRecognition.CalculateAverageHistorySimilarity | meeting-transcriber/speaker-recognition.js:137-145 | the mean similarity of the new vector to each pending vector, 0 with no history |
| SpeakerRecognition.SpeakerRecognition.ShouldCreateNewSpeaker | meeting-transcriber/speaker-recognition.js:123-132 | at least 5 pending vectors and mean similarity > 0.8 |
| SpeakerRecognition.SpeakerRecognition.CalculateCentroid | meeting-transcriber/speaker-recognition.js:198-215 | the nested loops compute the componentwise mean; null for an empty list |
| SpeakerRecognition.SpeakerRecognition.BestMatch | meeting-transcriber/speaker-recognition.js:51-60 | the loop finds the first speaker of maximal similarity and that similarity |
| SpeakerRecognition.SpeakerRecognition.GetSpeaker | meeting-transcriber/speaker-recognition.js:220-222 | the speaker with that id, present exactly when one has it |
| SpeakerRecognition.SpeakerRecognition.CreateNewSpeaker | meeting-transcriber/speaker-recognition.js:150-173 | counter + 1, id `speaker_k`, colour (k−1) mod 8, features = history + vector with their mean as centroid, history emptied |
| SpeakerRecognition.SpeakerRecognition.UpdateSpeakerFeatures | meeting-transcriber/speaker-recognition.js:178-193 | the vector joins that speaker's capped features, the centroid is recomputed and the history emptied; unknown id: nothing |
| SpeakerRecognition.SpeakerRecognition.IdentifySpeaker | meeting-transcriber/speaker-recognition.js:37-84 | disabled or no features: unchanged, returns the current id; silence: unchanged, null; otherwise classified (see Classify) |
| SpeakerRecognition.SpeakerRecognition.Classify | meeting-transcriber/speaker-recognition.js:48-83 | similarity > 0.7 joins the best speaker; else create when consistent; else push onto the capped history and return the current id |
| SpeakerRecognition.SpeakerRecognition.JoinSpeaker | meeting-transcriber/speaker-recognition.js:64-67 | that speaker absorbs the vector, the history is emptied and that speaker becomes current |
| SpeakerRecognition.SpeakerRecognition.UpdateSpeakerName | meeting-transcriber/speaker-recognition.js:234-239 | only the named speaker's name changes; unknown ids change nothing |
| SpeakerRecognition.SpeakerRecognition.IncrementUtteranceCount | meeting-transcriber/speaker-recognition.js:244-249 | only the named speaker's count rises by 1; unknown ids change nothing |
| SpeakerRecognition.SpeakerRecognition.Reset | meeting-transcriber/speaker-recognition.js:270-275 | speakers and history emptied, counter 0, no current speaker |
| SpeakerRecognition.SpeakerRecognition.AddManualSpeaker | meeting-transcriber/speaker-recognition.js:280-296 | the shared counter + 1 names the id and colour; an empty name becomes `話者 k`; no features |
| MeetingApp.RenamedShape | meeting-transcriber/app.js:638-643 | renaming sets the name on exactly the utterances with that id and keeps ids, texts and speaker ids |
| MeetingApp.RenamedIdempotent | meeting-transcriber/app.js:638-643 | renaming twice is renaming once |
| MeetingApp.RenamedExport | meeting-transcriber/app.js:638-643 | after a rename, the text export shows the new name on that speaker's lines |
| MeetingApp.AttributedNamed | meeting-transcriber/app.js:205-216 | an attributed utterance always has a non-empty name, keeps id, text and timestamp, and defaults to `話者` |
| MeetingApp.MeetingTranscriber.constructor | meeting-transcriber/app.js:6-10 | a fresh store and clusterer, not running, both empty |
| MeetingApp.MeetingTranscriber.OnResult | meeting-transcriber/app.js:200-216 | with detection, the id identified sets id and name and adds 1 to that speaker's count; the utterance is always named |
| MeetingApp.MeetingTranscriber.Attribute | meeting-transcriber/app.js:206-216 | the utterance gets the attribution and only the identified speaker's count rises |
| MeetingApp.MeetingTranscriber.Label | meeting-transcriber/app.js:207-216 | the labelled utterance is the attribution against the current speakers |
| MeetingApp.MeetingTranscriber.SaveSpeakerName | meeting-transcriber/app.js:626-660 | a blank name changes nothing; otherwise rename plus backfill of the edited speaker, or a new manual speaker |
| MeetingApp.MeetingTranscriber.Backfill | meeting-transcriber/app.js:638-643 | the loop leaves the store renamed for that speaker id |
| MeetingApp.MeetingTranscriber.ClearTranscript | meeting-transcriber/app.js:590-598 | once confirmed, store and clusterer are reset together; otherwise nothing changes |
| MeetingApp.MeetingTranscriber.RestoreAutosave | meeting-transcriber/app.js:721-737 | a parsed snapshot's utterances are appended in order; missing, unparseable or list-less snapshots change nothing |
| MeetingApp.IdsRestartAfterClear | meeting-transcriber/app.js:590-593 | whatever a session has recorded, after clearing it the next final span gets id 0 again |
| SnsGap.VerdictOf | app.js:117-126 | the result message reports gap points below, |gap| points above, or expectation = satisfaction |
| SnsGap.VerdictMatchesHistory | app.js:117-126 | the message after saving and the history class (lines 192-194) agree, each decided by the gap's sign alone |
| SnsGap.HistoryNewestFirst | app.js:190-194 | the history of no records is empty; a newly saved record heads the history with its gap and class, and the older entries follow unchanged |
| SnsGap.AllGapsAppend | app.js:235 | the gaps summed for the overall mean are taken record by record: the gaps of two runs of records are the first run's followed by the second's |
| SnsGap.OneTypeGapsAreAllGaps | app.js:266-274 | when every record has one SNS type, the tally of that type holds exactly the gaps of all records |
| SnsGap.CountDisappointed | app.js:254 | at most as many as there are records |
| SnsGap.FirstSeenOccurs | app.js:264-276 | the key order holds exactly the SNS types that occur, each once |
| SnsGap.GapTableHolds | app.js:264-274 | the gap table has exactly those keys, each mapped to a non-empty list of that type's gaps in record order |
| SnsGap.TallyMeaning | app.js:264-274 | one key per SNS type (distinct, first-seen order), mapped to exactly that type's gaps in order |
| SnsGap.PickWorst | app.js:276-282 | None only without keys; the pick is one of the keys |
| SnsGap.PickWorstIsMax | app.js:276-282 | the pick has the largest mean gap, and no earlier key reaches it |
| SnsGap.PickWorstAsWritten | app.js:276-282 | the reduce as written: null only without keys; the pick is one of the keys |
| SnsGap.EmptyTypeLosesItsPlace | app.js:276-282 | keys A (mean 2), "" (mean 3), B (mean 0.6): the code picks B |
| SnsGap.AsWrittenWithoutEmpty | app.js:276-282 | without an empty SNS type among the keys, the reduce as written picks the intended key |
| SnsGap.AsWrittenAfterEmpty | app.js:276-282 | once the reduce as written holds "", the next key takes over whatever its mean, and the result is the intended pick over the keys after "" |
| SnsGap.AsWrittenWithEmpty | app.js:276-282 | keys l, "", r: the reduce as written gives the intended pick over r when "" is the intended pick of l and "" and r is non-empty, and the intended pick of all keys otherwise |
| SnsGap.Round2Threshold | app.js:285-286 | the rounded gap exceeds 0.5 exactly when the gap is at least 0.505 |
| SnsGap.OverallKind | app.js:235-251 | the overall insight is below, above or balanced exactly as the mean gap is > 0.5, < −0.5 or neither |
| SnsGap.OverallExactlyOnce | app.js:235-251 | exactly one overall insight, first, chosen by mean gap > 0.5, < −0.5 or otherwise |
| SnsGap.RateAboveSeventy | app.js:255-256 | the rate exceeds 70 % exactly when 10·d > 7·n |
| SnsGap.DisappointmentPartWarns | app.js:254-262 | the disappointment part warns exactly when 10·d > 7·n |
| SnsGap.OtherPartsQuiet | app.js:235-313 | the overall, worst-type and trend insights are never the disappointment warning |
| SnsGap.DisappointmentRule | app.js:254-262 | the disappointment warning appears exactly when more than 70 % of records are disappointing |
| SnsGap.WorstSnsRule | app.js:276-292 | names the type the reduce as written picks, reported iff it is not "", has ≥ 2 records and mean ≥ 0.505; with no record of type "" it has the largest mean gap |
| SnsGap.IntendedWorstSnsRule | app.js:276-292 | with the intended reduce: names the type with the largest mean gap, reported iff it is not "", has ≥ 2 records and mean ≥ 0.505 |
| SnsGap.WorstPartsAgree | app.js:276-292 | with no record of type "" the insight as written and the intended one coincide |
| SnsGap.TrendRule | app.js:295-313 | the trend needs ≥ 8 records and points the way the 5-vs-older means differ by more than 0.5 |
| SnsGap.Tally | app.js:264-274 | the forEach builds the key order and the gap table of the spec functions, with counts = list lengths |
| SnsGap.CountRecord | app.js:267-274 | one record starts its type's entry if the count is falsy, then adds its gap and count |
| SnsGap.GenerateInsights | app.js:231-316 | the pushes give exactly overall, disappointment, worst-type and trend insights, in that order |
| SnsGap.RecordBook.constructor | app.js:153-158 | a blank draft with no SNS type (lines 2-7); saved records loaded when present, otherwise none |
| SnsGap.RecordBook.SetExpectation | app.js:26-29 | the draft's expectation is set |
| SnsGap.RecordBook.SetSatisfaction | app.js:31-34 | the draft's satisfaction is set |
| SnsGap.RecordBook.SelectSns | app.js:37-39 | the draft's SNS type is set |
| SnsGap.RecordBook.SaveRecord | app.js:111-129 | the draft is stamped and exactly one copy is appended; the verdict is that record's |
| SnsGap.RecordBook.ResetRecord | app.js:131-137 | a fresh draft for the selected type, with ratings and timestamp null |
| SnsGap.RecordBook.ClearData | app.js:76-85 | only a confirmed clear empties the records |
| SnsGap.RecordBook.RenderInsights | app.js:214-229 | nothing below 3 records; otherwise the generated insights, first the overall one |
| SnsGap.ThreeSavesShowInsights | app.js:47-54 | three saved 4-vs-2 records show insights (lines 214-222) headed by "below expectation by 2" |
| BuddhistChat.ContainsAny | buddhist-chat/app.js:378-380 | true exactly when some keyword occurs in the text |
| BuddhistChat.TopicPriority | buddhist-chat/app.js:357-367 | suffering beats meaning beats peace beats practice; default when none matches |
| BuddhistChat.AnxiousAboutLife | buddhist-chat/app.js:359-362 | a message with both 人生 and 不安 is routed to suffering |
| BuddhistChat.GenerateResponse | buddhist-chat/app.js:352-376 | no answer without a known host; otherwise text, question and practical all come from the entry for that host and topic |
| BuddhistChat.Chat.constructor | buddhist-chat/app.js:5-6 | no host and an empty history |
| BuddhistChat.Chat.SaveState | buddhist-chat/app.js:383-389 | the stored state is the current host and history |
| BuddhistChat.Chat.SelectHost | buddhist-chat/app.js:245-268 | the host becomes current; if known, the history is emptied, the greeting queued and the state saved; if unknown, it throws |
| BuddhistChat.Chat.ShowHostSelection | buddhist-chat/app.js:270-275 | no current host, and that is saved |
| BuddhistChat.Chat.AddMessage | buddhist-chat/app.js:298-331 | exactly one entry is appended, then saved |
| BuddhistChat.Chat.FireWelcome | buddhist-chat/app.js:263-265 | the oldest queued greeting leaves the queue; it is added as a host message and saved exactly when the avatar lookup (lines 304-306) finds the current host, otherwise history and storage are unchanged |
| BuddhistChat.Chat.SendMessage | buddhist-chat/app.js:278-296 | a blank message adds nothing; otherwise the trimmed text is added and, with a known host, its reply queued |
| BuddhistChat.Chat.FireReply | buddhist-chat/app.js:291-295 | any pending reply may fire; it is answered for the host current then, or adds nothing without one |
| BuddhistChat.Chat.LoadState | buddhist-chat/app.js:391-438 | a saved state is restored only when its host is known; a missing history becomes [] |
| BuddhistChat.QuestionTrims | buddhist-chat/app.js:279 | the scenario's padded question trims to its words |
| BuddhistChat.GreetedByDogen | buddhist-chat/app.js:245-268 | selecting Dōgen and firing the welcome leaves exactly his greeting in the history, with no reply pending |
| BuddhistChat.StrayHostLosesWelcome | buddhist-chat/app.js:245-268 | Dōgen selected, then an unknown id before the welcome timer: the greeting is not shown and the history stays empty |
| BuddhistChat.DogenConversation | buddhist-chat/app.js:245-331 | greeting, trimmed user message and the suffering answer, in that order, saved with the host |
| BuddhistChat.ConversationSurvivesReload | buddhist-chat/app.js:383-399 | loading the saved state into a fresh page gives back the same history |

Note on `Transcription.RunShape`: each new utterance has:
- id equal to the length of the store before it;
- trimmed non-empty text;
- the shared timestamp;
- a null speaker;
- `isFinal` set.

## Left out

- Audio feature extraction (`audio-processor.js`) is Web Audio plumbing and floating-point signal processing. Feature records are opaque inputs to the clusterer.
- `Math.sqrt` is a function supplied to the clusterer. Similarity is checked only against that function, with the code's own edge cases (null, length mismatch, zero denominator).
- Floating point: averages, rates, similarities and centroids are exact `real`s. `toFixed(2)` is modelled as rounding of a real, halves away from zero, without binary floating-point error.
- Other `toFixed` display strings and all message texts with interpolated numbers are left out. So are DOM rendering, alerts, toasts, the clipboard, downloads, Chart.js and the modal dialogs.
- `localStorage`: the stores are parameters or fields. The chat's saved state is a field. `JSON.parse` failures appear only as the autosave's `Unparseable` case. The JSON text layout of `exportAsJSON` is modelled as a value.
- String lengths count code points, not UTF-16 units. This matters for `getStats().totalChars` of non-BMP text.
- `Date.now()`, `new Date().toISOString()` and the random reply delay are parameters, or choices of which timer fires.
- `getUtterances`, `isActive`, `isSupported`, `getAllSpeakers` and `getSpeakerStats` are plain accessors or read-only views, and are not modelled as operations.
- `updateStats`, `renderHistory`'s date string and `updateCharts` in the root diary are presentation. `History` covers the gap column only.
- Object keys inherited from `Object.prototype` are not modelled. Examples are an SNS type or a host id of "constructor" or "toString", which the code would misroute. So is JavaScript's reordering of integer-like object keys in `Object.keys`.
- The 300 ms restart and 500 ms retry timers are counters. The engine they restart is the one the model built, and the retry's second failure is swallowed, as in the code.
- SpeakerRecognition.Centroid: requires all vectors to have one dimension. The clusterer only ever stores 16-component vectors; a mixed list would make the code read `undefined`.
- MeetingApp.MeetingTranscriber.OnResult: states the identification step through the clusterer's counter and lookup only, not its full `Classified` contract. `IdentifySpeaker` carries that contract.
- MeetingApp.MeetingTranscriber.RestoreAutosave: restored utterances keep their saved ids, so a restore after live results need not keep ids equal to positions. The model shows that, rather than assuming it away.
- MeetingApp.Attributed: the `不明` branch cannot be reached from `OnResult`, since an id returned by the clusterer is always found. The function still models it.
- Transcription.Transcription.HandleResult: requires the clock not to be behind the start time. Timestamps are natural numbers, so a `Date.now()` earlier than `startTime`, which the code would store as a negative timestamp, is not modelled.
- Transcription.Transcription.UpdateUtterance: an update may set any of the seven fields of an utterance. Keys outside those, which `Object.assign` would add to the object, are not modelled.
- Transcription.ExportStructured: states only that the utterance list is carried verbatim and counted. The stats themselves are `GetStats`.
- BuddhistChat.DetectTopic: identifies `toLowerCase` with the identity. Every keyword is kana or kanji, which lower-casing neither produces nor alters.

## Findings

| source | as written | input that shows it | evidently intended | confidence | as-written member | corrected member |
|---|---|---|---|---|---|---|
| app.js:276-282 | the reduce keeps a current worst only while `!worst` is false, and an empty SNS type is falsy, so a worst of "" is replaced by the next key whatever its mean | first record saved before the SNS selector is touched (type ""); then types A (mean 2), "" (mean 3), B (mean 0.6): B is named | the type with the largest mean gap, earlier key winning ties | not executed | SnsGap.PickWorstAsWritten, SnsGap.EmptyTypeLosesItsPlace, SnsGap.AsWrittenWithEmpty | SnsGap.PickWorst, SnsGap.PickWorstIsMax, SnsGap.IntendedWorstSnsRule |
