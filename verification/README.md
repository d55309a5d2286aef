# trigger-maturador in Dafny

A model of the pure logic of trigger-maturador, a WhatsApp "warm-up" bot. It
drives a set of wuzapi instances so that they message each other at random
intervals. The model covers three parts:

- **The personality engine** (`PersonalityManager`). This is a store that maps
  instance ids to personality ids, over a constant catalog of five profiles.
  On top of it sit small decision functions:
  - weighted profile selection;
  - reconciliation of the store against the live ids;
  - a peak-biased interval;
  - the active-hours window;
  - the respond, initiate and send threshold tests;
  - weighted media-kind selection;
  - vocabulary picking and per-profile counts.
- **The scheduler's bookkeeping** (`TriggerMaturador`):
  - the discovery filter;
  - JID to phone extraction and token to phone lookup;
  - the per-instance timer table and its reconciliation (`manageInstances`);
  - recipient choice;
  - the three-way composition in `sendMessage`;
  - the request table and outcome rules of `sendMediaMessage` and `sendTextMessage`;
  - the quote/escape/comma scanner that `getRandomBase64` runs over a JSON array of base64 strings.
- **The message logger's entry formats and append discipline**, and the
  `location.js` generator.

Every `Math.random()` draw is a `real` parameter in [0, 1) (`Draws.IsDraw`).
`Math.floor(r * n)` is `Draws.Index`. Every HTTP reply, file read or write
result is an input value: a `Result`, an `Option` or an `HttpOutcome`. The
timer table is explicit state, `Timers.Scheduler`. Its transitions are:

- arming a timer;
- firing it;
- the awaited callback completing;
- stopping all timers;
- reconciliation.

The scheduler never uses the personality engine. The live loop draws a
uniform interval and a uniform non-text kind. The two halves are modelled as
written and are not wired together.

Modules, one per file:

- `Wrappers`: `Option` and `Result`.
- `Strings`: prefix, suffix, ASCII case mapping, first index.
- `Seqs`: an order-keeping filter and subsequences.
- `Draws`: random draws.
- `Types`: the record types and enumerations.
- `Weighted`: the cumulative-weight walk that profile and media-kind selection share.
- `PersonalityConfig`: the catalog.
- `Personalities`: the personality manager.
- `Discovery`: instance discovery, phones, recipient choice.
- `MediaScan`: the JSON array scanner.
- `Sending`: media and text sends, and the composition.
- `Timers`: the timer table.
- `Logger`: the message logger.
- `LocationScript`: location.js.

## Model

| member | source | states |
|---|---|---|
| Types.EnumerationsAreExhaustive | src/types.ts:27-41 | the list of message kinds holds every one of the seven kinds exactly once, and the list of compositions every one of the three exactly once |
| PersonalityConfig.ProfileIdsDistinct | src/personality-config.ts:3-185 | the five catalog ids are pairwise distinct, so lookup by id is unambiguous |
| PersonalityConfig.FrequenciesWellFormed | src/personality-config.ts:3-185 | every profile has 0 <= min < peak < max, so the interval range is never zero |
| PersonalityConfig.WeightOf | src/personalities.ts:70 | a catalog id's default weight, and 0 for an id the weight table lacks (the `|| 0`) |
| PersonalityConfig.CatalogWeights | src/personalities.ts:69-71 | one weight per catalog entry, looked up by that entry's id |
| PersonalityConfig.WeightsCoverCatalog | src/personality-config.ts:187-193 | the weight table has exactly one positive entry per catalog id and no other key |
| PersonalityConfig.WeightsSumToOne | src/personality-config.ts:187-193 | the catalog weights, in catalog order, add up to exactly 1 |
| PersonalityConfig.MediaPreferencesOfOne | src/personality-config.ts:3-185 | one profile's media preferences list all seven kinds in enumeration order, with weights in [0, 1] summing to exactly 1 |
| PersonalityConfig.MediaPreferencesWellFormed | src/personality-config.ts:3-185 | the same for every profile of the catalog |
| PersonalityConfig.CasualFrequentWeightsOk | src/personality-config.ts:13-21 | casual_frequent's media weights are well formed |
| PersonalityConfig.ProfessionalWeightsOk | src/personality-config.ts:50-58 | professional's media weights are well formed |
| PersonalityConfig.NightOwlWeightsOk | src/personality-config.ts:87-95 | night_owl's media weights are well formed |
| PersonalityConfig.MinimalistWeightsOk | src/personality-config.ts:123-131 | minimalist's media weights are well formed |
| PersonalityConfig.SocialButterflyWeightsOk | src/personality-config.ts:158-166 | social_butterfly's media weights are well formed |
| PersonalityConfig.TraitsAreProbabilities | src/personality-config.ts:3-185 | every behaviour trait of every profile lies in [0, 1] |
| PersonalityConfig.VocabulariesNonEmpty | src/personality-config.ts:3-185 | every profile has a non-empty vocabulary |
| PersonalityConfig.ActiveHoursAsWritten | src/personality-config.ts:3-185 | night_owl (20 to 6) is the only window with start > end; every start is an hour 0..23; social_butterfly's end is 24, the only end outside 0..23 |
| Weighted.Walk | src/personalities.ts:67-76 | the running-sum walk from position i stops at the first position whose running sum reaches r, or reports that none does |
| Weighted.FirstReaching | src/personalities.ts:67-76 | the same walk from the start |
| Weighted.StopIsUnique | src/personalities.ts:67-76 | the walk can stop at only one position |
| Weighted.PrefixSumMonotone | src/personalities.ts:69-71 | with non-negative weights the running sum never decreases |
| Weighted.TotalReachedMeansMatch | src/personalities.ts:67-76 | when r is at most the total, the walk stops somewhere and the fallback is not reached |
| Weighted.ZeroWeightNeverChosen | src/personalities.ts:213-215 | for r > 0 the walk never stops at a zero weight |
| Weighted.NormalisedPrefixSum | src/personalities.ts:211-214 | the running sum of weights divided by the total is the running sum divided by the total |
| Personalities.NewManager | src/personalities.ts:8-18 | a new manager holds the whole catalog and no assignments |
| Personalities.FindById | src/personalities.ts:274-276 | the first catalog position with the id, or none when no entry has it |
| Personalities.GetPersonality | src/personalities.ts:100-105 | nothing for an unassigned id; otherwise the catalog profile whose id the store holds, and it exists whenever the stored id is in the catalog |
| Personalities.SelectPersonalityByWeight | src/personalities.ts:65-80 | the first profile whose running weight reaches r; the first profile when none does; nothing exactly when the catalog is empty |
| Personalities.CatalogDrawNeverFallsBack | src/personality-config.ts:187-193 | with the real catalog and r in [0, 1), selection always stops at a profile and never reaches the fallback |
| Personalities.AssignPersonality | src/personalities.ts:43-60 | the id's old entry is dropped; the drawn profile is stored and returned; no other id's entry changes; a failed draw leaves the id unassigned |
| Personalities.AssignThenGet | src/personalities.ts:43-105 | looking up an id right after assigning it gives back exactly the profile the assignment returned |
| Personalities.AssignNew | src/personalities.ts:33-37 | the second loop: every listed id gets an entry on a non-empty catalog, and entries already present are untouched |
| Personalities.AssignPersonalities | src/personalities.ts:23-38 | on a non-empty catalog the keys afterwards are exactly the listed ids; ids already assigned and still listed keep their profile; no unlisted id stays |
| Personalities.GeneratePersonalizedMessage | src/personalities.ts:110-119 | nothing exactly when the id has no profile or an empty vocabulary; otherwise a phrase of that vocabulary |
| Personalities.CatalogMessageAlwaysGenerated | src/personalities.ts:110-119 | every id assigned a catalog profile gets a phrase |
| Personalities.IntervalPosition | src/personalities.ts:133-141 | the biased draw position always lies in [0, 1] |
| Personalities.IntervalFor | src/personalities.ts:130-143 | the interval lies in [min, max] of the frequency when min < max |
| Personalities.CalculateMessageInterval | src/personalities.ts:124-144 | nothing exactly when the id has no profile; otherwise an integer in [min, max] of its frequency |
| Personalities.NearPeakBound | src/personalities.ts:137-143 | in the near-peak branch (second draw < 0.7) the interval is within 0.15 * (max - min) of peak, less one for the floor |
| Personalities.NearPeakPosition | src/personalities.ts:134-141 | in that branch the position is within 0.15 of the normalised peak |
| Personalities.ClampStaysNear | src/personalities.ts:139-140 | clamping the jittered peak to [0, 1] keeps it within 0.15 of a peak in [0, 1] |
| Personalities.IsActiveTime | src/personalities.ts:151-165 | an unassigned id is always active; otherwise start <= hour <= end for a plain window, and hour >= start or hour <= end for one that wraps past midnight |
| Personalities.WindowIsClockArc | src/personalities.ts:159-164 | for hours in 0..23 the window test holds exactly on the clockwise arc from start to end |
| Personalities.CatalogWindows | src/personality-config.ts:180-183 | night_owl is active at 23 and 6 but not at 12 or 7; social_butterfly is active exactly from 6 on, so never at midnight, although the arc from 6 to 24 would include it |
| Personalities.ShouldRespond | src/personalities.ts:172-177 | true for an unassigned id; otherwise true exactly when r is below the response chance |
| Personalities.ShouldInitiateConversation | src/personalities.ts:182-187 | true for an unassigned id; otherwise true exactly when r is below the initiate chance |
| Personalities.ShouldSendMessage | src/personalities.ts:192-199 | true for an unassigned id; otherwise true exactly when r is below the mean of the two chances |
| Personalities.SendBetweenRespondAndInitiate | src/personalities.ts:172-199 | with one draw, responding and initiating both imply sending, and neither implies not sending |
| Personalities.PickKind | src/personalities.ts:208-230 | the first kind whose normalised running weight reaches r, and text when none does; when the weights sum to 0 (each quotient then infinite or NaN), the first kind if its weight is positive and text otherwise |
| Personalities.OverZero | src/personalities.ts:214 | a weight divided by a zero total is +Infinity exactly for a positive weight, and never 0 |
| Personalities.OverZeroNeverRecovers | src/personalities.ts:213-230 | once the running sum over a zero total is -Infinity or NaN, no later kind is reached and the walk ends in the text fallback |
| Personalities.SelectMediaType | src/personalities.ts:204-231 | text for an unassigned id; otherwise the kind picked from its profile's preferences |
| Personalities.NormalisedWalkIsScaledWalk | src/personalities.ts:211-215 | for a positive total, walking the normalised weights with r stops where walking the raw weights with r * total stops |
| Personalities.ZeroWeightKindNeverSelected | src/personalities.ts:213-215 | for r > 0 the kind picked is text or a kind listed with a non-zero weight |
| Personalities.CatalogNeverSelectsLocation | src/personality-config.ts:3-185 | no catalog profile ever picks location for r > 0, since every profile gives it weight 0 |
| Personalities.ListAssignedPersonalities | src/personalities.ts:236-247 | each listed id is assigned, paired with the catalog profile of its stored id; an assigned id is missing only when its stored id is not in the catalog |
| Personalities.ListingIsComplete | src/personalities.ts:236-247 | when every stored id is in the catalog, the listing covers every assigned id |
| Personalities.GetPersonalityStats | src/personalities.ts:252-269 | one row per catalog profile, in catalog order, with its id, name and number of ids assigned to it |
| Personalities.SumCountsIsAssignedTo | src/personalities.ts:252-269 | the counts of the first n rows add up to the number of ids assigned to those n profiles |
| Personalities.StatsCountEveryAssignment | src/personalities.ts:252-269 | with distinct ids and every stored id in the catalog, the counts add up to the number of assigned ids |
| Discovery.GetConnectedInstances | src/index.ts:146-170 | a failed fetch or an unsuccessful reply is an error, not an empty list; otherwise exactly the connected, logged-in entries whose lower-cased name starts with "matura", each as often as the reply lists it, in reply order |
| Discovery.ExtractPhoneFromJid | src/index.ts:175-179 | a prefix of the JID with no ':', ending where the JID ends or at its first ':' |
| Discovery.PhoneRoundTrip | src/index.ts:175-179 | the phone is recovered from phone + ":" + device whenever the phone has no ':' |
| Discovery.FindByToken | src/index.ts:190 | the first instance with the token, or none when no instance has it |
| Discovery.GetPhoneFromToken | src/index.ts:184-201 | "unknown" when the fetch fails or no live instance has the token; otherwise the phone of the first instance that has it |
| Discovery.GetRandomMessage | src/index.ts:105-108 | a phrase of the message dictionary |
| Discovery.ChooseRecipient | src/index.ts:627-630 | a drawn instance, never the sender: the first draw that lands on another id; nothing when every draw lands on the sender |
| Discovery.TwoInstancesAlwaysPickTheOther | src/index.ts:627-630 | with two instances, any recipient chosen is the other one |
| Discovery.ProcessInstanceMessage | src/index.ts:613-655 | a failed fetch skips; fewer than two live instances skip; otherwise the message goes to a live instance other than the sender, with phones taken from both JIDs and a dictionary phrase |
| Draws.Index | src/index.ts:106 | `floor(r * n)` is a position below n |
| Draws.Between | src/index.ts:595 | `floor(r * (hi - lo + 1)) + lo` lies in [lo, hi] |
| Draws.IndexReachesEvery | src/index.ts:106 | every position below n is reached by some draw |
| Sending.KindOfEndpoint | src/index.ts:369-424 | an endpoint read back as a kind is that kind's endpoint |
| Sending.EndpointRoundTrip | src/index.ts:369-424 | every kind's endpoint reads back as the kind |
| Sending.MimeType | src/index.ts:374-405 | the MIME type of each file kind has no ';' |
| Sending.DataUriRoundTrip | src/index.ts:374-405 | a data URI splits back into its MIME type and its base64 data |
| Sending.BuildMediaRequest | src/index.ts:361-424 | a request exists exactly for a file kind with non-empty data, or for location with a location; it goes to the kind's endpoint and phone, carries "MSG_" and the first clock reading as id, the data URI and caption of the kind, a document's file name from the second clock reading, and a location's name defaults to "Location" |
| Sending.Details | src/index.ts:438-445 | begins with "Nome: " and the name for a named location; for a file it is "Legenda: " and the caption when there is one, and otherwise "Arquivo: " and the file name |
| Sending.Rejection | src/index.ts:134-140 | the error a rejected POST is caught with: the thrown error, or for a status outside 2xx an error whose message ends with the status code |
| Sending.SendMediaMessage | src/index.ts:361-455 | succeeds exactly when a request exists and the POST answers 200; text never succeeds and sends nothing; a thrown POST or a status outside 2xx logs the error under "Envio de mídia <kind> para <phone>"; a 2xx answer logs a media entry with its outcome |
| Sending.SendTextMessage | src/index.ts:460-488 | succeeds exactly when the POST answers 200; a 2xx answer logs a text entry with that outcome; a thrown POST or a status outside 2xx logs the error under "Envio de texto para <phone>" |
| Sending.TextLogAgrees | src/index.ts:468-486 | the text log agrees with the returned flag: a 2xx answer's entry opens with [SUCESSO] exactly on success and [FALHA] exactly on failure; a rejected POST never succeeds and logs an error naming the recipient |
| Sending.EmptyContentIsNotSent | src/index.ts:373-412 | empty file data or a missing location never succeeds, and a nameless location is sent as "Location" |
| Sending.RandomMessageSequence | src/index.ts:215-219 | one of the three compositions |
| Sending.RandomMessageType | src/index.ts:206-210 | one of the seven kinds |
| Sending.RandomMediaKind | src/index.ts:506-507 | a kind other than text |
| Sending.PauseMs | src/index.ts:526 | the pause between two sends lies in 5000..14999 ms |
| Sending.DrawsCoverChoices | src/index.ts:506-526 | every composition, every non-text kind and every pause length is drawn by some draw |
| Sending.SendMessage | src/index.ts:493-563 | the composition is announced first and never sends text as media; media_only sends media and returns its result; media_then_text sends the text exactly when the media succeeded and returns the media result; text_then_media is the mirror image; every pause lies in 5000..14999 ms |
| Sending.CompositionShape | src/index.ts:511-552 | one send, or a send, a pause and a different second send when the first succeeded |
| MediaScan.ScanFrom | src/index.ts:300-337 | any span the scan reports ends at a closing '"' inside the buffer |
| MediaScan.ScanItem | src/index.ts:288-351 | the loop over the buffer computes exactly what the recursive scan reads, "" when nothing is found |
| MediaScan.Escape | src/index.ts:307-316 | escaping a string leaves no bare '"' and no dangling '\\' |
| MediaScan.PlainIsWellEscaped | src/index.ts:307-316 | a string without '"' or '\\' is already escaped and escapes to itself |
| MediaScan.BodyKeepsState | src/index.ts:307-331 | inside a string, escaped characters and commas never end the string or count as separators |
| MediaScan.OneElement | src/index.ts:317-326 | the wanted quoted element is reported as exactly its text; an unwanted one is passed over |
| MediaScan.CommaStep | src/index.ts:328-330 | an unquoted comma advances the element count by one |
| MediaScan.NoQuoteNoItem | src/index.ts:300-342 | with no '"' left the scan finds nothing |
| MediaScan.ElementsRoundTrip | src/index.ts:288-342 | from comma count i, the scan finds the element k - i places on when it exists, and "" otherwise |
| MediaScan.RoundTrip | src/index.ts:288-351 | in an encoded array of escaped strings, index k yields the k-th string and any index past the end yields "" |
| MediaScan.PlainRoundTrip | src/index.ts:288-351 | the same for arrays of plain base64 strings |
| Timers.AtMostOneTimeoutPerInstance | src/index.ts:589-607 | in a valid table no two pending timeouts belong to the same instance |
| Timers.NewScheduler | src/index.ts:119-126 | a new scheduler is valid, with no timers and not running |
| Timers.CancelTimer | src/index.ts:589-592 | exactly the instance's pending timeouts are cleared; the rest stay as they were |
| Timers.StartInstanceTimer | src/index.ts:586-608 | the instance's table entry is replaced by a fresh timer with a pending timeout and an interval in [min, max] |
| Timers.StartInstanceTimerCancelsOld | src/index.ts:589-592 | the instance's old timeout is cancelled, and the only new timeout is the fresh one |
| Timers.StartInstanceTimerKeepsOthers | src/index.ts:607 | every other instance's timer and timeout are unchanged |
| Timers.Fire | src/index.ts:599-601 | a fired timeout is gone; its callback runs only while running |
| Timers.Complete | src/index.ts:601-604 | a finished callback re-arms its instance unconditionally, adding it back to the table |
| Timers.StopAllTimers | src/index.ts:660-667 | the table is empty and every timeout it held is cancelled |
| Timers.StopAllTimersIdempotent | src/index.ts:660-667 | stopping all timers twice is stopping them once |
| Timers.Start | src/index.ts:677 | the scheduler is running and its timers are unchanged |
| Timers.Shutdown | src/index.ts:757-760 | the scheduler stops running, and no timer or pending timeout remains |
| Timers.NothingFiresAfterShutdown | src/index.ts:757-760 | after shutdown no timeout is pending |
| Timers.DropDeparted | src/index.ts:690-698 | only live ids stay in the table; a departed id's timeout is cancelled; survivors keep their timer and timeout |
| Timers.StartNew | src/index.ts:700-706 | the table gains exactly the live ids it lacked |
| Timers.StartNewKeeps | src/index.ts:700-706 | existing timers and timeouts are untouched |
| Timers.StartNewFresh | src/index.ts:700-706 | every added timer has a fresh pending timeout |
| Timers.ManageInstances | src/index.ts:680-714 | a failed fetch or fewer than two live instances changes nothing; otherwise the table's keys are exactly the live ids |
| Timers.ManageInstancesLog | src/index.ts:710-713 | an error entry under "Gerenciamento de instâncias" carrying the discovery error exactly when the fetch failed, and no entry otherwise |
| Timers.ReconcileCancelsDeparted | src/index.ts:690-698 | every departed instance's timeout is cancelled |
| Timers.ReconcileKeepsSurvivors | src/index.ts:690-698 | every surviving instance keeps its timer and timeout |
| Timers.ReconcileStartsNew | src/index.ts:700-706 | every new instance gets a fresh pending timeout |
| Timers.ReconcileIsStable | src/index.ts:680-714 | reconciling again against the same live list changes nothing |
| Timers.DropNothingDeparted | src/index.ts:690-698 | when no instance departed, dropping changes nothing |
| Timers.StartNewKnown | src/index.ts:700-706 | when every live instance has a timer, starting changes nothing |
| Timers.RemovedInstanceComesBack | src/index.ts:599-607 | a callback in flight while reconciliation removes its instance puts the instance back with a pending timeout |
| Timers.RearmAfterShutdown | src/index.ts:599-607 | a callback in flight when the timers are stopped sets a new timeout although the scheduler is no longer running |
| Timers.CompleteGuarded | src/index.ts:599-607 | a completion that re-arms only while running and only an instance still in the table keeps the table's keys |
| Timers.GuardedCompletionKeepsReconciliation | src/index.ts:680-714 | with that guard, a completion after reconciliation leaves the keys equal to the live ids, and nothing is pending after shutdown |
| Logger.LogFileNameRoundTrip | src/logger.ts:23-24 | a log file name is recognised as one, and its date reads back |
| Logger.NewLogger | src/logger.ts:13-25 | a new logger is enabled and empty, and writes to logDir + "/messages-" + date + ".log" |
| Logger.SetEnabled | src/logger.ts:30-32 | only the enabled flag changes |
| Logger.ErrorText | src/logger.ts:103 | the error's message when it is non-empty, and its string form otherwise |
| Logger.NatTextRoundTrip | src/logger.ts:79 | the decimal text of a count reads back as the count |
| Logger.Bracketed | src/logger.ts:42 | the text before the first ']' and the rest read back when the text has no ']' |
| Logger.LineRoundTrip | src/logger.ts:42-104 | an entry "[ts] [TAG]" + body reads back as its timestamp, tag and body when neither ts nor tag holds ']' |
| Logger.RenderParses | src/logger.ts:37-107 | every logging method's entry reads back as the timestamp, the method's tag (the upper-cased type for media) and its body |
| Logger.TextEntryStatus | src/logger.ts:41-42 | a text entry opens with [SUCESSO] exactly on success and [FALHA] exactly on failure, and ends with " \| Mensagem: " and the message |
| Logger.MediaEntryDetails | src/logger.ts:55 | a media entry ends with " \| " and the details exactly when there are details, and with the recipient otherwise |
| Logger.ErrorEntryText | src/logger.ts:103-104 | an error entry ends with the error's message when it has one, and with its string form otherwise |
| Logger.Log | src/logger.ts:37-118 | a disabled logger or a failed write leaves the lines alone; otherwise exactly one entry is appended and earlier lines are unchanged |
| Logger.DisabledWritesNothing | src/logger.ts:38-100 | any run of logging calls on a disabled logger writes nothing |
| Logger.FileTextAppend | src/logger.ts:112-114 | appending an entry appends it and one '\n' to the file text |
| Logger.LogAppendsOneLine | src/logger.ts:112-114 | an enabled, successful call grows the file by the entry and one '\n' |
| Logger.FileTextSplits | src/logger.ts:112-114 | the file text splits back into the entries when no entry holds a line break |
| Logger.ListLogFiles | src/logger.ts:145-156 | the names starting "messages-" and ending ".log", in directory order; [] when the directory is missing |
| Logger.OwnFileListed | src/logger.ts:145-156 | the logger's own file is always listed when present |
| LocationScript.Locations | base64_media/location.js:1-40 | four entries: a random point named "Location", then Party, New York and Rio de Janeiro; every entry named and on the globe |
| LocationScript.EveryPointReachable | base64_media/location.js:1-5 | every latitude in [-90, 90) and longitude in [-180, 180) is generated by some draw |
| LocationScript.RandomLocation | src/index.ts:247-248 | the picked location is one of the four, named and on the globe |
| Strings.IndexOf | src/index.ts:178 | the first position of the character, or none when it does not occur |
| Seqs.Filter | src/index.ts:157-162 | exactly the kept elements, each as often as it occurs, in their original order |
| Seqs.FilterDistributes | src/logger.ts:148-149 | filtering a concatenation filters each part |

## Left out

- HTTP calls (axios GET and POST, headers, timeouts) are inputs: a discovery reply with its success flag and list, or an HTTP outcome (a status or a thrown error). The client keeps axios' default status check, so a POST status outside 2xx is treated as a thrown error (`Sending.Answered`). The "AxiosError: " string form of that error is the model's rendering; only its message reaches the log when the message is non-empty.
- File access in `getRandomBase64` is not modelled: existence checks, open, stat and chunked reads. The 100-byte header probe and the comma-count estimate of the item count (src/index.ts:259-286) are also left out. The scanner takes the buffer, the start offset and k directly. The chunking does not matter, because all scan state lives outside the chunk loop.
- The `new Function` evaluation of location.js (src/index.ts:238-244) is replaced by the pure function `LocationScript.Locations`.
- setTimeout, setInterval, awaited sleeps, the 5-minute period, the never-resolving promise, SIGINT and process.exit are not modelled. The timer table records transitions, not time.
- Environment variables and `parseInt` are not modelled. The minimum and maximum intervals are parameters with min <= max; the defaults 40000 and 250000 are constants.
- Math.random's IEEE-754 details are not modelled. Draws and weights are Dafny reals, so sums such as the weight totals are exact. Frequency claims (how often something happens) are not stated; only supports and bounds are.
- `toFixed(6)` and `parseFloat` on the generated coordinates are not modelled; the coordinates are reals.
- Case mapping is ASCII-only, and strings are sequences of characters rather than UTF-16 code units.
- date-fns timestamps and `Date.now()` are not modelled; they are opaque strings passed in. `path.join` normalisation is not modelled: the file path is logDir + "/" + name.
- `getLogContent`, `getLogFilePath` (a field read) and all console output are left out.
- `hashString`, `randomSleep` and the conversation-history helpers (`hasConversation`, `markConversation`) are never called and are left out.
- `logCycleStart` and `logCycleEnd` are formatted (`Logger.Render`) but never called by the scheduler.
- The final `logTextMessage` and `logError` that `processInstanceMessage` writes (src/index.ts:643-653) are not composed into `Discovery.ProcessInstanceMessage`. The entries themselves are modelled by `Logger.Render`.
- Discovery.ChooseRecipient: the source redraws until it lands on another instance, with no bound. The model takes a finite list of draws and reports none when every draw lands on the sender.
- Personalities.ListAssignedPersonalities: the listing is a map from instance id to profile. The Map's insertion order of the source array is not kept.
- Personalities.PickKind: the total weight and the running sums are exact reals. Only a total of exactly 0 takes the IEEE infinity/NaN walk. Rounding that makes a float total differ from the real total is not modelled.
- Personalities.CalculateMessageInterval: requires min < max for every catalog profile (`RangesNonEmpty`), which the catalog meets (`PersonalityConfig.FrequenciesWellFormed`). For a profile with min == max the source returns NaN in the near-peak branch when peak also equals min (0 / 0), and min otherwise. A profile with min > max is not covered either.
- Logger.NewLogger: the `fs.mkdirSync(logDir, { recursive: true })` of src/logger.ts:18-20 is not modelled; the directory is assumed to exist, and a failure to create it (which throws from the constructor) is not covered.
- Personalities.NearPeakBound: stated for the near-peak branch only. The other branch is covered by the [min, max] bound of Personalities.CalculateMessageInterval.
- Timers.Shutdown: the source exits the process right after stopping the timers (src/index.ts:761), so an in-flight callback never outlives it. The model keeps the scheduler state after shutdown so that Timers.RearmAfterShutdown can state what the callback would do.

## Findings

| source | as written | input that shows it | evidently intended | confidence | as-written member | corrected member |
|---|---|---|---|---|---|---|
| src/index.ts:599-607 | a timer callback that is already processing re-arms its instance when it finishes (`startInstanceTimer` at line 603), guarded only by `isRunning` at the start of the callback | instance A's callback is awaiting `processInstanceMessage` when `manageInstances` runs with a live list that lacks A: lines 691-697 clear and delete A's timer, then the callback finishes and line 607 puts A back in the table with a new timeout | reconciliation's removal sticks: a finished callback re-arms only while running and only an instance the table still holds | medium, not executed | Timers.RemovedInstanceComesBack | Timers.GuardedCompletionKeepsReconciliation |
