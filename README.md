# Podflix core, modelled in Dafny

Podflix is a chat application for podcasts, built on Chainlit. Underneath the
user interface, the language-model and the storage glue are a few small
pieces of sequential logic. This project models those pieces and proves what
they promise:

- **Transcript normalisation** (`YouTube`):
  - the WebVTT cue parser `convert_vtt_to_segments` and its timestamp converter
    `_vtt_time_to_seconds`. The parser handles the cue-timing line
    `start --> end`, as defined in section 4 "cue timings" of the W3C WebVTT
    format;
  - the snippet formatter `TranscriptionFormatter.format_transcript(s)`;
  - the video-id regular expression of `fetch_youtube_transcription`.
- **Event relay** (`GraphRunning`): `GraphRunner` folds the events of a graph
  run into two things, the assistant message's content and the last chain-end
  run id.
- **Chat history and login** (`ChainlitGeneral`):
  - the admin password check;
  - rebuilding a chat history from the steps stored with a thread (filter,
    stable sort by `createdAt`, map).
- **Database interfaces** (`DbFactory`):
  - the SQLite and PostgreSQL connection strings;
  - the singleton factory that creates one interface and then keeps returning
    it.
- **Schema manager** (`DbManager`): splitting the SQL file, the decision to
  skip or run, running the statements then committing once, and the
  three-attempt retry. `init_db` and `drop_db` call it.
- **Settings widgets** (`SettingWidgets`, on the field descriptors of
  `PydanticFields`):
  - the map from pydantic fields to Chainlit `Switch`, `Slider` and `Select`
    widgets;
  - the sample `OpenAIChatSettings` model.
- **Configuration** (`EnvConfig`, `PydanticModels`):
  - the validators and defaults of `EnvSettings`;
  - the model choice of `OpenAIChatGenerationSettings`.
- **Environment checks** (`GeneralUtils`): `check_env_vars` and
  `is_module_installed`.
- **Transcript element helpers** (`VideoTranscript`), from the React component
  `VideoWithTranscript`:
  - the `m:ss` timestamp;
  - the download text and its file name;
  - the video id taken from the URL.

Shared helpers:

- `Wrappers`: `Option` and `Result`.
- `Strings`: Python's `strip`, `split`, `join`, `replace` and `title`, and
  decimal spelling.
- `Numbers`: `int()` and `float()` on decimal literals.

Where the source changes state, the model does too:

- The VTT parser, the snippet formatter, the widget loop, the metadata loop,
  the history loop and the statement loop are methods with `while` loops. Each
  is proved equal to a function, which the lemmas then relate to an
  independent reading.
- `GraphRunner`, `Message`, `ChatMessageHistory`, `DatabaseManager` and the
  factory's class attributes are classes whose methods update their fields.

The transcript text keeps the blank after its last segment. Two cues `Hello`
and `World` give `Hello World `, because `youtube.py` appends a blank after
every cue text (line 317) and never strips the result (line 327)
(`YouTube.ParseVttLength`, `YouTube.OneCueTranscript`).

These become parameters:

- the environment;
- the installed modules;
- the graph's event stream;
- the transcript API's `fetch`;
- pydantic's URL parser;
- the URL's `v` query parameter;
- each numbered database connection.

## Model

| member | source | states |
|---|---|---|
| YouTube.TimeOfThreeParts | src/podflix/utils/youtube.py:257-263 | three colon-separated parts that read as int, int, float give hours*3600 + minutes*60 + seconds |
| YouTube.TimeOfTwoParts | src/podflix/utils/youtube.py:264-267 | two colon-separated parts that read as int, float give minutes*60 + seconds |
| YouTube.TimeOfOtherShape | src/podflix/utils/youtube.py:268-269 | a timing with neither two nor three colon-separated parts is read by `float()` as a whole |
| YouTube.TimeErrorOfThreeParts | src/podflix/utils/youtube.py:257-263 | a three-part timing whose hours, minutes or seconds do not read raises the error of the first such field |
| YouTube.TimeErrorOfTwoParts | src/podflix/utils/youtube.py:264-267 | a two-part timing whose minutes or seconds do not read raises the error of the first such field |
| YouTube.TimeToSecondsLongForm | src/podflix/utils/youtube.py:248-263 | a timing `hh:mm:ss.ttt` of digit runs converts to hh*3600 + mm*60 + ss.ttt exactly |
| YouTube.TimeToSecondsShortForm | src/podflix/utils/youtube.py:264-267 | a timing `mm:ss.ttt` of digit runs converts to mm*60 + ss.ttt exactly |
| Numbers.ParseIntDigits | src/podflix/utils/youtube.py:260-261 | `int()` of a non-empty digit string is the number it spells |
| Numbers.ParseIntNegative | src/podflix/utils/youtube.py:260-261 | `int()` of a minus sign and digits is the negated number |
| Numbers.ParseIntRoundTrip | src/podflix/utils/youtube.py:260-261 | `int()` reads back the decimal spelling of every integer |
| Numbers.ParseFloatDecimal | src/podflix/utils/youtube.py:262 | `float()` of `ip.fp` with at least one digit is its exact decimal value |
| YouTube.IsBlankIff | src/podflix/utils/youtube.py:294 | a line counts as blank exactly when `strip()` leaves nothing |
| YouTube.HeaderEndSkipsFiller | src/podflix/utils/youtube.py:287-289 | every line the header loop passes over is empty once stripped and rid of its arrows |
| YouTube.HeaderEndStops | src/podflix/utils/youtube.py:288 | the header loop stops at the end or at the first line that is not filler |
| YouTube.SkipHeader | src/podflix/utils/youtube.py:287-289 | the header loop's index is the first non-filler line |
| YouTube.BodyEndSkipsText | src/podflix/utils/youtube.py:307 | every line of a cue body is neither blank nor holds `-->` |
| YouTube.BodyEndStops | src/podflix/utils/youtube.py:307 | a cue body ends at the end of the input, at a blank line or at the next line with `-->` |
| YouTube.BodyEndStep | src/podflix/utils/youtube.py:307-311 | a body line does not end the body: the body continues from the next line |
| YouTube.ReadCueBody | src/podflix/utils/youtube.py:305-311 | the text loop stops where the body ends and collects each body line stripped and rid of `&nbsp;`, in order |
| YouTube.CueTextStart | src/podflix/utils/youtube.py:313-315 | a cue text never starts with `-` or a blank |
| YouTube.CueAt | src/podflix/utils/youtube.py:299-322 | the segment built for a cue carries the id it was given |
| YouTube.CueAtFields | src/podflix/utils/youtube.py:299-315 | a timing line splits on `-->` into at least two pieces; the cue fails exactly when one of the first two pieces, stripped, does not convert; otherwise start and end are those conversions and the text comes from the body lines |
| YouTube.ReadCue | src/podflix/utils/youtube.py:299-322 | one cue read in place equals the cue of the specification, and reading resumes where its body ends |
| YouTube.ParseCueLines | src/podflix/utils/youtube.py:291-327 | the main loop, with its growing text, segment list and id counter, gives the transcription of the recursive cue reading, or its error |
| YouTube.ConvertVttToSegments | src/podflix/utils/youtube.py:273-327 | the imperative parser returns exactly the specified transcription or error |
| YouTube.ArrowLinesMembers | src/podflix/utils/youtube.py:299 | the reference index list holds exactly the lines from `i` on that contain `-->` |
| YouTube.ArrowLinesIncreasing | src/podflix/utils/youtube.py:292 | the reference index list is strictly increasing |
| YouTube.ArrowLinesAreCueTimings | src/podflix/utils/youtube.py:299 | every listed line is a cue-timing line |
| YouTube.CuesLength | src/podflix/utils/youtube.py:319-322 | the reference reading has one cue per listed arrow line |
| YouTube.CueNth | src/podflix/utils/youtube.py:291-322 | the n-th reference cue is read from the n-th arrow line and numbered id + n |
| YouTube.BlankHasNoArrow | src/podflix/utils/youtube.py:294-299 | a blank line never holds `-->` |
| YouTube.NoArrowsInBody | src/podflix/utils/youtube.py:307 | no line of a cue body holds `-->`, so the arrow lines after a body are those after its start |
| YouTube.ParseCuesByArrows | src/podflix/utils/youtube.py:292-325 | the parsing loop yields the cues of all the arrow lines after the header, in order; blank and other lines yield nothing |
| YouTube.ParseVttLength | src/podflix/utils/youtube.py:317-327 | a successful parse has one segment per arrow line after the header, and its text is every segment text followed by one blank, never stripped |
| YouTube.ParseVttSegment | src/podflix/utils/youtube.py:291-322 | the n-th segment has id n and is the cue read from the n-th arrow line |
| YouTube.ParseVttFails | src/podflix/utils/youtube.py:299-302 | the parser raises exactly when some arrow line's timing does not convert |
| YouTube.TimingLine | src/podflix/utils/youtube.py:285-298 | a line `a --> b` whose times hold no dash, `&`, newline or surrounding whitespace holds a cue timing, splits at its arrow into `a ` and ` b`, and is not skipped as header |
| YouTube.PlainCueText | src/podflix/utils/youtube.py:307-316 | a single body line without dash, `&` or surrounding whitespace is the cue text unchanged |
| YouTube.OneLineCue | src/podflix/utils/youtube.py:297-321 | a cue of such a timing line and one such text line, followed by a blank line or the end, is the segment of the two converted times and that line, and its body ends after the line |
| YouTube.LinesOfJoin | src/podflix/utils/youtube.py:282 | content joined from newline-free lines, without whitespace at either end, splits back into those lines |
| YouTube.OneCueTranscript | src/podflix/utils/youtube.py:282-327 | the transcript `a --> b` newline `w` is one segment numbered 0 from a to b with text `w`, and its text is `w` followed by a blank |
| YouTube.LineOfContent | src/podflix/utils/youtube.py:284 | an arrow in one of the split lines is an arrow in the content |
| YouTube.NoArrowNoSegments | src/podflix/utils/youtube.py:283-327 | content without `-->` gives empty text and no segments |
| YouTube.PrependNothing | src/podflix/utils/youtube.py:319-321 | when nothing is put in front, the result of the remaining cues is unchanged |
| YouTube.PrependTwice | src/podflix/utils/youtube.py:319-321 | segments appended in two batches are the same as one batch |
| YouTube.Mapped | src/podflix/utils/youtube.py:309-310 | the cleaned body has one line per body line, each line cleaned |
| YouTube.SnippetSegmentsNth | src/podflix/utils/youtube.py:53-66 | one segment per snippet; the n-th has id n, the snippet's start, end start + duration and the stripped text |
| YouTube.SnippetSegmentsStep | src/podflix/utils/youtube.py:59-66 | each loop step appends the segment of the next snippet |
| YouTube.SpacedTextStep | src/podflix/utils/youtube.py:68 | each loop step appends the text and one blank |
| YouTube.SpacedTextJoin | src/podflix/utils/youtube.py:68 | texts each followed by a blank are the texts joined by blanks plus one trailing blank |
| YouTube.FormattedTextIsJoin | src/podflix/utils/youtube.py:68-73 | the formatted full text is the segment texts joined by blanks, then stripped |
| YouTube.SegmentTexts | src/podflix/utils/youtube.py:68 | one text per segment |
| YouTube.FormatTranscript | src/podflix/utils/youtube.py:38-73 | the formatting loop returns the specified transcription |
| YouTube.FormatTranscripts | src/podflix/utils/youtube.py:75-89 | one transcription per transcript, in order, each formatted on its own |
| YouTube.MatchAt | src/podflix/utils/youtube.py:108 | where the pattern matches, eleven id characters follow its `v=` or `/` |
| YouTube.SearchFrom | src/podflix/utils/youtube.py:108 | the search returns a position at or after its start where the pattern matches |
| YouTube.SearchFromLeftmost | src/podflix/utils/youtube.py:108 | a match at `q` means the search from any earlier start succeeds, at `q` or before |
| YouTube.SearchFromFirst | src/podflix/utils/youtube.py:108 | nothing matches before the position the search returns |
| YouTube.VideoIdFound | src/podflix/utils/youtube.py:108-109 | a found id is the eleven `[a-zA-Z0-9_-]` characters right after the leftmost `v=` or `/` that starts a match |
| YouTube.VideoIdMatchIff | src/podflix/utils/youtube.py:108-109 | the search succeeds exactly when the pattern matches somewhere; otherwise the input is the id, unchanged |
| YouTube.BareIdUnchanged | src/podflix/utils/youtube.py:109 | a string made only of id characters, such as a bare id, is returned unchanged |
| YouTube.FetchYoutubeTranscription | src/podflix/utils/youtube.py:92-115 | the result is the formatted transcript fetched for the extracted id |
| GraphRunning.Message.constructor | src/podflix/utils/graph_runner.py:21 | the message starts with the given content |
| GraphRunning.Message.StreamToken | src/podflix/utils/graph_runner.py:104-106 | a streamed token is appended to the content |
| GraphRunning.GraphRunner.constructor | src/podflix/utils/graph_runner.py:14-40 | the runner keeps its arguments, and `run_id` starts as `None` |
| GraphRunning.TokenAppendedIff | src/podflix/utils/graph_runner.py:97-106 | an event appends text exactly when it is a stream event of a listed node with a non-empty chunk, and then appends that chunk |
| GraphRunning.OtherEventsNeutral | src/podflix/utils/graph_runner.py:94-112 | events of other kinds change neither the content nor the run id |
| GraphRunning.TokensAppend | src/podflix/utils/graph_runner.py:64-69 | the text of two runs of events is the first run's text followed by the second's |
| GraphRunning.TokensSilent | src/podflix/utils/graph_runner.py:95-99 | stream events of unlisted nodes, or without a node, leave the message as it is |
| GraphRunning.TokensAreStreamedChunks | src/podflix/utils/graph_runner.py:64-106 | the message text is the chunks of the stream events of listed nodes, concatenated in event order |
| GraphRunning.RelayExample | src/podflix/utils/graph_runner.py:95-106 | `Hel` and `lo` from the listed node `generate` are relayed around `X` from `retrieve`, which is not: the text is `Hello` |
| GraphRunning.RunIdKeptWithoutChainEnd | src/podflix/utils/graph_runner.py:109-111 | without a chain end the run id stays as it was |
| GraphRunning.RunIdOfLastChainEnd | src/podflix/utils/graph_runner.py:109-111 | the last chain end's id, absent or not, is the final run id |
| GraphRunning.GraphRunner.StreamLlmResponse | src/podflix/utils/graph_runner.py:71-112 | one event appends its token to the message and updates the run id on a chain end |
| GraphRunning.GraphRunner.RunGraph | src/podflix/utils/graph_runner.py:42-69 | the final content is the initial content followed by every forwarded token in event order; the run id is that of the last chain end |
| ChainlitGeneral.SimpleAuthCallbackIff | src/podflix/utils/chainlit_utils/general.py:18-43 | login succeeds exactly for the configured name and password, and yields a user named by the username with role admin and provider credentials; otherwise it fails with `Invalid credentials` |
| ChainlitGeneral.ChatStepsMembers | src/podflix/utils/chainlit_utils/general.py:66-71 | a step survives the filter exactly when it is a user or assistant message |
| ChainlitGeneral.ChatStepsAllChat | src/podflix/utils/chainlit_utils/general.py:66-71 | only chat steps survive, and no more steps than were given |
| ChainlitGeneral.ChatStepsSnoc | src/podflix/utils/chainlit_utils/general.py:66-71 | a step appended to the thread is appended to the filtered list exactly when it is a user or assistant message |
| ChainlitGeneral.ChatStepsAppend | src/podflix/utils/chainlit_utils/general.py:66-71 | the filtered thread is the concatenation of its filtered stretches, so the kept steps stay in thread order |
| ChainlitGeneral.ChatStepsWithKey | src/podflix/utils/chainlit_utils/general.py:66-71 | keeping the chat steps and then those of one `createdAt` gives the same list, in the same order, as the other way round |
| ChainlitGeneral.TiesInThreadOrder | src/podflix/utils/chainlit_utils/general.py:52-73 | after sorting, the chat steps sharing a `createdAt` appear in the order they have in the thread |
| ChainlitGeneral.InsertPermutes | src/podflix/utils/chainlit_utils/general.py:66-73 | an insertion adds exactly the inserted step |
| ChainlitGeneral.InsertHead | src/podflix/utils/chainlit_utils/general.py:66-73 | an insertion adds one element, and its first element is the new step or the old first one |
| ChainlitGeneral.InsertSorted | src/podflix/utils/chainlit_utils/general.py:66-73 | inserting into a sorted list keeps it ordered by `createdAt` |
| ChainlitGeneral.WithKeySnoc | src/podflix/utils/chainlit_utils/general.py:72 | the steps with a given key in a list extended by one step are the old ones plus that step if it has the key |
| ChainlitGeneral.InsertStable | src/podflix/utils/chainlit_utils/general.py:66-73 | an inserted step goes after the steps with its key already present |
| ChainlitGeneral.SortSorted | src/podflix/utils/chainlit_utils/general.py:66-73 | the sort result is ordered by `createdAt` |
| ChainlitGeneral.SortPermutes | src/podflix/utils/chainlit_utils/general.py:66-73 | the sort result is a permutation of its input |
| ChainlitGeneral.SortStable | src/podflix/utils/chainlit_utils/general.py:66-73 | steps that share a `createdAt` keep their original order |
| ChainlitGeneral.ToMessagesNth | src/podflix/utils/chainlit_utils/general.py:75-79 | one message per chat step: a human message for a user step, an AI message for an assistant step, with the step's output |
| ChainlitGeneral.HistoryOrdered | src/podflix/utils/chainlit_utils/general.py:46-81 | the history has one message per surviving step, and its n-th message is the n-th step in sorted order |
| ChainlitGeneral.ChatMessageHistory.constructor | src/podflix/utils/chainlit_utils/general.py:63 | a new history is empty |
| ChainlitGeneral.ChatMessageHistory.AddUserMessage | src/podflix/utils/chainlit_utils/general.py:77 | a human message with the content is appended |
| ChainlitGeneral.ChatMessageHistory.AddAiMessage | src/podflix/utils/chainlit_utils/general.py:79 | an AI message with the content is appended |
| ChainlitGeneral.CreateMessageHistoryFromDbThread | src/podflix/utils/chainlit_utils/general.py:46-81 | the loop builds a new history holding exactly the specified messages |
| DbFactory.SchemeSplit | src/podflix/db/db_factory.py:74-82 | a scheme without `:` followed by `://` is read back as the URL's scheme, and the rest as what follows it |
| DbFactory.SharedRest | src/podflix/db/db_factory.py:74-116 | a sync URL and its `+driver` async URL have their own schemes and the same text after `://` |
| DbFactory.ConnectionsSharePath | src/podflix/db/db_factory.py:60-116 | for both databases the two URLs agree after the scheme and end in the connection path; the async scheme is the sync one plus its driver |
| DbFactory.SqliteConnections | src/podflix/db/db_factory.py:66-82 | the SQLite URLs are `sqlite:///` and `sqlite+aiosqlite:///` followed by the same path |
| DbFactory.PostgresConnections | src/podflix/db/db_factory.py:108-116 | the PostgreSQL URLs are `postgresql://` and `postgresql+asyncpg://` followed by the connection path |
| DbFactory.PostgresPathFields | src/podflix/db/db_factory.py:94-100 | the path `user:password@host:port/db` gives back the user and password when they hold no separator |
| DbFactory.NewInterfaceKindIff | src/podflix/db/db_factory.py:143-151 | only `sqlite` and `postgres` name an interface; SQLite gets the given path; anything else is the `ValueError` naming the type |
| DbFactory.DbInterface.constructor | src/podflix/db/db_factory.py:56-58 | an interface keeps its database kind |
| DbFactory.DbInterfaceFactoryClass.constructor | src/podflix/db/db_factory.py:122-123 | both class attributes start as `None` |
| DbFactory.DbInterfaceFactoryClass.New | src/podflix/db/db_factory.py:125-128 | the first call creates the instance and every later call returns that same instance |
| DbFactory.DbInterfaceFactoryClass.Create | src/podflix/db/db_factory.py:131-152 | a cached interface is returned whatever the arguments; otherwise a new one is built and cached; an unknown type raises and caches nothing |
| DbManager.ReadSqlFileStatements | src/podflix/db/db_manager.py:69 | no returned statement is empty, holds `;` or has surrounding whitespace |
| DbManager.StrippedStatementsKeep | src/podflix/db/db_manager.py:69 | pieces that are already statements are kept as they are |
| DbManager.ReadSqlFileJoin | src/podflix/db/db_manager.py:68-69 | statements joined by `;` are read back as the same statements in the same order |
| DbManager.ReadSqlFileSingle | src/podflix/db/db_manager.py:69 | a file without `;` gives its stripped text, or nothing when it is blank |
| DbManager.TableExistsIff | src/podflix/db/db_manager.py:91-110 | the check yields true exactly when the query's scalar is truthy; only errors other than `OperationalError` and `ProgrammingError` escape it |
| DbManager.RunStatementsStops | src/podflix/db/db_manager.py:153-158 | the statements run in order up to and including the first failing one, and that failure is raised |
| DbManager.SkipWhenInitialized | src/podflix/db/db_manager.py:142-144 | with `check_exists` and the table present, nothing is executed or committed |
| DbManager.SkipWhenNothingToDrop | src/podflix/db/db_manager.py:146-148 | without `check_exists` and with no table, nothing is executed or committed |
| DbManager.AttemptCompletes | src/podflix/db/db_manager.py:151-160 | when every statement succeeds, all run in file order and one commit follows them |
| DbManager.AttemptStopsAtFailure | src/podflix/db/db_manager.py:153-158 | a failing statement is raised at once: later statements never run and nothing is committed |
| DbManager.AttemptCommits | src/podflix/db/db_manager.py:140-160 | an attempt commits once if it completes and never otherwise |
| DbManager.RunStatementsErrorSticks | src/podflix/db/db_manager.py:156-158 | once a statement has failed, the statements after it change nothing |
| DbManager.RetryingUnfold | src/podflix/db/db_manager.py:112-119 | the actions are those of the attempt followed by those of the later attempts; a non-`OperationalError` outcome decides at once |
| DbManager.RetryingBounded | src/podflix/db/db_manager.py:113 | only attempts up to the third matter |
| DbManager.RetryingExhaustedIff | src/podflix/db/db_manager.py:113-115 | the retry gives up exactly when every remaining attempt raised an `OperationalError` |
| DbManager.RetryingCommitsOnce | src/podflix/db/db_manager.py:112-160 | if each attempt commits once exactly when it completes, so does the whole retried run |
| DbManager.ExecuteNoRetry | src/podflix/db/db_manager.py:115 | errors other than `OperationalError` are not retried: the first attempt decides |
| DbManager.ExecuteBounded | src/podflix/db/db_manager.py:113 | only connections 1 to 3 are ever opened |
| DbManager.ExecuteExhaustedIff | src/podflix/db/db_manager.py:112-119 | `execute_sql_file` gives up exactly when all three attempts raised an `OperationalError` |
| DbManager.ExecuteCommitsOnce | src/podflix/db/db_manager.py:112-160 | across all attempts the database is committed at most once, and exactly once when the run completes |
| DbManager.DatabaseManager.constructor | src/podflix/db/db_manager.py:48-51 | the retry settings are stored and the engine is created on the interface's synchronous URL |
| DbManager.DatabaseManager.RunAll | src/podflix/db/db_manager.py:153-158 | the statement loop sends the statements up to the first failure and returns that failure |
| DbManager.DatabaseManager.ExecuteOnce | src/podflix/db/db_manager.py:140-160 | one attempt sends and returns exactly what the attempt specification says |
| DbManager.DatabaseManager.ExecuteFrom | src/podflix/db/db_manager.py:112-119 | the attempts from a given number on send and return what the retry specification says |
| DbManager.DatabaseManager.ExecuteSqlFile | src/podflix/db/db_manager.py:112-161 | the decorated method sends and returns what the whole specification says |
| DbManager.InitializeDb | src/podflix/db/init_db.py:8-15 | initialisation runs the init script with `check_exists` set |
| DbManager.DropDb | src/podflix/db/drop_db.py:8-15 | dropping runs the drop script with `check_exists` unset |
| SettingWidgets.LabelIsSpacedId | src/podflix/utils/chainlit_utils/setting_widgets.py:33-34 | the label is the prefix and the id with its underscores shown as spaces |
| SettingWidgets.MinIsLastGe | src/podflix/utils/chainlit_utils/setting_widgets.py:48-50 | the minimum is the `ge` of the last constraint that has one |
| SettingWidgets.MinWithoutGe | src/podflix/utils/chainlit_utils/setting_widgets.py:44-50 | without any `ge` the minimum stays `None` |
| SettingWidgets.MaxIsLastLe | src/podflix/utils/chainlit_utils/setting_widgets.py:48-52 | the maximum is the `le` of the last constraint that has `le` and no `ge` |
| SettingWidgets.MaxWithoutLe | src/podflix/utils/chainlit_utils/setting_widgets.py:45-52 | without such a constraint the maximum stays `None` |
| SettingWidgets.BoundedField | src/podflix/utils/chainlit_utils/setting_widgets.py:48-56 | `ge=x, le=y` gives the bounds x and y, and a bound of 0 is kept rather than defaulted |
| SettingWidgets.ExtractBounds | src/podflix/utils/chainlit_utils/setting_widgets.py:44-52 | the metadata loop computes the specified bounds |
| SettingWidgets.WidgetForCases | src/podflix/utils/chainlit_utils/setting_widgets.py:27-83 | case by case: bool gives a switch; int or float gives a slider with default bounds -100 and 32000 and step 0.1 or 1; other fields give a select exactly when their first choice is a string; id and label as above |
| SettingWidgets.SelectWidget | src/podflix/utils/chainlit_utils/setting_widgets.py:70-83 | a field whose first choice is a string becomes a select over its choices, starting at its value |
| SettingWidgets.NoWidget | src/podflix/utils/chainlit_utils/setting_widgets.py:70 | a field that is neither a flag nor a number and has no choices gets no widget |
| SettingWidgets.WidgetForFails | src/podflix/utils/chainlit_utils/setting_widgets.py:71-72 | only an empty list of choices makes a field's mapping raise |
| SettingWidgets.FieldWidget | src/podflix/utils/chainlit_utils/setting_widgets.py:27-83 | the loop body computes the specified widget, no widget or error |
| SettingWidgets.FirstWithoutDefault | src/podflix/utils/chainlit_utils/setting_widgets.py:22 | there is no field without a default exactly when every field has one |
| SettingWidgets.CollectedFrom | src/podflix/utils/chainlit_utils/setting_widgets.py:26-85 | what a successful collecting loop returns comes from distinct inputs, in order, and no value is left out |
| SettingWidgets.WidgetsFromFields | src/podflix/utils/chainlit_utils/setting_widgets.py:26-85 | at most one widget per field, in declaration order, and every field that has a widget is represented |
| SettingWidgets.CollectedSucceeds | src/podflix/utils/chainlit_utils/setting_widgets.py:26 | a collecting loop completes exactly when no input raises |
| SettingWidgets.WidgetsFromSucceeds | src/podflix/utils/chainlit_utils/setting_widgets.py:26-83 | the field loop completes exactly when no field's mapping raises |
| SettingWidgets.CollectedFails | src/podflix/utils/chainlit_utils/setting_widgets.py:26 | once the loop has raised, the rest of the fields change nothing |
| SettingWidgets.ConvertSucceedsIff | src/podflix/utils/chainlit_utils/setting_widgets.py:10-85 | conversion fails exactly when a field has no default or has an empty list of choices; a missing default is reported first |
| SettingWidgets.ConvertPydanticModelToChainlitSettings | src/podflix/utils/chainlit_utils/setting_widgets.py:10-85 | the method returns the specified widget list or error |
| SettingWidgets.OpenAIChatSettingsChoices | src/podflix/utils/chainlit_utils/setting_widgets.py:91-129 | the model field is a select over the three models, starting at one of them; the `Literal` response format gets no widget |
| SettingWidgets.OpenAIChatSettingsSwitches | src/podflix/utils/chainlit_utils/setting_widgets.py:96-135 | the three flags become switches |
| SettingWidgets.OpenAIChatSettingsSamplingSliders | src/podflix/utils/chainlit_utils/setting_widgets.py:97-114 | temperature, top_p and the two penalties become sliders over their bounds in steps of 0.1 |
| SettingWidgets.OpenAIChatSettingsIntegerSliders | src/podflix/utils/chainlit_utils/setting_widgets.py:100-126 | max_tokens, seed, n and logit_bias become sliders over their bounds in steps of 1 |
| EnvConfig.AllowedValuesIff | src/podflix/env_settings.py:26-46 | the check succeeds exactly for an allowed value, and returns it unchanged |
| EnvConfig.HttpUrlTrimmed | src/podflix/env_settings.py:19-23 | a URL setting is the parsed URL without its trailing slashes, and so does not end in `/` |
| EnvConfig.UrlEndsWithoutSlash | src/podflix/env_settings.py:22 | a validated URL never ends in `/` |
| EnvConfig.ValidateOpenaiKeyIff | src/podflix/env_settings.py:95-103 | the key check fails exactly when the API is enabled and no key is given; otherwise the value is unchanged |
| EnvConfig.BuildSettingsValid | src/podflix/env_settings.py:75-113 | validated settings have an allowed app type, a key and the OpenAI endpoint when the API is enabled, and URLs without a trailing `/` |
| EnvConfig.BuildSettingsModelApiBase | src/podflix/env_settings.py:105-113 | the model API base is the OpenAI endpoint when the API is enabled, and otherwise the given URL, trimmed |
| EnvConfig.BuildSettingsNeedsKey | src/podflix/env_settings.py:80-103 | with the API enabled and no key, the settings are rejected with the key error, whatever else is given |
| EnvConfig.BuildSettingsDefaults | src/podflix/env_settings.py:75-91 | unset fields with defaults take them: app type `mock`, user and password `admin`, both flags off, timeout 30 |
| EnvConfig.BuildSettingsAppType | src/podflix/env_settings.py:75 | an app type outside `base_chat`, `mock` and `audio` is rejected |
| PydanticModels.ModelChoice | src/podflix/utils/pydantic_models.py:8-19 | with the API enabled, the three OpenAI models are offered and `gpt-4o-mini` is the default; otherwise only the configured model is offered, and it is the default |
| PydanticModels.DefaultIsAvailable | src/podflix/utils/pydantic_models.py:8-29 | the default model is always one of the available models |
| PydanticModels.StrValues | src/podflix/utils/pydantic_models.py:28 | each model name becomes a string value, in order |
| PydanticModels.ChoiceDefaults | src/podflix/utils/pydantic_models.py:25-61 | the model and response-format defaults are among their choices, and the first model choice is a string |
| PydanticModels.BoundedDefaults | src/podflix/utils/pydantic_models.py:30-56 | every bounded field's default lies within its `ge` and `le` |
| GeneralUtils.FirstUnsetIff | src/podflix/utils/general.py:34-36 | there is no unset variable exactly when all are set; otherwise the one found is unset and all before it are set |
| GeneralUtils.CheckEnvVarsIff | src/podflix/utils/general.py:10-36 | `None` passes; a list passes exactly when every variable is set, even to the empty string; otherwise the message names the first unset one |
| GeneralUtils.IsModuleInstalled | src/podflix/utils/general.py:39-68 | true for an installed module; for a missing one, false, or the `ImportError` message when asked to raise |
| GeneralUtils.IsModuleInstalledAgrees | src/podflix/utils/general.py:61-68 | a result never disagrees with the installed modules, and an error only comes when asked for |
| VideoTranscript.FloorShift | configs/chainlit/public/elements/VideoWithTranscript.jsx:50-51 | shifting by a whole number shifts the floor by that number |
| VideoTranscript.TimestampFields | configs/chainlit/public/elements/VideoWithTranscript.jsx:50-52 | for a time that is not negative, the seconds lie in 0..59 and minutes*60 + seconds = floor(time) |
| VideoTranscript.TwoDigits | configs/chainlit/public/elements/VideoWithTranscript.jsx:52 | seconds up to 59 are padded to exactly two digits that spell them |
| VideoTranscript.FormatTimestampReadsBack | configs/chainlit/public/elements/VideoWithTranscript.jsx:49-53 | the timestamp is the minutes, a colon and two digits, and reading them back gives floor(time) |
| VideoTranscript.DownloadLines | configs/chainlit/public/elements/VideoWithTranscript.jsx:57 | one `[m:ss] text` line per segment, in order |
| VideoTranscript.DownloadContentLines | configs/chainlit/public/elements/VideoWithTranscript.jsx:56-58 | when no text holds a newline, the download splits back into exactly one line per segment |
| VideoTranscript.DownloadContentEnds | configs/chainlit/public/elements/VideoWithTranscript.jsx:58 | the download ends with the last segment's line, not with a newline |
| VideoTranscript.LinesEndWith | configs/chainlit/public/elements/VideoWithTranscript.jsx:58 | a join of one or more pieces ends with its last piece |
| VideoTranscript.TrailingRun | configs/chainlit/public/elements/VideoWithTranscript.jsx:65 | the longest run at the end of a name that holds no `.` or `/` |
| VideoTranscript.ExtensionStartIff | configs/chainlit/public/elements/VideoWithTranscript.jsx:65 | the extension found is exactly where `/\.[^/.]+$/` can match, and none is found exactly when it cannot |
| VideoTranscript.BaseFileNameRemovesExtension | configs/chainlit/public/elements/VideoWithTranscript.jsx:65 | a name keeps everything before its final extension, or stays whole when it has none |
| VideoTranscript.DownloadName | configs/chainlit/public/elements/VideoWithTranscript.jsx:65-66 | the download name ends with `.txt` after the base name |
| VideoTranscript.DownloadNameKeepsInnerDots | configs/chainlit/public/elements/VideoWithTranscript.jsx:65-66 | `a.b.mp3` becomes `a.b.txt` |
| VideoTranscript.DownloadNameWithoutExtension | configs/chainlit/public/elements/VideoWithTranscript.jsx:65-66 | `a` becomes `a.txt` |
| VideoTranscript.SecondPieceBetween | configs/chainlit/public/elements/VideoWithTranscript.jsx:16-18 | `split(marker)[1]` exists exactly when the marker occurs, and is the text between its first and second occurrences |
| VideoTranscript.VideoIdFirstTruthy | configs/chainlit/public/elements/VideoWithTranscript.jsx:15-18 | the id is the first non-empty candidate among the `v` parameter and the three splits; with none, it is the last candidate |
| VideoTranscript.SecondPieceAfter | configs/chainlit/public/elements/VideoWithTranscript.jsx:16-18 | after a marker that occurs once, the piece is the rest of the URL |
| VideoTranscript.ShortLinkId | configs/chainlit/public/elements/VideoWithTranscript.jsx:15-16 | a `youtu.be/` link without a `v` parameter gives the text after the marker |

## Left out

- The remaining operations are not part of this model, because they are framework, library or network glue:
  - in `chainlit_utils/general.py`: `set_extra_user_session_params` and `get_current_chainlit_thread_id`;
  - in `youtube.py`: `download_youtube_audio`, `get_youtube_info` and `download_youtube_subtitles`;
  - logging everywhere;
  - the UI, graph, model, storage and data-layer files.
- Floating point: seconds, slider bounds, snippet times and the element's arithmetic are exact reals. IEEE rounding is not modelled.
- `int()` and `float()` accept only decimal literals: surrounding whitespace, an optional sign, digits and, for `float()`, an optional fraction. Underscores, non-ASCII digits, exponents, `inf` and `nan` are not modelled.
- The header loop of `convert_vtt_to_segments` skips only lines that are empty after stripping and removing `-->`. A `WEBVTT` line is not such a line: it is passed over by the main loop's branch for non-timing lines. The model does the same.
- `ChainlitGeneral.SortByCreatedAt`: Python's `sorted` is modelled as a stable insertion sort on an integer `createdAt`. Any stable sort gives the same result, and the proofs need only a total order.
- `TranscriptionFormatter` receives the snippets (text, start, duration) of a fetched transcript. The transcript API's network fetch is the parameter `fetch`.
- `GraphRunner`: the graph, its `astream_events` stream, the runnable configuration and the callbacks are foreign. The events arrive as a sequence, and `async` ordering is the sequence order.
- `EnvConfig`: pydantic's `AnyHttpUrl` validation and normalisation are the parameter `parseUrl`. Reading the environment and the `.env` file, case-insensitivity and type coercion are not modelled.
- `EnvConfig`: all field errors are reported together, in field order. Pydantic's exact error messages are not modelled.
- `env_settings.py` declares no `sqlalchemy_db_type` or `postgres_*` fields, although `db_factory.py` and `db_manager.py` read them. The model passes them as parameters (`dbType`, `PostgresSettings`).
- `DbFactory`: `Path(db_path)` normalisation, the `mkdir` of the SQLite directory, `check_db_connection` and engine creation are not modelled. The SQLite path is used as given.
- `DbFactory.DbInterfaceFactoryClass.Create`: the default argument `db_path="db.sqlite"` is not modelled, because Dafny methods have no default arguments. Callers pass the path, and `"db.sqlite"` is what a caller passes to match a call without one.
- `DbManager.DatabaseManager.constructor`: the interface `iface` and the database type `dbType` are separate parameters. In the source they come from two reads: the factory's cached interface and `sqlalchemy_db_type` read again later. The model keeps them independent, so callers that want the two to agree must take both from the same settings.
- `DbManager`: SQL semantics and the engine are abstract.
  - Each numbered attempt opens a connection described by a `Session`. It says whether connecting fails, what the table query yields, which statements fail and whether commit fails.
  - Reading the SQL file from disk is not modelled; the model starts from its text.
  - `operation_name` only appears in log lines and is not modelled.
- `DbManager`: tenacity's exponential wait is not modelled. After the third failed attempt, tenacity's `RetryError` appears as the outcome `RetriesExhausted`. `max_retries` and `retry_delay` are stored but do not affect the bound, as in the source.
- `SettingWidgets`: pydantic introspection becomes a list of field descriptors (name, annotation, default, description, constraints, choices).
  - `model_class()` validation is reduced to one check: every field has a default. The first field without one is reported.
  - The Chainlit widget objects and `cl.ChatSettings` become plain values.
- `SettingWidgets.GetOpenAIChatSettings`: the widget list of the sample model is described field by field, by the `OpenAIChatSettings*` lemmas. No lemma states the whole list at once.
- `Strings.Title`: `str.title()` is modelled on ASCII letters only. Other characters count as uncased, so non-ASCII letters are neither changed nor start a word.
- `YouTube.IsBlank` is "all whitespace". IsBlankIff proves this is the same as `strip() == ""`.
- `VideoTranscript`: `new URL(...)` is abstract; the `v` query parameter is given as `vParam`. An invalid URL makes the constructor throw, and that case is not modelled. The iframe `postMessage` calls, the `Blob` download and React state are not modelled.
- `GeneralUtils.CheckEnvVars` reads the environment and never writes it: it is a function of the environment map.
