# message-store-uploader, modelled in Dafny

A model of the command-line bridge in `DemoApplication.java`. At start-up it picks one of two
pipelines from a `--mode=` argument:

- **Upload** lists the `.txt` files of the source folder and POSTs each one to the conversion
  service. For every 2xx response it writes the response body into the destination folder,
  under the same stem with a `.json` extension.
- **Enqueue** lists the `.json` files of the destination folder and reads each one. It wraps the
  text in a six-field envelope and sends the envelope to the configured queue.

The modules follow the program's parts:

- `Mode`: `getModeFromArgs` (a stream filter / map / findFirst / orElse) and the two-way branch
  in `run`. `Strings` models `startsWith`, `endsWith` and `equalsIgnoreCase`.
- `FileNames`: the two rewrites, `\.txt$` to `.json` and `\.json$` removed. Both are plain
  suffix replacement.
- `Envelope`: the envelope as a `map<string, string>` with the keys `sourceSystem`,
  `destinationAddress`, `messageId`, `correlationId`, `messageRenderTechnology` and `payload`.
- `Upload` and `Enqueue`: each pipeline as a function of the folder state and of the outcomes of
  its external calls. The lemmas state what the loops guarantee.
- `Application`: the class `App`. Its field `destination` is the destination folder (file name
  to text). Upload writes it and enqueue reads it. Its field `outbox` is the sequence of
  messages handed to the broker. The two loop methods are proved equal to the `Upload` and
  `Enqueue` functions. `Run` performs the dispatch.

The external calls become parameters:

- A directory listing is an `Option<seq<string>>`. `None` means `listFiles` returned null. The
  order of the sequence is the listing order, which the program does not control.
- The POST is a function from file name to `Response(status, body)` or `PostThrew`. The body is
  an `Option` because a 2xx response can arrive without one.
- A failing write, read or send is a predicate on the file name.
- `Files.readString` (line 120) is `Enqueue.ReadFile`: the file's text in the `destination`
  map, or nothing when the name is missing or the read fails. What a failed read does to the
  loop is stated by `Enqueue.FailedFileSkipped`, and what a successful one sends by
  `Enqueue.EnqueueDelivers`.

The error structure follows the code. In upload, most per-file failures let the loop go on,
but two of them are not caught and end the run:

- In upload, a non-2xx response takes the `else` branch (lines 94-95), and an `IOException`
  from the `FileWriter` is caught (lines 91-93). In both cases the loop goes on with the next
  file.
- An exception from `postForEntity` (line 83) is outside every `try`. It ends the run, and no
  later file is processed.
- A 2xx response without a body (a 204, or an empty 200) ends the run too. `new FileWriter`
  has already created or emptied the output file. `write(null)` then throws a
  `NullPointerException`, which the `catch (IOException e)` does not catch. The model records
  this as an empty output file and `Aborted(NullBody(file))`.
- In enqueue, every exception for one file is caught. That file sends nothing and the loop
  goes on.
- A folder that cannot be listed aborts either pipeline before any file
  (`Objects.requireNonNull`).
- Only `enqueue`, in any case, selects the enqueue pipeline. `enqueueFiles`, `transform` and
  every other value run upload.
- The suffixes `.txt` and `.json` are fixed in the code.

## Model

| member | source | states |
|---|---|---|
| Mode.ModeDefault | src/main/java/com/boots/dsp/messageconverter/DemoApplication.java:58-63 | with no argument starting with `--mode=`, the mode is `upload` |
| Mode.ModeFromFirst | src/main/java/com/boots/dsp/messageconverter/DemoApplication.java:59-62 | when argument `i` is the first one starting with `--mode=`, the mode is what follows the prefix in that argument |
| Mode.ModeIgnoresLater | src/main/java/com/boots/dsp/messageconverter/DemoApplication.java:59-62 | once some argument starts with `--mode=`, appending further arguments (other `--mode=` ones included) does not change the mode |
| Mode.BareModeIsEmpty | src/main/java/com/boots/dsp/messageconverter/DemoApplication.java:60-62 | a first argument that is exactly `--mode=` gives the empty mode, whatever follows |
| Mode.ModeValue | src/main/java/com/boots/dsp/messageconverter/DemoApplication.java:61 | the value is the rest of the argument: prefix followed by value gives back the argument |
| Mode.Dispatch | src/main/java/com/boots/dsp/messageconverter/DemoApplication.java:51-55 | the enqueue pipeline is chosen exactly when the mode has seven characters that fold to `enqueue`; every other mode chooses upload |
| Mode.DispatchExamples | src/main/java/com/boots/dsp/messageconverter/DemoApplication.java:49-55 | `upload`, `enqueueFiles` and the empty mode run upload; `enqueue`, `ENQUEUE` and `EnQueue` run enqueue |
| Mode.NoModeArgRunsUpload | src/main/java/com/boots/dsp/messageconverter/DemoApplication.java:49-63 | without a `--mode=` argument the upload pipeline runs |
| Strings.EqualsIgnoreCaseIff | src/main/java/com/boots/dsp/messageconverter/DemoApplication.java:51 | two strings are equal ignoring case exactly when their lengths agree and every position agrees after case folding (both directions) |
| FileNames.OutputName | src/main/java/com/boots/dsp/messageconverter/DemoApplication.java:86 | a `.txt` name becomes a `.json` name one character longer with the same stem; any other name is unchanged |
| FileNames.OutputNameOfStem | src/main/java/com/boots/dsp/messageconverter/DemoApplication.java:86 | `stem.txt` is saved as `stem.json` |
| FileNames.OutputNameInjective | src/main/java/com/boots/dsp/messageconverter/DemoApplication.java:86-87 | two different `.txt` files never get the same output file |
| FileNames.BaseName | src/main/java/com/boots/dsp/messageconverter/DemoApplication.java:121 | the base name of a `.json` name followed by `.json` gives back the name; any other name is unchanged |
| FileNames.BaseNameOfStem | src/main/java/com/boots/dsp/messageconverter/DemoApplication.java:121 | `stem.json` has base name `stem` |
| FileNames.BaseNameInjective | src/main/java/com/boots/dsp/messageconverter/DemoApplication.java:121 | two different `.json` files never share a base name |
| FileNames.BaseNameOfOutputName | src/main/java/com/boots/dsp/messageconverter/DemoApplication.java:116-121 | the round trip: the output name of a `.txt` file passes the enqueue filter, and its base name is the `.txt` file's stem |
| Envelope.BuildFields | src/main/java/com/boots/dsp/messageconverter/DemoApplication.java:122-128 | the envelope has exactly six keys; `messageId` is `msg-` + base, `correlationId` is `corr-` + base, `payload` is the file text, and the three metadata values are copied unchanged |
| Envelope.BuildRoundTrip | src/main/java/com/boots/dsp/messageconverter/DemoApplication.java:125-128 | the base name can be read back from `messageId`, `correlationId` agrees with it, and the payload is the file text |
| Envelope.BuildInjective | src/main/java/com/boots/dsp/messageconverter/DemoApplication.java:122-128 | different base names or texts never give the same envelope |
| Upload.UploadFilesAppend | src/main/java/com/boots/dsp/messageconverter/DemoApplication.java:76-97 | processing `a + b` means processing `a` and then, only if that completed, processing `b` from the folder `a` left behind |
| Upload.PostFailureStops | src/main/java/com/boots/dsp/messageconverter/DemoApplication.java:83 | an exception from the POST ends the run with that failure; the folder is as the earlier files left it and no later file is processed |
| Upload.NullBodyStops | src/main/java/com/boots/dsp/messageconverter/DemoApplication.java:84-93 | a 2xx response without a body, whose output file opens, ends the run with `NullBody`; the output file is left empty, the rest of the folder is as the earlier files left it, and no later file is processed |
| Upload.SkippedFileContinues | src/main/java/com/boots/dsp/messageconverter/DemoApplication.java:84-96 | a non-2xx response or a failed write changes nothing, and the loop continues with the next file |
| Upload.UploadFrame | src/main/java/com/boots/dsp/messageconverter/DemoApplication.java:86-89 | a file that is not the output of a processed input keeps its presence and its text |
| Upload.UploadWritesBody | src/main/java/com/boots/dsp/messageconverter/DemoApplication.java:84-90 | over distinct `.txt` files, once the run has finished file `i` (the run over `files[..i + 1]` completed), a 2xx response whose write succeeds had a body, and that body is, verbatim, the final text of the file's output name, whatever was there before and even when a later file aborts the run |
| Upload.LaterAbortKeepsEarlierWrites | src/main/java/com/boots/dsp/messageconverter/DemoApplication.java:76-96 | listing `a.txt`, `b.txt`, with `a.txt` answered 200 `"B"` and the POST for `b.txt` throwing, the run ends `Aborted(PostFailed("b.txt"))` with `a.json` holding `"B"` |
| Upload.UploadSkipsFailed | src/main/java/com/boots/dsp/messageconverter/DemoApplication.java:88-96 | over distinct `.txt` files, the output file of a non-2xx response or a failed write is left as it was before the run |
| Upload.UploadRunFrame | src/main/java/com/boots/dsp/messageconverter/DemoApplication.java:76 | only listed `.txt` files matter: no file other than the output name of a listed `.txt` file changes |
| Enqueue.MessageFor | src/main/java/com/boots/dsp/messageconverter/DemoApplication.java:122-133 | every message is addressed to the configured queue |
| Enqueue.MessageForStem | src/main/java/com/boots/dsp/messageconverter/DemoApplication.java:121-133 | the message for `stem.json` goes to the configured queue and carries `msg-stem`, `corr-stem`, the file text and the configured metadata |
| Enqueue.EnqueueOne | src/main/java/com/boots/dsp/messageconverter/DemoApplication.java:119-139 | one file sends at most one message |
| Enqueue.EnqueueFiles | src/main/java/com/boots/dsp/messageconverter/DemoApplication.java:118-140 | a listing sends no more messages than it has files, all to the configured queue (the per-file bound of at most one message comes from `EnqueueOne` together with `EnqueueAround`) |
| Enqueue.EnqueueFilesAppend | src/main/java/com/boots/dsp/messageconverter/DemoApplication.java:118-140 | the messages of `a + b` are those of `a` followed by those of `b`: listing order, with no file affecting another |
| Enqueue.FailedFileSkipped | src/main/java/com/boots/dsp/messageconverter/DemoApplication.java:135-139 | a file whose read or send fails adds nothing, and the files after it are still processed |
| Enqueue.EnqueueDelivers | src/main/java/com/boots/dsp/messageconverter/DemoApplication.java:119-134 | every listed file that is read and sent successfully yields its message |
| Enqueue.EnqueueSources | src/main/java/com/boots/dsp/messageconverter/DemoApplication.java:118-139 | every message sent is the message of a listed file that was read and sent successfully |
| Enqueue.EnqueueOncePerFile | src/main/java/com/boots/dsp/messageconverter/DemoApplication.java:118-134 | over a listing of distinct `.json` files, each successful file's message occurs exactly once |
| Enqueue.EnqueueRunOncePerFile | src/main/java/com/boots/dsp/messageconverter/DemoApplication.java:118-140 | in a listing without repeated names, every `.json` file that is read and sent successfully gives exactly one message in the run |
| Enqueue.EnqueueRunSources | src/main/java/com/boots/dsp/messageconverter/DemoApplication.java:118 | only listed `.json` files are sent |
| Application.App.UploadFilesToWebService | src/main/java/com/boots/dsp/messageconverter/DemoApplication.java:66-98 | the loop leaves the destination folder and the run's end exactly as `Upload.UploadRun` says, including the abort on an unlistable source folder |
| Application.App.EnqueueJsonMessages | src/main/java/com/boots/dsp/messageconverter/DemoApplication.java:115-141 | the loop appends to the outbox exactly the messages `Enqueue.EnqueueRun` gives and nothing else, and aborts on an unlistable folder |
| Application.App.Run | src/main/java/com/boots/dsp/messageconverter/DemoApplication.java:48-56 | the mode picks one pipeline; the other pipeline's state is untouched |
| Application.UploadThenEnqueue | src/main/java/com/boots/dsp/messageconverter/DemoApplication.java:86-128 | once upload has finished `stem.txt` (even if a later file aborts the run), an enqueue listing that names `stem.json` sends the envelope with base `stem` and the response body as payload |

## Left out

- Spring Boot start-up and injection (`main`, the `@Value` and `@Autowired` fields). The
  configuration is an immutable `Config` record. The folder paths and the service URL do not
  appear in it: the folders are the model's state and listings, and the POST is a parameter.
- The multipart request and `RestTemplate`. The POST is an abstract outcome per file.
  `RestTemplate`'s default error handler, which throws on 4xx and 5xx, is library behaviour.
  It can only be represented by choosing `PostThrew` for such files.
- `RabbitTemplate`, `MessageProperties` and the message bytes. A send appends the queue name
  and the envelope to `outbox`, or fails as a whole.
- Jackson serialisation and UTF-8 encoding and decoding. The envelope stays a map. The text of
  a file is its content in the `destination` map.
- `mkdirs` on the destination folder. The `destination` map always exists.
- The contents of the source folder. They only go into the POST, which is abstract.
- The link between the enqueue listing and the `destination` map. A listed name that is
  missing from the map is treated as a failed read.
- Partial writes: `new FileWriter(destFile)` (line 88) truncates an existing output file before
  anything is written, so an `IOException` after a successful open, from `write` or from the
  flush in `close`, leaves the old text gone or the new text cut short. The model treats every
  failed write as leaving the folder unchanged, so the "failed write" case of
  `Upload.SkippedFileContinues` and `Upload.UploadSkipsFailed` matches the code only when
  opening the file fails.
- Console logging has no effect in the model.
- The Java regex `$` in the renames can also match before a final line terminator. The model
  uses plain suffix replacement.
- Unicode case folding in `equalsIgnoreCase`. The model folds ASCII letters only.
