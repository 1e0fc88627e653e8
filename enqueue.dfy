/** The enqueue pipeline as a function of the folder it reads and the abstract outcomes of its
    reads and sends, and what it guarantees. */
module Enqueue {
  import opened Wrappers
  import opened Seqs
  import opened FileNames
  import opened Envelope
  import opened Outcome

  /** The configuration the enqueue pipeline uses: the queue and the envelope metadata. */
  datatype Config = Config(queueName: string, meta: Metadata)

  /** One `rabbitTemplate.send`: the queue it is addressed to and the envelope it carries. */
  datatype Delivery = Delivery(queue: string, envelope: map<string, string>)

  /** The message for a `.json` file named `file` with text `content`. */
  function MessageFor(config: Config, file: string, content: string): (d: Delivery)
    ensures d.queue == config.queueName
  {
    Delivery(config.queueName, Build(config.meta, BaseName(file), content))
  }

  /** The message for `stem.json`: addressed to the configured queue, identifiers `msg-stem` and
      `corr-stem`, the file text as payload and the configured metadata. */
  lemma MessageForStem(config: Config, stem: string, content: string)
    ensures var d := MessageFor(config, stem + JsonSuffix, content);
      && d.queue == config.queueName
      && d.envelope == Build(config.meta, stem, content)
      && d.envelope.Keys == Keys()
      && d.envelope[MessageIdKey] == MessageIdPrefix + stem
      && d.envelope[CorrelationIdKey] == CorrelationIdPrefix + stem
      && d.envelope[PayloadKey] == content
      && d.envelope[SourceSystemKey] == config.meta.sourceSystem
      && d.envelope[DestinationAddressKey] == config.meta.destinationAddress
      && d.envelope[RenderTechnologyKey] == config.meta.renderTechnology
  {
  }

  /** `Files.readString`: the text of a file of the folder, or `None` when it is missing or
      `readFails` says the read raises an IOException. */
  function ReadFile(folder: map<string, string>, file: string, readFails: string -> bool): Option<string>
  {
    if file in folder && !readFails(file) then Some(folder[file]) else None
  }

  /** The loop body for one file: a failed read, or a failed send (`sendFails`), is caught and
      sends nothing; otherwise exactly one message is sent. */
  function EnqueueOne(config: Config, folder: map<string, string>, file: string,
                      readFails: string -> bool, sendFails: string -> bool): (sent: seq<Delivery>)
    ensures |sent| <= 1
  {
    match ReadFile(folder, file, readFails)
    case None => []
    case Some(content) => if sendFails(file) then [] else [MessageFor(config, file, content)]
  }

  /** The loop over the listed `.json` files, in listing order. */
  function EnqueueFiles(config: Config, folder: map<string, string>, files: seq<string>,
                        readFails: string -> bool, sendFails: string -> bool): (sent: seq<Delivery>)
    ensures |sent| <= |files|
    ensures forall d :: d in sent ==> d.queue == config.queueName
    decreases files
  {
    if files == [] then []
    else EnqueueOne(config, folder, files[0], readFails, sendFails)
         + EnqueueFiles(config, folder, files[1..], readFails, sendFails)
  }

  /** The whole pipeline: the messages sent and how the run ended; `None` is a folder that
      cannot be listed. */
  function EnqueueRun(config: Config, folder: map<string, string>, listing: Option<seq<string>>,
                      readFails: string -> bool, sendFails: string -> bool): (seq<Delivery>, RunEnd)
  {
    match listing
    case None => ([], Aborted(ListingUnavailable))
    case Some(names) => (EnqueueFiles(config, folder, Filter(names, IsJson), readFails, sendFails), Completed)
  }

  /** Each file's messages follow the previous files' messages: order is listing order, and
      what happens to one file does not affect the others. */
  lemma {:induction false} EnqueueFilesAppend(config: Config, folder: map<string, string>, a: seq<string>,
                                              b: seq<string>, readFails: string -> bool, sendFails: string -> bool)
    ensures EnqueueFiles(config, folder, a + b, readFails, sendFails) ==
      EnqueueFiles(config, folder, a, readFails, sendFails) + EnqueueFiles(config, folder, b, readFails, sendFails)
    decreases a
  {
    if a == [] {
      assert a + b == b;
    } else {
      assert (a + b)[0] == a[0];
      assert (a + b)[1..] == a[1..] + b;
      EnqueueFilesAppend(config, folder, a[1..], b, readFails, sendFails);
    }
  }

  /** A file whose read or send fails adds nothing, and the files after it are still processed. */
  lemma FailedFileSkipped(config: Config, folder: map<string, string>, a: seq<string>, file: string,
                          b: seq<string>, readFails: string -> bool, sendFails: string -> bool)
    requires file !in folder || readFails(file) || sendFails(file)
    ensures EnqueueFiles(config, folder, a + [file] + b, readFails, sendFails) ==
      EnqueueFiles(config, folder, a, readFails, sendFails) + EnqueueFiles(config, folder, b, readFails, sendFails)
  {
    EnqueueFilesAppend(config, folder, a + [file], b, readFails, sendFails);
    EnqueueFilesAppend(config, folder, a, [file], readFails, sendFails);
    EnqueueSingle(config, folder, file, readFails, sendFails);
    assert EnqueueOne(config, folder, file, readFails, sendFails) == [];
  }

  /** Every file that is read and sent successfully yields its message. */
  lemma {:induction false} EnqueueDelivers(config: Config, folder: map<string, string>, files: seq<string>,
                                           readFails: string -> bool, sendFails: string -> bool, i: nat)
    requires i < |files| && files[i] in folder && !readFails(files[i]) && !sendFails(files[i])
    ensures MessageFor(config, files[i], folder[files[i]]) in EnqueueFiles(config, folder, files, readFails, sendFails)
    decreases files
  {
    if i > 0 {
      EnqueueDelivers(config, folder, files[1..], readFails, sendFails, i - 1);
    }
  }

  /** Every message sent is the message of some listed file that was read and sent successfully. */
  lemma {:induction false} EnqueueSources(config: Config, folder: map<string, string>, files: seq<string>,
                                          readFails: string -> bool, sendFails: string -> bool, d: Delivery)
    requires d in EnqueueFiles(config, folder, files, readFails, sendFails)
    ensures exists i :: (0 <= i < |files| && files[i] in folder && !readFails(files[i]) && !sendFails(files[i]) &&
                         d == MessageFor(config, files[i], folder[files[i]]))
    decreases files
  {
    var first := EnqueueOne(config, folder, files[0], readFails, sendFails);
    if d in first {
      assert files[0] in folder && !readFails(files[0]) && !sendFails(files[0]);
    } else {
      EnqueueSources(config, folder, files[1..], readFails, sendFails, d);
      var i :| 0 <= i < |files[1..]| && files[1..][i] in folder && !readFails(files[1..][i])
        && !sendFails(files[1..][i]) && d == MessageFor(config, files[1..][i], folder[files[1..][i]]);
      assert files[1..][i] == files[i + 1];
    }
  }

  /** A message is never produced by a `.json` file other than its own. */
  lemma NotSentByOthers(config: Config, folder: map<string, string>, files: seq<string>,
                        readFails: string -> bool, sendFails: string -> bool, file: string, content: string)
    requires IsJson(file)
    requires forall f :: f in files ==> IsJson(f) && f != file
    ensures MessageFor(config, file, content) !in EnqueueFiles(config, folder, files, readFails, sendFails)
  {
    var m := MessageFor(config, file, content);
    if m in EnqueueFiles(config, folder, files, readFails, sendFails) {
      EnqueueSources(config, folder, files, readFails, sendFails, m);
      var k :| 0 <= k < |files| && files[k] in folder && !readFails(files[k]) && !sendFails(files[k]) &&
        m == MessageFor(config, files[k], folder[files[k]]);
      BuildInjective(config.meta, BaseName(file), content, BaseName(files[k]), folder[files[k]]);
      BaseNameInjective(file, files[k]);
      assert false;
    }
  }

  /** The messages of a listing are those of the files before `i`, of file `i` and of the files after. */
  lemma EnqueueAround(config: Config, folder: map<string, string>, files: seq<string>,
                      readFails: string -> bool, sendFails: string -> bool, i: nat)
    requires i < |files|
    ensures EnqueueFiles(config, folder, files, readFails, sendFails) ==
      EnqueueFiles(config, folder, files[..i], readFails, sendFails)
      + EnqueueOne(config, folder, files[i], readFails, sendFails)
      + EnqueueFiles(config, folder, files[i + 1..], readFails, sendFails)
  {
    var file, before, after := files[i], files[..i], files[i + 1..];
    assert files == before + [file] + after;
    EnqueueFilesAppend(config, folder, before + [file], after, readFails, sendFails);
    EnqueueFilesAppend(config, folder, before, [file], readFails, sendFails);
    EnqueueSingle(config, folder, file, readFails, sendFails);
  }

  /** A one-file listing sends what the loop body sends for that file. */
  lemma EnqueueSingle(config: Config, folder: map<string, string>, file: string,
                      readFails: string -> bool, sendFails: string -> bool)
    ensures EnqueueFiles(config, folder, [file], readFails, sendFails)
         == EnqueueOne(config, folder, file, readFails, sendFails)
  {
  }

  /** The messages of the first `i + 1` files are those of the first `i` followed by file `i`'s. */
  lemma EnqueuePrefix(config: Config, folder: map<string, string>, files: seq<string>,
                      readFails: string -> bool, sendFails: string -> bool, i: nat)
    requires i < |files|
    ensures EnqueueFiles(config, folder, files[..i + 1], readFails, sendFails)
         == EnqueueFiles(config, folder, files[..i], readFails, sendFails)
            + EnqueueOne(config, folder, files[i], readFails, sendFails)
  {
    assert files[..i + 1] == files[..i] + [files[i]];
    EnqueueFilesAppend(config, folder, files[..i], [files[i]], readFails, sendFails);
    EnqueueSingle(config, folder, files[i], readFails, sendFails);
  }

  /** Over a listing without repetitions, a successful file's message is sent exactly once. */
  lemma EnqueueOncePerFile(config: Config, folder: map<string, string>, files: seq<string>,
                           readFails: string -> bool, sendFails: string -> bool, i: nat)
    requires Distinct(files) && forall f :: f in files ==> IsJson(f)
    requires i < |files| && files[i] in folder && !readFails(files[i]) && !sendFails(files[i])
    ensures multiset(EnqueueFiles(config, folder, files, readFails, sendFails))
              [MessageFor(config, files[i], folder[files[i]])] == 1
  {
    var file := files[i];
    var m := MessageFor(config, file, folder[file]);
    var before, after := files[..i], files[i + 1..];
    EnqueueAround(config, folder, files, readFails, sendFails, i);
    assert EnqueueOne(config, folder, file, readFails, sendFails) == [m];
    DistinctAround(files, i);
    assert forall f :: f in before ==> f in files;
    assert forall f :: f in after ==> f in files;
    NotSentByOthers(config, folder, before, readFails, sendFails, file, folder[file]);
    NotSentByOthers(config, folder, after, readFails, sendFails, file, folder[file]);
    CountOnce(EnqueueFiles(config, folder, before, readFails, sendFails), m,
              EnqueueFiles(config, folder, after, readFails, sendFails));
  }

  /** In a listing without repeated names, every `.json` file that is read and sent successfully
      contributes exactly one message to the run. */
  lemma EnqueueRunOncePerFile(config: Config, folder: map<string, string>, names: seq<string>,
                              readFails: string -> bool, sendFails: string -> bool, file: string)
    requires Distinct(names) && file in names && IsJson(file)
    requires file in folder && !readFails(file) && !sendFails(file)
    ensures multiset(EnqueueRun(config, folder, Some(names), readFails, sendFails).0)
              [MessageFor(config, file, folder[file])] == 1
  {
    var files := Filter(names, IsJson);
    FilterDistinct(names, IsJson);
    FilterMembers(names, IsJson);
    var i :| 0 <= i < |files| && files[i] == file;
    EnqueueOncePerFile(config, folder, files, readFails, sendFails, i);
  }

  /** Only listed `.json` files are sent: every message of a run is the message of a listed
      `.json` file that was read and sent successfully. */
  lemma EnqueueRunSources(config: Config, folder: map<string, string>, names: seq<string>,
                          readFails: string -> bool, sendFails: string -> bool, d: Delivery)
    requires d in EnqueueRun(config, folder, Some(names), readFails, sendFails).0
    ensures exists file :: file in names && IsJson(file) && file in folder && !readFails(file) && !sendFails(file) &&
                           d == MessageFor(config, file, folder[file])
  {
    var files := Filter(names, IsJson);
    EnqueueSources(config, folder, files, readFails, sendFails, d);
    var i :| 0 <= i < |files| && files[i] in folder && !readFails(files[i]) && !sendFails(files[i]) &&
             d == MessageFor(config, files[i], folder[files[i]]);
    FilterMembers(names, IsJson);
    assert files[i] in files;
  }
}
