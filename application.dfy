/** The application object: the configuration it was started with, the destination folder that
    the upload pipeline writes and the enqueue pipeline reads, and the messages handed to the
    broker. External calls are parameters: directory listings, the POST, failing writes, reads
    and sends. */
module Application {
  import opened Wrappers
  import opened Seqs
  import opened FileNames
  import opened Outcome
  import opened Mode
  import Upload
  import Enqueue
  import Envelope

  class App {
    const config: Enqueue.Config
    /** The destination folder: file name to text. */
    var destination: map<string, string>
    /** Every message sent so far, in sending order. */
    var outbox: seq<Enqueue.Delivery>

    constructor (config: Enqueue.Config, destination: map<string, string>)
      ensures this.config == config && this.destination == destination && outbox == []
    {
      this.config := config;
      this.destination := destination;
      outbox := [];
    }

    /** POST every listed `.txt` file and save each 2xx body under the file's `.json` name. */
    method UploadFilesToWebService(listing: Option<seq<string>>,
                                   post: string -> Upload.PostOutcome, writeFails: string -> bool)
      returns (end: RunEnd)
      modifies this`destination
      ensures Upload.Result(destination, end) == Upload.UploadRun(old(destination), listing, post, writeFails)
    {
      if listing.None? {
        return Aborted(ListingUnavailable);
      }
      var files := Filter(listing.value, IsTxt);
      var i := 0;
      while i < |files|
        invariant i <= |files|
        invariant Upload.UploadFiles(destination, files[i..], post, writeFails)
               == Upload.UploadFiles(old(destination), files, post, writeFails)
      {
        var file := files[i];
        assert files[i..][0] == file && files[i..][1..] == files[i + 1..];
        match post(file)
        case PostThrew =>
          return Aborted(PostFailed(file));
        case Response(status, body) =>
          if Upload.Is2xx(status) && !writeFails(file) {
            var out := OutputName(file);
            match body
            case None =>
              destination := destination[out := ""];
              return Aborted(NullBody(file));
            case Some(text) =>
              destination := destination[out := text];
          }
        i := i + 1;
      }
      return Completed;
    }

    /** Read every listed `.json` file of the destination folder, wrap it in an envelope and
      send it to the configured queue; a failure for one file is caught and the loop goes on. */
    method EnqueueJsonMessages(listing: Option<seq<string>>, readFails: string -> bool, sendFails: string -> bool)
      returns (end: RunEnd)
      modifies this`outbox
      ensures var (sent, runEnd) := Enqueue.EnqueueRun(config, destination, listing, readFails, sendFails);
        outbox == old(outbox) + sent && end == runEnd
    {
      if listing.None? {
        return Aborted(ListingUnavailable);
      }
      var files := Filter(listing.value, IsJson);
      ghost var folder, start := destination, outbox;
      for i := 0 to |files|
        invariant outbox == start + Enqueue.EnqueueFiles(config, folder, files[..i], readFails, sendFails)
      {
        var file := files[i];
        ghost var sent := outbox;
        var content := Enqueue.ReadFile(destination, file, readFails);
        if content.Some? && !sendFails(file) {
          var message := Enqueue.MessageFor(config, file, content.value);
          outbox := outbox + [message];
        }
        ghost var one := Enqueue.EnqueueOne(config, folder, file, readFails, sendFails);
        ghost var prev := Enqueue.EnqueueFiles(config, folder, files[..i], readFails, sendFails);
        assert outbox == sent + one;
        Enqueue.EnqueuePrefix(config, folder, files, readFails, sendFails, i);
      }
      assert files[..|files|] == files;
      return Completed;
    }

    /** Select the pipeline from the arguments and run it. */
    method Run(args: seq<string>,
               sourceListing: Option<seq<string>>, post: string -> Upload.PostOutcome, writeFails: string -> bool,
               destinationListing: Option<seq<string>>, readFails: string -> bool, sendFails: string -> bool)
      returns (end: RunEnd)
      modifies this
      ensures Dispatch(ModeFromArgs(args)) == EnqueuePipeline ==>
        destination == old(destination) &&
        var (sent, runEnd) := Enqueue.EnqueueRun(config, destination, destinationListing, readFails, sendFails);
        outbox == old(outbox) + sent && end == runEnd
      ensures Dispatch(ModeFromArgs(args)) == UploadPipeline ==>
        outbox == old(outbox) &&
        Upload.Result(destination, end) == Upload.UploadRun(old(destination), sourceListing, post, writeFails)
    {
      var mode := ModeFromArgs(args);
      if Dispatch(mode) == EnqueuePipeline {
        end := EnqueueJsonMessages(destinationListing, readFails, sendFails);
      } else {
        end := UploadFilesToWebService(sourceListing, post, writeFails);
      }
    }
  }

  /** The two pipelines compose through the destination folder: once an upload run has finished
      the file (whether or not a later file aborts it), an enqueue run whose listing names the saved `stem.json` sends, to the configured queue, the
      envelope with base name `stem` and the response body as payload. */
  lemma UploadThenEnqueue(config: Enqueue.Config, dest: map<string, string>, files: seq<string>,
                          post: string -> Upload.PostOutcome, writeFails: string -> bool, i: nat,
                          listing: seq<string>, readFails: string -> bool, sendFails: string -> bool)
    requires Distinct(files) && forall f :: f in files ==> IsTxt(f)
    requires i < |files| && post(files[i]).Response? && Upload.Is2xx(post(files[i]).status) && !writeFails(files[i])
    requires Upload.UploadFiles(dest, files[..i + 1], post, writeFails).end.Completed?
    requires OutputName(files[i]) in listing
    requires !readFails(OutputName(files[i])) && !sendFails(OutputName(files[i]))
    ensures post(files[i]).body.Some?
    ensures var folder := Upload.UploadFiles(dest, files, post, writeFails).dest;
      var stem := files[i][..|files[i]| - |TxtSuffix|];
      Enqueue.Delivery(config.queueName, Envelope.Build(config.meta, stem, post(files[i]).body.value))
        in Enqueue.EnqueueRun(config, folder, Some(listing), readFails, sendFails).0
  {
    var folder := Upload.UploadFiles(dest, files, post, writeFails).dest;
    var out := OutputName(files[i]);
    Upload.UploadWritesBody(dest, files, post, writeFails, i);
    BaseNameOfOutputName(files[i]);
    var selected := Filter(listing, IsJson);
    FilterMembers(listing, IsJson);
    assert out in selected;
    var j :| 0 <= j < |selected| && selected[j] == out;
    Enqueue.EnqueueDelivers(config, folder, selected, readFails, sendFails, j);
    var stem := files[i][..|files[i]| - |TxtSuffix|];
    assert BaseName(out) == stem;
  }
}
