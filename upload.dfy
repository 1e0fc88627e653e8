/** The upload pipeline as a function of the destination folder and the abstract outcomes of
    its external calls, and what it guarantees. */
module Upload {
  import opened Wrappers
  import opened Seqs
  import opened FileNames
  import opened Outcome

  /** What `postForEntity` does for one file: a response (status and possibly absent body),
      or an exception. */
  datatype PostOutcome = Response(status: nat, body: Option<string>) | PostThrew

  /** `is2xxSuccessful`: the hundreds digit of the status is 2. */
  predicate Is2xx(status: nat) {
    status / 100 == 2
  }

  /** The destination folder (file name to text) and how the run ended. */
  datatype Result = Result(dest: map<string, string>, end: RunEnd)

  /** One pass of the loop body: the folder afterwards, and the failure if the loop ends here. */
  datatype Step = Next(dest: map<string, string>) | Stop(dest: map<string, string>, failure: Failure)

  /** The loop body for one `.txt` file. `writeFails(file)` says that opening or writing the
      output file raises an IOException, which is caught. */
  function UploadOne(dest: map<string, string>, file: string,
                     post: string -> PostOutcome, writeFails: string -> bool): Step
  {
    match post(file)
    case PostThrew => Stop(dest, PostFailed(file))
    case Response(status, body) =>
      if !Is2xx(status) || writeFails(file) then Next(dest)
      else match body
        case None => Stop(dest[OutputName(file) := ""], NullBody(file))
        case Some(text) => Next(dest[OutputName(file) := text])
  }

  /** The loop over the listed `.txt` files, in listing order. */
  function UploadFiles(dest: map<string, string>, files: seq<string>,
                       post: string -> PostOutcome, writeFails: string -> bool): Result
    decreases files
  {
    if files == [] then Result(dest, Completed)
    else match UploadOne(dest, files[0], post, writeFails)
      case Stop(d, failure) => Result(d, Aborted(failure))
      case Next(d) => UploadFiles(d, files[1..], post, writeFails)
  }

  /** The whole pipeline: `None` is a source folder that cannot be listed. */
  function UploadRun(dest: map<string, string>, listing: Option<seq<string>>,
                     post: string -> PostOutcome, writeFails: string -> bool): Result
  {
    match listing
    case None => Result(dest, Aborted(ListingUnavailable))
    case Some(names) => UploadFiles(dest, Filter(names, IsTxt), post, writeFails)
  }

  /** The output files the given inputs can produce. */
  function Outputs(files: seq<string>): set<string> {
    set f | f in files :: OutputName(f)
  }

  /** Processing `a + b` is processing `a` and then, only if that completed, `b`
      from the folder `a` left behind. */
  lemma {:induction false} UploadFilesAppend(dest: map<string, string>, a: seq<string>, b: seq<string>,
                                             post: string -> PostOutcome, writeFails: string -> bool)
    ensures UploadFiles(dest, a + b, post, writeFails) ==
      var first := UploadFiles(dest, a, post, writeFails);
      if first.end.Completed? then UploadFiles(first.dest, b, post, writeFails) else first
    decreases a
  {
    if a == [] {
      assert a + b == b;
    } else {
      assert (a + b)[0] == a[0];
      assert (a + b)[1..] == a[1..] + b;
      match UploadOne(dest, a[0], post, writeFails)
      case Stop(d, failure) =>
      case Next(d) => UploadFilesAppend(d, a[1..], b, post, writeFails);
    }
  }

  /** An exception from the POST ends the run: the folder is as the earlier files left it and
      no later file is processed. */
  lemma PostFailureStops(dest: map<string, string>, files: seq<string>, i: nat,
                         post: string -> PostOutcome, writeFails: string -> bool)
    requires i < |files| && post(files[i]).PostThrew?
    requires UploadFiles(dest, files[..i], post, writeFails).end.Completed?
    ensures UploadFiles(dest, files, post, writeFails) ==
      Result(UploadFiles(dest, files[..i], post, writeFails).dest, Aborted(PostFailed(files[i])))
  {
    assert files == files[..i] + files[i..];
    UploadFilesAppend(dest, files[..i], files[i..], post, writeFails);
  }

  /** A 2xx response without a body ends the run too: the output file has been created or emptied
      before the write fails, and no later file is processed. */
  lemma NullBodyStops(dest: map<string, string>, files: seq<string>, i: nat,
                      post: string -> PostOutcome, writeFails: string -> bool)
    requires i < |files| && post(files[i]).Response? && Is2xx(post(files[i]).status)
    requires post(files[i]).body.None? && !writeFails(files[i])
    requires UploadFiles(dest, files[..i], post, writeFails).end.Completed?
    ensures UploadFiles(dest, files, post, writeFails) ==
      Result(UploadFiles(dest, files[..i], post, writeFails).dest[OutputName(files[i]) := ""],
             Aborted(NullBody(files[i])))
  {
    assert files == files[..i] + files[i..];
    UploadFilesAppend(dest, files[..i], files[i..], post, writeFails);
  }

  /** A non-2xx response or a failed write leaves the folder as it was and the loop goes on. */
  lemma SkippedFileContinues(dest: map<string, string>, a: seq<string>, file: string, b: seq<string>,
                             post: string -> PostOutcome, writeFails: string -> bool)
    requires post(file).Response? && (!Is2xx(post(file).status) || writeFails(file))
    ensures UploadFiles(dest, a + [file] + b, post, writeFails) == UploadFiles(dest, a + b, post, writeFails)
  {
    UploadFilesAppend(dest, a, [file] + b, post, writeFails);
    UploadFilesAppend(dest, a, b, post, writeFails);
    assert a + [file] + b == a + ([file] + b);
    assert ([file] + b)[1..] == b;
  }

  /** Nothing else changes: a file that is not the output of a processed input keeps its
      presence and its text. */
  lemma {:induction false} UploadFrame(dest: map<string, string>, files: seq<string>,
                                       post: string -> PostOutcome, writeFails: string -> bool, name: string)
    requires name !in Outputs(files)
    ensures name in UploadFiles(dest, files, post, writeFails).dest <==> name in dest
    ensures name in dest ==> UploadFiles(dest, files, post, writeFails).dest[name] == dest[name]
    decreases files
  {
    if files != [] {
      assert OutputName(files[0]) in Outputs(files);
      assert Outputs(files[1..]) <= Outputs(files);
      match UploadOne(dest, files[0], post, writeFails)
      case Stop(d, failure) =>
      case Next(d) => UploadFrame(d, files[1..], post, writeFails, name);
    }
  }

  /** Over distinct `.txt` files, the body of every 2xx response whose write succeeds is saved,
      verbatim, under the file's output name, provided the run reached and finished that file;
      a later file aborting the run does not undo it. */
  lemma {:induction false} UploadWritesBody(dest: map<string, string>, files: seq<string>,
                                            post: string -> PostOutcome, writeFails: string -> bool, i: nat)
    requires Distinct(files) && forall f :: f in files ==> IsTxt(f)
    requires i < |files| && post(files[i]).Response? && Is2xx(post(files[i]).status) && !writeFails(files[i])
    requires UploadFiles(dest, files[..i + 1], post, writeFails).end.Completed?
    ensures post(files[i]).body.Some?
    ensures var out := OutputName(files[i]);
      out in UploadFiles(dest, files, post, writeFails).dest &&
      UploadFiles(dest, files, post, writeFails).dest[out] == post(files[i]).body.value
    decreases files
  {
    var step := UploadOne(dest, files[0], post, writeFails);
    assert files[..i + 1][0] == files[0];
    assert files[..i + 1][1..] == files[1..][..i];
    if i == 0 {
      forall f | f in files[1..] ensures OutputName(f) != OutputName(files[0]) {
        var k :| 1 <= k < |files| && files[k] == f;
        if OutputName(f) == OutputName(files[0]) {
          OutputNameInjective(f, files[0]);
        }
      }
      UploadFrame(step.dest, files[1..], post, writeFails, OutputName(files[0]));
    } else {
      assert Distinct(files[1..]) by {
        forall p, q | 0 <= p < q < |files[1..]| ensures files[1..][p] != files[1..][q] {
          assert files[1..][p] == files[p + 1] && files[1..][q] == files[q + 1];
        }
      }
      UploadWritesBody(step.dest, files[1..], post, writeFails, i - 1);
    }
  }

  /** A run aborted by a later file keeps what the earlier files wrote: with `a.txt` answered
      `"B"` and the POST for `b.txt` throwing, the run ends at `b.txt` with `a.json` saved. */
  lemma LaterAbortKeepsEarlierWrites(post: string -> PostOutcome, writeFails: string -> bool)
    requires post("a.txt") == Response(200, Some("B")) && post("b.txt") == PostThrew
    requires !writeFails("a.txt")
    ensures UploadFiles(map[], ["a.txt", "b.txt"], post, writeFails) ==
      Result(map["a.json" := "B"], Aborted(PostFailed("b.txt")))
  {
    OutputNameOfStem("a");
    assert "a" + TxtSuffix == "a.txt";
    assert "a" + JsonSuffix == "a.json";
    assert ["a.txt", "b.txt"][1..] == ["b.txt"];
  }

  /** A run over distinct `.txt` files, completed or aborted, leaves the output file of a non-2xx response or a
      failed write as it was before the run. */
  lemma {:induction false} UploadSkipsFailed(dest: map<string, string>, files: seq<string>,
                                             post: string -> PostOutcome, writeFails: string -> bool, i: nat)
    requires Distinct(files) && forall f :: f in files ==> IsTxt(f)
    requires i < |files| && post(files[i]).Response?
    requires !Is2xx(post(files[i]).status) || writeFails(files[i])
    ensures var out := OutputName(files[i]);
      (out in UploadFiles(dest, files, post, writeFails).dest <==> out in dest) &&
      (out in dest ==> UploadFiles(dest, files, post, writeFails).dest[out] == dest[out])
  {
    var out := OutputName(files[i]);
    forall f | f in files[..i] + files[i + 1..] ensures OutputName(f) != out {
      if OutputName(f) == out {
        OutputNameInjective(f, files[i]);
      }
    }
    assert files == files[..i] + [files[i]] + files[i + 1..];
    SkippedFileContinues(dest, files[..i], files[i], files[i + 1..], post, writeFails);
    UploadFrame(dest, files[..i] + files[i + 1..], post, writeFails, out);
  }

  /** Only listed `.txt` files matter: a run changes no file of the destination folder other than
      the output name of a listed `.txt` file. */
  lemma UploadRunFrame(dest: map<string, string>, names: seq<string>,
                       post: string -> PostOutcome, writeFails: string -> bool, name: string)
    requires forall f :: f in names && IsTxt(f) ==> OutputName(f) != name
    ensures name in UploadRun(dest, Some(names), post, writeFails).dest <==> name in dest
    ensures name in dest ==> UploadRun(dest, Some(names), post, writeFails).dest[name] == dest[name]
  {
    FilterMembers(names, IsTxt);
    UploadFrame(dest, Filter(names, IsTxt), post, writeFails, name);
  }
}
