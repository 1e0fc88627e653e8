/** Choosing the pipeline from the command line: `getModeFromArgs` and the branch in `run`. */
module Mode {
  import opened Seqs
  import opened Strings

  const ModePrefix: string := "--mode="
  const DefaultMode: string := "upload"
  const EnqueueMode: string := "enqueue"

  /** The two alternative pipelines. */
  datatype Pipeline = UploadPipeline | EnqueuePipeline

  /** The `filter` step: an argument that carries a mode. */
  predicate IsModeArg(arg: string) {
    StartsWith(arg, ModePrefix)
  }

  /** The `map` step: what follows the prefix. */
  function ModeValue(arg: string): (value: string)
    requires IsModeArg(arg)
    ensures ModePrefix + value == arg
  {
    arg[|ModePrefix|..]
  }

  /** The stream pipeline filter / map / findFirst / orElse over the arguments. */
  function ModeFromArgs(args: seq<string>): string {
    var modeArgs := Filter(args, IsModeArg);
    var values := seq(|modeArgs|, i requires 0 <= i < |modeArgs| => ModeValue(modeArgs[i]));
    if |values| > 0 then values[0] else DefaultMode
  }

  /** With no argument starting with `--mode=`, the mode is `upload`. */
  lemma ModeDefault(args: seq<string>)
    requires forall j :: 0 <= j < |args| ==> !IsModeArg(args[j])
    ensures ModeFromArgs(args) == DefaultMode
  {
    FilterNone(args, IsModeArg);
  }

  /** Otherwise the mode is the rest of the FIRST argument starting with `--mode=`. */
  lemma ModeFromFirst(args: seq<string>, i: nat)
    requires i < |args| && IsModeArg(args[i])
    requires forall j :: 0 <= j < i ==> !IsModeArg(args[j])
    ensures ModeFromArgs(args) == args[i][|ModePrefix|..]
    ensures ModePrefix + ModeFromArgs(args) == args[i]
  {
    FilterFirst(args, IsModeArg, i);
  }

  /** Once a `--mode=` argument has been seen, later arguments change nothing. */
  lemma ModeIgnoresLater(args: seq<string>, later: seq<string>)
    requires exists j :: 0 <= j < |args| && IsModeArg(args[j])
    ensures ModeFromArgs(args + later) == ModeFromArgs(args)
  {
    FilterAppend(args, later, IsModeArg);
    FilterMembers(args, IsModeArg);
    var j :| 0 <= j < |args| && IsModeArg(args[j]);
    assert args[j] in Filter(args, IsModeArg);
  }

  /** A bare `--mode=` selects the empty mode, even if a later argument names another one. */
  lemma BareModeIsEmpty(later: seq<string>)
    ensures ModeFromArgs([ModePrefix] + later) == ""
  {
  }

  /** The branch in `run`: only `enqueue`, in any case, selects the enqueue pipeline. */
  function Dispatch(mode: string): (p: Pipeline)
    ensures p == EnqueuePipeline <==>
      |mode| == |EnqueueMode| && forall i :: 0 <= i < |mode| ==> ToLower(mode[i]) == EnqueueMode[i]
  {
    EqualsIgnoreCaseIff(EnqueueMode, mode);
    if EqualsIgnoreCase(EnqueueMode, mode) then EnqueuePipeline else UploadPipeline
  }

  /** The default mode, `upload`, an unknown mode and the empty mode all select the upload pipeline;
      `enqueue` in any mix of cases selects the enqueue pipeline. */
  lemma DispatchExamples()
    ensures Dispatch(DefaultMode) == UploadPipeline
    ensures Dispatch("enqueueFiles") == UploadPipeline
    ensures Dispatch("") == UploadPipeline
    ensures Dispatch("enqueue") == EnqueuePipeline
    ensures Dispatch("ENQUEUE") == EnqueuePipeline
    ensures Dispatch("EnQueue") == EnqueuePipeline
  {
  }

  /** Running without a mode argument runs the upload pipeline. */
  lemma NoModeArgRunsUpload(args: seq<string>)
    requires forall j :: 0 <= j < |args| ==> !IsModeArg(args[j])
    ensures Dispatch(ModeFromArgs(args)) == UploadPipeline
  {
    ModeDefault(args);
    assert ToLower(DefaultMode[0]) != EnqueueMode[0];
  }
}
