/**
  The positional command-line arguments of the training entry point and the
  trial name derived from the sixth of them.
 */
module Arguments {
  import opened Wrappers

  /** Number of leading characters of the trial-name source that are kept. */
  const TrialNameLength: nat := 7

  function Min(a: nat, b: nat): nat {
    if a <= b then a else b
  }

  /**
    The trial name: the first `TrialNameLength` characters of the raw argument.
    A slice in the source clamps at the end of the string, so a shorter argument
    comes back whole and nothing can fail.
   */
  function TruncateTrial(raw: string): (trial: string)
    ensures trial <= raw
    ensures |trial| == Min(TrialNameLength, |raw|)
    ensures |raw| <= TrialNameLength ==> trial == raw
  {
    raw[..Min(TrialNameLength, |raw|)]
  }

  /** Truncating an already truncated name changes nothing. */
  lemma TruncateTrialIdempotent(raw: string)
    ensures TruncateTrial(TruncateTrial(raw)) == TruncateTrial(raw)
  {
  }

  /**
    Exactly which raw arguments share a trial name: two long ones agreeing on
    their first `TrialNameLength` characters, or two equal ones.
   */
  lemma TruncateTrialCollides(a: string, b: string)
    ensures TruncateTrial(a) == TruncateTrial(b) <==>
            if |a| >= TrialNameLength && |b| >= TrialNameLength
            then a[..TrialNameLength] == b[..TrialNameLength]
            else a == b
  {
  }

  /** Two distinct source strings that land in the same trial. */
  lemma DistinctSourcesShareTrial()
    ensures "training-run-1" != "training-run-2"
    ensures TruncateTrial("training-run-1") == TruncateTrial("training-run-2") == "trainin"
  {
  }

  /** The six positional arguments, with the trial name already truncated. */
  datatype Args = Args(
    bucket: string,
    prefix: string,
    executionRole: string,
    autoscalingRole: string,
    expName: string,
    trialName: string)

  /**
    Reads `argv[1]` to `argv[6]` (`argv[0]` is the script). With fewer than seven
    entries the script stops on an index error, modelled as `None`.
   */
  function ParseArgs(argv: seq<string>): (r: Option<Args>)
    ensures r.Some? <==> |argv| >= 7
    ensures r.Some? ==> r.value.trialName == TruncateTrial(argv[6])
    ensures r.Some? ==> [r.value.bucket, r.value.prefix, r.value.executionRole,
                         r.value.autoscalingRole, r.value.expName] == argv[1..6]
  {
    if |argv| < 7 then None
    else Some(Args(argv[1], argv[2], argv[3], argv[4], argv[5], TruncateTrial(argv[6])))
  }

  /** Arguments after the sixth are ignored. */
  lemma ParseArgsIgnoresExtra(argv: seq<string>, extra: seq<string>)
    requires |argv| >= 7
    ensures ParseArgs(argv + extra) == ParseArgs(argv)
  {
  }
}
