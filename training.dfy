/**
  The training run as a whole: registration, the job it submits and, once
  the job has finished, the exported endpoint names and the two documents.
 */
module Training {
  import opened Wrappers
  import opened Arguments
  import opened Registration
  import opened Storage
  import opened Deployment

  /** Display name of the trial component the training job is recorded under. */
  const TrainingComponentName: string := "Training"

  /** Base name of the training job: experiment and trial joined by a dash. */
  function JobBaseName(expName: string, trialName: string): (n: string)
    ensures expName + "-" <= n
    ensures n[|expName| + 1..] == trialName
  {
    expName + "-" + trialName
  }

  /**
    With a trial name taken from the arguments, the base name is at most
    `TrialNameLength + 1` characters longer than the experiment name.
   */
  lemma JobBaseNameBounded(expName: string, rawTrial: string)
    ensures |JobBaseName(expName, TruncateTrial(rawTrial))| <= |expName| + 1 + TrialNameLength
  {
  }

  /** What the script hands the training service (the fixed literals are not kept). */
  datatype JobSpec = JobSpec(
    baseJobName: string,
    role: string,
    outputPath: string,
    codeLocation: string,
    debugOutputPath: string,
    trainChannel: string,
    validationChannel: string,
    experimentConfig: map<string, string>)

  function JobSpecFor(a: Args): (s: JobSpec)
    ensures s.baseJobName == JobBaseName(a.expName, a.trialName)
    ensures s.role == a.executionRole
    ensures var p := Paths(a.bucket, a.prefix);
            && s.outputPath == p.output && s.codeLocation == p.code
            && s.debugOutputPath == p.debug
            && s.trainChannel == p.train && s.validationChannel == p.validation
    ensures s.experimentConfig.Keys == {"ExperimentName", "TrialName", "TrialComponentDisplayName"}
    ensures s.experimentConfig["ExperimentName"] == a.expName
    ensures s.experimentConfig["TrialName"] == a.trialName
    ensures s.experimentConfig["TrialComponentDisplayName"] == TrainingComponentName
  {
    var p := Paths(a.bucket, a.prefix);
    JobSpec(
      JobBaseName(a.expName, a.trialName),
      a.executionRole,
      p.output, p.code, p.debug, p.train, p.validation,
      map["ExperimentName" := a.expName,
          "TrialName" := a.trialName,
          "TrialComponentDisplayName" := TrainingComponentName])
  }

  /** How the blocking training call ended: with a job name, or with an exception. */
  datatype FitResult = Completed(jobName: string) | Failed

  /** One observable step of a run, in order. */
  datatype Step =
    | Register(request: Request, outcome: Outcome)
    | Submit(spec: JobSpec)
    | ExportEnv(env: map<string, string>)
    | Emit(qa: Document, prod: Document)

  /** Whether some step of the run is an `Emit`. */
  predicate Emits(t: seq<Step>) {
    exists i :: 0 <= i < |t| && t[i].Emit?
  }

  /** Whether some step of the run submits a job. */
  predicate Submits(t: seq<Step>) {
    exists i :: 0 <= i < |t| && t[i].Submit?
  }

  /**
    The steps from submission on: the job, and once it has completed, the
    exported endpoint names and the two documents built from its name.
   */
  function Train(a: Args, trainingImage: string, fit: FitResult): (t: seq<Step>)
    ensures |t| == if fit.Completed? then 3 else 1
    ensures t[0] == Submit(JobSpecFor(a))
    ensures fit.Completed? ==> t[1] == ExportEnv(EndpointEnv(a.expName))
    ensures fit.Completed? ==>
              t[2] == Emit(ConfigQA(fit.jobName, a.expName, Paths(a.bucket, a.prefix).output,
                                    a.executionRole, trainingImage),
                           ConfigProd(fit.jobName, a.expName, Paths(a.bucket, a.prefix).output,
                                      a.executionRole, trainingImage, a.autoscalingRole))
    ensures forall i :: 0 < i < |t| ==> !t[i].Submit? && !t[i].Register?
  {
    var spec := JobSpecFor(a);
    match fit
    case Failed => [Submit(spec)]
    case Completed(jobName) =>
      [Submit(spec),
       ExportEnv(EndpointEnv(a.expName)),
       Emit(ConfigQA(jobName, a.expName, spec.outputPath, a.executionRole, trainingImage),
            ConfigProd(jobName, a.expName, spec.outputPath, a.executionRole, trainingImage,
                       a.autoscalingRole))]
  }

  /**
    The steps of a run. `trainingImage` and the job name inside `fit` come
    from the training service. An uncaught exception ends the run where it is
    raised.
   */
  function Run(a: Args, experimentCall: CallResult, trialCall: CallResult,
               trainingImage: string, fit: FitResult): (t: seq<Step>)
    ensures 1 <= |t| <= 5
    ensures t[0] == Register(ExperimentRequest(a.expName), Classify(experimentCall))
    ensures experimentCall != OtherException ==>
              |t| >= 2 && t[1] == Register(TrialRequest(a.trialName, a.expName), Classify(trialCall))
    ensures experimentCall == OtherException ==> |t| == 1
    ensures experimentCall != OtherException && trialCall == OtherException ==> |t| == 2
    ensures Submits(t) <==> experimentCall != OtherException && trialCall != OtherException
    ensures Submits(t) ==> t[2..] == Train(a, trainingImage, fit)
    ensures Emits(t) <==> Submits(t) && fit.Completed?
    ensures Emits(t) ==> |t| == 5 && fit.Completed? && t[3] == ExportEnv(EndpointEnv(a.expName))
    ensures Emits(t) ==>
              t[4] == Emit(ConfigQA(fit.jobName, a.expName, Paths(a.bucket, a.prefix).output,
                                    a.executionRole, trainingImage),
                           ConfigProd(fit.jobName, a.expName, Paths(a.bucket, a.prefix).output,
                                      a.executionRole, trainingImage, a.autoscalingRole))
  {
    var experiment := Register(ExperimentRequest(a.expName), Classify(experimentCall));
    var trial := Register(TrialRequest(a.trialName, a.expName), Classify(trialCall));
    if !Continues(Classify(experimentCall)) then [experiment]
    else if !Continues(Classify(trialCall)) then [experiment, trial]
    else
      var t := [experiment, trial] + Train(a, trainingImage, fit);
      assert t[2].Submit?;
      assert fit.Completed? ==> t[4].Emit?;
      t
  }

  /**
    Whatever the platform answers to either create call with a client
    error, the job is submitted right after the two registrations.
   */
  lemma RegistrationNeverBlocksTraining(a: Args, experimentCall: CallResult,
                                        trialCall: CallResult, trainingImage: string,
                                        fit: FitResult)
    requires experimentCall != OtherException && trialCall != OtherException
    ensures var t := Run(a, experimentCall, trialCall, trainingImage, fit);
            |t| >= 3 && t[0].Register? && t[1].Register? && t[2] == Submit(JobSpecFor(a))
  {
  }

  /**
    The outcome of registration changes only the recorded outcomes: the job
    and everything after it are the same.
   */
  lemma RegistrationDoesNotAffectResult(a: Args, e1: CallResult, t1: CallResult,
                                        e2: CallResult, t2: CallResult,
                                        trainingImage: string, fit: FitResult)
    requires e1 != OtherException && t1 != OtherException
    requires e2 != OtherException && t2 != OtherException
    ensures var r1 := Run(a, e1, t1, trainingImage, fit);
            var r2 := Run(a, e2, t2, trainingImage, fit);
            |r1| == |r2| && r1[2..] == r2[2..]
  {
  }

  /**
    A repeated run, whose trial already exists and is answered with the
    already-exists code, still records the trial and submits its job.
   */
  lemma ExistingTrialStillTrains(a: Args, experimentCall: CallResult, trainingImage: string,
                                 fit: FitResult)
    requires experimentCall != OtherException
    ensures var t := Run(a, experimentCall, ClientError(AlreadyExistsCode), trainingImage, fit);
            && t[1] == Register(TrialRequest(a.trialName, a.expName), AlreadyExists)
            && t[2] == Submit(JobSpecFor(a))
  {
  }

  /** A failed training job ends the run: nothing is exported or written. */
  lemma FailedTrainingEmitsNothing(a: Args, experimentCall: CallResult,
                                   trialCall: CallResult, trainingImage: string)
    ensures var t := Run(a, experimentCall, trialCall, trainingImage, Failed);
            !Emits(t) && forall i :: 0 <= i < |t| ==> !t[i].ExportEnv?
  {
  }

  /**
    The documents a run writes point at the archive of the job that run
    trained, and carry the names the run exports.
   */
  lemma EmittedDocumentsReferenceTrainedJob(
    a: Args, experimentCall: CallResult, trialCall: CallResult,
    trainingImage: string, jobName: string)
    requires experimentCall != OtherException && trialCall != OtherException
    ensures var t := Run(a, experimentCall, trialCall, trainingImage, Completed(jobName));
            var output := Paths(a.bucket, a.prefix).output;
            && |t| == 5 && t[4].Emit?
            && ParseArtifactUrl(output, t[4].qa.parameters[ModelDataUrlKey]) == Some(jobName)
            && ParseArtifactUrl(output, t[4].prod.parameters[ModelDataUrlKey]) == Some(jobName)
            && t[3].env[QAEndpointVar] == t[4].qa.parameters[EndpointNameKey]
            && t[3].env[ProdEndpointVar] == t[4].prod.parameters[EndpointNameKey]
  {
  }

  /**
    The trial request names the experiment request's experiment, and the
    job's experiment config repeats the names sent in the two create requests.
   */
  lemma JobAttachedToRegisteredTrial(a: Args, experimentCall: CallResult, trialCall: CallResult,
                                     trainingImage: string, fit: FitResult)
    requires experimentCall != OtherException && trialCall != OtherException
    ensures var t := Run(a, experimentCall, trialCall, trainingImage, fit);
            && t[0].request.experimentName == t[2].spec.experimentConfig["ExperimentName"]
            && t[1].request.trialName == t[2].spec.experimentConfig["TrialName"]
            && t[1].request.parentExperiment == t[0].request.experimentName
  {
  }

  /** The arguments of the worked run below. */
  lemma ScenarioArguments()
    ensures ParseArgs(["training.py", "bucket", "prefix", "role", "asrole", "exp", "trial123"])
         == Some(Args("bucket", "prefix", "role", "asrole", "exp", "trial12"))
  {
    assert "trial123"[..7] == "trial12";
  }

  /**
    A worked run: bucket `bucket`, prefix `prefix`, experiment `exp`, trial
    source `trial123`, a trial that already exists, and a job the service
    names `exp-trial123`. Its last step writes these two documents.
   */
  lemma ScenarioRun()
    ensures var t := Run(Args("bucket", "prefix", "role", "asrole", "exp", "trial12"),
                         Succeeded, ClientError("ValidationException"), "image",
                         Completed("exp-trial123"));
            && |t| == 5
            && t[2].spec.baseJobName == "exp-trial12"
            && t[4] == Emit(ConfigQA("exp-trial123", "exp", "s3://bucket/prefix/output",
                                     "role", "image"),
                            ConfigProd("exp-trial123", "exp", "s3://bucket/prefix/output",
                                       "role", "image", "asrole"))
  {
    var a := Args("bucket", "prefix", "role", "asrole", "exp", "trial12");
    assert Paths("bucket", "prefix").output == "s3://bucket/prefix/output";
    assert JobBaseName("exp", "trial12") == "exp-trial12";
    assert Classify(ClientError("ValidationException")) == AlreadyExists;
    var tail := Train(a, "image", Completed("exp-trial123"));
    assert tail[2] == Emit(ConfigQA("exp-trial123", "exp", "s3://bucket/prefix/output",
                                    "role", "image"),
                           ConfigProd("exp-trial123", "exp", "s3://bucket/prefix/output",
                                      "role", "image", "asrole"));
  }

  /** The archive URL of the worked run's job. */
  lemma ScenarioArtifactUrl()
    ensures ArtifactUrl("s3://bucket/prefix/output", "exp-trial123")
         == "s3://bucket/prefix/output/exp-trial123/output/model.tar.gz"
  {
  }

  /** The QA document of the worked run. */
  lemma ScenarioQADocument()
    ensures var qa := ConfigQA("exp-trial123", "exp", "s3://bucket/prefix/output",
                               "role", "image").parameters;
            && qa[ModelNameKey] == "qa-exp-trial123"
            && qa[EndpointNameKey] == "qa-exp"
            && qa[ModelDataUrlKey]
               == "s3://bucket/prefix/output/exp-trial123/output/model.tar.gz"
  {
    var qa := ConfigQA("exp-trial123", "exp", "s3://bucket/prefix/output",
                       "role", "image").parameters;
    assert qa[ModelNameKey] == "qa-" + "exp-trial123";
    assert qa[EndpointNameKey] == "qa-" + "exp";
    ScenarioArtifactUrl();
  }

  /** The production document of the worked run. */
  lemma ScenarioProdDocument()
    ensures var prod := ConfigProd("exp-trial123", "exp", "s3://bucket/prefix/output",
                                   "role", "image", "asrole").parameters;
            && prod[ModelNameKey] == "prod-exp-trial123"
            && prod[EndpointNameKey] == "prod-exp"
            && prod[ModelDataUrlKey]
               == "s3://bucket/prefix/output/exp-trial123/output/model.tar.gz"
            && prod[AutoScalingRoleKey] == "asrole"
  {
    var prod := ConfigProd("exp-trial123", "exp", "s3://bucket/prefix/output",
                           "role", "image", "asrole").parameters;
    assert prod[ModelNameKey] == "prod-" + "exp-trial123";
    assert prod[EndpointNameKey] == "prod-" + "exp";
    ScenarioArtifactUrl();
  }
}
