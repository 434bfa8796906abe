# Training-run parameter derivation of the SageMaker pipeline scripts

This project models the deterministic part of the training entry point
`Source/training.py`. That script takes six positional arguments and cuts the
trial name to seven characters. It registers an experiment and a trial, and is
tolerant of registration errors. It builds the object-store locations and the
job base name, submits a training job and waits for it. When the job finishes,
it exports the two endpoint names and builds the QA and production
deployment-configuration documents that the infrastructure templates read.

Everything is pure: strings are `seq<char>`, documents are
`map<string, string>` wrapped in a one-field `Document` (the JSON object with a
single `Parameters` member). A Dafny 4 character is a Unicode scalar value. A
Python `str` element is any code point, lone surrogates included, so the model
covers exactly the arguments free of lone surrogates. A run is a sequence of `Step`s: registration,
submission, export, emission.

Modules:

- `Wrappers`: `Option`, the error path.
- `Arguments`: argument reading and trial-name truncation.
- `Registration`: the create requests and how the script classifies what they return.
- `Storage`: the `s3://bucket/prefix/...` locations.
- `Deployment`: the artifact URL, the two documents and the exported endpoint names.
  It also holds two partner definitions that are not in the source:
  - `ParseArtifactUrl` reads a job name back out of an artifact URL.
  - `Promote` rewrites a QA document into a production one.
- `Training`: the job specification and the whole run.

Opaque inputs supplied by the platform are parameters:

- the training image (`estimator.image_name`);
- the finished job's name (`estimator.latest_training_job.name`);
- the result of each create call (success, a client error with its code, or any other exception);
- whether the blocking training call returned or raised.

Registration is tolerant of less than it may seem. The handlers log and
swallow every error they catch, but they catch only the platform's
`ClientError`, so any other exception from
`create_experiment` or `create_trial` leaves the script. In the model that is
`CallResult.OtherException`; it is classified `Uncaught` and ends the run at
that step.

## Model

| member | source | states |
|---|---|---|
| Arguments.TruncateTrial | Source/training.py:18 | the trial name is a prefix of the raw argument, of length min(7, len(raw)); an argument of at most 7 characters comes back unchanged, and no input fails |
| Arguments.TruncateTrialIdempotent | Source/training.py:18 | truncating a trial name a second time changes nothing |
| Arguments.TruncateTrialCollides | Source/training.py:18 | two raw arguments give the same trial name exactly when both are at least 7 long and share their first 7 characters, or they are equal |
| Arguments.DistinctSourcesShareTrial | Source/training.py:18 | two different raw arguments (`training-run-1`, `training-run-2`) collide on the trial `trainin` |
| Arguments.ParseArgs | Source/training.py:13-18 | the arguments are read exactly when argv has at least 7 entries (otherwise the index error); bucket, prefix, roles and experiment are argv[1..5] and the trial is argv[6] truncated to its first 7 characters |
| Arguments.ParseArgsIgnoresExtra | Source/training.py:13-18 | entries after argv[6] do not change the arguments |
| Registration.ExperimentRequest | Source/training.py:28-32 | the experiment is created with its name as its display name and the description `MLOps experiment` |
| Registration.TrialRequest | Source/training.py:41-45 | the trial is created with its name as its display name, under the given experiment |
| Registration.Classify | Source/training.py:27-51 | success is Created; a client error with code `ValidationException` is AlreadyExists; any other client error is Unexpected; any other exception is Uncaught; each outcome in both directions |
| Registration.ClientErrorsNeverStop | Source/training.py:34-38 | every client error, whatever its code, is AlreadyExists or Unexpected and lets the workflow go on |
| Storage.Paths | Source/training.py:68-119 | output, debug, code, train and validation locations all start with `s3://bucket/prefix/`, are that root plus `output`, `code`, `data/train/`, `data/val/` respectively, and the debug location is the output location plus `/debug` |
| Storage.PathsDistinct | Source/training.py:68-119 | the five locations are pairwise different |
| Training.JobBaseName | Source/training.py:86 | the job base name starts with `exp + "-"` and the rest of it is the trial name |
| Training.JobBaseNameBounded | Source/training.py:18-86 | built from a truncated trial, the base name is at most 8 characters longer than the experiment name |
| Training.JobSpecFor | Source/training.py:68-135 | the submitted job uses the base name, the execution role and the five derived locations, and its experiment config names the run's experiment and trial, with the trial component displayed as `Training` |
| Training.Train | Source/training.py:128-172 | after submission there is nothing more if the training call raised; otherwise the endpoint names are exported and then the QA and production documents of the completed job, the run's experiment, output path, roles and training image are written |
| Training.Run | Source/training.py:27-172 | a run first registers the experiment, then (unless that raised) the trial; a raising create call ends the run at its own step; it submits the job exactly when neither create call raised, and writes documents exactly when the job was submitted and completed, as its fifth and last step after exporting the endpoint names; from the submission on, the steps are exactly those of `Train`; the documents are the QA and production documents of the completed job, the run's experiment, output path, roles and training image |
| Training.RegistrationNeverBlocksTraining | Source/training.py:27-135 | whatever client errors registration meets, the third step is the submission of the run's job |
| Training.RegistrationDoesNotAffectResult | Source/training.py:27-135 | two runs whose registrations end in different non-raising outcomes submit the same job and produce the same later steps |
| Training.ExistingTrialStillTrains | Source/training.py:40-51 | when the trial already exists (`ValidationException`), the trial step records AlreadyExists and the job is still submitted right after it |
| Training.FailedTrainingEmitsNothing | Source/training.py:128-145 | when the training call raises, no environment value is exported and no document is written |
| Training.EmittedDocumentsReferenceTrainedJob | Source/training.py:137-172 | in a completed run both written documents' archive URLs parse back to the trained job's name, and the exported endpoint names equal the documents' `EndpointName`s |
| Training.JobAttachedToRegisteredTrial | Source/training.py:40-135 | whatever non-raising outcome each create call had, the trial request named the experiment request's experiment, and the job's experiment config repeats the names sent in the two create requests |
| Deployment.ArtifactUrl | Source/training.py:155 | the archive URL starts with `output_path + "/"`, ends with `/output/model.tar.gz`, and what lies between is the job name |
| Deployment.ParseArtifactUrlInverts | Source/training.py:155 | reading the job name back out of an archive URL gives the job it was built from |
| Deployment.ParseArtifactUrlSound | Source/training.py:155 | any URL from which a job name can be read is that job's archive URL |
| Deployment.ArtifactUrlInjective | Source/training.py:155 | two jobs share an archive URL under one output path exactly when they are the same job |
| Deployment.ConfigQA | Source/training.py:149-159 | the QA document has exactly the six keys and no `AutoScalingRole`; `ModelName` and `EndpointConfigName` are `qa-` + job name, `EndpointName` is `qa-` + experiment, `ModelDataUrl` is the job's archive URL, role and image are the given ones |
| Deployment.ConfigProd | Source/training.py:161-172 | the production document has the QA key set plus `AutoScalingRole`, set to the autoscaling role, and the same six fields with the `prod-` prefix |
| Deployment.DocumentsShareArtifact | Source/training.py:149-172 | `ModelDataUrl`, `SageMakerRole` and `SageMakerImage` are equal in the two documents, and the production keys exceed the QA keys by `AutoScalingRole` alone |
| Deployment.DocumentsReferenceJob | Source/training.py:155-167 | each document's `ModelDataUrl` parses back to exactly the job it was built from |
| Deployment.StageNamesDisjoint | Source/training.py:152-166 | no `qa-` name equals a `prod-` name, whatever they are built from |
| Deployment.ProductionIsPromotedQA | Source/training.py:149-172 | the production document is the QA document with `qa-` replaced by `prod-` in the three name fields and `AutoScalingRole` added, nothing else changed |
| Deployment.EndpointEnv | Source/training.py:144-145 | exactly the two variables are set, to `qa-` and `prod-` followed by the experiment name |
| Deployment.EnvMatchesDocuments | Source/training.py:144-165 | each exported endpoint name equals the `EndpointName` of the corresponding document |
| Training.ScenarioArguments | Source/training.py:13-18 | the worked run's argv yields bucket `bucket`, prefix `prefix`, experiment `exp` and trial `trial12` |
| Training.ScenarioRun | Source/training.py:27-172 | the worked run, with the trial already existing, submits `exp-trial12` and writes the documents for job `exp-trial123` under `s3://bucket/prefix/output` |
| Training.ScenarioArtifactUrl | Source/training.py:155 | the worked run's archive URL is `s3://bucket/prefix/output/exp-trial123/output/model.tar.gz` |
| Training.ScenarioQADocument | Source/training.py:149-159 | the worked run's QA document has `ModelName` `qa-exp-trial123`, `EndpointName` `qa-exp` and that archive URL |
| Training.ScenarioProdDocument | Source/training.py:161-172 | the worked run's production document has `ModelName` `prod-exp-trial123`, `EndpointName` `prod-exp`, the same archive URL and the autoscaling role |

## Left out

- Platform calls (`create_experiment`, `create_trial`, the `XGBoost` estimator, `DebuggerHookConfig`, `Rule.sagemaker`, `s3_input`, `estimator.image_name`, `fit(..., wait=True)`): they belong to the platform SDK and their behaviour is not in this code. The results of the two create calls and of `fit`, and the image name, are parameters of `Run`.
- `Run` assumes that creating the platform client (`Source/training.py:25`) and building the hook, the rule, the estimator and the two input channels (`Source/training.py:72-121`) never raise. So its `Submit` step means that `fit` was called; a failure while building the job before that call is not modelled.
- Arguments containing lone surrogates (the code points U+D800 to U+DFFF) have no Dafny `string`, so they are outside the model. On POSIX, Python's `sys.argv` produces such code points (U+DC80 to U+DCFF) for bytes that do not decode, and the slice at `Source/training.py:18` counts each as one character.
- The fixed literals handed to the platform: hyperparameters, debugger collections and save interval, rule parameters, instance type and count, framework and Python versions, entry point and source directory, content types. They are constants with no logic.
- That the job's archive really sits at `output_path/job_name/output/model.tar.gz` is the platform's convention. The model states only that the documents name this URL.
- Whether the platform actually holds the trial under the experiment is not modelled. After an `Unexpected` outcome nothing may have been created. After `AlreadyExists`, a truncated trial name may already belong to another experiment. The model states only the names the script sends.
- JSON serialisation and the two file writes: the documents are kept as maps. Overwriting the files is a filesystem effect.
- Setting `os.environ`: only the two values are modelled (`EndpointEnv`), not the mutation of the process environment.
- Printing, log messages and timing (`time.time`).
- `Source/test.py` (reads a document, calls a live endpoint, asserts three fixed classes) and `Source/monitor_baseline.py` (two path strings and one blocking platform call) are not part of this model.
