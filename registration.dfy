/**
  Registration of the experiment and the trial before training, and the
  classification of what each create call returned.
 */
module Registration {

  /** The error code the script takes to mean that the resource already exists. */
  const AlreadyExistsCode: string := "ValidationException"

  /** Description given to every experiment the workflow creates. */
  const ExperimentDescription: string := "MLOps experiment"

  /** How a create call ended, as the script sees it. */
  datatype CallResult =
    | Succeeded
      /** The platform's client error, carrying `response['Error']['Code']`. */
    | ClientError(code: string)
      /** Any other exception: not caught by the script. */
    | OtherException

  /** The classification the script's handler makes. */
  datatype Outcome = Created | AlreadyExists | Unexpected | Uncaught

  /** The two create requests the script sends. */
  datatype Request =
    | CreateExperiment(experimentName: string, displayName: string, description: string)
    | CreateTrial(trialName: string, displayName: string, parentExperiment: string)

  function ExperimentRequest(expName: string): (q: Request)
    ensures q.CreateExperiment? && q.experimentName == q.displayName == expName
    ensures q.description == ExperimentDescription
  {
    CreateExperiment(expName, expName, ExperimentDescription)
  }

  function TrialRequest(trialName: string, expName: string): (q: Request)
    ensures q.CreateTrial? && q.trialName == q.displayName == trialName
    ensures q.parentExperiment == expName
  {
    CreateTrial(trialName, trialName, expName)
  }

  /**
    A client error whose code is `ValidationException` means "already exists";
    any other client error is "unexpected"; exceptions of other kinds escape.
   */
  function Classify(r: CallResult): (o: Outcome)
    ensures o == Created <==> r == Succeeded
    ensures o == AlreadyExists <==> r == ClientError(AlreadyExistsCode)
    ensures o == Unexpected <==> r.ClientError? && r.code != AlreadyExistsCode
    ensures o == Uncaught <==> r == OtherException
  {
    match r
    case Succeeded => Created
    case ClientError(code) => if code == AlreadyExistsCode then AlreadyExists else Unexpected
    case OtherException => Uncaught
  }

  /** Whether the workflow goes on after a registration with this outcome. */
  predicate Continues(o: Outcome) {
    o != Uncaught
  }

  /** No client error, whatever its code, stops the workflow. */
  lemma ClientErrorsNeverStop(code: string)
    ensures Continues(Classify(ClientError(code)))
    ensures Classify(ClientError(code)) in {AlreadyExists, Unexpected}
  {
  }
}
