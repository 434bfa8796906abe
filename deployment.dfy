/**
  The two deployment-configuration documents written after training, and the
  endpoint names exported for the next pipeline stage.
 */
module Deployment {
  import opened Wrappers

  const ModelNameKey: string := "ModelName"
  const EndpointNameKey: string := "EndpointName"
  const EndpointConfigNameKey: string := "EndpointConfigName"
  const ModelDataUrlKey: string := "ModelDataUrl"
  const RoleKey: string := "SageMakerRole"
  const ImageKey: string := "SageMakerImage"
  const AutoScalingRoleKey: string := "AutoScalingRole"

  /** Keys of the QA document's `Parameters` object. */
  const QAKeys: set<string> :=
    {ModelNameKey, EndpointNameKey, EndpointConfigNameKey, ModelDataUrlKey, RoleKey, ImageKey}

  /** Keys whose values carry the stage prefix. */
  const NameKeys: set<string> := {ModelNameKey, EndpointNameKey, EndpointConfigNameKey}

  const QAPrefix: string := "qa-"
  const ProdPrefix: string := "prod-"

  /** Where the trained model archive sits under the job's output directory. */
  const ArtifactSuffix: string := "/output/model.tar.gz"

  /** Environment variables that carry the two endpoint names. */
  const QAEndpointVar: string := "QA_ENDPOINT_NAME"
  const ProdEndpointVar: string := "PROD_ENDPOINT_NAME"

  /** A document is an object with one member, `Parameters`, a string-to-string map. */
  datatype Document = Document(parameters: map<string, string>)

  datatype Stage = QA | Prod

  function StagePrefix(s: Stage): string {
    match s
    case QA => QAPrefix
    case Prod => ProdPrefix
  }

  /** The model archive of job `jobName` under the run's output path. */
  function ArtifactUrl(outputPath: string, jobName: string): (u: string)
    ensures outputPath + "/" <= u
    ensures |u| == |outputPath| + 1 + |jobName| + |ArtifactSuffix|
    ensures u[|outputPath| + 1 .. |u| - |ArtifactSuffix|] == jobName
    ensures u[|u| - |ArtifactSuffix| ..] == ArtifactSuffix
  {
    outputPath + "/" + jobName + ArtifactSuffix
  }

  /** Reads the job name back out of an artifact URL under `outputPath`. */
  function ParseArtifactUrl(outputPath: string, url: string): Option<string> {
    var head := outputPath + "/";
    if |url| >= |head| + |ArtifactSuffix| && url[..|head|] == head
       && url[|url| - |ArtifactSuffix|..] == ArtifactSuffix
    then Some(url[|head|..|url| - |ArtifactSuffix|])
    else None
  }

  /** The URL names its job: parsing it gives that job back. */
  lemma ParseArtifactUrlInverts(outputPath: string, jobName: string)
    ensures ParseArtifactUrl(outputPath, ArtifactUrl(outputPath, jobName)) == Some(jobName)
  {
  }

  /** Whatever parses is the artifact URL of the job it names. */
  lemma ParseArtifactUrlSound(outputPath: string, url: string)
    requires ParseArtifactUrl(outputPath, url).Some?
    ensures url == ArtifactUrl(outputPath, ParseArtifactUrl(outputPath, url).value)
  {
  }

  /** Different jobs never share an artifact URL. */
  lemma ArtifactUrlInjective(outputPath: string, j1: string, j2: string)
    ensures ArtifactUrl(outputPath, j1) == ArtifactUrl(outputPath, j2) <==> j1 == j2
  {
  }

  /**
    The six fields both documents share, each for its stage: the two resource
    names from the job, the endpoint from the experiment, the archive of the job,
    the execution role and the training image.
   */
  ghost predicate Describes(d: Document, stage: Stage, jobName: string, expName: string,
                            outputPath: string, executionRole: string, trainingImage: string)
  {
    && QAKeys <= d.parameters.Keys
    && d.parameters[ModelNameKey] == StagePrefix(stage) + jobName
    && d.parameters[EndpointConfigNameKey] == d.parameters[ModelNameKey]
    && d.parameters[EndpointNameKey] == StagePrefix(stage) + expName
    && d.parameters[ModelDataUrlKey] == ArtifactUrl(outputPath, jobName)
    && d.parameters[RoleKey] == executionRole
    && d.parameters[ImageKey] == trainingImage
  }

  function ConfigQA(jobName: string, expName: string, outputPath: string,
                    executionRole: string, trainingImage: string): (d: Document)
    ensures d.parameters.Keys == QAKeys
    ensures AutoScalingRoleKey !in d.parameters
    ensures Describes(d, QA, jobName, expName, outputPath, executionRole, trainingImage)
  {
    Document(map[
      ModelNameKey := "qa-" + jobName,
      EndpointNameKey := "qa-" + expName,
      EndpointConfigNameKey := "qa-" + jobName,
      ModelDataUrlKey := outputPath + "/" + jobName + "/output/model.tar.gz",
      RoleKey := executionRole,
      ImageKey := trainingImage])
  }

  function ConfigProd(jobName: string, expName: string, outputPath: string,
                      executionRole: string, trainingImage: string,
                      autoscalingRole: string): (d: Document)
    ensures d.parameters.Keys == QAKeys + {AutoScalingRoleKey}
    ensures Describes(d, Prod, jobName, expName, outputPath, executionRole, trainingImage)
    ensures d.parameters[AutoScalingRoleKey] == autoscalingRole
  {
    Document(map[
      ModelNameKey := "prod-" + jobName,
      EndpointNameKey := "prod-" + expName,
      EndpointConfigNameKey := "prod-" + jobName,
      ModelDataUrlKey := outputPath + "/" + jobName + "/output/model.tar.gz",
      RoleKey := executionRole,
      ImageKey := trainingImage,
      AutoScalingRoleKey := autoscalingRole])
  }

  /** Both documents point at the same archive, role and image. */
  lemma DocumentsShareArtifact(jobName: string, expName: string, outputPath: string,
                               executionRole: string, trainingImage: string,
                               autoscalingRole: string)
    ensures var qa := ConfigQA(jobName, expName, outputPath, executionRole, trainingImage).parameters;
            var prod := ConfigProd(jobName, expName, outputPath, executionRole, trainingImage,
                                   autoscalingRole).parameters;
            && qa[ModelDataUrlKey] == prod[ModelDataUrlKey]
            && qa[RoleKey] == prod[RoleKey]
            && qa[ImageKey] == prod[ImageKey]
            && prod.Keys - qa.Keys == {AutoScalingRoleKey}
  {
  }

  /**
    Each document's archive URL names the job it was built from, so a document
    can never point at another job's model.
   */
  lemma DocumentsReferenceJob(jobName: string, expName: string, outputPath: string,
                              executionRole: string, trainingImage: string,
                              autoscalingRole: string)
    ensures ParseArtifactUrl(outputPath,
              ConfigQA(jobName, expName, outputPath, executionRole, trainingImage)
                .parameters[ModelDataUrlKey]) == Some(jobName)
    ensures ParseArtifactUrl(outputPath,
              ConfigProd(jobName, expName, outputPath, executionRole, trainingImage, autoscalingRole)
                .parameters[ModelDataUrlKey]) == Some(jobName)
  {
  }

  /** A QA name and a production name never coincide, whatever they are built from. */
  lemma StageNamesDisjoint(a: string, b: string)
    ensures QAPrefix + a != ProdPrefix + b
  {
    assert (QAPrefix + a)[0] == 'q';
    assert (ProdPrefix + b)[0] == 'p';
  }

  /** Replaces a leading `qa-` by `prod-`. */
  function Restage(name: string): string {
    if QAPrefix <= name then ProdPrefix + name[|QAPrefix|..] else name
  }

  /** The production document as a rewrite of the QA one plus the autoscaling role. */
  function Promote(qa: Document, autoscalingRole: string): Document {
    Document(map k | k in qa.parameters.Keys + {AutoScalingRoleKey} ::
      if k == AutoScalingRoleKey then autoscalingRole
      else if k in NameKeys then Restage(qa.parameters[k])
      else qa.parameters[k])
  }

  /**
    The production document is the QA document with every stage prefix
    swapped and the autoscaling role added; nothing else differs.
   */
  lemma ProductionIsPromotedQA(jobName: string, expName: string, outputPath: string,
                               executionRole: string, trainingImage: string,
                               autoscalingRole: string)
    ensures ConfigProd(jobName, expName, outputPath, executionRole, trainingImage, autoscalingRole)
         == Promote(ConfigQA(jobName, expName, outputPath, executionRole, trainingImage),
                    autoscalingRole)
  {
  }

  /** The environment values exported for the two endpoints. */
  function EndpointEnv(expName: string): (env: map<string, string>)
    ensures env.Keys == {QAEndpointVar, ProdEndpointVar}
    ensures QAPrefix <= env[QAEndpointVar] && env[QAEndpointVar][|QAPrefix|..] == expName
    ensures ProdPrefix <= env[ProdEndpointVar] && env[ProdEndpointVar][|ProdPrefix|..] == expName
  {
    map[QAEndpointVar := "qa-" + expName, ProdEndpointVar := "prod-" + expName]
  }

  /** The exported names are the endpoints the two documents configure. */
  lemma EnvMatchesDocuments(jobName: string, expName: string, outputPath: string,
                            executionRole: string, trainingImage: string,
                            autoscalingRole: string)
    ensures EndpointEnv(expName)[QAEndpointVar]
         == ConfigQA(jobName, expName, outputPath, executionRole, trainingImage)
              .parameters[EndpointNameKey]
    ensures EndpointEnv(expName)[ProdEndpointVar]
         == ConfigProd(jobName, expName, outputPath, executionRole, trainingImage, autoscalingRole)
              .parameters[EndpointNameKey]
  {
  }
}
