/** The object-store locations the training run derives from (bucket, prefix). */
module Storage {

  /** The common root `s3://bucket/prefix/` of every location below. */
  function Root(bucket: string, prefix: string): string {
    "s3://" + bucket + "/" + prefix + "/"
  }

  /** Where the job writes, reads its code from, and reads its two data channels. */
  datatype Locations = Locations(
    output: string,
    debug: string,
    code: string,
    train: string,
    validation: string)

  /** Each location is built by its own format string. */
  function Paths(bucket: string, prefix: string): (p: Locations)
    ensures Root(bucket, prefix) <= p.output && Root(bucket, prefix) <= p.debug
    ensures Root(bucket, prefix) <= p.code
    ensures Root(bucket, prefix) <= p.train && Root(bucket, prefix) <= p.validation
    ensures p.output == Root(bucket, prefix) + "output"
    ensures p.code == Root(bucket, prefix) + "code"
    ensures p.train == Root(bucket, prefix) + "data/train/"
    ensures p.validation == Root(bucket, prefix) + "data/val/"
    ensures p.debug == p.output + "/debug"
  {
    Locations(
      "s3://" + bucket + "/" + prefix + "/output",
      "s3://" + bucket + "/" + prefix + "/output/debug",
      "s3://" + bucket + "/" + prefix + "/code",
      "s3://" + bucket + "/" + prefix + "/data/train/",
      "s3://" + bucket + "/" + prefix + "/data/val/")
  }

  /** The five locations never coincide, so no two kinds of data share a path. */
  lemma PathsDistinct(bucket: string, prefix: string)
    ensures var p := Paths(bucket, prefix);
            |{p.output, p.debug, p.code, p.train, p.validation}| == 5
  {
  }
}
