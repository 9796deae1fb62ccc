/**
 * The uploadKnowledge handler (amplify/functions/kb-upload/uploader.ts) up
 * to its S3 calls: argument validation, the choice of bucket, the object key
 * built from the normalised prefix, the region the bucket is written in, and
 * the JSON answer, which carries every error instead of throwing it. The two
 * S3 calls are parameters: the reply of the bucket-location lookup and the
 * error, if any, of the upload itself.
 */
module KbUpload {
  import opened Wrappers
  import opened JsString

  /** A JavaScript string value that may be undefined; '' and undefined are the falsy ones. */
  predicate Truthy(v: Option<string>) {
    v.Some? && v.value != ""
  }

  /** JavaScript's `v || fallback` on a string that may be undefined. */
  function OrElse(v: Option<string>, fallback: string): string {
    if Truthy(v) then v.value else fallback
  }

  /** The event arguments the handler reads; each may be undefined. */
  datatype UploadArgs = UploadArgs(fileName: Option<string>, contentBase64: Option<string>, bucket: Option<string>, prefix: Option<string>)

  /** The environment variables the handler reads. */
  datatype Env = Env(kbBucket: Option<string>, awsRegion: Option<string>)

  const ARGS_REQUIRED := "fileName and contentBase64 are required"
  const BUCKET_REQUIRED := "target bucket is required"
  const DEFAULT_REGION := "us-east-1"
  const PDF_TYPE := "application/pdf"

  /**
   * `prefix || ''`, then '' stays '' and anything else has `/\/?$/`
   * replaced by '/': a trailing slash is kept, a missing one appended.
   */
  function NormalizePrefix(prefix: Option<string>): string {
    var p := OrElse(prefix, "");
    if p == "" then ""
    else if p[|p| - 1] == '/' then p
    else p + "/"
  }

  /** The PutObject request the handler sends. */
  datatype PutRequest = PutRequest(bucket: string, key: string, region: string, contentType: string)

  /** The bucket and key, or the message of the first check that fails. */
  datatype Target = Target(bucket: string, key: string)

  function TargetOf(args: UploadArgs, env: Env): Result<Target, string> {
    if !Truthy(args.fileName) || !Truthy(args.contentBase64) then Failure(ARGS_REQUIRED)
    else
      var bucket := OrElse(env.kbBucket, OrElse(args.bucket, ""));
      if bucket == "" then Failure(BUCKET_REQUIRED)
      else Success(Target(bucket, NormalizePrefix(args.prefix) + args.fileName.value))
  }

  /** What GetBucketLocation gave back: its LocationConstraint, or an error. */
  datatype LocationReply = Located(constraint: Option<string>) | LookupFailed

  /**
   * resolveBucketRegion: an empty constraint means us-east-1, the legacy
   * 'EU' means eu-west-1, a failed lookup falls back to AWS_REGION.
   */
  function BucketRegion(reply: LocationReply, env: Env): string {
    match reply
    case Located(c) =>
      var loc := OrElse(c, DEFAULT_REGION);
      if loc == "EU" then "eu-west-1" else loc
    case LookupFailed => OrElse(env.awsRegion, DEFAULT_REGION)
  }

  function PutRequestOf(args: UploadArgs, env: Env, reply: LocationReply): Result<PutRequest, string> {
    match TargetOf(args, env)
    case Failure(e) => Failure(e)
    case Success(t) => Success(PutRequest(t.bucket, t.key, BucketRegion(reply, env), PDF_TYPE))
  }

  /** The JSON answer: `{success: true, key}` or `{success: false, error}`. */
  datatype Answer = Uploaded(key: string) | Failed(error: string)

  /** The whole handler, with the outcome of PutObject given as putError. */
  function Upload(args: UploadArgs, env: Env, reply: LocationReply, putError: Option<string>): Answer {
    match PutRequestOf(args, env, reply)
    case Failure(e) => Failed(e)
    case Success(req) =>
      match putError
      case Some(e) => Failed(e)
      case None => Uploaded(req.key)
  }

  /** A missing or empty fileName or contentBase64 fails before anything else, whatever S3 would do. */
  lemma MissingArguments(args: UploadArgs, env: Env, reply: LocationReply, putError: Option<string>)
    requires !Truthy(args.fileName) || !Truthy(args.contentBase64)
    ensures Upload(args, env, reply, putError) == Failed(ARGS_REQUIRED)
  {
  }

  /**
   * With both arguments present, the bucket is KB_S3_BUCKET when set, else
   * the bucket argument; with neither the call fails.
   */
  lemma BucketChoice(args: UploadArgs, env: Env)
    requires Truthy(args.fileName) && Truthy(args.contentBase64)
    ensures Truthy(env.kbBucket) ==> TargetOf(args, env).Success? && TargetOf(args, env).value.bucket == env.kbBucket.value
    ensures !Truthy(env.kbBucket) && Truthy(args.bucket) ==>
      TargetOf(args, env).Success? && TargetOf(args, env).value.bucket == args.bucket.value
    ensures !Truthy(env.kbBucket) && !Truthy(args.bucket) ==> TargetOf(args, env) == Failure(BUCKET_REQUIRED)
  {
  }

  /**
   * The normalised prefix is empty exactly for an empty or absent prefix;
   * otherwise it is the prefix followed by a single '/' only when the prefix
   * lacked one: it always ends in '/' and normalising it again changes nothing.
   */
  lemma NormalizePrefixSpec(prefix: Option<string>)
    ensures NormalizePrefix(prefix) == "" <==> !Truthy(prefix)
    ensures Truthy(prefix) && EndsWith(prefix.value, "/") ==> NormalizePrefix(prefix) == prefix.value
    ensures Truthy(prefix) && !EndsWith(prefix.value, "/") ==> NormalizePrefix(prefix) == prefix.value + "/"
    ensures Truthy(prefix) ==> EndsWith(NormalizePrefix(prefix), "/")
    ensures NormalizePrefix(Some(NormalizePrefix(prefix))) == NormalizePrefix(prefix)
  {
    var p := OrElse(prefix, "");
    if p != "" {
      var r := NormalizePrefix(prefix);
      assert r[|r| - 1..] == [r[|r| - 1]];
      if p[|p| - 1] != '/' {
        assert p[|p| - 1..] == [p[|p| - 1]];
      }
    }
  }

  /**
   * The key is the file name under the normalised prefix; with no prefix
   * it is the file name itself, and the file name can always be read back
   * off the end of the key.
   */
  lemma KeySpec(args: UploadArgs, env: Env)
    requires TargetOf(args, env).Success?
    ensures args.fileName.Some?
    ensures TargetOf(args, env).value.key == NormalizePrefix(args.prefix) + args.fileName.value
    ensures !Truthy(args.prefix) ==> TargetOf(args, env).value.key == args.fileName.value
    ensures EndsWith(TargetOf(args, env).value.key, args.fileName.value)
  {
    var key := TargetOf(args, env).value.key;
    var n := NormalizePrefix(args.prefix);
    assert key[|key| - |args.fileName.value|..] == key[|n|..];
    if !Truthy(args.prefix) {
      assert n == "";
    }
  }

  /**
   * The region mapping: no constraint means us-east-1, 'EU' means
   * eu-west-1, any other constraint is used unchanged, and a failed lookup
   * gives AWS_REGION or us-east-1. The region is never empty.
   */
  lemma RegionSpec(reply: LocationReply, env: Env)
    ensures reply.Located? && !Truthy(reply.constraint) ==> BucketRegion(reply, env) == DEFAULT_REGION
    ensures reply.Located? && reply.constraint == Some("EU") ==> BucketRegion(reply, env) == "eu-west-1"
    ensures reply.Located? && Truthy(reply.constraint) && reply.constraint.value != "EU" ==>
      BucketRegion(reply, env) == reply.constraint.value
    ensures reply.LookupFailed? && Truthy(env.awsRegion) ==> BucketRegion(reply, env) == env.awsRegion.value
    ensures reply.LookupFailed? && !Truthy(env.awsRegion) ==> BucketRegion(reply, env) == DEFAULT_REGION
    ensures BucketRegion(reply, env) != ""
  {
  }

  /**
   * The answer reports success exactly when the checks pass and PutObject
   * succeeds, and then names the key that was written; every other outcome
   * is a failure carrying the check's message or the S3 error.
   */
  lemma UploadSpec(args: UploadArgs, env: Env, reply: LocationReply, putError: Option<string>)
    ensures Upload(args, env, reply, putError).Uploaded? <==> TargetOf(args, env).Success? && putError.None?
    ensures Upload(args, env, reply, putError).Uploaded? ==>
      Upload(args, env, reply, putError).key == TargetOf(args, env).value.key
    ensures TargetOf(args, env).Failure? ==> Upload(args, env, reply, putError) == Failed(TargetOf(args, env).error)
    ensures TargetOf(args, env).Success? && putError.Some? ==> Upload(args, env, reply, putError) == Failed(putError.value)
  {
  }

  /** The request goes to the chosen bucket and key, in the resolved region, as a PDF. */
  lemma PutRequestSpec(args: UploadArgs, env: Env, reply: LocationReply)
    ensures PutRequestOf(args, env, reply).Success? <==> TargetOf(args, env).Success?
    ensures PutRequestOf(args, env, reply).Success? ==>
      PutRequestOf(args, env, reply).value.bucket == TargetOf(args, env).value.bucket
      && PutRequestOf(args, env, reply).value.key == TargetOf(args, env).value.key
      && PutRequestOf(args, env, reply).value.region == BucketRegion(reply, env)
      && PutRequestOf(args, env, reply).value.contentType == PDF_TYPE
      && PutRequestOf(args, env, reply).value.bucket != ""
  {
  }
}
