/**
 * The naming convention shared by the three constructs. Replica buckets and
 * replica key aliases are created asynchronously by the StackSet in other
 * regions, so the constructs never hold references to them: they refer to them
 * by names formatted from the bucket name, the account and the region.
 *
 * `account` and `region` are CDK tokens in the source; here they are opaque
 * strings that are only ever concatenated.
 */
module Naming {

  /** The account and region of the enclosing CDK stack. */
  datatype Env = Env(account: string, region: string)

  /** `<bucketName>-replication`: the StackSet's name. */
  function StackSetName(bucketName: string): string {
    bucketName + "-replication"
  }

  /** `arn:aws:s3:::<bucketName>-replication-`: what every replica bucket ARN starts with. */
  function ReplicaBucketArnPrefix(bucketName: string): string {
    "arn:aws:s3:::" + bucketName + "-replication-"
  }

  /** `arn:aws:s3:::<bucketName>-replication-<region>`: the replica bucket in `region`. */
  function ReplicaBucketArn(bucketName: string, region: string): string {
    ReplicaBucketArnPrefix(bucketName) + region
  }

  /** The ARN of the replica bucket in `region` followed by `/` and a star: every object in it. */
  function ReplicaObjectsArn(bucketName: string, region: string): string {
    ReplicaBucketArn(bucketName, region) + "/*"
  }

  /** `arn:aws:s3:::<bucketName>-replication-*`: the execution role's S3 resource pattern. */
  function ReplicaBucketsPattern(bucketName: string): string {
    ReplicaBucketArnPrefix(bucketName) + "*"
  }

  /** `<bucketName>/replication`: the alias every replica key carries in its own region. */
  function ReplicaKeyAlias(bucketName: string): string {
    bucketName + "/replication"
  }

  /** The part of a replica key ARN that follows the region. */
  function ReplicaKeyArnTail(bucketName: string, account: string): string {
    ":" + account + ":alias/" + ReplicaKeyAlias(bucketName)
  }

  /** `arn:aws:kms:<region>:<account>:alias/<bucketName>/replication`. */
  function ReplicaKeyArn(bucketName: string, account: string, region: string): string {
    "arn:aws:kms:" + region + ReplicaKeyArnTail(bucketName, account)
  }

  /** `arn:aws:cloudformation:<region>:<account>:stackset/<bucketName>-replication:`:
      the fixed part of the StackSet's own ARN, before its generated id. */
  function StackSetArnPrefix(bucketName: string, env: Env): string {
    "arn:aws:cloudformation:" + env.region + ":" + env.account + ":stackset/" + StackSetName(bucketName) + ":"
  }

  /** The execution role's first CloudFormation resource: the StackSet itself. */
  function StackSetArnPattern(bucketName: string, env: Env): string {
    StackSetArnPrefix(bucketName, env) + "*"
  }

  /** `:<account>:stack/StackSet-<bucketName>-replication`: what follows the region in the
      ARN of every stack instance the StackSet deploys. */
  function StackInstanceArnTail(bucketName: string, account: string): string {
    ":" + account + ":stack/StackSet-" + StackSetName(bucketName)
  }

  /** The execution role's second CloudFormation resource: the StackSet's stack instances in
      any region, `arn:aws:cloudformation:*:<account>:stack/StackSet-<bucketName>-replication*`. */
  function StackInstancesPattern(bucketName: string, account: string): string {
    "arn:aws:cloudformation:*" + StackInstanceArnTail(bucketName, account) + "*"
  }

  /** The execution role's third CloudFormation resource: the stacks named `<bucketName>` in the
      stack's own region and account, and every id under them. */
  function BucketStacksPattern(bucketName: string, env: Env): string {
    "arn:aws:cloudformation:" + env.region + ":" + env.account + ":stack/" + bucketName + "/*"
  }

  /** Within one bucket the replica bucket names are collision-free: distinct regions
      give distinct ARNs. */
  lemma ReplicaBucketArnInjective(bucketName: string, r1: string, r2: string)
    ensures ReplicaBucketArn(bucketName, r1) == ReplicaBucketArn(bucketName, r2) <==> r1 == r2
  {
    var p := ReplicaBucketArnPrefix(bucketName);
    if ReplicaBucketArn(bucketName, r1) == ReplicaBucketArn(bucketName, r2) {
      assert r1 == (p + r1)[|p|..];
      assert r2 == (p + r2)[|p|..];
    }
  }

  /** Within one bucket and account the replica key ARNs are collision-free: distinct
      regions give distinct ARNs, although the region sits in the middle of the ARN. */
  lemma ReplicaKeyArnInjective(bucketName: string, account: string, r1: string, r2: string)
    ensures ReplicaKeyArn(bucketName, account, r1) == ReplicaKeyArn(bucketName, account, r2) <==> r1 == r2
  {
    var h, t := "arn:aws:kms:", ReplicaKeyArnTail(bucketName, account);
    if ReplicaKeyArn(bucketName, account, r1) == ReplicaKeyArn(bucketName, account, r2) {
      assert ReplicaKeyArn(bucketName, account, r1) == h + r1 + t;
      assert ReplicaKeyArn(bucketName, account, r2) == h + r2 + t;
      assert |r1| == |r2|;
      assert r1 == (h + r1 + t)[|h|..|h| + |r1|];
      assert r2 == (h + r2 + t)[|h|..|h| + |r2|];
    }
  }

  /** An object ARN of one replica bucket starts with `<replica bucket ARN of r1>/` only when
      it lies in the replica bucket of `r1` itself, provided neither region holds a `/`. With a
      `/` in a region this fails: `...-replication-r1/x/k` starts with `...-replication-r1/`. */
  lemma ReplicaObjectsPrefixDeterminesRegion(bucketName: string, r1: string, r2: string, objectKey: string)
    requires '/' !in r1 && '/' !in r2
    requires var p := ReplicaBucketArn(bucketName, r1) + "/";
             var s := ReplicaBucketArn(bucketName, r2) + "/" + objectKey;
             |p| <= |s| && s[..|p|] == p
    ensures r1 == r2
  {
    var h := ReplicaBucketArnPrefix(bucketName);
    var p := ReplicaBucketArn(bucketName, r1) + "/";
    var s := ReplicaBucketArn(bucketName, r2) + "/" + objectKey;
    assert p == h + r1 + "/";
    assert s == h + r2 + "/" + objectKey;
    // the first `/` after the prefix sits right after the region, in both ARNs
    assert forall i | |h| <= i < |h| + |r2| :: s[i] == r2[i - |h|] && r2[i - |h|] in r2;
    assert s[|h| + |r1|] == p[|h| + |r1|] == '/';
    assert |r2| <= |r1|;
    assert forall i | |h| <= i < |h| + |r1| :: p[i] == r1[i - |h|] && r1[i - |h|] in r1;
    assert p[|h| + |r2|] == s[|h| + |r2|] == '/';
    assert |r1| == |r2|;
    assert r1 == p[|h|..|h| + |r1|];
    assert r2 == s[|h|..|h| + |r2|];
    assert s[|h|..|h| + |r2|] == s[..|p|][|h|..|h| + |r1|];
  }

  /** The convention is NOT collision-free across bucket names: bucket `x` replicating to a
      "region" `a-replication-b` names the same replica as bucket `x-replication-a` replicating
      to `b`. Real region names never contain `-replication-`, so this cannot happen with them. */
  lemma ReplicaNamesCollideAcrossBuckets()
    ensures ReplicaBucketArn("x", "a-replication-b") == ReplicaBucketArn("x-replication-a", "b")
  {
  }
}
