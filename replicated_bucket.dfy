/**
 * The `ReplicatedBucket` construct: a versioned source bucket, encrypted with a key the
 * caller supplies, replicated to every listed region through a self-managed stack set.
 */
module ReplicatedBucketConstruct {
  import opened Wrappers
  import opened Naming
  import opened Policy
  import opened Permissions
  import opened Rules
  import opened Plan
  import opened Steps

  /** An `s3.StorageClass`, known by its name. */
  datatype StorageClass = StorageClass(value: string)

  /** The construct's props. `bucketProps` holds the remaining `s3.BucketProps` fields,
      which are passed on to the bucket; its `bucketName` and `encryptionKey` are the
      required ones here, the key being the one the caller supplies. */
  datatype ArchiveProps = ArchiveProps(
    bucketName: string,
    replicateTo: seq<string>,
    destinationStorageClass: Option<StorageClass>,
    bucketProps: BucketProps)

  /** The props the source bucket is created with: the caller's, with versioning forced on. */
  function SourceBucketProps(props: ArchiveProps): BucketProps {
    props.bucketProps.(bucketName := Some(props.bucketName), encryptionKey := Some(KeyOf(SuppliedKey)),
                       versioned := Some(true))
  }

  /** The storage class named on every rule: `destinationStorageClass.toString()` when given. */
  function RuleStorageClass(props: ArchiveProps): Option<string> {
    if props.destinationStorageClass.Some? then Some(props.destinationStorageClass.value.value) else None
  }

  /** The bucket and its two Deny statements. */
  method CreateSourceBucket(t: Tree, props: ArchiveProps)
    requires t.Valid() && t.bucket.None? && t.removal == map[] && t.bucketPolicy == []
    modifies t`bucket, t`removal, t`bucketPolicy
    ensures t.Valid()
    ensures t.bucket == Some(SourceBucketProps(props))
    ensures t.removal == map[BucketResource := props.bucketProps.removalPolicy.GetOr(Retain)]
    ensures t.bucketPolicy == DenyStatements()
  {
    t.CreateBucket(SourceBucketProps(props));
    AddDenyStatements(t);
  }

  class ReplicatedBucket {
    const account: string
    const region: string
    /** The construct's subtree; `tree.bucket` is `sourceBucket`. */
    const tree: Tree

    constructor (env: Env, props: ArchiveProps)
      ensures account == env.account && region == env.region
      ensures fresh(tree) && tree.Valid()
      ensures tree.keys == {} && tree.aliases == []
      ensures tree.bucket == Some(SourceBucketProps(props))
      ensures tree.bucket.value.versioned == Some(true)
      ensures tree.removal == map[BucketResource := props.bucketProps.removalPolicy.GetOr(Retain)]
      ensures tree.bucketPolicy == DenyStatements()
      ensures tree.roles == FinalRoles(props.bucketName, env, props.replicateTo, None)
      ensures tree.stackSet == Some(ReplicationStackSet(props.bucketName, env, props.replicateTo))
      ensures tree.decryptGrants == [DecryptGrant(SuppliedKey, ReplicationRoleId)]
      ensures tree.replication == Some(ReplicationConfiguration(
                RoleArn(ReplicationRoleId),
                RuleTable(props.bucketName, env.account, props.replicateTo, RuleStorageClass(props), None)))
      ensures tree.dependsOn == [Edge(StackSetNode, RoleNode(ExecutionRoleId)), Edge(BucketNode, StackSetNode)]
    {
      var b, regions := props.bucketName, props.replicateTo;
      var t := new Tree();
      CreateSourceBucket(t, props);
      DeclareReplication(t, SuppliedKey, b, env, regions, None, RuleStorageClass(props), None);
      account, region, tree := env.account, env.region, t;
    }
  }
}
