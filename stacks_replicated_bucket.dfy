/**
 * The earlier `ReplicatedBucket` construct: as the current one, without a destination
 * storage class, with delete-marker replication on, and with the supplied key and the
 * bucket both set to be destroyed with the stack.
 */
module StacksReplicatedBucket {
  import opened Wrappers
  import opened Naming
  import opened Policy
  import opened Permissions
  import opened Rules
  import opened Plan
  import opened Steps

  /** The construct's props; `bucketProps` holds the remaining `s3.BucketProps` fields. */
  datatype ArchiveProps = ArchiveProps(bucketName: string, replicateTo: seq<string>, bucketProps: BucketProps)

  /** The props the source bucket is created with: the caller's, with versioning forced on. */
  function SourceBucketProps(props: ArchiveProps): BucketProps {
    props.bucketProps.(bucketName := Some(props.bucketName), encryptionKey := Some(KeyOf(SuppliedKey)),
                       versioned := Some(true))
  }

  /** The bucket, the two removal-policy overrides and the bucket's two Deny statements. */
  method CreateSourceBucket(t: Tree, props: ArchiveProps)
    requires t.Valid() && t.bucket.None? && t.removal == map[] && t.bucketPolicy == []
    modifies t`bucket, t`removal, t`bucketPolicy
    ensures t.Valid()
    ensures t.bucket == Some(SourceBucketProps(props))
    ensures t.removal == map[BucketResource := Destroy, KeyResource(SuppliedKey) := Destroy]
    ensures t.bucketPolicy == DenyStatements()
  {
    t.CreateBucket(SourceBucketProps(props));
    t.ApplyRemovalPolicy(KeyResource(SuppliedKey), Destroy);
    t.ApplyRemovalPolicy(BucketResource, Destroy);
    AddDenyStatements(t);
  }

  class ReplicatedBucket {
    const account: string
    const region: string
    /** The construct's subtree; `tree.bucket` is `sourceBucket`. */
    const tree: Tree

    constructor (env: Env, props: ArchiveProps)
      ensures account == env.account && region == env.region
      ensures fresh(tree) && tree.Valid()
      ensures tree.keys == {} && tree.aliases == []
      ensures tree.bucket == Some(SourceBucketProps(props))
      ensures tree.bucket.value.versioned == Some(true)
      ensures tree.removal == map[BucketResource := Destroy, KeyResource(SuppliedKey) := Destroy]
      ensures tree.bucketPolicy == DenyStatements()
      ensures tree.roles == FinalRoles(props.bucketName, env, props.replicateTo, None)
      ensures tree.stackSet == Some(ReplicationStackSet(props.bucketName, env, props.replicateTo))
      ensures tree.decryptGrants == [DecryptGrant(SuppliedKey, ReplicationRoleId)]
      ensures tree.replication == Some(ReplicationConfiguration(
                RoleArn(ReplicationRoleId),
                RuleTable(props.bucketName, env.account, props.replicateTo, None, Some(Enabled))))
      ensures tree.dependsOn == [Edge(StackSetNode, RoleNode(ExecutionRoleId)), Edge(BucketNode, StackSetNode)]
    {
      var b, regions := props.bucketName, props.replicateTo;
      var t := new Tree();
      CreateSourceBucket(t, props);
      DeclareReplication(t, SuppliedKey, b, env, regions, None, None, Some(Enabled));
      account, region, tree := env.account, env.region, t;
    }
  }
}
