/**
 * The `ArchiveStack` stack: it creates its own key and alias, a fully specified bucket
 * encrypted through that alias, and the same replication set-up, with an explicit
 * `kms:Decrypt` statement for the replication role and delete-marker replication on.
 */
module Archive {
  import opened Wrappers
  import opened Naming
  import opened Policy
  import opened Permissions
  import opened Rules
  import opened Plan
  import opened Steps

  /** The stack's props. `bucketProps` is accepted but not read. */
  datatype ArchiveProps = ArchiveProps(bucketName: string, replications: seq<string>, bucketProps: BucketProps)

  /** The bucket the stack declares, whatever the props say besides the name. */
  function ArchiveBucketProps(bucketName: string): BucketProps {
    BucketProps(Some(bucketName), Some(Kms), Some(AliasOf(StackKey, bucketName)), Some(BlockAll), Some(true),
                Some(true), Some(Retain), Some(BucketOwnerEnforced))
  }

  /** The key, its alias, the bucket, the two removal-policy overrides and the bucket's two
      Deny statements. */
  method CreateArchiveBucket(t: Tree, bucketName: string)
    requires t.Valid() && t.keys == {} && t.aliases == [] && t.bucket.None? && t.removal == map[]
    requires t.bucketPolicy == []
    modifies t`keys, t`aliases, t`bucket, t`removal, t`bucketPolicy
    ensures t.Valid()
    ensures t.keys == {StackKey} && t.aliases == [Alias(StackKey, bucketName)]
    ensures t.bucket == Some(ArchiveBucketProps(bucketName))
    ensures t.removal == map[KeyResource(StackKey) := Destroy, BucketResource := Destroy]
    ensures t.bucketPolicy == DenyStatements()
  {
    t.CreateKey(StackKey);
    t.AddAlias(StackKey, bucketName);
    t.CreateBucket(ArchiveBucketProps(bucketName));
    t.ApplyRemovalPolicy(KeyResource(StackKey), Destroy);
    t.ApplyRemovalPolicy(BucketResource, Destroy);
    AddDenyStatements(t);
  }

  class ArchiveStack {
    const account: string
    const region: string
    const tree: Tree

    constructor (env: Env, props: ArchiveProps)
      ensures account == env.account && region == env.region
      ensures fresh(tree) && tree.Valid()
      ensures tree.keys == {StackKey} && tree.aliases == [Alias(StackKey, props.bucketName)]
      ensures tree.bucket == Some(ArchiveBucketProps(props.bucketName))
      ensures var p := tree.bucket.value;
              && p.bucketName == Some(props.bucketName)
              && p.encryption == Some(Kms) && p.encryptionKey == Some(AliasOf(StackKey, props.bucketName))
              && p.blockPublicAccess == Some(BlockAll) && p.bucketKeyEnabled == Some(true)
              && p.versioned == Some(true) && p.objectOwnership == Some(BucketOwnerEnforced)
              && p.removalPolicy == Some(Retain)
      ensures tree.removal == map[KeyResource(StackKey) := Destroy, BucketResource := Destroy]
      ensures tree.bucketPolicy == DenyStatements()
      ensures tree.roles == FinalRoles(props.bucketName, env, props.replications, Some(StackKey))
      ensures tree.stackSet == Some(ReplicationStackSet(props.bucketName, env, props.replications))
      ensures tree.decryptGrants == [DecryptGrant(StackKey, ReplicationRoleId)]
      ensures tree.replication == Some(ReplicationConfiguration(
                RoleArn(ReplicationRoleId),
                RuleTable(props.bucketName, env.account, props.replications, None, Some(Enabled))))
      ensures tree.dependsOn == [Edge(StackSetNode, RoleNode(ExecutionRoleId)), Edge(BucketNode, StackSetNode)]
    {
      var b, regions := props.bucketName, props.replications;
      var t := new Tree();
      CreateArchiveBucket(t, b);
      // Here the Decrypt grant follows the two read statements; grants are kept apart from
      // the statements, so the subtree is the same as with the grant first.
      DeclareReplication(t, StackKey, b, env, regions, Some(StackKey), None, Some(Enabled));
      account, region, tree := env.account, env.region, t;
    }
  }

  /** The stack the application entry point declares: bucket `wese` in `eu-central-1`,
      replicated to `eu-west-1` and then `eu-north-1`. */
  lemma WeseArchive(account: string)
    ensures var rules := RuleTable("wese", account, ["eu-west-1", "eu-north-1"], None, Some(Enabled));
            && |rules| == 2
            && rules[0].id == "eu-west-1" && rules[0].priority == 0
            && rules[0].destinationBucket == "arn:aws:s3:::wese-replication-eu-west-1"
            && rules[1].id == "eu-north-1" && rules[1].priority == 1
            && rules[1].destinationBucket == "arn:aws:s3:::wese-replication-eu-north-1"
    ensures ReplicationStackSet("wese", Env(account, "eu-central-1"), ["eu-west-1", "eu-north-1"]).name
            == "wese-replication"
  {
    assert "arn:aws:s3:::" + "wese" == "arn:aws:s3:::wese";
    assert "arn:aws:s3:::wese" + "-replication-" == "arn:aws:s3:::wese-replication-";
    assert "arn:aws:s3:::wese-replication-" + "eu-west-1" == "arn:aws:s3:::wese-replication-eu-west-1";
    assert "arn:aws:s3:::wese-replication-" + "eu-north-1" == "arn:aws:s3:::wese-replication-eu-north-1";
    assert "wese" + "-replication" == "wese-replication";
  }
}
