/**
 * The policy statements and role definitions the three constructs write, and
 * what they mean under IAM's evaluation (module Policy).
 *
 * Bucket resource policy: two Deny statements to any principal.
 * Stack-set admin role: may only assume the execution role.
 * Stack-set execution role: KMS everywhere, S3 only on replica buckets, and
 * CloudFormation on the StackSet and its stacks.
 * Replication role: read the source bucket, optionally decrypt with the primary
 * key, and one statement each for encrypting with, replicating into and
 * managing the per-region replicas, whose resource lists follow the region list.
 */
module Permissions {
  import opened Wrappers
  import opened Naming
  import opened Policy

  /** An inline policy document attached to a role when the role is created. */
  datatype InlinePolicy = InlinePolicy(name: string, statements: seq<Statement>)

  /** An IAM role as the constructs create it; `statements` grows by `addToPolicy`. */
  datatype Role = Role(
    constructId: string,
    assumedBy: Principal,
    path: Option<string>,
    description: Option<string>,
    inlinePolicies: seq<InlinePolicy>,
    statements: seq<Statement>)

  function InlineStatements(policies: seq<InlinePolicy>): seq<Statement> {
    if |policies| == 0 then [] else policies[0].statements + InlineStatements(policies[1..])
  }

  /** Every statement that applies to a role: its inline policies, then what was added to it. */
  function RolePolicy(role: Role): seq<Statement> {
    InlineStatements(role.inlinePolicies) + role.statements
  }

  // ---------------------------------------------------------------------------
  // Bucket resource policy

  function DenyDeleteBucket(): Statement {
    Statement(None, Deny, [AnyPrincipal], ["s3:DeleteBucket"], [BucketArn])
  }

  function DenyDeleteObjectVersion(): Statement {
    Statement(None, Deny, [AnyPrincipal], ["s3:DeleteObjectVersion"], [ObjectsArn("*")])
  }

  /** The two statements every construct adds to its source bucket's resource policy. */
  function DenyStatements(): seq<Statement> {
    [DenyDeleteBucket(), DenyDeleteObjectVersion()]
  }

  // ---------------------------------------------------------------------------
  // Roles

  /** The role S3 assumes to replicate, created with no statements. */
  function ReplicationRoleDefinition(): Role {
    Role("ReplicationRole", ServicePrincipal("s3.amazonaws.com"), Some("/service-role/"), None, [], [])
  }

  /** The StackSet's execution role, assumable by the account, created with no statements. */
  function ExecutionRoleDefinition(bucketName: string): Role {
    Role("StackSetExecutionRole-" + bucketName, AccountRootPrincipal, None,
         Some("This role executes the stack set for this bucket"), [], [])
  }

  function AssumeExecutionRole(): Statement {
    Statement(None, Allow, [], ["sts:AssumeRole"], [RoleArn(ExecutionRoleId)])
  }

  /** The StackSet's administration role, assumable by CloudFormation, whose only policy is
      the inline `assumeRole` document. */
  function AdminRoleDefinition(bucketName: string): Role {
    Role("StackSetAdmin-" + bucketName, ServicePrincipal("cloudformation.amazonaws.com"), None,
         Some("This role is Admin for the stackSet"),
         [InlinePolicy("assumeRole", [AssumeExecutionRole()])], [])
  }

  // ---------------------------------------------------------------------------
  // Execution role statements

  function AllowKms(): Statement {
    Statement(Some("AllowKMS"), Allow, [], ["kms:*"], [Literal("*")])
  }

  function AllowS3(bucketName: string): Statement {
    Statement(Some("AllowS3"), Allow, [], ["s3:*"], [Literal(ReplicaBucketsPattern(bucketName))])
  }

  function CfPermissions(bucketName: string, env: Env): Statement {
    Statement(Some("CFPermissions"), Allow, [],
              ["cloudformation:*", "iam:PassRole", "iam:CreateServiceLinkedRole"],
              [Literal(StackSetArnPattern(bucketName, env)),
               Literal(StackInstancesPattern(bucketName, env.account)),
               Literal(BucketStacksPattern(bucketName, env))])
  }

  /** What the execution role holds once the three `addToPolicy` calls are done. */
  function ExecutionRolePolicy(bucketName: string, env: Env): seq<Statement> {
    [AllowKms(), AllowS3(bucketName), CfPermissions(bucketName, env)]
  }

  // ---------------------------------------------------------------------------
  // Replication role statements

  function ReadReplicationConfiguration(): Statement {
    Statement(None, Allow, [], ["s3:GetReplicationConfiguration", "s3:ListBucket"], [BucketArn])
  }

  function ReadObjectVersions(): Statement {
    Statement(None, Allow, [],
              ["s3:GetObjectVersion", "s3:GetObjectVersionAcl",
               "s3:GetObjectVersionForReplication", "s3:GetObjectVersionTagging"],
              [ObjectsArn("*")])
  }

  function DecryptWith(key: Key): Statement {
    Statement(None, Allow, [], ["kms:Decrypt"], [KeyArn(key)])
  }

  /** `regions.map(region => arn:aws:kms:<region>:<account>:alias/<bucketName>/replication)`. */
  function ReplicaKeyArns(bucketName: string, account: string, regions: seq<string>): seq<Ref> {
    seq(|regions|, i requires 0 <= i < |regions| => Literal(ReplicaKeyArn(bucketName, account, regions[i])))
  }

  /** `regions.map` onto the object ARNs of each region's replica bucket. */
  function ReplicaObjectsArns(bucketName: string, regions: seq<string>): seq<Ref> {
    seq(|regions|, i requires 0 <= i < |regions| => Literal(ReplicaObjectsArn(bucketName, regions[i])))
  }

  /** `regions.map(region => arn:aws:s3:::<bucketName>-replication-<region>)`. */
  function ReplicaBucketArns(bucketName: string, regions: seq<string>): seq<Ref> {
    seq(|regions|, i requires 0 <= i < |regions| => Literal(ReplicaBucketArn(bucketName, regions[i])))
  }

  function EncryptWithReplicaKeys(bucketName: string, account: string, regions: seq<string>): Statement {
    Statement(None, Allow, [], ["kms:Encrypt"], ReplicaKeyArns(bucketName, account, regions))
  }

  function ReplicateToReplicas(bucketName: string, regions: seq<string>): Statement {
    Statement(None, Allow, [], ["s3:ReplicateDelete", "s3:ReplicateObject", "s3:ReplicateTags"],
              ReplicaObjectsArns(bucketName, regions))
  }

  function ManageReplicaBuckets(bucketName: string, regions: seq<string>): Statement {
    Statement(None, Allow, [], ["s3:List*", "s3:GetBucketVersioning", "s3:PutBucketVersioning"],
              ReplicaBucketArns(bucketName, regions))
  }

  /** What the replication role holds once every `addToPolicy` call is done, in call order.
      `explicitDecrypt` is the key of an explicit `kms:Decrypt` statement, where a construct
      writes one besides `grantDecrypt`. */
  function ReplicationRolePolicy(bucketName: string, account: string, regions: seq<string>,
                                 explicitDecrypt: Option<Key>): seq<Statement>
  {
    [ReadReplicationConfiguration(), ReadObjectVersions()]
    + (if explicitDecrypt.Some? then [DecryptWith(explicitDecrypt.value)] else [])
    + [EncryptWithReplicaKeys(bucketName, account, regions),
       ReplicateToReplicas(bucketName, regions),
       ManageReplicaBuckets(bucketName, regions)]
  }

  // ---------------------------------------------------------------------------
  // What the statements mean

  lemma DenyDeleteBucketMatches(who: Principal)
    ensures Matches(DenyDeleteBucket(), who, "s3:DeleteBucket", BucketArn)
  {
    GlobSelf("s3:DeleteBucket");
    MatchesSingle(DenyDeleteBucket(), who, "s3:DeleteBucket", BucketArn);
  }

  lemma DenyDeleteObjectVersionMatches(who: Principal, objectKey: string)
    ensures Matches(DenyDeleteObjectVersion(), who, "s3:DeleteObjectVersion", ObjectsArn(objectKey))
  {
    GlobSelf("s3:DeleteObjectVersion");
    GlobStar(objectKey);
    MatchesSingle(DenyDeleteObjectVersion(), who, "s3:DeleteObjectVersion", ObjectsArn(objectKey));
  }

  /** Whatever else is later added to the bucket policy, deleting the bucket or any object
      version is explicitly denied to every principal. */
  lemma DeletionDeniedToEveryone(extra: seq<Statement>, who: Principal, objectKey: string)
    ensures Evaluate(DenyStatements() + extra, who, "s3:DeleteBucket", BucketArn) == ExplicitDeny
    ensures Evaluate(DenyStatements() + extra, who, "s3:DeleteObjectVersion", ObjectsArn(objectKey)) == ExplicitDeny
  {
    var policy := DenyStatements() + extra;
    assert DenyDeleteBucket() in policy && DenyDeleteObjectVersion() in policy;
    DenyDeleteBucketMatches(who);
    DenyWins(policy, DenyDeleteBucket(), who, "s3:DeleteBucket", BucketArn);
    DenyDeleteObjectVersionMatches(who, objectKey);
    DenyWins(policy, DenyDeleteObjectVersion(), who, "s3:DeleteObjectVersion", ObjectsArn(objectKey));
  }

  lemma DenyDeleteBucketMatchesOnly(who: Principal, action: string, resource: Ref)
    ensures Matches(DenyDeleteBucket(), who, action, resource) <==> action == "s3:DeleteBucket" && resource == BucketArn
  {
    GlobLiteral("s3:DeleteBucket", action);
    MatchesSingle(DenyDeleteBucket(), who, action, resource);
  }

  lemma DenyDeleteObjectVersionMatchesOnly(who: Principal, action: string, resource: Ref)
    ensures Matches(DenyDeleteObjectVersion(), who, action, resource) <==>
              action == "s3:DeleteObjectVersion" && resource.ObjectsArn?
  {
    GlobLiteral("s3:DeleteObjectVersion", action);
    if resource.ObjectsArn? {
      GlobStar(resource.keyPattern);
    }
    MatchesSingle(DenyDeleteObjectVersion(), who, action, resource);
  }

  /** The bucket policy denies exactly those two deletions and allows nothing. */
  lemma DenyStatementsDenyOnlyDeletion(who: Principal, action: string, resource: Ref)
    ensures Evaluate(DenyStatements(), who, action, resource) != Allowed
    ensures Evaluate(DenyStatements(), who, action, resource) == ExplicitDeny <==>
              (action == "s3:DeleteBucket" && resource == BucketArn)
              || (action == "s3:DeleteObjectVersion" && resource.ObjectsArn?)
  {
    DenyDeleteBucketMatchesOnly(who, action, resource);
    DenyDeleteObjectVersionMatchesOnly(who, action, resource);
    assert forall st | st in DenyStatements() :: st == DenyDeleteBucket() || st == DenyDeleteObjectVersion();
  }

  lemma AssumeExecutionRoleMatchesOnly(who: Principal, action: string, resource: Ref)
    ensures Matches(AssumeExecutionRole(), who, action, resource) <==>
              action == "sts:AssumeRole" && resource == RoleArn(ExecutionRoleId)
  {
    GlobLiteral("sts:AssumeRole", action);
    MatchesSingle(AssumeExecutionRole(), who, action, resource);
  }

  /** The admin role may do one thing only: assume the execution role. */
  lemma AdminRoleOnlyAssumesExecutionRole(bucketName: string, who: Principal, action: string, resource: Ref)
    ensures Evaluate(RolePolicy(AdminRoleDefinition(bucketName)), who, action, resource) == Allowed <==>
              action == "sts:AssumeRole" && resource == RoleArn(ExecutionRoleId)
  {
    var st := AssumeExecutionRole();
    assert RolePolicy(AdminRoleDefinition(bucketName)) == [st] by {
      assert InlineStatements(AdminRoleDefinition(bucketName).inlinePolicies) == [st] + InlineStatements([]);
    }
    AssumeExecutionRoleMatchesOnly(who, action, resource);
    AllowOnlyDecides([st], who, action, resource);
  }

  /** `s3:*` on `arn:aws:s3:::<bucketName>-replication-*` covers an S3 request on a literal ARN
      exactly when the ARN starts with the replica prefix. */
  lemma AllowS3MatchesOnly(bucketName: string, who: Principal, s3Action: string, arn: string)
    requires NoWildcards(bucketName)
    ensures Matches(AllowS3(bucketName), who, "s3:" + s3Action, Literal(arn)) <==>
              (|ReplicaBucketArnPrefix(bucketName)| <= |arn| && arn[..|ReplicaBucketArnPrefix(bucketName)|] == ReplicaBucketArnPrefix(bucketName))
  {
    var prefix := ReplicaBucketArnPrefix(bucketName);
    GlobStar(s3Action);
    GlobSelfThen("s3:", "*", s3Action);
    assert "s3:" + "*" == "s3:*";
    NoWildcardsConcat("arn:aws:s3:::", bucketName);
    NoWildcardsConcat("arn:aws:s3:::" + bucketName, "-replication-");
    GlobPrefixStar(prefix, arn);
    MatchesSingle(AllowS3(bucketName), who, "s3:" + s3Action, Literal(arn));
  }

  /** The KMS and CloudFormation statements of the execution role never cover an S3 action. */
  lemma NonS3StatementsIgnoreS3(bucketName: string, env: Env, who: Principal, s3Action: string, resource: Ref)
    ensures !Matches(AllowKms(), who, "s3:" + s3Action, resource)
    ensures !Matches(CfPermissions(bucketName, env), who, "s3:" + s3Action, resource)
  {
    var action := "s3:" + s3Action;
    assert action[0] == 's';
    forall a | a in AllowKms().actions + CfPermissions(bucketName, env).actions
      ensures !Glob(a, action)
    {
      GlobFirstMismatch(a, action);
    }
  }

  /** The execution role's S3 rights reach exactly the ARNs that start with
      `arn:aws:s3:::<bucketName>-replication-`; in particular not the source bucket and none of
      its objects. */
  lemma ExecutionRoleS3Scope(bucketName: string, env: Env, who: Principal, s3Action: string, arn: string,
                             objectKey: string)
    requires NoWildcards(bucketName)
    ensures Evaluate(ExecutionRolePolicy(bucketName, env), who, "s3:" + s3Action, Literal(arn)) == Allowed <==>
              (|ReplicaBucketArnPrefix(bucketName)| <= |arn| && arn[..|ReplicaBucketArnPrefix(bucketName)|] == ReplicaBucketArnPrefix(bucketName))
    ensures Evaluate(ExecutionRolePolicy(bucketName, env), who, "s3:" + s3Action, BucketArn) == ImplicitDeny
    ensures Evaluate(ExecutionRolePolicy(bucketName, env), who, "s3:" + s3Action, ObjectsArn(objectKey)) == ImplicitDeny
  {
    var action := "s3:" + s3Action;
    var policy := ExecutionRolePolicy(bucketName, env);
    var kms, s3, cf := AllowKms(), AllowS3(bucketName), CfPermissions(bucketName, env);
    assert AllowOnly(policy);
    assert forall st | st in policy :: st == kms || st == s3 || st == cf;
    NonS3StatementsIgnoreS3(bucketName, env, who, s3Action, Literal(arn));
    NonS3StatementsIgnoreS3(bucketName, env, who, s3Action, BucketArn);
    NonS3StatementsIgnoreS3(bucketName, env, who, s3Action, ObjectsArn(objectKey));
    AllowS3MatchesOnly(bucketName, who, s3Action, arn);
    assert !Matches(s3, who, action, BucketArn) && !Matches(s3, who, action, ObjectsArn(objectKey)) by {
      assert |ReplicaBucketsPattern(bucketName)| > 1;
      MatchesSingle(s3, who, action, BucketArn);
      MatchesSingle(s3, who, action, ObjectsArn(objectKey));
    }
    AllowOnlyDecides(policy, who, action, Literal(arn));
    AllowOnlyDecides(policy, who, action, BucketArn);
    AllowOnlyDecides(policy, who, action, ObjectsArn(objectKey));
  }

  lemma CfActionsCover(bucketName: string, env: Env, cfAction: string)
    ensures exists a | a in CfPermissions(bucketName, env).actions :: Glob(a, "cloudformation:" + cfAction)
  {
    GlobStar(cfAction);
    GlobSelfThen("cloudformation:", "*", cfAction);
    assert "cloudformation:" + "*" == "cloudformation:*";
    assert "cloudformation:*" in CfPermissions(bucketName, env).actions;
  }

  lemma CfCoversStackSet(bucketName: string, env: Env, who: Principal, cfAction: string, stackSetId: string)
    ensures Matches(CfPermissions(bucketName, env), who, "cloudformation:" + cfAction,
                    Literal(StackSetArnPrefix(bucketName, env) + stackSetId))
  {
    var cf := CfPermissions(bucketName, env);
    CfActionsCover(bucketName, env, cfAction);
    GlobStar(stackSetId);
    GlobSelfThen(StackSetArnPrefix(bucketName, env), "*", stackSetId);
    assert ResourceMatches(cf.resources[0], Literal(StackSetArnPrefix(bucketName, env) + stackSetId));
    assert cf.resources[0] in cf.resources;
  }

  lemma CfCoversStackInstances(bucketName: string, env: Env, who: Principal, cfAction: string,
                               region: string, stackSuffix: string)
    ensures Matches(CfPermissions(bucketName, env), who, "cloudformation:" + cfAction,
                    Literal("arn:aws:cloudformation:" + region + StackInstanceArnTail(bucketName, env.account) + stackSuffix))
  {
    var cf := CfPermissions(bucketName, env);
    var tail := StackInstanceArnTail(bucketName, env.account);
    var instanceArn := "arn:aws:cloudformation:" + region + tail + stackSuffix;
    CfActionsCover(bucketName, env, cfAction);
    GlobStarInfix("arn:aws:cloudformation:", tail, region, stackSuffix);
    assert "arn:aws:cloudformation:" + "*" == "arn:aws:cloudformation:*";
    assert ResourceMatches(cf.resources[1], Literal(instanceArn));
    assert cf.resources[1] in cf.resources;
  }

  /** The execution role may run CloudFormation on the StackSet (whatever id it is given) and
      on every stack instance it deploys, in any region. */
  lemma ExecutionRoleReachesStackSet(bucketName: string, env: Env, who: Principal, cfAction: string,
                                     stackSetId: string, region: string, stackSuffix: string)
    ensures Evaluate(ExecutionRolePolicy(bucketName, env), who, "cloudformation:" + cfAction,
                     Literal(StackSetArnPrefix(bucketName, env) + stackSetId)) == Allowed
    ensures Evaluate(ExecutionRolePolicy(bucketName, env), who, "cloudformation:" + cfAction,
                     Literal("arn:aws:cloudformation:" + region + StackInstanceArnTail(bucketName, env.account) + stackSuffix)) == Allowed
  {
    var cf := CfPermissions(bucketName, env);
    var policy := ExecutionRolePolicy(bucketName, env);
    var action := "cloudformation:" + cfAction;
    assert cf in policy && AllowOnly(policy);
    var stackSetArn := Literal(StackSetArnPrefix(bucketName, env) + stackSetId);
    var instanceArn := Literal("arn:aws:cloudformation:" + region + StackInstanceArnTail(bucketName, env.account) + stackSuffix);
    CfCoversStackSet(bucketName, env, who, cfAction, stackSetId);
    CfCoversStackInstances(bucketName, env, who, cfAction, region, stackSuffix);
    AllowOnlyDecides(policy, who, action, stackSetArn);
    AllowOnlyDecides(policy, who, action, instanceArn);
  }

  // ---------------------------------------------------------------------------
  // The replication role

  /** The statements of the replication role's policy, and that they are all Allow. */
  lemma ReplicationRolePolicyMembers(bucketName: string, account: string, regions: seq<string>,
                                     explicitDecrypt: Option<Key>, st: Statement)
    ensures AllowOnly(ReplicationRolePolicy(bucketName, account, regions, explicitDecrypt))
    ensures st in ReplicationRolePolicy(bucketName, account, regions, explicitDecrypt) <==>
              st == ReadReplicationConfiguration() || st == ReadObjectVersions()
              || (explicitDecrypt.Some? && st == DecryptWith(explicitDecrypt.value))
              || st == EncryptWithReplicaKeys(bucketName, account, regions)
              || st == ReplicateToReplicas(bucketName, regions)
              || st == ManageReplicaBuckets(bucketName, regions)
  {
  }

  /** Replica key ARNs are wildcard-free when their parts are. */
  lemma ReplicaKeyArnNoWildcards(bucketName: string, account: string, region: string)
    requires NoWildcards(bucketName) && NoWildcards(account) && NoWildcards(region)
    ensures NoWildcards(ReplicaKeyArn(bucketName, account, region))
  {
    NoWildcardsConcat(bucketName, "/replication");
    NoWildcardsConcat(":alias/", ReplicaKeyAlias(bucketName));
    NoWildcardsConcat(account, ":alias/" + ReplicaKeyAlias(bucketName));
    NoWildcardsConcat(":", account + (":alias/" + ReplicaKeyAlias(bucketName)));
    assert ReplicaKeyArnTail(bucketName, account) == ":" + (account + (":alias/" + ReplicaKeyAlias(bucketName)));
    NoWildcardsConcat(region, ReplicaKeyArnTail(bucketName, account));
    NoWildcardsConcat("arn:aws:kms:", region + ReplicaKeyArnTail(bucketName, account));
    assert ReplicaKeyArn(bucketName, account, region) == "arn:aws:kms:" + (region + ReplicaKeyArnTail(bucketName, account));
  }

  /** Replica bucket ARNs are wildcard-free when their parts are. */
  lemma ReplicaBucketArnNoWildcards(bucketName: string, region: string)
    requires NoWildcards(bucketName) && NoWildcards(region)
    ensures NoWildcards(ReplicaBucketArn(bucketName, region))
  {
    NoWildcardsConcat("arn:aws:s3:::", bucketName);
    NoWildcardsConcat("arn:aws:s3:::" + bucketName, "-replication-");
    NoWildcardsConcat(ReplicaBucketArnPrefix(bucketName), region);
  }

  lemma EncryptMatchesOnly(bucketName: string, account: string, regions: seq<string>, who: Principal, region: string)
    requires NoWildcards(bucketName) && NoWildcards(account)
    requires forall i | 0 <= i < |regions| :: NoWildcards(regions[i])
    ensures (Matches(EncryptWithReplicaKeys(bucketName, account, regions), who, "kms:Encrypt",
                     Literal(ReplicaKeyArn(bucketName, account, region))))
            <==> region in regions
  {
    var st := EncryptWithReplicaKeys(bucketName, account, regions);
    var target := ReplicaKeyArn(bucketName, account, region);
    GlobSelf("kms:Encrypt");
    assert "kms:Encrypt" in st.actions;
    if region in regions {
      var j :| 0 <= j < |regions| && regions[j] == region;
      GlobSelf(target);
      assert st.resources[j] == Literal(target) && st.resources[j] in st.resources;
    }
    if Matches(st, who, "kms:Encrypt", Literal(target)) {
      var r :| r in st.resources && ResourceMatches(r, Literal(target));
      var j :| 0 <= j < |regions| && st.resources[j] == r;
      ReplicaKeyArnNoWildcards(bucketName, account, regions[j]);
      GlobLiteral(ReplicaKeyArn(bucketName, account, regions[j]), target);
      ReplicaKeyArnInjective(bucketName, account, regions[j], region);
    }
  }

  /** With wildcard-free names, the replication role may encrypt with the replica key of a
      region exactly when that region is one of the targets: never across regions. */
  lemma EncryptAllowedExactlyForTargetRegions(bucketName: string, account: string, regions: seq<string>,
                                              explicitDecrypt: Option<Key>, who: Principal, region: string)
    requires NoWildcards(bucketName) && NoWildcards(account)
    requires forall i | 0 <= i < |regions| :: NoWildcards(regions[i])
    ensures (Evaluate(ReplicationRolePolicy(bucketName, account, regions, explicitDecrypt), who, "kms:Encrypt",
                      Literal(ReplicaKeyArn(bucketName, account, region))) == Allowed)
            <==> region in regions
  {
    var policy := ReplicationRolePolicy(bucketName, account, regions, explicitDecrypt);
    var action, target := "kms:Encrypt", Literal(ReplicaKeyArn(bucketName, account, region));
    forall st | st in policy && st != EncryptWithReplicaKeys(bucketName, account, regions)
      ensures !Matches(st, who, action, target)
    {
      ReplicationRolePolicyMembers(bucketName, account, regions, explicitDecrypt, st);
      if st == ReplicateToReplicas(bucketName, regions) || st == ManageReplicaBuckets(bucketName, regions) {
        forall a | a in st.actions ensures !Glob(a, action) {
          GlobFirstMismatch(a, action);
        }
        ActionMissed(st, who, action, target);
      } else {
        LiteralMissed(st, who, action, target.text);
      }
    }
    ReplicationRolePolicyMembers(bucketName, account, regions, explicitDecrypt, EncryptWithReplicaKeys(bucketName, account, regions));
    EncryptMatchesOnly(bucketName, account, regions, who, region);
    AllowOnlyDecides(policy, who, action, target);
  }

  /** With wildcard-free names, the replica bucket ARN of a region is among the listed ARNs
      exactly when the region is. */
  lemma ReplicaBucketArnsCover(bucketName: string, regions: seq<string>, region: string)
    requires NoWildcards(bucketName)
    requires forall i | 0 <= i < |regions| :: NoWildcards(regions[i])
    ensures (exists r | r in ReplicaBucketArns(bucketName, regions) ::
               ResourceMatches(r, Literal(ReplicaBucketArn(bucketName, region))))
            <==> region in regions
  {
    var arns := ReplicaBucketArns(bucketName, regions);
    var target := ReplicaBucketArn(bucketName, region);
    if region in regions {
      var j :| 0 <= j < |regions| && regions[j] == region;
      GlobSelf(target);
      assert arns[j] == Literal(target) && arns[j] in arns;
    }
    if exists r | r in arns :: ResourceMatches(r, Literal(target)) {
      var r :| r in arns && ResourceMatches(r, Literal(target));
      var j :| 0 <= j < |regions| && arns[j] == r;
      ReplicaBucketArnNoWildcards(bucketName, regions[j]);
      GlobLiteral(ReplicaBucketArn(bucketName, regions[j]), target);
      ReplicaBucketArnInjective(bucketName, regions[j], region);
    }
  }

  lemma ManageMatchesOnly(bucketName: string, regions: seq<string>, who: Principal, action: string, region: string)
    requires action == "s3:GetBucketVersioning" || action == "s3:PutBucketVersioning"
             || (|action| >= 7 && action[..7] == "s3:List")
    requires NoWildcards(bucketName)
    requires forall i | 0 <= i < |regions| :: NoWildcards(regions[i])
    ensures (Matches(ManageReplicaBuckets(bucketName, regions), who, action,
                     Literal(ReplicaBucketArn(bucketName, region))))
            <==> region in regions
  {
    var st := ManageReplicaBuckets(bucketName, regions);
    if action == "s3:GetBucketVersioning" || action == "s3:PutBucketVersioning" {
      GlobSelf(action);
      assert action in st.actions;
    } else {
      GlobPrefixStar("s3:List", action);
      assert "s3:List" + "*" == "s3:List*" && "s3:List*" in st.actions;
    }
    ReplicaBucketArnsCover(bucketName, regions, region);
  }

  lemma ReplicateMissesVersioning(bucketName: string, regions: seq<string>, who: Principal, action: string, target: Ref)
    requires action == "s3:GetBucketVersioning" || action == "s3:PutBucketVersioning"
    ensures !Matches(ReplicateToReplicas(bucketName, regions), who, action, target)
  {
    var st := ReplicateToReplicas(bucketName, regions);
    forall a | a in st.actions ensures !Glob(a, action) {
      GlobLiteral(a, action);
    }
  }

  /** With wildcard-free names, the replication role may read or set the versioning of the
      replica bucket of a region exactly when that region is one of the targets. */
  lemma VersioningAllowedExactlyForTargetRegions(bucketName: string, account: string, regions: seq<string>,
                                                 explicitDecrypt: Option<Key>, who: Principal,
                                                 action: string, region: string)
    requires action == "s3:GetBucketVersioning" || action == "s3:PutBucketVersioning"
    requires NoWildcards(bucketName)
    requires forall i | 0 <= i < |regions| :: NoWildcards(regions[i])
    ensures (Evaluate(ReplicationRolePolicy(bucketName, account, regions, explicitDecrypt), who, action,
                      Literal(ReplicaBucketArn(bucketName, region))) == Allowed)
            <==> region in regions
  {
    var policy := ReplicationRolePolicy(bucketName, account, regions, explicitDecrypt);
    var target := Literal(ReplicaBucketArn(bucketName, region));
    forall st | st in policy && st != ManageReplicaBuckets(bucketName, regions)
      ensures !Matches(st, who, action, target)
    {
      ReplicationRolePolicyMembers(bucketName, account, regions, explicitDecrypt, st);
      if st == EncryptWithReplicaKeys(bucketName, account, regions) {
        GlobFirstMismatch("kms:Encrypt", action);
        ActionMissed(st, who, action, target);
      } else if st == ReplicateToReplicas(bucketName, regions) {
        ReplicateMissesVersioning(bucketName, regions, who, action, target);
      } else {
        LiteralMissed(st, who, action, target.text);
      }
    }
    ReplicationRolePolicyMembers(bucketName, account, regions, explicitDecrypt, ManageReplicaBuckets(bucketName, regions));
    ManageMatchesOnly(bucketName, regions, who, action, region);
    AllowOnlyDecides(policy, who, action, target);
  }

  lemma ListMissedByOtherStatements(bucketName: string, account: string, regions: seq<string>,
                                    who: Principal, action: string, target: Ref)
    requires |action| >= 7 && action[..7] == "s3:List"
    ensures !Matches(EncryptWithReplicaKeys(bucketName, account, regions), who, action, target)
    ensures !Matches(ReplicateToReplicas(bucketName, regions), who, action, target)
  {
    assert action[0] == 's';
    GlobFirstMismatch("kms:Encrypt", action);
    var st := ReplicateToReplicas(bucketName, regions);
    forall a | a in st.actions ensures !Glob(a, action) {
      GlobLiteral(a, action);
      assert a[..7] == "s3:Repl";
    }
  }

  /** With wildcard-free names, the replication role may run an `s3:List...` action on the
      replica bucket of a region exactly when that region is one of the targets. */
  lemma ListAllowedExactlyForTargetRegions(bucketName: string, account: string, regions: seq<string>,
                                           explicitDecrypt: Option<Key>, who: Principal,
                                           action: string, region: string)
    requires |action| >= 7 && action[..7] == "s3:List"
    requires NoWildcards(bucketName)
    requires forall i | 0 <= i < |regions| :: NoWildcards(regions[i])
    ensures (Evaluate(ReplicationRolePolicy(bucketName, account, regions, explicitDecrypt), who, action,
                      Literal(ReplicaBucketArn(bucketName, region))) == Allowed)
            <==> region in regions
  {
    var policy := ReplicationRolePolicy(bucketName, account, regions, explicitDecrypt);
    var target := Literal(ReplicaBucketArn(bucketName, region));
    ListMissedByOtherStatements(bucketName, account, regions, who, action, target);
    forall st | st in policy && st != ManageReplicaBuckets(bucketName, regions)
      ensures !Matches(st, who, action, target)
    {
      ReplicationRolePolicyMembers(bucketName, account, regions, explicitDecrypt, st);
      if st != EncryptWithReplicaKeys(bucketName, account, regions) && st != ReplicateToReplicas(bucketName, regions) {
        LiteralMissed(st, who, action, target.text);
      }
    }
    ReplicationRolePolicyMembers(bucketName, account, regions, explicitDecrypt, ManageReplicaBuckets(bucketName, regions));
    ManageMatchesOnly(bucketName, regions, who, action, region);
    AllowOnlyDecides(policy, who, action, target);
  }

  /** With wildcard-free, `/`-free region names, an object ARN inside the replica bucket of a
      region is covered by one of the listed object patterns exactly when the region is listed. */
  lemma ReplicaObjectsArnsCover(bucketName: string, regions: seq<string>, region: string, objectKey: string)
    requires NoWildcards(bucketName)
    requires forall i | 0 <= i < |regions| :: NoWildcards(regions[i]) && '/' !in regions[i]
    requires '/' !in region
    ensures (exists r | r in ReplicaObjectsArns(bucketName, regions) ::
               ResourceMatches(r, Literal(ReplicaBucketArn(bucketName, region) + "/" + objectKey)))
            <==> region in regions
  {
    var arns := ReplicaObjectsArns(bucketName, regions);
    var target := ReplicaBucketArn(bucketName, region) + "/" + objectKey;
    if region in regions {
      var j :| 0 <= j < |regions| && regions[j] == region;
      var dest := ReplicaBucketArn(bucketName, region);
      GlobStar(objectKey);
      GlobSelfThen("/", "*", objectKey);
      assert "/" + "*" == "/*";
      GlobSelfThen(dest, "/*", "/" + objectKey);
      assert dest + ("/" + objectKey) == target;
      assert arns[j] == Literal(dest + "/*") && arns[j] in arns;
    }
    if exists r | r in arns :: ResourceMatches(r, Literal(target)) {
      var r :| r in arns && ResourceMatches(r, Literal(target));
      var j :| 0 <= j < |regions| && arns[j] == r;
      var head := ReplicaBucketArn(bucketName, regions[j]) + "/";
      ReplicaBucketArnNoWildcards(bucketName, regions[j]);
      NoWildcardsConcat(ReplicaBucketArn(bucketName, regions[j]), "/");
      assert r.text == head + "*";
      GlobPrefixStar(head, target);
      ReplicaObjectsPrefixDeterminesRegion(bucketName, regions[j], region, objectKey);
    }
  }

  lemma ReplicateMatchesOnly(bucketName: string, regions: seq<string>, who: Principal, action: string,
                             region: string, objectKey: string)
    requires action == "s3:ReplicateDelete" || action == "s3:ReplicateObject" || action == "s3:ReplicateTags"
    requires NoWildcards(bucketName)
    requires forall i | 0 <= i < |regions| :: NoWildcards(regions[i]) && '/' !in regions[i]
    requires '/' !in region
    ensures (Matches(ReplicateToReplicas(bucketName, regions), who, action,
                     Literal(ReplicaBucketArn(bucketName, region) + "/" + objectKey)))
            <==> region in regions
  {
    var st := ReplicateToReplicas(bucketName, regions);
    GlobSelf(action);
    assert action in st.actions;
    ReplicaObjectsArnsCover(bucketName, regions, region, objectKey);
  }

  lemma ReplicateIsNotListing(action: string)
    requires action == "s3:ReplicateDelete" || action == "s3:ReplicateObject" || action == "s3:ReplicateTags"
    ensures !Glob("s3:List*", action)
  {
    GlobPrefixStar("s3:List", action);
    assert "s3:List" + "*" == "s3:List*";
    assert action[..7] == "s3:Repl";
  }

  lemma ReplicateIsNotVersioning(action: string, versioning: string)
    requires action == "s3:ReplicateDelete" || action == "s3:ReplicateObject" || action == "s3:ReplicateTags"
    requires versioning == "s3:GetBucketVersioning" || versioning == "s3:PutBucketVersioning"
    ensures !Glob(versioning, action)
  {
    GlobLiteral(versioning, action);
  }

  /** The List/versioning statement covers none of the three Replicate actions. */
  lemma ManageMissesReplicate(bucketName: string, regions: seq<string>, who: Principal, action: string, target: Ref)
    requires action == "s3:ReplicateDelete" || action == "s3:ReplicateObject" || action == "s3:ReplicateTags"
    ensures !Matches(ManageReplicaBuckets(bucketName, regions), who, action, target)
  {
    ReplicateIsNotListing(action);
    ReplicateIsNotVersioning(action, "s3:GetBucketVersioning");
    ReplicateIsNotVersioning(action, "s3:PutBucketVersioning");
    ActionMissed(ManageReplicaBuckets(bucketName, regions), who, action, target);
  }

  /** With wildcard-free, `/`-free region names, the replication role may replicate an object,
      a delete or tags into the replica bucket of a region exactly when that region is one of
      the targets. */
  lemma ReplicateAllowedExactlyForTargetRegions(bucketName: string, account: string, regions: seq<string>,
                                                explicitDecrypt: Option<Key>, who: Principal,
                                                action: string, region: string, objectKey: string)
    requires action == "s3:ReplicateDelete" || action == "s3:ReplicateObject" || action == "s3:ReplicateTags"
    requires NoWildcards(bucketName)
    requires forall i | 0 <= i < |regions| :: NoWildcards(regions[i]) && '/' !in regions[i]
    requires '/' !in region
    ensures (Evaluate(ReplicationRolePolicy(bucketName, account, regions, explicitDecrypt), who, action,
                      Literal(ReplicaBucketArn(bucketName, region) + "/" + objectKey)) == Allowed)
            <==> region in regions
  {
    var policy := ReplicationRolePolicy(bucketName, account, regions, explicitDecrypt);
    var target := Literal(ReplicaBucketArn(bucketName, region) + "/" + objectKey);
    GlobFirstMismatch("kms:Encrypt", action);
    ActionMissed(EncryptWithReplicaKeys(bucketName, account, regions), who, action, target);
    ManageMissesReplicate(bucketName, regions, who, action, target);
    forall st | st in policy && st != ReplicateToReplicas(bucketName, regions)
      ensures !Matches(st, who, action, target)
    {
      ReplicationRolePolicyMembers(bucketName, account, regions, explicitDecrypt, st);
      if st != EncryptWithReplicaKeys(bucketName, account, regions) && st != ManageReplicaBuckets(bucketName, regions) {
        LiteralMissed(st, who, action, target.text);
      }
    }
    ReplicationRolePolicyMembers(bucketName, account, regions, explicitDecrypt, ReplicateToReplicas(bucketName, regions));
    ReplicateMatchesOnly(bucketName, regions, who, action, region, objectKey);
    AllowOnlyDecides(policy, who, action, target);
  }

  /** The replication role's own statements allow `kms:Decrypt` on a key exactly when the
      construct wrote an explicit Decrypt statement for that key; otherwise decryption rests
      on `grantDecrypt` alone. */
  lemma DecryptAllowedOnlyWhenWritten(bucketName: string, account: string, regions: seq<string>,
                                      explicitDecrypt: Option<Key>, who: Principal, key: Key)
    ensures (Evaluate(ReplicationRolePolicy(bucketName, account, regions, explicitDecrypt), who, "kms:Decrypt",
                      KeyArn(key)) == Allowed)
            <==> explicitDecrypt == Some(key)
  {
    var policy := ReplicationRolePolicy(bucketName, account, regions, explicitDecrypt);
    var action := "kms:Decrypt";
    forall st | st in policy && !(explicitDecrypt.Some? && st == DecryptWith(explicitDecrypt.value))
      ensures !Matches(st, who, action, KeyArn(key))
    {
      ReplicationRolePolicyMembers(bucketName, account, regions, explicitDecrypt, st);
      OnlyDecryptStatementDecrypts(bucketName, account, regions, who, key, st);
    }
    if explicitDecrypt.Some? {
      var d := DecryptWith(explicitDecrypt.value);
      ReplicationRolePolicyMembers(bucketName, account, regions, explicitDecrypt, d);
      MatchesSingle(d, who, action, KeyArn(key));
      GlobSelf(action);
    }
    AllowOnlyDecides(policy, who, action, KeyArn(key));
  }

  lemma OnlyDecryptStatementDecrypts(bucketName: string, account: string, regions: seq<string>,
                                     who: Principal, key: Key, st: Statement)
    requires st == ReadReplicationConfiguration() || st == ReadObjectVersions()
             || st == EncryptWithReplicaKeys(bucketName, account, regions)
             || st == ReplicateToReplicas(bucketName, regions) || st == ManageReplicaBuckets(bucketName, regions)
    ensures !Matches(st, who, "kms:Decrypt", KeyArn(key))
  {
    var action := "kms:Decrypt";
    if st == EncryptWithReplicaKeys(bucketName, account, regions) {
      GlobLiteral("kms:Encrypt", action);
    } else {
      forall a | a in st.actions ensures !Glob(a, action) {
        GlobFirstMismatch(a, action);
      }
    }
    ActionMissed(st, who, action, KeyArn(key));
  }
}
