/**
 * The stretches of CDK calls the three constructors have in common, each as one procedure
 * over the subtree. The constructors differ only in what surrounds them.
 */
module Steps {
  import opened Wrappers
  import opened Naming
  import opened Policy
  import opened Permissions
  import opened Rules
  import opened Plan

  /** The two `addToResourcePolicy` calls on the source bucket. */
  method AddDenyStatements(t: Tree)
    requires t.Valid() && t.bucket.Some?
    modifies t`bucketPolicy
    ensures t.Valid()
    ensures t.bucketPolicy == old(t.bucketPolicy) + DenyStatements()
  {
    t.AddToResourcePolicy(DenyDeleteBucket());
    t.AddToResourcePolicy(DenyDeleteObjectVersion());
  }

  /** The three roles as they stand before the replication role is given its statements. */
  function InitialRoles(bucketName: string, env: Env): map<RoleId, Role> {
    map[ReplicationRoleId := ReplicationRoleDefinition(),
        ExecutionRoleId := ExecutionRoleDefinition(bucketName).(statements := ExecutionRolePolicy(bucketName, env)),
        AdminRoleId := AdminRoleDefinition(bucketName)]
  }

  /** The replication, execution and admin roles, and the execution role's three statements. */
  method CreateRoles(t: Tree, bucketName: string, env: Env)
    requires t.Valid() && t.roles == map[]
    modifies t`roles
    ensures t.Valid()
    ensures t.roles == InitialRoles(bucketName, env)
  {
    t.CreateRole(ReplicationRoleId, ReplicationRoleDefinition());
    t.CreateRole(ExecutionRoleId, ExecutionRoleDefinition(bucketName));
    t.CreateRole(AdminRoleId, AdminRoleDefinition(bucketName));
    t.AddToPolicy(ExecutionRoleId, AllowKms());
    t.AddToPolicy(ExecutionRoleId, AllowS3(bucketName));
    t.AddToPolicy(ExecutionRoleId, CfPermissions(bucketName, env));
    assert t.roles[ExecutionRoleId].statements == ExecutionRolePolicy(bucketName, env);
  }

  /** The stack set, and its dependency on the execution role. */
  method DeclareStackSet(t: Tree, bucketName: string, env: Env, regions: seq<string>)
    requires t.Valid() && t.stackSet.None? && ExecutionRoleId in t.roles
    modifies t`stackSet, t`dependsOn
    ensures t.Valid()
    ensures t.stackSet == Some(ReplicationStackSet(bucketName, env, regions))
    ensures t.dependsOn == old(t.dependsOn) + [Edge(StackSetNode, RoleNode(ExecutionRoleId))]
  {
    t.CreateStackSet(ReplicationStackSet(bucketName, env, regions));
    t.AddDependsOn(Edge(StackSetNode, RoleNode(ExecutionRoleId)));
  }

  /** Everything after the bucket: the roles, the stack set, the replication role's grant and
      statements, the replication configuration and the two dependency edges. `key` is the
      key the bucket is encrypted with; the remaining parameters are where the constructors
      differ. */
  method DeclareReplication(t: Tree, key: Key, bucketName: string, env: Env, regions: seq<string>,
                            explicitDecrypt: Option<Key>, storageClass: Option<string>, deleteMarker: Option<Status>)
    requires t.Valid() && t.bucket.Some? && t.roles == map[] && t.stackSet.None?
    requires t.decryptGrants == [] && t.dependsOn == []
    modifies t`roles, t`stackSet, t`dependsOn, t`decryptGrants, t`replication
    ensures t.Valid()
    ensures t.roles == FinalRoles(bucketName, env, regions, explicitDecrypt)
    ensures t.stackSet == Some(ReplicationStackSet(bucketName, env, regions))
    ensures t.decryptGrants == [DecryptGrant(key, ReplicationRoleId)]
    ensures t.replication == Some(ReplicationConfiguration(
              RoleArn(ReplicationRoleId), RuleTable(bucketName, env.account, regions, storageClass, deleteMarker)))
    ensures t.dependsOn == [Edge(StackSetNode, RoleNode(ExecutionRoleId)), Edge(BucketNode, StackSetNode)]
  {
    DeclareStackSetAndRoles(t, bucketName, env, regions);
    GrantReplication(t, key, bucketName, env, regions, explicitDecrypt);
    ConfigureReplication(t, bucketName, env.account, regions, storageClass, deleteMarker);
  }

  /** The roles once every statement is in place. */
  function FinalRoles(bucketName: string, env: Env, regions: seq<string>, explicitDecrypt: Option<Key>): map<RoleId, Role> {
    InitialRoles(bucketName, env)[ReplicationRoleId :=
      ReplicationRoleDefinition().(statements := ReplicationRolePolicy(bucketName, env.account, regions, explicitDecrypt))]
  }

  /** Appends `statements` to the replication role, as a run of `addToPolicy` calls does. */
  predicate Appended(before: map<RoleId, Role>, after: map<RoleId, Role>, statements: seq<Statement>)
    requires ReplicationRoleId in before
  {
    after == before[ReplicationRoleId := before[ReplicationRoleId].(
               statements := before[ReplicationRoleId].statements + statements)]
  }

  /** The replication role's statements on the source bucket and its key. */
  method AddSourceStatements(t: Tree, explicitDecrypt: Option<Key>)
    requires t.Valid() && ReplicationRoleId in t.roles
    modifies t`roles
    ensures t.Valid()
    ensures Appended(old(t.roles), t.roles, [ReadReplicationConfiguration(), ReadObjectVersions()]
                     + (if explicitDecrypt.Some? then [DecryptWith(explicitDecrypt.value)] else []))
  {
    ghost var before := t.roles[ReplicationRoleId];
    t.AddToPolicy(ReplicationRoleId, ReadReplicationConfiguration());
    t.AddToPolicy(ReplicationRoleId, ReadObjectVersions());
    if explicitDecrypt.Some? {
      t.AddToPolicy(ReplicationRoleId, DecryptWith(explicitDecrypt.value));
    }
    assert t.roles[ReplicationRoleId].statements
           == before.statements + ([ReadReplicationConfiguration(), ReadObjectVersions()]
                                   + (if explicitDecrypt.Some? then [DecryptWith(explicitDecrypt.value)] else []));
  }

  /** The replication role's three statements on the replica keys and buckets. */
  method AddReplicaStatements(t: Tree, bucketName: string, account: string, regions: seq<string>)
    requires t.Valid() && ReplicationRoleId in t.roles
    modifies t`roles
    ensures t.Valid()
    ensures Appended(old(t.roles), t.roles, [EncryptWithReplicaKeys(bucketName, account, regions),
                                             ReplicateToReplicas(bucketName, regions),
                                             ManageReplicaBuckets(bucketName, regions)])
  {
    ghost var before := t.roles[ReplicationRoleId];
    t.AddToPolicy(ReplicationRoleId, EncryptWithReplicaKeys(bucketName, account, regions));
    t.AddToPolicy(ReplicationRoleId, ReplicateToReplicas(bucketName, regions));
    t.AddToPolicy(ReplicationRoleId, ManageReplicaBuckets(bucketName, regions));
    assert t.roles[ReplicationRoleId].statements
           == before.statements + [EncryptWithReplicaKeys(bucketName, account, regions),
                                   ReplicateToReplicas(bucketName, regions),
                                   ManageReplicaBuckets(bucketName, regions)];
  }

  /** Two runs of `addToPolicy` calls append their statements in order. */
  lemma AppendedTwice(m0: map<RoleId, Role>, m1: map<RoleId, Role>, m2: map<RoleId, Role>,
                      s1: seq<Statement>, s2: seq<Statement>)
    requires ReplicationRoleId in m0 && Appended(m0, m1, s1)
    requires ReplicationRoleId in m1 && Appended(m1, m2, s2)
    ensures Appended(m0, m2, s1 + s2)
  {
    assert m0[ReplicationRoleId].statements + s1 + s2 == m0[ReplicationRoleId].statements + (s1 + s2);
  }

  /** Adding the replication statements to the initial roles gives the final roles. */
  lemma InitialThenStatementsIsFinal(bucketName: string, env: Env, regions: seq<string>, explicitDecrypt: Option<Key>)
    ensures Appended(InitialRoles(bucketName, env), FinalRoles(bucketName, env, regions, explicitDecrypt),
                     ReplicationRolePolicy(bucketName, env.account, regions, explicitDecrypt))
  {
    var initial := InitialRoles(bucketName, env);
    var policy := ReplicationRolePolicy(bucketName, env.account, regions, explicitDecrypt);
    assert initial[ReplicationRoleId] == ReplicationRoleDefinition();
    assert ReplicationRoleDefinition().statements + policy == policy;
  }

  /** The three roles, then the stack set that runs as the admin and execution roles. */
  method DeclareStackSetAndRoles(t: Tree, bucketName: string, env: Env, regions: seq<string>)
    requires t.Valid() && t.roles == map[] && t.stackSet.None?
    modifies t`roles, t`stackSet, t`dependsOn
    ensures t.Valid()
    ensures t.roles == InitialRoles(bucketName, env)
    ensures t.stackSet == Some(ReplicationStackSet(bucketName, env, regions))
    ensures t.dependsOn == old(t.dependsOn) + [Edge(StackSetNode, RoleNode(ExecutionRoleId))]
  {
    CreateRoles(t, bucketName, env);
    DeclareStackSet(t, bucketName, env, regions);
  }

  /** `key.grantDecrypt(replicationRole)` and the replication role's statements. */
  method GrantReplication(t: Tree, key: Key, bucketName: string, env: Env, regions: seq<string>,
                          explicitDecrypt: Option<Key>)
    requires t.Valid() && t.roles == InitialRoles(bucketName, env)
    modifies t`roles, t`decryptGrants
    ensures t.Valid()
    ensures t.roles == FinalRoles(bucketName, env, regions, explicitDecrypt)
    ensures t.decryptGrants == old(t.decryptGrants) + [DecryptGrant(key, ReplicationRoleId)]
  {
    var account := env.account;
    ghost var m0 := t.roles;
    t.GrantDecrypt(key, ReplicationRoleId);
    AddSourceStatements(t, explicitDecrypt);
    ghost var m1 := t.roles;
    AddReplicaStatements(t, bucketName, account, regions);
    AppendedTwice(m0, m1, t.roles,
                  [ReadReplicationConfiguration(), ReadObjectVersions()]
                  + (if explicitDecrypt.Some? then [DecryptWith(explicitDecrypt.value)] else []),
                  [EncryptWithReplicaKeys(bucketName, account, regions), ReplicateToReplicas(bucketName, regions),
                   ManageReplicaBuckets(bucketName, regions)]);
    InitialThenStatementsIsFinal(bucketName, env, regions, explicitDecrypt);
  }

  /** The replication configuration on the bucket, and the bucket's dependency on the stack set. */
  method ConfigureReplication(t: Tree, bucketName: string, account: string, regions: seq<string>,
                              storageClass: Option<string>, deleteMarker: Option<Status>)
    requires t.Valid() && t.bucket.Some? && t.stackSet.Some?
    modifies t`replication, t`dependsOn
    ensures t.Valid()
    ensures t.replication == Some(ReplicationConfiguration(
              RoleArn(ReplicationRoleId), RuleTable(bucketName, account, regions, storageClass, deleteMarker)))
    ensures t.dependsOn == old(t.dependsOn) + [Edge(BucketNode, StackSetNode)]
  {
    t.SetReplicationConfiguration(ReplicationConfiguration(
      RoleArn(ReplicationRoleId), RuleTable(bucketName, account, regions, storageClass, deleteMarker)));
    t.AddDependsOn(Edge(BucketNode, StackSetNode));
  }

  /** What each role's policy is once the constructor is done: the lemmas of `Permissions`
      and `Rules` are about exactly these. */
  lemma FinalRolePolicies(bucketName: string, env: Env, regions: seq<string>, explicitDecrypt: Option<Key>)
    ensures var roles := FinalRoles(bucketName, env, regions, explicitDecrypt);
            && roles.Keys == {ReplicationRoleId, ExecutionRoleId, AdminRoleId}
            && RolePolicy(roles[ReplicationRoleId]) == ReplicationRolePolicy(bucketName, env.account, regions, explicitDecrypt)
            && RolePolicy(roles[ExecutionRoleId]) == ExecutionRolePolicy(bucketName, env)
            && RolePolicy(roles[AdminRoleId]) == [AssumeExecutionRole()]
            && roles[ReplicationRoleId].assumedBy == ServicePrincipal("s3.amazonaws.com")
            && roles[ExecutionRoleId].assumedBy == AccountRootPrincipal
            && roles[AdminRoleId].assumedBy == ServicePrincipal("cloudformation.amazonaws.com")
  {
    var roles := FinalRoles(bucketName, env, regions, explicitDecrypt);
    assert InlineStatements([]) == [];
    assert InlineStatements(roles[AdminRoleId].inlinePolicies) == [AssumeExecutionRole()] + InlineStatements([]);
  }
}
