/**
 * The deployment plan a constructor assembles: the construct subtree, modelled as one
 * object whose fields the CDK calls update in place. Each step method is one CDK call
 * (`new s3.Bucket`, `addToResourcePolicy`, `addToPolicy`, `applyRemovalPolicy`,
 * `grantDecrypt`, `addDependsOn`, assigning `replicationConfiguration`).
 */
module Plan {
  import opened Wrappers
  import opened Naming
  import opened Policy
  import opened Permissions
  import opened Rules

  datatype RemovalPolicy = Retain | Destroy
  datatype BucketEncryption = Unencrypted | KmsManaged | S3Managed | Kms
  datatype BlockPublicAccess = BlockAll | BlockAcls
  datatype ObjectOwnership = BucketOwnerEnforced | BucketOwnerPreferred | ObjectWriter

  /** The `encryptionKey` a bucket is given: a key itself, or an alias of a key. */
  datatype KeyRef = KeyOf(key: Key) | AliasOf(key: Key, aliasName: string)

  /** The `s3.BucketProps` fields the constructors read or set; `None` is "not given". */
  datatype BucketProps = BucketProps(
    bucketName: Option<string>,
    encryption: Option<BucketEncryption>,
    encryptionKey: Option<KeyRef>,
    blockPublicAccess: Option<BlockPublicAccess>,
    bucketKeyEnabled: Option<bool>,
    versioned: Option<bool>,
    removalPolicy: Option<RemovalPolicy>,
    objectOwnership: Option<ObjectOwnership>)

  /** What a removal policy can be applied to. */
  datatype Resource = BucketResource | KeyResource(key: Key)

  /** The resources a dependency edge can join. */
  datatype Node = BucketNode | StackSetNode | RoleNode(role: RoleId)

  /** `dependent.addDependsOn(dependency)`: `dependent` is deployed after `dependency`. */
  datatype Edge = Edge(dependent: Node, dependency: Node)

  /** `key.grantDecrypt(grantee)`, kept as the fact that the grant was made. */
  datatype Grant = DecryptGrant(key: Key, grantee: RoleId)

  datatype Alias = Alias(key: Key, name: string)

  datatype PermissionModel = SelfManaged | ServiceManaged
  datatype RegionConcurrency = Parallel | Sequential
  datatype Parameter = Parameter(key: string, value: Ref)
  datatype StackInstances = StackInstances(regions: seq<string>, accounts: seq<string>)

  /** The `CfnStackSet` properties (the template body is left out). */
  datatype StackSetRecord = StackSetRecord(
    name: string,
    permissionModel: PermissionModel,
    administrationRoleArn: Ref,
    executionRoleName: Ref,
    regionConcurrency: RegionConcurrency,
    parameters: seq<Parameter>,
    instances: seq<StackInstances>)

  /** The stack set every constructor declares for `bucketName` in `env`. */
  function ReplicationStackSet(bucketName: string, env: Env, regions: seq<string>): StackSetRecord {
    StackSetRecord(
      StackSetName(bucketName), SelfManaged, RoleArn(AdminRoleId), RoleName(ExecutionRoleId), Parallel,
      [Parameter("SourceBucket", Literal(bucketName)), Parameter("ReplicationRole", RoleArn(ReplicationRoleId))],
      [StackInstances(regions, [env.account])])
  }

  /** CloudFormation deploys an instance of the stack set in `region` of `account`. */
  predicate DeploysTo(s: StackSetRecord, region: string, account: string) {
    exists g | g in s.instances :: region in g.regions && account in g.accounts
  }

  /** The value passed for parameter `key`, the first one given where several are. */
  function ParameterValue(parameters: seq<Parameter>, key: string): (v: Option<Ref>)
    ensures v.Some? <==> exists i | 0 <= i < |parameters| :: parameters[i].key == key
    ensures v.Some? ==> exists i | 0 <= i < |parameters| :: parameters[i] == Parameter(key, v.value)
  {
    if |parameters| == 0 then None
    else if parameters[0].key == key then Some(parameters[0].value)
    else
      var v := ParameterValue(parameters[1..], key);
      assert forall i | 0 <= i < |parameters[1..]| :: parameters[1..][i] == parameters[i + 1];
      v
  }

  /** The stack set is named after the bucket, runs self-managed in parallel, is deployed in
      exactly the listed regions of the construct's own account, and hands the template the
      source bucket's name and the replication role's ARN. It is deployed nowhere when the
      list is empty. */
  lemma StackSetTargetsExactlyTheRegions(bucketName: string, env: Env, regions: seq<string>,
                                         region: string, account: string, key: string)
    ensures var s := ReplicationStackSet(bucketName, env, regions);
            && s.name == bucketName + "-replication"
            && s.permissionModel == SelfManaged && s.regionConcurrency == Parallel
            && s.administrationRoleArn == RoleArn(AdminRoleId)
            && s.executionRoleName == RoleName(ExecutionRoleId)
            && (DeploysTo(s, region, account) <==> region in regions && account == env.account)
            && ParameterValue(s.parameters, key) ==
                 (if key == "SourceBucket" then Some(Literal(bucketName))
                  else if key == "ReplicationRole" then Some(RoleArn(ReplicationRoleId))
                  else None)
  {
    var s := ReplicationStackSet(bucketName, env, regions);
    if region in regions && account == env.account {
      assert s.instances[0] in s.instances;
    }
    assert s.parameters[1..] == [Parameter("ReplicationRole", RoleArn(ReplicationRoleId))];
    assert s.parameters[1..][1..] == [];
  }

  /** The construct subtree under construction. */
  class Tree {
    var keys: set<Key>
    var aliases: seq<Alias>
    var bucket: Option<BucketProps>
    var bucketPolicy: seq<Statement>
    var roles: map<RoleId, Role>
    var stackSet: Option<StackSetRecord>
    var decryptGrants: seq<Grant>
    var removal: map<Resource, RemovalPolicy>
    var replication: Option<ReplicationConfiguration>
    var dependsOn: seq<Edge>

    predicate NodeExists(n: Node)
      reads this
    {
      match n
      case BucketNode => bucket.Some?
      case StackSetNode => stackSet.Some?
      case RoleNode(r) => r in roles
    }

    /** Everything the subtree refers to is in it: a bucket policy, a replication
        configuration and a removal policy for the bucket only with a bucket, aliases only for
        keys created here, grants only to roles here, edges only between resources here. */
    predicate Valid()
      reads this
    {
      && (|bucketPolicy| > 0 ==> bucket.Some?)
      && (replication.Some? ==> bucket.Some?)
      && (BucketResource in removal <==> bucket.Some?)
      && (forall a | a in aliases :: a.key in keys)
      && (forall g | g in decryptGrants :: g.grantee in roles)
      && (forall e | e in dependsOn :: NodeExists(e.dependent) && NodeExists(e.dependency))
    }

    constructor ()
      ensures Valid()
      ensures keys == {} && aliases == [] && bucket == None && bucketPolicy == [] && roles == map[]
      ensures stackSet == None && decryptGrants == [] && removal == map[] && replication == None
      ensures dependsOn == []
    {
      keys, aliases, bucket, bucketPolicy, roles := {}, [], None, [], map[];
      stackSet, decryptGrants, removal, replication, dependsOn := None, [], map[], None, [];
    }

    /** `new kms.Key(...)`: a key is retained on stack deletion unless told otherwise. */
    method CreateKey(k: Key)
      requires Valid() && k !in keys
      modifies this`keys, this`removal
      ensures Valid()
      ensures keys == old(keys) + {k}
      ensures removal == old(removal)[KeyResource(k) := Retain]
    {
      keys := keys + {k};
      removal := removal[KeyResource(k) := Retain];
    }

    /** `key.addAlias(name)`. */
    method AddAlias(k: Key, name: string)
      requires Valid() && k in keys
      modifies this`aliases
      ensures Valid()
      ensures aliases == old(aliases) + [Alias(k, name)]
    {
      aliases := aliases + [Alias(k, name)];
    }

    /** `new s3.Bucket(this, 'Bucket', props)`: the bucket's removal policy is the one in
        `props`, RETAIN when none is given. */
    method CreateBucket(props: BucketProps)
      requires Valid() && bucket.None?
      modifies this`bucket, this`removal
      ensures Valid()
      ensures bucket == Some(props)
      ensures removal == old(removal)[BucketResource := props.removalPolicy.GetOr(Retain)]
    {
      bucket := Some(props);
      removal := removal[BucketResource := props.removalPolicy.GetOr(Retain)];
    }

    /** `applyRemovalPolicy(policy)`: the last policy applied is the one that holds. */
    method ApplyRemovalPolicy(res: Resource, policy: RemovalPolicy)
      requires Valid() && (res == BucketResource ==> bucket.Some?)
      modifies this`removal
      ensures Valid()
      ensures removal == old(removal)[res := policy]
    {
      removal := removal[res := policy];
    }

    /** `bucket.addToResourcePolicy(st)`. */
    method AddToResourcePolicy(st: Statement)
      requires Valid() && bucket.Some?
      modifies this`bucketPolicy
      ensures Valid()
      ensures bucketPolicy == old(bucketPolicy) + [st]
    {
      bucketPolicy := bucketPolicy + [st];
    }

    /** `new iam.Role(this, id, ...)`. */
    method CreateRole(id: RoleId, role: Role)
      requires Valid() && id !in roles
      modifies this`roles
      ensures Valid()
      ensures roles == old(roles)[id := role]
    {
      roles := roles[id := role];
    }

    /** `role.addToPolicy(st)`: appended to the role's default policy. */
    method AddToPolicy(id: RoleId, st: Statement)
      requires Valid() && id in roles
      modifies this`roles
      ensures Valid()
      ensures roles == old(roles)[id := old(roles)[id].(statements := old(roles)[id].statements + [st])]
      ensures RolePolicy(roles[id]) == RolePolicy(old(roles)[id]) + [st]
    {
      var role := roles[id];
      roles := roles[id := role.(statements := role.statements + [st])];
    }

    /** `new cdk.CfnStackSet(this, 'StackSet', ...)`. */
    method CreateStackSet(s: StackSetRecord)
      requires Valid() && stackSet.None?
      modifies this`stackSet
      ensures Valid()
      ensures stackSet == Some(s)
    {
      stackSet := Some(s);
    }

    /** `key.grantDecrypt(role)`. */
    method GrantDecrypt(k: Key, grantee: RoleId)
      requires Valid() && grantee in roles
      modifies this`decryptGrants
      ensures Valid()
      ensures decryptGrants == old(decryptGrants) + [DecryptGrant(k, grantee)]
    {
      decryptGrants := decryptGrants + [DecryptGrant(k, grantee)];
    }

    /** `cfnBucket.replicationConfiguration = config`. */
    method SetReplicationConfiguration(config: ReplicationConfiguration)
      requires Valid() && bucket.Some?
      modifies this`replication
      ensures Valid()
      ensures replication == Some(config)
    {
      replication := Some(config);
    }

    /** `dependent.addDependsOn(dependency)`. */
    method AddDependsOn(e: Edge)
      requires Valid() && NodeExists(e.dependent) && NodeExists(e.dependency)
      modifies this`dependsOn
      ensures Valid()
      ensures dependsOn == old(dependsOn) + [e]
    {
      dependsOn := dependsOn + [e];
    }
  }
}
