# Replicated S3 bucket plans, in Dafny

The repository holds three AWS CDK constructs that assemble the same kind of deployment plan:
- a versioned, KMS-encrypted S3 source bucket;
- a bucket policy that denies everyone `s3:DeleteBucket` and `s3:DeleteObjectVersion`;
- three IAM roles:
  - a replication role that S3 assumes;
  - a StackSet execution role;
  - a StackSet admin role that may only assume the execution role;
- a self-managed, parallel CloudFormation StackSet that creates the replica buckets in the target regions;
- a replication configuration with one rule per target region;
- two dependency edges.

The constructors are:
- `ReplicatedBucket` in `aws/replicated-bucket/index.ts`;
- `ArchiveStack` in `aws/stacks/archive.ts`;
- the earlier `ReplicatedBucket` in `aws/stacks/replicated-bucket.ts`.

This project models the plan each constructor builds, and proves what the plan grants and guarantees.

Layout:
- `naming.dfy` (`Naming`): the ARN and name formats built from the bucket name, the account and a region. It proves they are injective in the region.
- `policy.dfy` (`Policy`): policy statements as data. It adds a reference semantics for IAM evaluation: `*`/`?` wildcard matching, explicit Deny first, then Allow, else implicit deny.
  - The CDK's symbolic values (`bucketArn`, `arnForObjects('*')`, `roleArn`, `roleName`, `keyArn`) are kept as symbols. A symbol matches only itself, or the literal `*`.
  - `account` and `region` are opaque strings.
- `permissions.dfy` (`Permissions`): every statement and role the constructors write. It proves what each role's policy allows and, more importantly, what it does not allow.
- `rules.dfy` (`Rules`): the replication rule table, a map over the region list with the position as priority. It relates the rules to the replication role's grants.
- `plan.dfy` (`Plan`): the construct subtree as a class `Tree` whose fields the CDK calls update in place. Each step method is one call, such as `addToResourcePolicy`, `addToPolicy`, `applyRemovalPolicy`, `grantDecrypt` or `addDependsOn`. The StackSet record is also here.
- `steps.dfy` (`Steps`): the runs of calls the three constructors share, each with its contract.
- `replicated_bucket.dfy`, `archive.dfy`, `stacks_replicated_bucket.dfy`: one class per constructor. Each constructor runs the steps in source order on a fresh `Tree`, and its postcondition states the whole resulting plan in terms of the pure functions above.

What the constructors accept and write, in the places where it is easy to assume otherwise:
- An empty region list is accepted, not rejected. It yields no rules and empty per-region resource lists (`Rules.EmptyRegionListGrantsNoReplicaAccess`).
- Duplicate regions are not rejected either. Priorities never collide, because they are positions. Rule ids, destinations and replica keys collide exactly when regions repeat (`Rules.RulesDistinctIffRegionsDistinct`).
- Each per-region grant is one statement whose resource list is mapped over the regions. It is not one statement per region.
- The entry point's bucket is `wese`, so its replicas are `wese-replication-<region>`. `wese-archive` is the stack name.
- Only `archive.ts` writes an explicit `kms:Decrypt` statement.
- Only `index.ts` omits `deleteMarkerReplication` and honours a destination storage class.
- `archive.ts` accepts `bucketProps` but never reads it.

## Model

| member | source | states |
|---|---|---|
| Naming.ReplicaBucketArnInjective | aws/replicated-bucket/index.ts:232-236 | two regions give the same replica bucket ARN exactly when they are the same region |
| Naming.ReplicaKeyArnInjective | aws/replicated-bucket/index.ts:208-212 | two regions give the same replica key alias ARN exactly when they are the same region |
| Naming.ReplicaObjectsPrefixDeterminesRegion | aws/replicated-bucket/index.ts:219-224 | for regions without `/`, an object ARN of one region's replica bucket starts with another region's `<replica bucket ARN>/` only when the two regions are the same |
| Naming.ReplicaNamesCollideAcrossBuckets | aws/replicated-bucket/index.ts:232-236 | replica names are unique only within one bucket name: bucket `x` in region `a-replication-b` and bucket `x-replication-a` in region `b` name the same replica bucket |
| Permissions.DeletionDeniedToEveryone | aws/replicated-bucket/index.ts:60-88 | whatever else the bucket policy holds, every principal is explicitly denied `s3:DeleteBucket` on the bucket and `s3:DeleteObjectVersion` on every object |
| Permissions.DenyStatementsDenyOnlyDeletion | aws/stacks/archive.ts:44-72 | the two Deny statements never allow anything, and explicitly deny a request exactly when it is one of those two deletions |
| Permissions.AdminRoleOnlyAssumesExecutionRole | aws/stacks/archive.ts:85-102 | the admin role's policy allows a request exactly when it is `sts:AssumeRole` on the execution role's ARN |
| Permissions.ExecutionRoleS3Scope | aws/stacks/archive.ts:111-117 | for a wildcard-free bucket name, the execution role may perform an S3 action on a literal ARN exactly when the ARN starts with `arn:aws:s3:::<bucketName>-replication-`; it gets nothing on the source bucket, nor on any of its objects, whatever the object key |
| Permissions.ExecutionRoleReachesStackSet | aws/stacks/replicated-bucket.ts:113-128 | the execution role may run every CloudFormation action on the StackSet and on its stack instances in any region |
| Permissions.EncryptAllowedExactlyForTargetRegions | aws/replicated-bucket/index.ts:208-217 | with wildcard-free names, the replication role may `kms:Encrypt` with a region's replica key exactly when the region is a target |
| Permissions.VersioningAllowedExactlyForTargetRegions | aws/stacks/replicated-bucket.ts:212-223 | with wildcard-free names, the replication role may get or put a replica bucket's versioning exactly when its region is a target |
| Permissions.ListAllowedExactlyForTargetRegions | aws/replicated-bucket/index.ts:232-243 | with wildcard-free names, the replication role may run any `s3:List...` action on a replica bucket exactly when its region is a target |
| Permissions.ReplicateAllowedExactlyForTargetRegions | aws/replicated-bucket/index.ts:219-230 | with wildcard-free names and regions without `/`, the replication role may `s3:ReplicateDelete`, `s3:ReplicateObject` or `s3:ReplicateTags` into a replica bucket, for any object key, exactly when its region is a target |
| Permissions.DecryptAllowedOnlyWhenWritten | aws/stacks/archive.ts:193-203 | the replication role's statements allow `kms:Decrypt` on a key exactly when an explicit Decrypt statement was written for that key |
| Rules.RuleTable | aws/replicated-bucket/index.ts:247-273 | one rule per region, in order: rule i has id `regions[i]`, priority i, the region's replica bucket and key, status and SSE-KMS selection `Enabled`, the empty prefix filter, and the same storage class and delete-marker setting as every other rule |
| Rules.RulesDistinctIffRegionsDistinct | aws/stacks/replicated-bucket.ts:228-256 | the rule ids, the destinations and the replica keys are pairwise distinct exactly when the regions are |
| Rules.PerRegionResourcesAlignWithRules | aws/stacks/replicated-bucket.ts:188-237 | the Encrypt, Replicate and List/versioning resource lists have one entry per rule, and entry i names rule i's key, objects and bucket |
| Rules.ReplicationRoleCoversEveryRule | aws/stacks/archive.ts:205-256 | the replication role is allowed to encrypt with each rule's key, to replicate, delete and tag any object into each rule's destination, and to list and version that destination |
| Rules.ReplicationRoleReadsSource | aws/replicated-bucket/index.ts:183-206 | the replication role is allowed each of `s3:GetReplicationConfiguration` and `s3:ListBucket` on the source bucket, and each of `s3:GetObjectVersion`, `s3:GetObjectVersionAcl`, `s3:GetObjectVersionForReplication` and `s3:GetObjectVersionTagging` on every source object |
| Rules.EmptyRegionListGrantsNoReplicaAccess | aws/stacks/replicated-bucket.ts:188-256 | with no regions the rule table is empty, and the replication role is implicitly denied every action on every literal resource |
| Plan.ParameterValue | aws/replicated-bucket/index.ts:159-168 | a parameter lookup finds a value exactly when some parameter has that key, and what it finds was passed for that key |
| Plan.StackSetTargetsExactlyTheRegions | aws/replicated-bucket/index.ts:151-178 | the StackSet is `<bucketName>-replication`, self-managed and parallel, run by the admin and execution roles; it deploys in exactly the listed regions of the construct's own account, and passes `SourceBucket` and `ReplicationRole` and nothing else |
| Plan.Tree.CreateKey | aws/stacks/archive.ts:26 | a new key is added and is retained on deletion |
| Plan.Tree.AddAlias | aws/stacks/archive.ts:27 | the alias is appended for a key of the subtree |
| Plan.Tree.CreateBucket | aws/replicated-bucket/index.ts:55-58 | the bucket is set from the props, and its removal policy is the given one, RETAIN by default |
| Plan.Tree.ApplyRemovalPolicy | aws/stacks/archive.ts:41-42 | the removal policy of one resource is overwritten, so the last write wins |
| Plan.Tree.AddToResourcePolicy | aws/replicated-bucket/index.ts:60-73 | the statement is appended to the bucket policy |
| Plan.Tree.CreateRole | aws/replicated-bucket/index.ts:90-93 | a role with a fresh id is added |
| Plan.Tree.AddToPolicy | aws/replicated-bucket/index.ts:119-125 | the statement is appended to one role, so its whole policy grows by exactly that statement, and no other role changes |
| Plan.Tree.CreateStackSet | aws/replicated-bucket/index.ts:151-178 | the StackSet record is set once |
| Plan.Tree.GrantDecrypt | aws/replicated-bucket/index.ts:182 | the decrypt grant to a role of the subtree is recorded |
| Plan.Tree.SetReplicationConfiguration | aws/replicated-bucket/index.ts:245-273 | the bucket's replication configuration is assigned |
| Plan.Tree.AddDependsOn | aws/replicated-bucket/index.ts:274 | an edge between two resources of the subtree is appended |
| Steps.AddDenyStatements | aws/replicated-bucket/index.ts:60-88 | the bucket policy grows by the two Deny statements |
| Steps.CreateRoles | aws/replicated-bucket/index.ts:90-149 | the three roles are created, and the execution role holds its three statements |
| Steps.DeclareStackSet | aws/replicated-bucket/index.ts:151-180 | the StackSet is declared and made to depend on the execution role |
| Steps.DeclareStackSetAndRoles | aws/stacks/replicated-bucket.ts:69-160 | the roles, then the StackSet and its edge |
| Steps.AddSourceStatements | aws/stacks/archive.ts:167-203 | the replication role gains the two read statements and, where written, the explicit Decrypt statement |
| Steps.AddReplicaStatements | aws/replicated-bucket/index.ts:208-243 | the replication role gains the Encrypt, Replicate and List/versioning statements |
| Steps.GrantReplication | aws/replicated-bucket/index.ts:182-243 | the decrypt grant is recorded and the roles reach their final policies |
| Steps.ConfigureReplication | aws/replicated-bucket/index.ts:245-274 | the rule table is assigned with the replication role, and the bucket is made to depend on the StackSet |
| Steps.DeclareReplication | aws/stacks/replicated-bucket.ts:69-258 | everything after the bucket: final roles, StackSet, one decrypt grant, rule table, and the two edges in order |
| Steps.FinalRolePolicies | aws/replicated-bucket/index.ts:90-243 | the final policies, which the lemmas above are about: replication, execution and admin (only `sts:AssumeRole`), and who may assume each role |
| ReplicatedBucketConstruct.CreateSourceBucket | aws/replicated-bucket/index.ts:55-88 | the bucket is created from the caller's props with versioning forced on, and holds the two Deny statements |
| ReplicatedBucketConstruct.ReplicatedBucket.constructor | aws/replicated-bucket/index.ts:48-274 | the whole plan, including: versioned whatever the props say; the supplied key; the caller's removal policy; no delete-marker setting; every rule's storage class is the destination storage class when given, otherwise absent |
| Archive.CreateArchiveBucket | aws/stacks/archive.ts:26-72 | a new key with an alias named after the bucket; a bucket declared RETAIN; key and bucket both end at DESTROY; the two Deny statements |
| Archive.ArchiveStack.constructor | aws/stacks/archive.ts:20-275 | the whole plan, including: KMS through the alias, BLOCK_ALL, bucket key, versioned, BUCKET_OWNER_ENFORCED; DESTROY over the declared RETAIN; an explicit Decrypt on the stack's key; delete-marker replication on; no storage class; nothing taken from `bucketProps` |
| Archive.WeseArchive | aws/index.ts:7-17 | for bucket `wese` and regions `eu-west-1`, `eu-north-1`, the rules are `wese-replication-eu-west-1` at priority 0 and `wese-replication-eu-north-1` at priority 1, and the StackSet is `wese-replication` |
| StacksReplicatedBucket.CreateSourceBucket | aws/stacks/replicated-bucket.ts:30-66 | the bucket is versioned whatever the props say; the supplied key and the bucket end at DESTROY; the two Deny statements |
| StacksReplicatedBucket.ReplicatedBucket.constructor | aws/stacks/replicated-bucket.ts:23-259 | the whole plan, including: the supplied key; DESTROY for key and bucket; delete-marker replication on; no storage class |

## Left out

- Reading `replication.yml` with `fs.readFileSync`, and the template's contents. This is file I/O; the StackSet record has no template body.
- `NagSuppressions` calls. They are lint bookkeeping and change no resource.
- How the CDK renders `bucketArn`, `arnForObjects`, `roleArn`, `roleName` and `keyArn`, and how it resolves the `account` and `region` tokens. These are library code. They stay symbols and opaque strings, with the account and region passed in as `Env`.
- What `grantDecrypt` writes into the key policy and the principal policy. It is library code, recorded only as a `DecryptGrant` fact.
- CloudFormation synthesis, the StackSet rollout, parallel deployment across regions, and CloudFormation honouring the dependency edges. These are external and concurrent.
- Construct scopes, construct ids, `StackProps`, stack name and tags. Only the roles' construct ids are kept. Creating two resources under one id is a precondition of the step methods, not an error path.
- The `s3.BucketProps` fields the constructors neither read nor set. `BucketProps` keeps the eight the constructors read or set. `index.ts` and `stacks/replicated-bucket.ts` pass every other caller prop through to `new s3.Bucket` unchanged.
- ReplicatedBucketConstruct.ReplicatedBucket.constructor: the bucket-policy statements the CDK's own `s3.Bucket` adds for passed-through props are not modelled. `enforceSSL` adds a conditional Deny, and `autoDeleteObjects` adds an Allow for its cleanup role. So `bucketPolicy == DenyStatements()` is exact only for props without such fields. `Permissions.DeletionDeniedToEveryone` holds whatever else the policy contains.
- StacksReplicatedBucket.ReplicatedBucket.constructor: the same holds here. It passes the caller's props through to `new s3.Bucket` in the same way, so the same bucket-policy statements are left out.
- `assignSids` on the admin role's inline policy. Generated statement ids do not change what a policy allows.
- IAM's case-insensitive action matching, conditions, `NotAction` and `NotResource`. The statements the constructors write use none of them. Matching is case-sensitive in the model.
- Permissions.ExecutionRoleS3Scope, Permissions.EncryptAllowedExactlyForTargetRegions, Permissions.VersioningAllowedExactlyForTargetRegions, Permissions.ListAllowedExactlyForTargetRegions, Permissions.ReplicateAllowedExactlyForTargetRegions: these hold only for names without `*` or `?`. A wildcard in a name would widen the grant. The CDK's validation of a literal bucket name already rejects both characters. So in practice the requirement matters only for the regions and the account, which the constructs pass through unchecked.
- Permissions.ReplicateAllowedExactlyForTargetRegions: this also needs regions without `/`. With region `r1` listed, the pattern `...-replication-r1/*` also covers `...-replication-r1/x/k` in the "region" `r1/x`. Real region names hold no `/`, and the constructs do not check for one.
- Archive.ArchiveStack.constructor: in `archive.ts` the Decrypt grant follows the two read statements. The model records the grant apart from the statements, so the order is not visible in the plan.
