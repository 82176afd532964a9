/**
 * The replication configuration written onto the source bucket: one rule per target
 * region, built by mapping over the region list with the position as priority, and what
 * the replication role's statements allow for each rule.
 */
module Rules {
  import opened Wrappers
  import opened Naming
  import opened Policy
  import opened Permissions

  datatype Status = Enabled | Disabled

  /** One entry of `replicationConfiguration.rules`. */
  datatype Rule = Rule(
    id: string,
    destinationBucket: string,
    replicaKmsKeyId: string,
    storageClass: Option<string>,
    priority: nat,
    deleteMarkerReplication: Option<Status>,
    filterPrefix: string,
    sseKmsEncryptedObjects: Status,
    status: Status)

  /** The bucket's `replicationConfiguration`: the role S3 assumes, and the rules. */
  datatype ReplicationConfiguration = ReplicationConfiguration(role: Ref, rules: seq<Rule>)

  /** The rule for the region at position `index` of the list. */
  function RuleFor(bucketName: string, account: string, region: string, index: nat,
                   storageClass: Option<string>, deleteMarker: Option<Status>): Rule
  {
    Rule(region, ReplicaBucketArn(bucketName, region), ReplicaKeyArn(bucketName, account, region),
         storageClass, index, deleteMarker, "", Enabled, Enabled)
  }

  /** `regions.map((region, index) => rule)`. `storageClass` is the destination storage class
      where the construct has one, and `deleteMarker` the delete-marker replication status
      where the construct writes one. */
  function RuleTable(bucketName: string, account: string, regions: seq<string>,
                     storageClass: Option<string>, deleteMarker: Option<Status>): (rules: seq<Rule>)
    ensures |rules| == |regions|
    ensures forall i | 0 <= i < |rules| ::
              && rules[i].id == regions[i]
              && rules[i].priority == i
              && rules[i].destinationBucket == ReplicaBucketArn(bucketName, regions[i])
              && rules[i].replicaKmsKeyId == ReplicaKeyArn(bucketName, account, regions[i])
    ensures forall i | 0 <= i < |rules| ::
              && rules[i].storageClass == storageClass
              && rules[i].deleteMarkerReplication == deleteMarker
              && rules[i].filterPrefix == ""
              && rules[i].sseKmsEncryptedObjects == Enabled
              && rules[i].status == Enabled
  {
    seq(|regions|, i requires 0 <= i < |regions| => RuleFor(bucketName, account, regions[i], i, storageClass, deleteMarker))
  }

  /** No value occurs twice. */
  predicate Distinct<T(==)>(s: seq<T>) {
    forall i, j | 0 <= i < j < |s| :: s[i] != s[j]
  }

  /** Neither the rule ids, nor the destination buckets, nor the replica keys can collide
      unless the region list itself holds a duplicate; nothing in the constructors rejects
      one, so a duplicate region yields two rules for the same destination. */
  lemma RulesDistinctIffRegionsDistinct(bucketName: string, account: string, regions: seq<string>,
                                        storageClass: Option<string>, deleteMarker: Option<Status>)
    ensures var rules := RuleTable(bucketName, account, regions, storageClass, deleteMarker);
            && ((forall i, j | 0 <= i < j < |rules| :: rules[i].id != rules[j].id) <==> Distinct(regions))
            && ((forall i, j | 0 <= i < j < |rules| :: rules[i].destinationBucket != rules[j].destinationBucket)
                <==> Distinct(regions))
            && ((forall i, j | 0 <= i < j < |rules| :: rules[i].replicaKmsKeyId != rules[j].replicaKmsKeyId)
                <==> Distinct(regions))
  {
    var rules := RuleTable(bucketName, account, regions, storageClass, deleteMarker);
    forall i, j | 0 <= i < j < |rules|
      ensures rules[i].destinationBucket == rules[j].destinationBucket <==> regions[i] == regions[j]
      ensures rules[i].replicaKmsKeyId == rules[j].replicaKmsKeyId <==> regions[i] == regions[j]
    {
      ReplicaBucketArnInjective(bucketName, regions[i], regions[j]);
      ReplicaKeyArnInjective(bucketName, account, regions[i], regions[j]);
    }
  }

  /** The three per-region statements and the rule table are maps over the same list: at
      every position the statements name the key and the bucket the rule replicates to. */
  lemma PerRegionResourcesAlignWithRules(bucketName: string, account: string, regions: seq<string>,
                                         storageClass: Option<string>, deleteMarker: Option<Status>)
    ensures var rules := RuleTable(bucketName, account, regions, storageClass, deleteMarker);
            && |EncryptWithReplicaKeys(bucketName, account, regions).resources| == |rules|
            && |ReplicateToReplicas(bucketName, regions).resources| == |rules|
            && |ManageReplicaBuckets(bucketName, regions).resources| == |rules|
            && forall i | 0 <= i < |rules| ::
                 && EncryptWithReplicaKeys(bucketName, account, regions).resources[i] == Literal(rules[i].replicaKmsKeyId)
                 && ReplicateToReplicas(bucketName, regions).resources[i] == Literal(rules[i].destinationBucket + "/*")
                 && ManageReplicaBuckets(bucketName, regions).resources[i] == Literal(rules[i].destinationBucket)
  {
  }

  // ---------------------------------------------------------------------------
  // The replication role covers every rule

  lemma EncryptCoversRule(bucketName: string, account: string, regions: seq<string>,
                          explicitDecrypt: Option<Key>, who: Principal, region: string)
    requires region in regions
    ensures Evaluate(ReplicationRolePolicy(bucketName, account, regions, explicitDecrypt), who, "kms:Encrypt",
                     Literal(ReplicaKeyArn(bucketName, account, region))) == Allowed
  {
    var policy := ReplicationRolePolicy(bucketName, account, regions, explicitDecrypt);
    var st := EncryptWithReplicaKeys(bucketName, account, regions);
    var target := ReplicaKeyArn(bucketName, account, region);
    var j :| 0 <= j < |regions| && regions[j] == region;
    GlobSelf("kms:Encrypt");
    GlobSelf(target);
    assert "kms:Encrypt" in st.actions;
    assert st.resources[j] == Literal(target) && st.resources[j] in st.resources;
    ReplicationRolePolicyMembers(bucketName, account, regions, explicitDecrypt, st);
    AllowOnlyDecides(policy, who, "kms:Encrypt", Literal(target));
  }

  lemma ReplicateCoversRule(bucketName: string, regions: seq<string>, who: Principal, action: string,
                            region: string, objectKey: string)
    requires action == "s3:ReplicateDelete" || action == "s3:ReplicateObject" || action == "s3:ReplicateTags"
    requires region in regions
    ensures Matches(ReplicateToReplicas(bucketName, regions), who, action,
                    Literal(ReplicaBucketArn(bucketName, region) + "/" + objectKey))
  {
    var st := ReplicateToReplicas(bucketName, regions);
    var dest := ReplicaBucketArn(bucketName, region);
    var j :| 0 <= j < |regions| && regions[j] == region;
    GlobSelf(action);
    assert action in st.actions;
    GlobStar(objectKey);
    GlobSelfThen("/", "*", objectKey);
    assert "/" + "*" == "/*";
    GlobSelfThen(dest, "/*", "/" + objectKey);
    assert dest + ("/" + objectKey) == dest + "/" + objectKey;
    assert st.resources[j] == Literal(dest + "/*") && st.resources[j] in st.resources;
  }

  lemma ManageCoversRule(bucketName: string, regions: seq<string>, who: Principal, action: string, region: string)
    requires action == "s3:GetBucketVersioning" || action == "s3:PutBucketVersioning"
             || (|action| >= 7 && action[..7] == "s3:List")
    requires region in regions
    ensures Matches(ManageReplicaBuckets(bucketName, regions), who, action,
                    Literal(ReplicaBucketArn(bucketName, region)))
  {
    var st := ManageReplicaBuckets(bucketName, regions);
    var dest := ReplicaBucketArn(bucketName, region);
    var j :| 0 <= j < |regions| && regions[j] == region;
    if action == "s3:GetBucketVersioning" || action == "s3:PutBucketVersioning" {
      GlobSelf(action);
      assert action in st.actions;
    } else {
      GlobPrefixStar("s3:List", action);
      assert "s3:List" + "*" == "s3:List*";
      assert "s3:List*" in st.actions;
    }
    GlobSelf(dest);
    assert st.resources[j] == Literal(dest) && st.resources[j] in st.resources;
  }

  /** Whatever the target regions, the replication role allows what S3 needs to carry out
      each rule: encrypt with the rule's replica key, replicate objects into the rule's
      destination bucket, and list and version that bucket. */
  lemma ReplicationRoleCoversEveryRule(bucketName: string, account: string, regions: seq<string>,
                                       storageClass: Option<string>, deleteMarker: Option<Status>,
                                       explicitDecrypt: Option<Key>, who: Principal,
                                       i: nat, replicateAction: string, bucketAction: string, objectKey: string)
    requires i < |regions|
    requires replicateAction == "s3:ReplicateDelete" || replicateAction == "s3:ReplicateObject"
             || replicateAction == "s3:ReplicateTags"
    requires bucketAction == "s3:GetBucketVersioning" || bucketAction == "s3:PutBucketVersioning"
             || (|bucketAction| >= 7 && bucketAction[..7] == "s3:List")
    ensures var rule := RuleTable(bucketName, account, regions, storageClass, deleteMarker)[i];
            var policy := ReplicationRolePolicy(bucketName, account, regions, explicitDecrypt);
            && Evaluate(policy, who, "kms:Encrypt", Literal(rule.replicaKmsKeyId)) == Allowed
            && Evaluate(policy, who, replicateAction, Literal(rule.destinationBucket + "/" + objectKey)) == Allowed
            && Evaluate(policy, who, bucketAction, Literal(rule.destinationBucket)) == Allowed
  {
    var policy := ReplicationRolePolicy(bucketName, account, regions, explicitDecrypt);
    var region := regions[i];
    var dest := ReplicaBucketArn(bucketName, region);
    EncryptCoversRule(bucketName, account, regions, explicitDecrypt, who, region);
    ReplicateCoversRule(bucketName, regions, who, replicateAction, region, objectKey);
    ManageCoversRule(bucketName, regions, who, bucketAction, region);
    ReplicationRolePolicyMembers(bucketName, account, regions, explicitDecrypt, ReplicateToReplicas(bucketName, regions));
    ReplicationRolePolicyMembers(bucketName, account, regions, explicitDecrypt, ManageReplicaBuckets(bucketName, regions));
    AllowOnlyDecides(policy, who, replicateAction, Literal(dest + "/" + objectKey));
    AllowOnlyDecides(policy, who, bucketAction, Literal(dest));
  }

  lemma ReadConfigurationMatches(who: Principal, action: string)
    requires action in ReadReplicationConfiguration().actions
    ensures Matches(ReadReplicationConfiguration(), who, action, BucketArn)
  {
    GlobSelf(action);
    assert BucketArn in ReadReplicationConfiguration().resources;
  }

  lemma ReadObjectVersionsMatches(who: Principal, action: string, objectKey: string)
    requires action in ReadObjectVersions().actions
    ensures Matches(ReadObjectVersions(), who, action, ObjectsArn(objectKey))
  {
    GlobSelf(action);
    GlobStar(objectKey);
    assert ObjectsArn("*") in ReadObjectVersions().resources;
  }

  /** The replication role may run each of the two bucket-level reads
      (`s3:GetReplicationConfiguration`, `s3:ListBucket`) on the source bucket, and each of the
      four version reads (`s3:GetObjectVersion`, `...Acl`, `...ForReplication`, `...Tagging`)
      on every source object. */
  lemma ReplicationRoleReadsSource(bucketName: string, account: string, regions: seq<string>,
                                   explicitDecrypt: Option<Key>, who: Principal, objectKey: string)
    ensures ReadReplicationConfiguration().actions == ["s3:GetReplicationConfiguration", "s3:ListBucket"]
    ensures ReadObjectVersions().actions == ["s3:GetObjectVersion", "s3:GetObjectVersionAcl",
                                             "s3:GetObjectVersionForReplication", "s3:GetObjectVersionTagging"]
    ensures var policy := ReplicationRolePolicy(bucketName, account, regions, explicitDecrypt);
            forall a | a in ReadReplicationConfiguration().actions ::
              Evaluate(policy, who, a, BucketArn) == Allowed
    ensures var policy := ReplicationRolePolicy(bucketName, account, regions, explicitDecrypt);
            forall a | a in ReadObjectVersions().actions ::
              Evaluate(policy, who, a, ObjectsArn(objectKey)) == Allowed
  {
    var policy := ReplicationRolePolicy(bucketName, account, regions, explicitDecrypt);
    ReplicationRolePolicyMembers(bucketName, account, regions, explicitDecrypt, ReadReplicationConfiguration());
    ReplicationRolePolicyMembers(bucketName, account, regions, explicitDecrypt, ReadObjectVersions());
    forall a | a in ReadReplicationConfiguration().actions
      ensures Evaluate(policy, who, a, BucketArn) == Allowed
    {
      ReadConfigurationMatches(who, a);
      AllowOnlyDecides(policy, who, a, BucketArn);
    }
    forall a | a in ReadObjectVersions().actions
      ensures Evaluate(policy, who, a, ObjectsArn(objectKey)) == Allowed
    {
      ReadObjectVersionsMatches(who, a, objectKey);
      AllowOnlyDecides(policy, who, a, ObjectsArn(objectKey));
    }
  }

  /** An empty region list is accepted as it is: the rule table is empty, and the replication
      role is allowed nothing on any named resource outside the source bucket and its key,
      since every per-region statement has an empty resource list. */
  lemma EmptyRegionListGrantsNoReplicaAccess(bucketName: string, account: string,
                                             storageClass: Option<string>, deleteMarker: Option<Status>,
                                             explicitDecrypt: Option<Key>, who: Principal,
                                             action: string, text: string)
    ensures RuleTable(bucketName, account, [], storageClass, deleteMarker) == []
    ensures Evaluate(ReplicationRolePolicy(bucketName, account, [], explicitDecrypt), who, action, Literal(text))
            == ImplicitDeny
  {
    var policy := ReplicationRolePolicy(bucketName, account, [], explicitDecrypt);
    forall st | st in policy ensures !Matches(st, who, action, Literal(text)) {
      ReplicationRolePolicyMembers(bucketName, account, [], explicitDecrypt, st);
    }
    AllowOnlyDecides(policy, who, action, Literal(text));
  }
}
