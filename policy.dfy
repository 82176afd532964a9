/**
 * IAM policy statements as plain data, and a reference semantics for them.
 *
 * The constructs only write statements; what a statement permits is decided by
 * AWS. To state what the written statements mean, this module gives the part of
 * IAM's evaluation that the statements here rely on: `*` and `?` wildcards in
 * actions and resources, `AnyPrincipal`, and "an explicit Deny wins over any
 * Allow; without a matching Allow the request is implicitly denied".
 *
 * CDK values that render only at synthesis time (`bucket.bucketArn`,
 * `bucket.arnForObjects(pattern)`, `role.roleArn`, `role.roleName`,
 * `key.keyArn`) are symbolic references; only literal strings are compared
 * character by character.
 */
module Policy {
  import opened Wrappers

  /** The three roles a construct creates. */
  datatype RoleId = ReplicationRoleId | ExecutionRoleId | AdminRoleId

  /** A KMS key: the one the caller supplies (`props.encryptionKey`) or the one the archive
      stack creates itself. */
  datatype Key = SuppliedKey | StackKey

  /** A resource as written into a statement, or as named by a request. */
  datatype Ref =
    | Literal(text: string)
    | BucketArn                         // the source bucket's `bucketArn`
    | ObjectsArn(keyPattern: string)    // the source bucket's `arnForObjects(keyPattern)`
    | RoleArn(role: RoleId)
    | RoleName(role: RoleId)
    | KeyArn(key: Key)

  datatype Effect = Allow | Deny

  datatype Principal = AnyPrincipal | AccountRootPrincipal | ServicePrincipal(service: string)

  /** An IAM policy statement. An empty `principals` is an identity policy statement: it
      applies to whoever holds it. */
  datatype Statement = Statement(
    sid: Option<string>,
    effect: Effect,
    principals: seq<Principal>,
    actions: seq<string>,
    resources: seq<Ref>)

  /** The outcome of evaluating a request against a policy. */
  datatype Decision = Allowed | ExplicitDeny | ImplicitDeny

  /** `s` holds neither of IAM's two wildcard characters. */
  predicate NoWildcards(s: string) {
    forall i | 0 <= i < |s| :: s[i] != '*' && s[i] != '?'
  }

  /** IAM wildcard matching: `*` matches any run of characters, `?` any one character. */
  predicate Glob(pattern: string, s: string)
    decreases |pattern| + |s|
  {
    if |pattern| == 0 then |s| == 0
    else if pattern[0] == '*' then Glob(pattern[1..], s) || (|s| > 0 && Glob(pattern, s[1..]))
    else |s| > 0 && (pattern[0] == '?' || pattern[0] == s[0]) && Glob(pattern[1..], s[1..])
  }

  /** A resource pattern of a statement covers the requested resource. The rendering of a
      symbolic reference is not known, so the only literal that covers one is `*`. */
  predicate ResourceMatches(pattern: Ref, resource: Ref) {
    match pattern
    case Literal(p) => if resource.Literal? then Glob(p, resource.text) else p == "*"
    case ObjectsArn(p) => resource.ObjectsArn? && Glob(p, resource.keyPattern)
    case _ => pattern == resource
  }

  predicate PrincipalMatches(st: Statement, who: Principal) {
    |st.principals| == 0 || AnyPrincipal in st.principals || who in st.principals
  }

  /** The statement speaks about this principal, action and resource. */
  predicate Matches(st: Statement, who: Principal, action: string, resource: Ref) {
    && PrincipalMatches(st, who)
    && (exists a | a in st.actions :: Glob(a, action))
    && (exists r | r in st.resources :: ResourceMatches(r, resource))
  }

  /** IAM's decision for one request: an explicit Deny wins, then an Allow, else implicit deny. */
  function Evaluate(policy: seq<Statement>, who: Principal, action: string, resource: Ref): Decision {
    if exists st | st in policy :: st.effect == Deny && Matches(st, who, action, resource) then ExplicitDeny
    else if exists st | st in policy :: st.effect == Allow && Matches(st, who, action, resource) then Allowed
    else ImplicitDeny
  }

  /** A policy made of Allow statements only, as every identity policy here is. */
  predicate AllowOnly(policy: seq<Statement>) {
    forall st | st in policy :: st.effect == Allow
  }

  // ---------------------------------------------------------------------------
  // Evaluation

  /** Matching a statement with one action and one resource. */
  lemma MatchesSingle(st: Statement, who: Principal, action: string, resource: Ref)
    requires |st.actions| == 1 && |st.resources| == 1
    ensures Matches(st, who, action, resource) <==>
              PrincipalMatches(st, who) && Glob(st.actions[0], action) && ResourceMatches(st.resources[0], resource)
  {
    assert st.actions[0] in st.actions && st.resources[0] in st.resources;
  }

  /** A statement none of whose actions covers the action does not match. */
  lemma ActionMissed(st: Statement, who: Principal, action: string, resource: Ref)
    requires forall a | a in st.actions :: !Glob(a, action)
    ensures !Matches(st, who, action, resource)
  {
  }

  /** A statement with only symbolic resources does not match a literal resource. */
  lemma LiteralMissed(st: Statement, who: Principal, action: string, text: string)
    requires forall r | r in st.resources :: !r.Literal?
    ensures !Matches(st, who, action, Literal(text))
  {
  }

  /** One matching Deny statement decides the request. */
  lemma DenyWins(policy: seq<Statement>, st: Statement, who: Principal, action: string, resource: Ref)
    requires st in policy && st.effect == Deny && Matches(st, who, action, resource)
    ensures Evaluate(policy, who, action, resource) == ExplicitDeny
  {
  }

  /** In an Allow-only policy a request is allowed exactly when some statement matches it,
      and it is never explicitly denied. */
  lemma AllowOnlyDecides(policy: seq<Statement>, who: Principal, action: string, resource: Ref)
    requires AllowOnly(policy)
    ensures Evaluate(policy, who, action, resource) != ExplicitDeny
    ensures Evaluate(policy, who, action, resource) == Allowed <==>
              exists st | st in policy :: Matches(st, who, action, resource)
  {
  }

  // ---------------------------------------------------------------------------
  // Wildcard matching

  /** Matching a pattern against a string that starts with the pattern's own text:
      every character of a pattern, wildcard or not, matches itself. */
  lemma {:induction false} GlobSelfThen(p: string, q: string, t: string)
    requires Glob(q, t)
    ensures Glob(p + q, p + t)
    decreases |p|
  {
    if |p| == 0 {
      assert p + q == q && p + t == t;
    } else {
      GlobSelfThen(p[1..], q, t);
      assert (p + q)[0] == p[0] == (p + t)[0];
      assert (p + q)[1..] == p[1..] + q;
      assert (p + t)[1..] == p[1..] + t;
      if p[0] == '*' {
        // the star first matches itself, then nothing more
        assert Glob(p + q, (p + t)[1..]);
      }
    }
  }

  /** Every pattern matches its own text. */
  lemma GlobSelf(p: string)
    ensures Glob(p, p)
  {
    GlobSelfThen(p, "", "");
    assert p + "" == p;
  }

  /** A leading star absorbs any run of characters. */
  lemma {:induction false} GlobStarSkip(q: string, m: string, t: string)
    requires Glob(q, t)
    ensures Glob("*" + q, m + t)
    decreases |m|
  {
    assert ("*" + q)[0] == '*' && ("*" + q)[1..] == q;
    if |m| == 0 {
      assert m + t == t;
    } else {
      GlobStarSkip(q, m[1..], t);
      assert (m + t)[1..] == m[1..] + t;
    }
  }

  /** `*` matches every string. */
  lemma GlobStar(s: string)
    ensures Glob("*", s)
  {
    GlobStarSkip("", s, "");
    assert "*" + "" == "*" && s + "" == s;
  }

  /** `p*t*` covers every string that starts with `p` and has `t` later on. */
  lemma GlobStarInfix(p: string, t: string, m: string, s: string)
    ensures Glob(p + "*" + t + "*", p + m + t + s)
  {
    GlobStar(s);
    GlobSelfThen(t, "*", s);
    GlobStarSkip(t + "*", m, t + s);
    GlobSelfThen(p, "*" + (t + "*"), m + (t + s));
    assert p + ("*" + (t + "*")) == p + "*" + t + "*";
    assert p + (m + (t + s)) == p + m + t + s;
  }

  /** A pattern that starts with an ordinary character other than the string's first
      character does not match it. */
  lemma GlobFirstMismatch(p: string, s: string)
    requires |p| > 0 && p[0] != '*' && p[0] != '?'
    requires |s| > 0 && p[0] != s[0]
    ensures !Glob(p, s)
  {
  }

  /** A wildcard-free head of a pattern matches exactly itself, at the start of the string. */
  lemma {:induction false} GlobLiteralHead(p: string, q: string, s: string)
    requires NoWildcards(p)
    ensures Glob(p + q, s) <==> (|p| <= |s| && s[..|p|] == p && Glob(q, s[|p|..]))
    decreases |p|
  {
    if |p| == 0 {
      assert p + q == q && s[..0] == p && s[0..] == s;
    } else {
      assert (p + q)[0] == p[0] && (p + q)[1..] == p[1..] + q;
      assert NoWildcards(p[1..]) by {
        forall i | 0 <= i < |p[1..]| ensures p[1..][i] != '*' && p[1..][i] != '?' {
          assert p[1..][i] == p[i + 1];
        }
      }
      if |s| > 0 {
        GlobLiteralHead(p[1..], q, s[1..]);
        if |p| <= |s| {
          assert s[1..][|p| - 1..] == s[|p|..];
          assert s[..|p|] == [s[0]] + s[1..][..|p| - 1];
          assert p == [p[0]] + p[1..];
        }
      }
    }
  }

  /** A wildcard-free pattern matches exactly itself. */
  lemma GlobLiteral(p: string, s: string)
    requires NoWildcards(p)
    ensures Glob(p, s) <==> p == s
  {
    GlobLiteralHead(p, "", s);
    assert p + "" == p;
    if |p| <= |s| && s[..|p|] == p && |s[|p|..]| == 0 {
      assert s == s[..|p|];
    }
  }

  /** A wildcard-free text followed by a star matches exactly the strings it starts. */
  lemma GlobPrefixStar(p: string, s: string)
    requires NoWildcards(p)
    ensures Glob(p + "*", s) <==> (|p| <= |s| && s[..|p|] == p)
  {
    GlobLiteralHead(p, "*", s);
    if |p| <= |s| {
      GlobStar(s[|p|..]);
    }
  }

  /** Wildcard-freedom of a concatenation. */
  lemma NoWildcardsConcat(a: string, b: string)
    ensures NoWildcards(a + b) <==> NoWildcards(a) && NoWildcards(b)
  {
    if NoWildcards(a + b) {
      forall i | 0 <= i < |a| ensures a[i] != '*' && a[i] != '?' {
        assert a[i] == (a + b)[i];
      }
      forall i | 0 <= i < |b| ensures b[i] != '*' && b[i] != '?' {
        assert b[i] == (a + b)[|a| + i];
      }
    }
    if NoWildcards(a) && NoWildcards(b) {
      forall i | 0 <= i < |a + b| ensures (a + b)[i] != '*' && (a + b)[i] != '?' {
        if i < |a| { assert (a + b)[i] == a[i]; } else { assert (a + b)[i] == b[i - |a|]; }
      }
    }
  }
}
