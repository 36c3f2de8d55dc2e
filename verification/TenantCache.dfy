/**
 Cache invalidation: the guarded glob deletion and the tenant and entity invalidations built on it, over
 the in-memory store.
 */
module TenantCache {
  import opened Options
  import opened GlobPatterns
  import opened TtlStore
  import opened Tallies

  /** What an invalidation of an entity, or of the whole tenant without one, is to remove. */
  ghost predicate Invalidated(t: string, entity: Option<string>, roles: bool, k: string) {
    if entity.None? || entity.value == "" then Namespace(t) <= k
    else InEntity(t, entity.value, k) || (roles && InRoleVariant(t, entity.value, k))
  }

  /** The guard lets a pattern through. */
  predicate Passes(pattern: string) {
    CACHE <= pattern ==> Accepted(pattern)
  }

  class CacheManager {
    const store: Store
    var failures: map<string, nat>
    var successes: map<string, nat>

    constructor (store: Store)
      ensures this.store == store && failures == map[] && successes == map[]
    {
      this.store, this.failures, this.successes := store, map[], map[];
    }

    /**
     Deletes what the pattern matches if the guard lets it through. An accepted tenant pattern leaves
     everything outside its own tenant's namespace.
     */
    method DeletePattern(pattern: string) returns (ok: bool)
      requires store.Valid()
      modifies store`data, store`model
      ensures store.Valid() && (ok <==> Passes(pattern))
      ensures forall e :: e in store.data <==> e in old(store.data) && !(ok && Globs(store.foreign, pattern, e.key))
      ensures ok && CACHE <= pattern ==>
                forall e | e in old(store.data) && !(Namespace(TenantOf(pattern)) <= e.key) :: e in store.data
    {
      hide Accepted, Match;
      if CACHE <= pattern && !Accepted(pattern) {
        return false;
      }
      var keys := store.ScanKeys(pattern);
      ghost var before := store.data;
      assert forall e | e in before :: e.key in Keys(before);
      if keys != [] {
        var n := store.Delete(keys);
      }
      if CACHE <= pattern {
        OnlyStars(pattern);
        forall e | e in before && !(Namespace(TenantOf(pattern)) <= e.key)
          ensures !Globs(store.foreign, pattern, e.key)
        {
          if Match(pattern, e.key) {
            Isolation(pattern, e.key);
          }
        }
      }
      ok := true;
    }

    /** Succeeds exactly for a safe tenant and a safe entity, if one is named; removes exactly what it is to remove. */
    method InvalidateTenantCache(t: string, entity: Option<string>, roles: bool) returns (ok: bool)
      requires store.Valid()
      modifies store`data, store`model
      ensures store.Valid()
      ensures ok <==> SafeTenant(t) && (entity.None? || entity.value == "" || Literal(entity.value))
      ensures forall e :: e in store.data <==> e in old(store.data) && !(ok && Invalidated(t, entity, roles, e.key))
    {
      hide SafeTenant, Literal, Accepted, Match, Namespace, EntityPattern, RolePattern, TenantPattern, InEntity, InRoleVariant;
      GuardsAreWider(t, if entity.Some? then entity.value else "");
      if !TenantPasses(t) {
        return false;
      }
      if entity.None? || entity.value == "" {
        PatternFacts(store.foreign, t, "");
        ok := DeletePattern(TenantPattern(t));
        return;
      }
      var e := entity.value;
      if HasMeta(e) {
        return false;
      }
      PatternFacts(store.foreign, t, e);
      ok := DeletePattern(EntityPattern(t, e));
      if roles {
        var roleOk := DeletePattern(RolePattern(t, e));
        ok := ok && roleOk;
      }
    }

    /** Succeeds exactly for a safe tenant and a safe entity, removes the entity's keys, and counts the outcome. */
    method SafeInvalidate(t: string, e: string) returns (ok: bool)
      requires store.Valid()
      modifies store`data, store`model, this`failures, this`successes
      ensures store.Valid() && (ok <==> SafeTenant(t) && Literal(e))
      ensures forall x :: x in store.data <==> x in old(store.data) && !(ok && InEntity(t, e, x.key))
      ensures successes == (if ok then Bump(old(successes), e) else old(successes))
      ensures failures == (if ok then old(failures) else Bump(old(failures), e))
    {
      hide SafeTenant, Literal, Accepted, Match, Namespace, EntityPattern, InEntity;
      GuardsAreWider(t, e);
      if !TenantPasses(t) || e == "" || HasMeta(e) {
        failures := Bump(failures, e);
        return false;
      }
      PatternFacts(store.foreign, t, e);
      ok := DeletePattern(EntityPattern(t, e));
      if ok {
        successes := Bump(successes, e);
      } else {
        failures := Bump(failures, e);
      }
    }
  }

  /** The two checks before the pattern is built let every safe name through, and no colon into the pattern. */
  lemma GuardsAreWider(t: string, e: string)
    ensures SafeTenant(t) ==> TenantPasses(t)
    ensures TenantPasses(t) ==> ':' !in t
    ensures Literal(e) ==> !HasMeta(e) && e != ""
    ensures !HasMeta(e) ==> ':' !in e && '*' !in e
  {
    if ':' in e || '*' in e {
      var i :| 0 <= i < |e| && (e[i] == ':' || e[i] == '*');
      assert e[i] in "*?[]\\:" by { assert "*?[]\\:"[0] == '*' && "*?[]\\:"[5] == ':'; }
    }
    if ':' in t {
      var i :| 0 <= i < |t| && t[i] == ':';
      assert !SafeChar(Unterminated(t)[i]);
    }
    if HasMeta(e) {
      var i :| 0 <= i < |e| && e[i] in "*?[]\\:";
      assert !SafeChar(e[i]);
    }
  }

  /** The three patterns: when the guard accepts them, and what they reach. */
  lemma PatternFacts(foreign: (string, string) -> bool, t: string, e: string)
    requires ':' !in t && ':' !in e && '*' !in e
    ensures Passes(TenantPattern(t)) <==> SafeTenant(t)
    ensures Passes(EntityPattern(t, e)) <==> SafeTenant(t) && Literal(e)
    ensures Passes(RolePattern(t, e)) <==> SafeTenant(t) && Literal(e)
    ensures SafeTenant(t) ==> forall k :: Globs(foreign, TenantPattern(t), k) <==> Namespace(t) <= k
    ensures SafeTenant(t) && Literal(e) ==> forall k :: Globs(foreign, EntityPattern(t, e), k) <==> InEntity(t, e, k)
    ensures SafeTenant(t) && Literal(e) ==> forall k :: Globs(foreign, RolePattern(t, e), k) <==> InRoleVariant(t, e, k)
  {
    hide SafeTenant, Literal, Accepted, Match, Namespace, InEntity, InRoleVariant;
    PatternsAccepted(t, e);
    if SafeTenant(t) {
      OnlyStars(TenantPattern(t));
      forall k
        ensures Globs(foreign, TenantPattern(t), k) <==> Namespace(t) <= k
      {
        TenantPatternReaches(t, k);
      }
      if Literal(e) {
        OnlyStars(EntityPattern(t, e));
        OnlyStars(RolePattern(t, e));
        forall k
          ensures Globs(foreign, EntityPattern(t, e), k) <==> InEntity(t, e, k)
          ensures Globs(foreign, RolePattern(t, e), k) <==> InRoleVariant(t, e, k)
        {
          EntityPatternReaches(t, e, k);
          RolePatternReaches(t, e, k);
        }
      }
    }
  }

  /** No invalidation of one tenant touches a key of another. */
  lemma OtherTenantsKeep(t: string, u: string, entity: Option<string>, roles: bool, k: string)
    requires SafeTenant(t) && SafeTenant(u) && t != u && Namespace(u) <= k
    ensures !Invalidated(t, entity, roles, k)
  {
    if Namespace(t) <= k {
      NamespacesDisjoint(t, u, k);
    }
  }

  /** The text names the entity between two colons. */
  ghost predicate Mentions(text: string, e: string) {
    exists front: string, back: string :: text == front + (":" + e + ":") + back
  }

  lemma MentionsSomewhere(text: string, e: string)
    ensures Mentions(text, e) <==> exists i: nat :: OccursAt(text, ":" + e + ":", i)
  {
    var name := ":" + e + ":";
    if front: string, back: string :| text == front + name + back {
      assert text[|front|..] == name + back;
      assert OccursAt(text, name, |front|);
    }
    if i: nat :| OccursAt(text, name, i) {
      assert text == text[..i] + name + text[i + |name|..];
    }
  }

  lemma OwnKeysOnly(t: string, e: string, f: string, hash: string)
    requires ':' !in e && ':' !in f
    ensures InEntity(t, e, PlainKey(t, f, hash)) ==> e == f
  {
    var k := PlainKey(t, f, hash);
    if InEntity(t, e, k) {
      assert k == Namespace(t) + (f + ":" + hash) && Namespace(t) + e + ":" == Namespace(t) + (e + ":");
      var rest := f + ":" + hash;
      SamePrefix(Namespace(t), e + ":", rest);
      assert rest == e + ":" + rest[|e| + 1..];
      SplitAt(e, rest[|e| + 1..]);
      SplitAt(f, hash);
      assert Split(rest)[0] == e && Split(rest)[0] == f;
    }
  }

  /**
   Of another entity of the tenant an invalidation takes exactly the keys that mention the name further on,
   and those only with role variants.
   */
  lemma OtherEntitiesKeep(t: string, e: string, f: string, roles: bool, hash: string)
    requires e != "" && ':' !in e && ':' !in f && e != f
    ensures Invalidated(t, Some(e), roles, PlainKey(t, f, hash)) <==> roles && Mentions(":" + hash, e)
  {
    hide InRoleVariant, InEntity, Mentions, OccursAt, PlainKey;
    OwnKeysOnly(t, e, f, hash);
    MentionsSomewhere(":" + hash, e);
    RolePatternTakesMore(t, e, f, hash);
  }

  /** So it does with the role-aware keys of any other entity. */
  lemma OtherRoleKeysKeep(t: string, e: string, f: string, roles: bool, role: string, hash: string)
    requires Literal(e) && ':' !in role
    ensures Invalidated(t, Some(e), roles, RoleKey(t, role, f, hash)) <==> roles && Mentions(":" + f + ":" + hash, e)
  {
    PlainChars(e);
    assert RoleKey(t, role, f, hash) == PlainKey(t, "r=" + role, f + ":" + hash);
    assert ":" + (f + ":" + hash) == ":" + f + ":" + hash;
    assert e != "r=" + role by {
      assert ("r=" + role)[1] == '=' && !SafeChar('=');
    }
    OtherEntitiesKeep(t, e, "r=" + role, roles, f + ":" + hash);
  }

  /** After an invalidation that includes role variants no key that the cache writes for the entity is left. */
  lemma NothingLeft(t: string, e: string, role: string, hash: string)
    requires e != ""
    ensures Invalidated(t, Some(e), true, PlainKey(t, e, hash)) && Invalidated(t, Some(e), true, RoleKey(t, role, e, hash))
    ensures SafeTenant(t) && Literal(e) ==> !Invalidated(t, Some(e), false, RoleKey(t, role, e, hash))
  {
    KeysAreReached(t, e, role, hash);
    if SafeTenant(t) && Literal(e) {
      RoleKeysSurvivePlain(t, e, role, e, hash);
    }
  }
}
