/** Cache keys of the users package (users/cachekeys.go). */
module CacheKeys {
  import opened Wrappers

  /** SessionAccessKeys: "access:" followed by the id as `%v` prints it. */
  function SessionAccessKeys(userId: Uuid): string
  {
    "access:" + userId.text
  }

  /** SessionRefreshKeys: "refresh:" followed by the id. */
  function SessionRefreshKeys(userId: Uuid): string
  {
    "refresh:" + userId.text
  }

  /** UserProfile: "user:profile:" followed by the id. */
  function UserProfile(userId: Uuid): string
  {
    "user:profile:" + userId.text
  }

  /** TenantSettings: "tenant:settings:" followed by the id. */
  function TenantSettings(tenantId: Uuid): string
  {
    "tenant:settings:" + tenantId.text
  }

  /** Each key is its family's prefix followed by the id text. */
  lemma KeyPrefixes(id: Uuid)
    ensures SessionAccessKeys(id)[..7] == "access:" && SessionAccessKeys(id)[7..] == id.text
    ensures SessionRefreshKeys(id)[..8] == "refresh:" && SessionRefreshKeys(id)[8..] == id.text
    ensures UserProfile(id)[..13] == "user:profile:" && UserProfile(id)[13..] == id.text
    ensures TenantSettings(id)[..16] == "tenant:settings:" && TenantSettings(id)[16..] == id.text
  {
  }

  /** A fixed prefix followed by different texts gives different keys. */
  lemma PrefixedInjective(prefix: string, a: string, b: string)
    requires prefix + a == prefix + b
    ensures a == b
  {
    assert a == (prefix + a)[|prefix|..];
    assert b == (prefix + b)[|prefix|..];
  }

  /** Each key function is injective in the id. */
  lemma KeysInjective(a: Uuid, b: Uuid)
    ensures SessionAccessKeys(a) == SessionAccessKeys(b) ==> a == b
    ensures SessionRefreshKeys(a) == SessionRefreshKeys(b) ==> a == b
    ensures UserProfile(a) == UserProfile(b) ==> a == b
    ensures TenantSettings(a) == TenantSettings(b) ==> a == b
  {
    if SessionAccessKeys(a) == SessionAccessKeys(b) { PrefixedInjective("access:", a.text, b.text); }
    if SessionRefreshKeys(a) == SessionRefreshKeys(b) { PrefixedInjective("refresh:", a.text, b.text); }
    if UserProfile(a) == UserProfile(b) { PrefixedInjective("user:profile:", a.text, b.text); }
    if TenantSettings(a) == TenantSettings(b) { PrefixedInjective("tenant:settings:", a.text, b.text); }
  }

  /** An access key is never a refresh key, whatever the two ids: the keys differ
      at their first character. */
  lemma AccessNeverRefresh(a: Uuid, b: Uuid)
    ensures SessionAccessKeys(a) != SessionRefreshKeys(b)
  {
    assert SessionAccessKeys(a)[0] == 'a';
    assert SessionRefreshKeys(b)[0] == 'r';
  }

  /** No two of the four key families share a key. */
  lemma FamiliesDisjoint(a: Uuid, b: Uuid)
    ensures SessionAccessKeys(a) != UserProfile(b) && SessionAccessKeys(a) != TenantSettings(b)
    ensures SessionRefreshKeys(a) != UserProfile(b) && SessionRefreshKeys(a) != TenantSettings(b)
    ensures UserProfile(a) != TenantSettings(b)
  {
    assert SessionAccessKeys(a)[0] == 'a' && SessionRefreshKeys(a)[0] == 'r';
    assert UserProfile(b)[0] == 'u' && TenantSettings(b)[0] == 't';
    assert UserProfile(a)[0] == 'u';
  }
}
