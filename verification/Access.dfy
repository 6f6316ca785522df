/** Channel access rules: the ACL table and the channel grants of a token. */
module Access {
  import opened Domains

  datatype Option<+T> = None | Some(value: T)

  datatype ChannelAcl = ChannelAcl(
    isPublic: bool,
    maxMembers: int,
    allowedKeys: seq<string>,
    permissions: map<string, string>)

  type AclTable = map<string, ChannelAcl>

  datatype Claims = Claims(user: string, channels: seq<string>, permissions: map<string, string>)

  function PermissionLevel(perm: string): int {
    var p := Lower(perm);
    if p == "read" then 1 else if p == "write" then 2 else if p == "admin" then 3 else 0
  }

  /** The rule CanJoin decides. */
  predicate MayJoin(acls: AclTable, channel: string, key: string, user: string) {
    channel in acls && !acls[channel].isPublic ==>
      var acl := acls[channel];
      && (acl.allowedKeys != [] ==> key in acl.allowedKeys)
      && (|acl.permissions| > 0 ==> user in acl.permissions)
  }

  method CanJoin(acls: AclTable, channel: string, key: string, user: string) returns (ok: bool)
    ensures ok <==> MayJoin(acls, channel, key, user)
    ensures channel !in acls || acls[channel].isPublic ==> ok
    ensures channel in acls && !acls[channel].isPublic ==>
              (ok <==> (acls[channel].allowedKeys == [] || key in acls[channel].allowedKeys)
                       && (acls[channel].permissions == map[] || user in acls[channel].permissions))
  {
    if channel !in acls || acls[channel].isPublic {
      return true;
    }
    var acl := acls[channel];
    if |acl.allowedKeys| > 0 {
      var keyAllowed := false;
      for n := 0 to |acl.allowedKeys|
        invariant !keyAllowed
        invariant key !in acl.allowedKeys[..n]
      {
        if acl.allowedKeys[n] == key {
          keyAllowed := true;
          break;
        }
      }
      if !keyAllowed {
        return false;
      }
    }
    if |acl.permissions| > 0 {
      return user in acl.permissions;
    }
    return true;
  }

  predicate CheckMaxMembers(acls: AclTable, channel: string, count: int) {
    channel !in acls || acls[channel].maxMembers == 0 || count < acls[channel].maxMembers
  }

  predicate HasChannelAccess(claims: Option<Claims>, channel: string, required: string) {
    match claims
    case None => false
    case Some(c) =>
      if c.channels == [] && |c.permissions| == 0 then true
      else if channel in c.permissions then PermissionLevel(c.permissions[channel]) >= PermissionLevel(required)
      else if "*" in c.permissions then PermissionLevel(c.permissions["*"]) >= PermissionLevel(required)
      else channel in c.channels || "*" in c.channels
  }

  /** What both join paths must have established for a connection that is in a room. */
  predicate Entitled(acls: AclTable, key: string, user: string, claims: Option<Claims>, room: string) {
    MayJoin(acls, room, key, user) && (claims.Some? ==> HasChannelAccess(claims, room, "read"))
  }

  /** The names, in any case, of the levels that a required level accepts; an unknown requirement
      accepts anything. */
  ghost predicate Suffices(perm: string, required: string) {
    var p, r := Lower(perm), Lower(required);
    && (r == "read" ==> p in {"read", "write", "admin"})
    && (r == "write" ==> p in {"write", "admin"})
    && (r == "admin" ==> p == "admin")
  }

  lemma LevelSuffices(perm: string, required: string)
    ensures PermissionLevel(perm) >= PermissionLevel(required) <==> Suffices(perm, required)
  {
    assert "read" != "write" && "read" != "admin" && "write" != "admin";
  }

  /** What a token grants: everything if it names nothing; else its entry for the channel decides, and
      only without one its "*" entry, and only without both the list of channels. */
  lemma TokenGrants(c: Claims, channel: string, required: string)
    ensures
      var open := c.channels == [] && c.permissions == map[];
      var entry, any := channel in c.permissions, "*" in c.permissions;
      && (open ==> HasChannelAccess(Some(c), channel, required))
      && (entry ==> (HasChannelAccess(Some(c), channel, required) <==> Suffices(c.permissions[channel], required)))
      && (!entry && any ==> (HasChannelAccess(Some(c), channel, required) <==> Suffices(c.permissions["*"], required)))
      && (!open && !entry && !any ==>
            (HasChannelAccess(Some(c), channel, required)
             <==> exists i :: 0 <= i < |c.channels| && c.channels[i] in {channel, "*"}))
  {
    if channel in c.permissions {
      LevelSuffices(c.permissions[channel], required);
    }
    if "*" in c.permissions {
      LevelSuffices(c.permissions["*"], required);
    }
  }

  /** The token check as the code searches it. */
  method CheckToken(claims: Option<Claims>, channel: string, required: string) returns (ok: bool)
    ensures ok <==> HasChannelAccess(claims, channel, required)
    ensures claims.None? ==> !ok
  {
    if claims.None? {
      return false;
    }
    var c := claims.value;
    if |c.channels| == 0 && |c.permissions| == 0 {
      return true;
    }
    if channel in c.permissions {
      return PermissionLevel(c.permissions[channel]) >= PermissionLevel(required);
    }
    if "*" in c.permissions {
      return PermissionLevel(c.permissions["*"]) >= PermissionLevel(required);
    }
    for n := 0 to |c.channels|
      invariant channel !in c.channels[..n] && "*" !in c.channels[..n]
    {
      if c.channels[n] == channel || c.channels[n] == "*" {
        return true;
      }
    }
    return false;
  }
}
