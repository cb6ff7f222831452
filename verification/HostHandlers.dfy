/**
 * The project and alias handlers as they change the stored rows. Each handler is one atomic step
 * and equals its specification function; none can break `Inv`.
 */
module HostHandlers {
  import opened Wrappers
  import opened TextTools
  import opened HostOwnership
  import opened HostClaims
  import opened HostLookup

  class Rows {
    var projects: map<nat, Project>
    var aliases: map<nat, Alias>
    const base: string

    constructor (base: string)
      requires Canonical(base)
      ensures Valid() && this.base == base && Contents() == Db(map[], map[])
    {
      this.base, projects, aliases := base, map[], map[];
      new;
      EmptyInv(base);
    }

    ghost function Contents(): Db
      reads this
    {
      Db(projects, aliases)
    }

    ghost predicate Valid()
      reads this
    {
      Canonical(base) && Inv(Contents(), base)
    }

    // The store's queries.

    method FindByPrefix(prefix: string) returns (found: Option<nat>)
      ensures found.Some? ==> found.value in projects && projects[found.value].prefix == prefix
      ensures found.None? ==> !PrefixTaken(Contents(), prefix, None)
    {
      if p :| p in projects && projects[p].prefix == prefix {
        return Some(p);
      }
      return None;
    }

    method FindByAliasHost(host: string) returns (found: Option<nat>)
      ensures found.Some? ==> HasAlias(Contents(), found.value, host)
      ensures found.None? ==> !HostAliased(Contents(), host, None)
    {
      if a :| a in aliases && aliases[a].host == host {
        assert aliases[a] == Alias(aliases[a].project, host);
        return Some(aliases[a].project);
      }
      return None;
    }

    /** Prefix and alias checks of create and update: `self` may keep what it has. */
    method HostIsFree(prefix: string, self: Option<nat>) returns (free: bool)
      requires Valid()
      ensures free <==> !PrefixTaken(Contents(), prefix, self) &&
                        !(base != "" && HostAliased(Contents(), HostOf(prefix, Lower(base)), self))
    {
      hide HostOf, AliasAccepted, Norm, ValidPrefix;
      var byPrefix := FindByPrefix(prefix);
      if byPrefix.Some? && byPrefix != self {
        assert PrefixTaken(Contents(), prefix, self);
        return false;
      }
      if base != "" {
        var owner := FindByAliasHost(HostOf(prefix, Lower(base)));
        if owner.Some? && owner != self {
          return false;
        }
      }
      return true;
    }

    method CreateProject(id: nat, owner: nat, kind: Kind, name: string, prefix: string, fieldsOk: bool)
      returns (status: Status)
      requires Valid()
      modifies this`projects
      ensures Valid()
      ensures (Contents(), status) ==
              Create(old(Contents()), base, Request.CreateProject(id, owner, kind, name, prefix, fieldsOk))
    {
      CreateKeepsInv(Contents(), base, Request.CreateProject(id, owner, kind, name, prefix, fieldsOk));
      hide Inv, Checked, PrefixTaken, HostAliased;
      var resolved := Checked(name, fieldsOk, kind, prefix);
      if resolved.None? {
        return BadRequest;
      }
      var free := HostIsFree(resolved.value, None);
      if !free {
        return Conflict;
      }
      if p :| p in projects && projects[p].owner == owner && projects[p].name == name {
        return Conflict;
      }
      if id in projects {
        return Failed;
      }
      projects := projects[id := Project(name, owner, kind, resolved.value)];
      return Done;
    }

    method UpdateProject(id: nat, allowed: bool, newName: Option<string>, newPrefix: Option<string>, fieldsOk: bool)
      returns (status: Status)
      requires Valid()
      modifies this`projects
      ensures Valid()
      ensures (Contents(), status) ==
              Update(old(Contents()), base, Request.UpdateProject(id, allowed, newName, newPrefix, fieldsOk))
    {
      UpdateKeepsInv(Contents(), base, Request.UpdateProject(id, allowed, newName, newPrefix, fieldsOk));
      hide Inv, Checked, PrefixTaken, HostAliased;
      if !allowed {
        return Forbidden;
      }
      if id !in projects {
        return NotFound;
      }
      var p := projects[id];
      var was := p.name;
      if newName.Some? {
        p := p.(name := newName.value);
      }
      if newPrefix.Some? {
        p := p.(prefix := newPrefix.value);
      }
      var resolved := Checked(p.name, fieldsOk, p.kind, p.prefix);
      if resolved.None? {
        return BadRequest;
      }
      p := p.(prefix := resolved.value);
      var free := HostIsFree(p.prefix, Some(id));
      if !free {
        return Conflict;
      }
      if p.name != was {
        if q :| q in projects && q != id && projects[q].owner == p.owner && projects[q].name == p.name {
          return Conflict;
        }
      }
      projects := projects[id := p];
      return Done;
    }

    method ChangeOwner(id: nat, newOwner: Option<nat>, ownerExists: bool) returns (status: Status)
      requires Valid()
      modifies this`projects
      ensures Valid()
      ensures (Contents(), status) == Reassign(old(Contents()), Request.ChangeOwner(id, newOwner, ownerExists))
    {
      ReassignKeepsInv(Contents(), base, Request.ChangeOwner(id, newOwner, ownerExists));
      hide Inv;
      if newOwner.None? {
        return BadRequest;
      }
      if id !in projects {
        return NotFound;
      }
      var p := projects[id];
      if p.owner == newOwner.value {
        return Done;
      }
      if !ownerExists {
        return NotFound;
      }
      if q :| q in projects && q != id && projects[q].owner == newOwner.value && projects[q].name == p.name {
        return Conflict;
      }
      projects := projects[id := p.(owner := newOwner.value)];
      return Done;
    }

    method DeleteProject(id: nat) returns (status: Status)
      requires Valid()
      modifies this
      ensures Valid()
      ensures (Contents(), status) == Delete(old(Contents()), id)
    {
      DeleteKeepsInv(Contents(), base, id);
      hide Inv;
      if id !in projects {
        return NotFound;
      }
      projects := projects - {id};
      aliases := map a | a in aliases && aliases[a].project != id :: aliases[a];
      return Done;
    }

    method CreateAlias(aliasId: nat, project: nat, caller: nat, admin: bool, raw: string) returns (status: Status)
      requires Valid()
      modifies this`aliases
      ensures Valid()
      ensures (Contents(), status) ==
              AddAlias(old(Contents()), base, Request.CreateAlias(aliasId, project, caller, admin, raw))
    {
      AddAliasKeepsInv(Contents(), base, Request.CreateAlias(aliasId, project, caller, admin, raw));
      hide Inv, AliasAccepted, BaseSubPrefix, Norm;
      if project !in projects {
        return NotFound;
      }
      if !admin && projects[project].owner != caller {
        return Forbidden;
      }
      var accepted := ValidateAliasHost(raw, base);
      if !accepted {
        return BadRequest;
      }
      var host := Norm(raw);
      var sub := BaseSubPrefix(host, base);
      if sub.Some? {
        var owner := FindByPrefix(sub.value);
        if owner.Some? {
          assert PrefixTaken(Contents(), sub.value, None);
          return Conflict;
        }
      }
      var claimed := FindByAliasHost(host);
      if claimed.Some? {
        return Conflict;
      }
      if aliasId in aliases {
        return Failed;
      }
      aliases := aliases[aliasId := Alias(project, host)];
      return Done;
    }

    method DeleteAlias(project: nat, aliasId: nat, caller: nat, admin: bool) returns (status: Status)
      requires Valid()
      modifies this`aliases
      ensures Valid()
      ensures (Contents(), status) == RemoveAlias(old(Contents()), Request.DeleteAlias(project, aliasId, caller, admin))
    {
      RemoveAliasKeepsInv(Contents(), base, Request.DeleteAlias(project, aliasId, caller, admin));
      hide Inv, Canonical;
      if project !in projects {
        return NotFound;
      }
      if !admin && projects[project].owner != caller {
        return Forbidden;
      }
      if aliasId !in aliases || aliases[aliasId].project != project {
        return NotFound;
      }
      aliases := aliases - {aliasId};
      return Done;
    }

    /** `handleInternalProjectByHost`: finds the claimant of any host, if there is one. */
    method ProjectByHost(raw: string) returns (found: Result<nat, Status>)
      requires Valid()
      ensures forall p: nat :: found == Ok(p) <==> Findable(Contents(), base, p, Norm(raw))
      ensures found == Err(BadRequest) <==> Norm(raw) == ""
    {
      var host := Norm(raw);
      if host == "" {
        NoClaimOnEmptyHost(Contents(), base);
        return Err(BadRequest);
      }
      var owner := None;
      if Lower(base) != "" && HasSuffix(host, "." + Lower(base)) {
        var prefix := TrimSuffix(host, "." + Lower(base));
        owner := FindByPrefix(prefix);
        if owner.None? {
          owner := FindByAliasHost(host);
        } else {
          PrefixClaims(Contents(), base, host, owner.value);
        }
      } else if host != Lower(base) {
        owner := FindByAliasHost(host);
      }
      if owner.None? {
        CanonicalIsLower(base);
        UnfoundIsUnclaimed(Contents(), base, host);
        return Err(NotFound);
      }
      assert Findable(Contents(), base, owner.value, host) by {
        CanonicalIsLower(base);
        hide AliasAccepted, Norm, PrefixesOk, HostOf;
      }
      OnlyClaimant(Contents(), base, owner.value, host);
      return Ok(owner.value);
    }
  }

  lemma PrefixClaims(db: Db, base: string, host: string, p: nat)
    requires Canonical(base) && HasSuffix(host, "." + Lower(base))
    requires p in db.projects && db.projects[p].prefix == TrimSuffix(host, "." + Lower(base))
    ensures Claims(db, base, p, host)
  {
    CanonicalIsLower(base);
    SuffixBack(host, "." + base);
    assert db.projects[p].prefix + ("." + base) == HostOf(db.projects[p].prefix, base);
  }

  lemma OnlyClaimant(db: Db, base: string, p: nat, host: string)
    requires Inv(db, base) && Findable(db, base, p, host)
    ensures forall q: nat :: p == q <==> Findable(db, base, q, host)
  {
    hide Inv, Claims, HasAlias;
    forall q: nat
      ensures p == q <==> Findable(db, base, q, host)
    {
      if Findable(db, base, q, host) {
        OneOwner(db, base, p, q, host);
      }
    }
  }

  /** When neither query finds anything, there is no claim to be found. */
  lemma UnfoundIsUnclaimed(db: Db, base: string, host: string)
    requires Inv(db, base) && Canonical(base)
    requires base != "" && HasSuffix(host, "." + base) ==> !PrefixTaken(db, TrimSuffix(host, "." + base), None)
    requires host == base || !HostAliased(db, host, None)
    ensures forall p: nat :: !Findable(db, base, p, host)
  {
    hide AliasAccepted, Norm, PrefixesOk, Agree, Inv;
    forall p: nat
      ensures !Findable(db, base, p, host)
    {
      ClaimedHostIsText(db, base, p, host);
      if p in db.projects && base != "" {
        SuffixCut(db.projects[p].prefix, "." + base);
        assert HostOf(db.projects[p].prefix, base) == db.projects[p].prefix + ("." + base);
        assert host != HostOf(db.projects[p].prefix, base);
      }
    }
  }

  lemma NoClaimOnEmptyHost(db: Db, base: string)
    requires Inv(db, base) && Canonical(base)
    ensures forall p: nat :: !Findable(db, base, p, "")
  {
    hide Claims, Inv;
    forall p: nat
      ensures !Findable(db, base, p, "")
    {
      ClaimedHostIsText(db, base, p, "");
    }
  }
}
