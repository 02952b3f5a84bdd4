/** Mounts, the credentials they may reference, and moving a mount's credential
parameters into a credential of their own. */
module Config {
  import opened Wrappers

  type Params = map<string, string>

  datatype Credential = Credential(name: string, typ: string, params: Params)

  datatype Mount = Mount(name: string, typ: string, credential: string, params: Params)

  datatype Conf = Conf(credentials: seq<Credential>, mounts: seq<Mount>)

  /** One parameter a driver type declares, with its scope. */
  datatype Param = Param(name: string, scope: string)

  /** drive.ParamSpecFor. */
  type ParamSpec = string -> seq<Param>

  const CREDENTIAL_SCOPE := "credential"

  datatype Error =
    | MountNameRequired
    | CredentialNameRequired
    | CredentialExists
    | MountNotFound
    | AlreadyReferences
    | NothingToAdopt
    | UnknownCredential
    | TypeMismatch
    | CredentialInUse
    | CredentialNotFound

  datatype Result<+T> = Ok(value: T) | Err(error: Error)

  // --------------------------------------------------------------------- lookups

  function FindCredential(credentials: seq<Credential>, name: string): Option<Credential> {
    if credentials == [] then None
    else if credentials[0].name == name then Some(credentials[0])
    else FindCredential(credentials[1..], name)
  }

  function CredentialFor(c: Conf, name: string): Option<Credential> {
    if name == "" then None else FindCredential(c.credentials, name)
  }

  /** The position of the first mount with the name, or -1. */
  function FindMount(mounts: seq<Mount>, name: string): (i: int)
    ensures -1 <= i < |mounts|
    ensures i >= 0 ==> mounts[i].name == name
    ensures forall k | 0 <= k < (if i < 0 then |mounts| else i) :: mounts[k].name != name
  {
    if mounts == [] then -1
    else if mounts[0].name == name then 0
    else
      var i := FindMount(mounts[1..], name);
      if i < 0 then -1 else i + 1
  }

  /** ResolveMountParams: the credential's parameters overridden by the mount's own. */
  function Resolve(c: Conf, m: Mount): Result<Params> {
    if m.credential == "" then Ok(m.params)
    else
      match CredentialFor(c, m.credential)
      case None => Err(UnknownCredential)
      case Some(cred) => if cred.typ != m.typ then Err(TypeMismatch) else Ok(cred.params + m.params)
  }

  function ScopeOf(spec: seq<Param>, key: string): string {
    if spec == [] then ""
    else if spec[|spec| - 1].name == key then spec[|spec| - 1].scope
    else ScopeOf(spec[..|spec| - 1], key)
  }

  function Moved(spec: seq<Param>, params: Params): Params {
    map k | k in params && ScopeOf(spec, k) == CREDENTIAL_SCOPE :: params[k]
  }

  function Remaining(spec: seq<Param>, params: Params): Params {
    map k | k in params && ScopeOf(spec, k) != CREDENTIAL_SCOPE :: params[k]
  }

  /** The two parts are disjoint and together are the whole. */
  lemma PartsAreTheWhole(spec: seq<Param>, params: Params)
    ensures Moved(spec, params).Keys !! Remaining(spec, params).Keys
    ensures Moved(spec, params) + Remaining(spec, params) == params
  {
    assert (Moved(spec, params) + Remaining(spec, params)).Keys == params.Keys;
  }

  // ------------------------------------------------------------------- operations

  function AdoptError(c: Conf, spec: ParamSpec, mountName: string, credentialName: string): Option<Error> {
    if mountName == "" then Some(MountNameRequired)
    else if credentialName == "" then Some(CredentialNameRequired)
    else if CredentialFor(c, credentialName).Some? then Some(CredentialExists)
    else
      var i := FindMount(c.mounts, mountName);
      if i < 0 then Some(MountNotFound)
      else if c.mounts[i].credential != "" then Some(AlreadyReferences)
      else if |Moved(spec(c.mounts[i].typ), c.mounts[i].params)| == 0 then Some(NothingToAdopt)
      else None
  }

  function Adopt(c: Conf, spec: ParamSpec, mountName: string, credentialName: string): Conf
    requires AdoptError(c, spec, mountName, credentialName).None?
  {
    var i := FindMount(c.mounts, mountName);
    var m := c.mounts[i];
    Conf(c.credentials + [Credential(credentialName, m.typ, Moved(spec(m.typ), m.params))],
         c.mounts[i := m.(credential := credentialName, params := Remaining(spec(m.typ), m.params))])
  }

  lemma {:induction false} FindInAppended(credentials: seq<Credential>, extra: Credential, name: string)
    ensures FindCredential(credentials + [extra], name)
         == if FindCredential(credentials, name).Some? then FindCredential(credentials, name)
            else if extra.name == name then Some(extra) else None
  {
    var all := credentials + [extra];
    if credentials != [] {
      assert all[1..] == credentials[1..] + [extra];
      FindInAppended(credentials[1..], extra, name);
    } else {
      assert all[1..] == [];
    }
  }

  /** Adoption keeps the meaning of the configuration: every mount resolves to
      what it resolved to, parameters and errors alike, unless it already named
      the credential that did not exist yet; such a mount now gets it, if the types agree. */
  lemma AdoptPreservesMeaning(c: Conf, spec: ParamSpec, mountName: string, credentialName: string)
    requires AdoptError(c, spec, mountName, credentialName).None?
    ensures var d := Adopt(c, spec, mountName, credentialName);
            && |d.mounts| == |c.mounts|
            && (forall i | 0 <= i < |c.mounts| ::
                d.mounts[i].name == c.mounts[i].name && d.mounts[i].typ == c.mounts[i].typ)
            && (forall i | 0 <= i < |c.mounts| && c.mounts[i].credential != credentialName ::
                  Resolve(d, d.mounts[i]) == Resolve(c, c.mounts[i]))
            && (forall i | 0 <= i < |c.mounts| && c.mounts[i].credential == credentialName ::
                  var m := c.mounts[FindMount(c.mounts, mountName)];
                  && Resolve(c, c.mounts[i]) == Err(UnknownCredential)
                  && Resolve(d, d.mounts[i]) == if c.mounts[i].typ == m.typ
                      then Ok(Moved(spec(m.typ), m.params) + c.mounts[i].params)
                                               else Err(TypeMismatch))
  {
    hide FindCredential, Moved, Remaining;
    var d := Adopt(c, spec, mountName, credentialName);
    var at := FindMount(c.mounts, mountName);
    var m := c.mounts[at];
    var extra := d.credentials[|c.credentials|];
    PartsAreTheWhole(spec(m.typ), m.params);
    forall i | 0 <= i < |c.mounts| && c.mounts[i].credential != credentialName
      ensures Resolve(d, d.mounts[i]) == Resolve(c, c.mounts[i])
    {
      FindInAppended(c.credentials, extra, d.mounts[i].credential);
    }
    FindInAppended(c.credentials, extra, credentialName);
  }

  /** In particular a mount that resolved before resolves to the same parameters. */
  lemma ResolvedStaysResolved(c: Conf, spec: ParamSpec, mountName: string, credentialName: string, i: nat)
    requires AdoptError(c, spec, mountName, credentialName).None? && i < |c.mounts| && Resolve(c, c.mounts[i]).Ok?
    ensures var d := Adopt(c, spec, mountName, credentialName);
            |d.mounts| == |c.mounts| && Resolve(d, d.mounts[i]) == Resolve(c, c.mounts[i])
  {
    AdoptPreservesMeaning(c, spec, mountName, credentialName);
  }

  function UsedBy(mounts: seq<Mount>, name: string): seq<string> {
    if mounts == [] then []
    else
      var last := mounts[|mounts| - 1];
      UsedBy(mounts[..|mounts| - 1], name) + (if last.credential == name then [last.name] else [])
  }

  lemma {:induction false} UnusedIsUnreferenced(mounts: seq<Mount>, name: string)
    requires UsedBy(mounts, name) == []
    ensures forall i | 0 <= i < |mounts| :: mounts[i].credential != name
  {
    if mounts != [] {
      UnusedIsUnreferenced(mounts[..|mounts| - 1], name);
    }
  }

  /** The credentials without the first one of that name. */
  function Without(credentials: seq<Credential>, name: string): seq<Credential> {
    if credentials == [] then []
    else if credentials[0].name == name then credentials[1..]
    else [credentials[0]] + Without(credentials[1..], name)
  }

  lemma {:induction false} WithoutOthers(credentials: seq<Credential>, name: string, other: string)
    requires other != name
    ensures FindCredential(Without(credentials, name), other) == FindCredential(credentials, other)
  {
    if credentials != [] && credentials[0].name != name {
      WithoutOthers(credentials[1..], name, other);
      assert ([credentials[0]] + Without(credentials[1..], name))[1..] == Without(credentials[1..], name);
    }
  }

  /** Removing a credential no mount references changes what no mount resolves to. */
  lemma RemovePreservesMeaning(c: Conf, name: string, m: Mount)
    requires UsedBy(c.mounts, name) == [] && m in c.mounts
    ensures Resolve(Conf(Without(c.credentials, name), c.mounts), m) == Resolve(c, m)
  {
    UnusedIsUnreferenced(c.mounts, name);
    WithoutOthers(c.credentials, name, m.credential);
  }

  // --------------------------------------------------- the configuration as an object

  /** Nothing before `i` has the name. */
  predicate Searched(credentials: seq<Credential>, name: string, i: nat) {
    && i <= |credentials|
    && FindCredential(credentials, name) == FindCredential(credentials[i..], name)
    && Without(credentials, name) == credentials[..i] + Without(credentials[i..], name)
  }

  lemma SearchFrom(credentials: seq<Credential>, name: string, i: nat)
    requires i == 0 || Searched(credentials, name, i)
    ensures Searched(credentials, name, i)
    ensures i == |credentials| ==> FindCredential(credentials, name).None?
    ensures i < |credentials| && credentials[i].name == name ==>
              FindCredential(credentials, name).Some? &&
                  Without(credentials, name) == credentials[..i] + credentials[i + 1..]
    ensures i < |credentials| && credentials[i].name != name ==> Searched(credentials, name, i + 1)
  {
    assert credentials[0..] == credentials;
    if i < |credentials| {
      assert credentials[i..][1..] == credentials[i + 1..];
      assert credentials[..i + 1] == credentials[..i] + [credentials[i]];
    }
  }

  class ConfigFile {
    var credentials: seq<Credential>
    var mounts: seq<Mount>

    ghost function Value(): Conf
      reads this
    {
      Conf(credentials, mounts)
    }

    method LookupCredential(name: string) returns (r: Option<Credential>)
      ensures r == CredentialFor(Value(), name)
    {
      if name == "" {
        return None;
      }
      assert credentials[0..] == credentials;
      for i := 0 to |credentials|
        invariant FindCredential(credentials, name) == FindCredential(credentials[i..], name)
      {
        if credentials[i].name == name {
          return Some(credentials[i]);
        }
        assert credentials[i..][1..] == credentials[i + 1..];
      }
      return None;
    }

    method MountIndex(name: string) returns (i: int)
      ensures i == FindMount(mounts, name)
    {
      i := 0;
      while i < |mounts|
        invariant 0 <= i <= |mounts|
        invariant forall k | 0 <= k < i :: mounts[k].name != name
      {
        if mounts[i].name == name {
          return;
        }
        i := i + 1;
      }
      i := -1;
    }

    /** The loop over a mount's parameters; a map is visited in any order. */
    method SplitParams(spec: seq<Param>, params: Params) returns (moved: Params, remaining: Params)
      ensures moved == Moved(spec, params) && remaining == Remaining(spec, params)
    {
      var scopes: map<string, string> := map[];
      for i := 0 to |spec|
        invariant forall k :: if k in scopes then scopes[k] == ScopeOf(spec[..i], k) else ScopeOf(spec[..i], k) == ""
      {
        assert spec[..i + 1][..i] == spec[..i];
        scopes := scopes[spec[i].name := spec[i].scope];
      }
      assert spec[..|spec|] == spec;
      moved, remaining := map[], map[];
      var keys := params.Keys;
      while keys != {}
        invariant keys <= params.Keys
        invariant moved == map k | k in params && k !in keys && ScopeOf(spec, k) == CREDENTIAL_SCOPE :: params[k]
        invariant remaining == map k | k in params && k !in keys && ScopeOf(spec, k) != CREDENTIAL_SCOPE :: params[k]
        decreases keys
      {
        var key :| key in keys;
        keys := keys - {key};
        if key in scopes && scopes[key] == CREDENTIAL_SCOPE {
          moved := moved[key := params[key]];
          continue;
        }
        remaining := remaining[key := params[key]];
      }
    }

    method UpsertMount(mount: Mount) returns (r: Result<()>)
      modifies this
      ensures credentials == old(credentials)
      ensures r.Err? ==> mounts == old(mounts) && mount.name == ""
      ensures r.Ok? ==>
                var i := FindMount(old(mounts), mount.name);
                mounts == if i < 0 then old(mounts) + [mount] else old(mounts)[i := mount]
    {
      if mount.name == "" {
        return Err(MountNameRequired);
      }
      var i := MountIndex(mount.name);
      if i >= 0 {
        mounts := mounts[i := mount];
      } else {
        mounts := mounts + [mount];
      }
      r := Ok(());
    }

    /** On error the configuration is unchanged; on success it is the adopted one. */
    method AdoptMountCredential(spec: ParamSpec, mountName: string, credentialName: string) returns (r: Result<()>)
      modifies this
      ensures r.Err? <==> AdoptError(old(Value()), spec, mountName, credentialName).Some?
      ensures r.Err? ==>
          Value() == old(Value()) && Some(r.error) == AdoptError(old(Value()), spec, mountName, credentialName)
      ensures r.Ok? ==> Value() == Adopt(old(Value()), spec, mountName, credentialName)
    {
      if mountName == "" {
        return Err(MountNameRequired);
      }
      if credentialName == "" {
        return Err(CredentialNameRequired);
      }
      var existing := LookupCredential(credentialName);
      if existing.Some? {
        return Err(CredentialExists);
      }
      var i := MountIndex(mountName);
      if i < 0 {
        return Err(MountNotFound);
      }
      var mount := mounts[i];
      if mount.credential != "" {
        return Err(AlreadyReferences);
      }
      var moved, remaining := SplitParams(spec(mount.typ), mount.params);
      if |moved| == 0 {
        return Err(NothingToAdopt);
      }
      credentials := credentials + [Credential(credentialName, mount.typ, moved)];
      mount := mount.(credential := credentialName, params := remaining);
      r := UpsertMount(mount);
    }

    method CredentialUsedBy(name: string) returns (names: seq<string>)
      ensures names == if name == "" then [] else UsedBy(mounts, name)
    {
      names := [];
      if name == "" {
        return;
      }
      for i := 0 to |mounts|
        invariant names == UsedBy(mounts[..i], name)
      {
        assert mounts[..i + 1][..i] == mounts[..i];
        if mounts[i].credential == name {
          names := names + [mounts[i].name];
        }
      }
      assert mounts[..|mounts|] == mounts;
    }

    method RemoveCredential(name: string) returns (r: Result<()>)
      modifies this
      ensures mounts == old(mounts)
      ensures r.Ok? <==> name != "" && UsedBy(old(mounts), name) == [] && FindCredential(old(credentials), name).Some?
      ensures credentials == if r.Ok? then Without(old(credentials), name) else old(credentials)
    {
      if name == "" {
        return Err(CredentialNameRequired);
      }
      var used := CredentialUsedBy(name);
      if |used| > 0 {
        return Err(CredentialInUse);
      }
      hide Without, FindCredential;
      SearchFrom(credentials, name, 0);
      for i := 0 to |credentials|
        invariant mounts == old(mounts) && credentials == old(credentials)
        invariant Searched(credentials, name, i)
      {
        SearchFrom(credentials, name, i);
        if credentials[i].name == name {
          credentials := credentials[..i] + credentials[i + 1..];
          return Ok(());
        }
      }
      SearchFrom(credentials, name, |credentials|);
      return Err(CredentialNotFound);
    }
  }
}
