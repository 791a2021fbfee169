/**
  The configuration handed to the OpenCode server at start-up: a schema
  reference, language servers and formatters switched off, and the tool
  permission posture, which by default allows everything.
 */
module ServerConfig {
  import opened Json
  import opened Serde

  /** Permission posture for the three tool categories. */
  datatype Permissions = Permissions(edit: string, bash: string, webfetch: string)

  datatype EnvConfig = EnvConfig(schema: string, lsp: bool, formatter: bool, permission: Permissions)

  const SchemaUrl: string := "https://opencode.ai/config.json"

  /** Every category allowed. */
  predicate FullyPermissive(p: Permissions)
  {
    p.edit == "allow" && p.bash == "allow" && p.webfetch == "allow"
  }

  /** The default posture. */
  function DefaultPermissions(): (p: Permissions)
    ensures FullyPermissive(p)
  {
    Permissions("allow", "allow", "allow")
  }

  /** The configuration for a given posture: the posture is kept as given,
      and language servers and formatters are off. */
  function NewEnvConfig(p: Permissions): (c: EnvConfig)
    ensures c.permission == p && !c.lsp && !c.formatter && c.schema == SchemaUrl
  {
    EnvConfig(SchemaUrl, false, false, p)
  }

  function EncodePermissions(p: Permissions): (j: Json)
    ensures j.Obj? && NullFree(j) && Keys(j.members) == ["edit", "bash", "webfetch"]
  {
    Obj([Member("edit", Str(p.edit)), Member("bash", Str(p.bash)), Member("webfetch", Str(p.webfetch))])
  }

  /** The JSON object handed to the server; the schema goes under `$schema`. */
  function EncodeEnvConfig(c: EnvConfig): (j: Json)
    ensures j.Obj? && NullFree(j) && Keys(j.members) == ["$schema", "lsp", "formatter", "permission"]
    ensures Lookup(j.members, "$schema") == Some(Str(c.schema))
    ensures Lookup(j.members, "lsp") == Some(Bool(c.lsp)) && Lookup(j.members, "formatter") == Some(Bool(c.formatter))
    ensures Lookup(j.members, "permission") == Some(EncodePermissions(c.permission))
  {
    var m := [Member("$schema", Str(c.schema)), Member("lsp", Bool(c.lsp)), Member("formatter", Bool(c.formatter)),
              Member("permission", EncodePermissions(c.permission))];
    assert m[1..][1..] == [Member("formatter", Bool(c.formatter)), Member("permission", EncodePermissions(c.permission))];
    assert m[1..][1..][1..] == [Member("permission", EncodePermissions(c.permission))];
    assert Lookup(m, "formatter") == Lookup(m[1..], "formatter") == Lookup(m[1..][1..], "formatter");
    assert Lookup(m, "permission") == Lookup(m[1..], "permission") == Lookup(m[1..][1..], "permission")
        == Lookup(m[1..][1..][1..], "permission");
    Obj(m)
  }

  /** `edit` and `bash` are required; a missing `webfetch` is "allow". */
  function DecodePermissions(j: Json): (r: Decoded<Permissions>)
    ensures r.Ok? <==> j.Obj? && HasString(j.members, "edit") && HasString(j.members, "bash") &&
                       (Lookup(j.members, "webfetch").None? || HasString(j.members, "webfetch"))
    ensures r.Ok? ==> Lookup(j.members, "edit") == Some(Str(r.value.edit)) &&
                      Lookup(j.members, "bash") == Some(Str(r.value.bash)) &&
                      (if Lookup(j.members, "webfetch").None? then r.value.webfetch == "allow"
                       else Lookup(j.members, "webfetch") == Some(Str(r.value.webfetch)))
  {
    var m :- AsObject(j);
    var edit :- Required(m, "edit", AsString);
    var bash :- Required(m, "bash", AsString);
    var webfetch :- Defaulted(m, "webfetch", AsString, "allow");
    Ok(Permissions(edit, bash, webfetch))
  }

  /** Decoding an encoded posture gives it back. */
  lemma PermissionsRoundTrip(p: Permissions)
    ensures DecodePermissions(EncodePermissions(p)) == Ok(p)
  {
    var m := EncodePermissions(p).members;
    assert m[1..] == [Member("bash", Str(p.bash)), Member("webfetch", Str(p.webfetch))];
    assert m[1..][1..] == [Member("webfetch", Str(p.webfetch))];
    assert "edit"[0] != "bash"[0];
    assert Lookup(m, "bash") == Lookup(m[1..], "bash");
    assert Lookup(m, "webfetch") == Lookup(m[1..], "webfetch") == Lookup(m[1..][1..], "webfetch");
  }

  /** A posture written before `webfetch` existed allows web fetches. */
  lemma WebfetchDefaultsToAllow(m: seq<Member>, edit: string, bash: string)
    requires Lookup(m, "edit") == Some(Str(edit)) && Lookup(m, "bash") == Some(Str(bash))
    requires Lookup(m, "webfetch").None?
    ensures DecodePermissions(Obj(m)) == Ok(Permissions(edit, bash, "allow"))
  {
  }

  /** The default configuration, as sent to the server. */
  lemma DefaultConfigJson()
    ensures EncodeEnvConfig(NewEnvConfig(DefaultPermissions())) ==
              Obj([Member("$schema", Str("https://opencode.ai/config.json")), Member("lsp", Bool(false)),
                   Member("formatter", Bool(false)),
                   Member("permission", Obj([Member("edit", Str("allow")), Member("bash", Str("allow")),
                                             Member("webfetch", Str("allow"))]))])
  {
  }
}
