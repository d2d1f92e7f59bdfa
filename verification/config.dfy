/** The settings document of a Pulp deployment (pulp_smash/config.py): the
    structural schema it must satisfy, the required-role coverage check, the
    object `read` builds from it, and the lookups the rest of the library
    makes on that object. */
module Config {
  import opened Results
  import opened Strs
  import opened Json
  import opened Versions
  import opened Urls
  import Seqs

  /** The roles a functional Pulp 2 deployment must cover, in sorted order. */
  const RequiredRolesSorted: seq<string> := ["amqp broker", "api", "mongod", "pulp celerybeat",
    "pulp resource manager", "pulp workers", "shell"]

  const RequiredRoles: set<string> := {"amqp broker", "api", "mongod", "pulp celerybeat",
    "pulp resource manager", "pulp workers", "shell"}

  const OptionalRoles: set<string> := {"pulp cli", "squid"}

  /** Every role name a host may carry. */
  const Roles: set<string> := RequiredRoles + OptionalRoles

  /** The role names in the order the schema lists their properties. */
  const RoleOrder: seq<string> := ["amqp broker", "api", "mongod", "pulp cli", "pulp celerybeat",
    "pulp resource manager", "pulp workers", "shell", "squid"]

  const AmqpServices: set<string> := {"qpidd", "rabbitmq"}

  /** The value under key `k` when `v` is an object holding it. */
  function Field(v: Json, k: string): (r: Option<Json>)
    ensures r.Some? <==> v.JObj? && HasKey(v.fields, k)
  {
    if v.JObj? then Get(v.fields, k) else None
  }

  // ---------------------------------------------------------------------
  // The schema, stated declaratively.

  /** Every key of `fields` is one of `allowed` ("additionalProperties": false). */
  predicate KeysWithin(fields: seq<(string, Json)>, allowed: set<string>) {
    forall i :: 0 <= i < |fields| ==> fields[i].0 in allowed
  }

  /** A constraint on a single property value. */
  datatype Check = Enum(allowed: seq<string>) | Port | IsString | IsBoolean | IsBooleanOrString | IsPair

  predicate Holds(c: Check, v: Json) {
    match c
    case Enum(allowed) => v.JStr? && v.s in allowed
    case Port => v.JInt? && 0 <= v.i <= 65535
    case IsString => v.JStr?
    case IsBoolean => v.JBool?
    case IsBooleanOrString => v.JBool? || v.JStr?
    case IsPair => v.JArr? && |v.items| == 2
  }

  /** Property `k` of `v`, when present, satisfies `c`. */
  predicate PropHolds(v: Json, k: string, c: Check) {
    Field(v, k).Some? ==> Holds(c, Field(v, k).value)
  }

  /** The settings of one role satisfy the schema. */
  predicate RoleConforms(name: string, v: Json) {
    && v.JObj?
    && (name == "amqp broker" ==>
          HasKey(v.fields, "service") && PropHolds(v, "service", Enum(["qpidd", "rabbitmq"])))
    && (name == "api" ==>
          && HasKey(v.fields, "scheme")
          && PropHolds(v, "port", Port)
          && PropHolds(v, "scheme", Enum(["http", "https"]))
          && PropHolds(v, "verify", IsBooleanOrString))
    && (name == "shell" ==> PropHolds(v, "transport", Enum(["local", "ssh"])))
  }

  /** A host's `roles` object satisfies the schema: a `shell` role, and every
      entry is a known role whose settings are valid. */
  predicate RolesConform(v: Json) {
    && v.JObj?
    && HasKey(v.fields, "shell")
    && forall i :: 0 <= i < |v.fields| ==>
         v.fields[i].0 in Roles && RoleConforms(v.fields[i].0, Get(v.fields, v.fields[i].0).value)
  }

  predicate SystemConforms(v: Json) {
    && v.JObj?
    && KeysWithin(v.fields, {"hostname", "roles"})
    && HasKey(v.fields, "hostname") && HasKey(v.fields, "roles")
    && PropHolds(v, "hostname", IsString)
    && RolesConform(Field(v, "roles").value)
  }

  predicate PulpConforms(v: Json) {
    && v.JObj?
    && KeysWithin(v.fields, {"auth", "version", "selinux enabled"})
    && HasKey(v.fields, "auth") && HasKey(v.fields, "version")
    && PropHolds(v, "auth", IsPair)
    && PropHolds(v, "version", IsString)
    && PropHolds(v, "selinux enabled", IsBoolean)
  }

  predicate SystemsConform(v: Json) {
    v.JArr? && |v.items| >= 1 && forall i :: 0 <= i < |v.items| ==> SystemConforms(v.items[i])
  }

  /** The whole settings document satisfies the schema. */
  predicate Conforms(doc: Json) {
    && doc.JObj?
    && KeysWithin(doc.fields, {"pulp", "systems"})
    && HasKey(doc.fields, "pulp") && HasKey(doc.fields, "systems")
    && PulpConforms(Field(doc, "pulp").value)
    && SystemsConform(Field(doc, "systems").value)
  }

  // ---------------------------------------------------------------------
  // The schema, as a validator collecting every violation.

  datatype PathElem = Key(key: string) | Index(index: nat)

  datatype Rule =
    | NotOfType(types: seq<string>)
    | MissingProperty(name: string)
    | AdditionalProperties(extras: seq<string>)
    | NotInEnum(allowed: seq<string>)
    | TooShort(minItems: nat)
    | TooLong(maxItems: nat)
    | BelowMinimum(minimum: int)
    | AboveMaximum(maximum: int)

  /** One violation, at a path of keys and indexes from the document root. */
  datatype SchemaError = SchemaError(path: seq<PathElem>, rule: Rule)

  /** The keys of `fields` outside `allowed`, in document order. */
  function ExtraKeys(fields: seq<(string, Json)>, allowed: set<string>): (r: seq<string>)
    ensures r == [] <==> KeysWithin(fields, allowed)
    decreases |fields|
  {
    if |fields| == 0 then []
    else
      var rest := ExtraKeys(fields[1..], allowed);
      assert KeysWithin(fields, allowed) <==> fields[0].0 in allowed && KeysWithin(fields[1..], allowed) by {
        if fields[0].0 in allowed && KeysWithin(fields[1..], allowed) {
          forall i | 0 <= i < |fields| ensures fields[i].0 in allowed {
            if i > 0 {
              assert fields[i] == fields[1..][i - 1];
            }
          }
        }
      }
      if fields[0].0 in allowed then rest else [fields[0].0] + rest
  }

  /** The keys of `required` absent from `fields`, in schema order. */
  function MissingKeys(fields: seq<(string, Json)>, required: seq<string>): (r: seq<string>)
    ensures r == [] <==> forall i :: 0 <= i < |required| ==> HasKey(fields, required[i])
    decreases |required|
  {
    if |required| == 0 then []
    else
      var rest := MissingKeys(fields, required[1..]);
      assert (forall i :: 0 <= i < |required| ==> HasKey(fields, required[i]))
        <==> HasKey(fields, required[0]) && forall i :: 0 <= i < |required[1..]| ==> HasKey(fields, required[1..][i]) by {
        forall i | 1 <= i < |required| ensures required[i] == required[1..][i - 1] {}
      }
      if HasKey(fields, required[0]) then rest else [required[0]] + rest
  }

  /** The checks of an object schema ("additionalProperties", "required",
      "type"): one error for all unexpected keys, one per missing key, and
      only a type error for a value that is no object. */
  function ObjectErrors(v: Json, path: seq<PathElem>, allowed: Option<set<string>>, required: seq<string>)
    : (r: seq<SchemaError>)
    ensures r == [] <==>
      && v.JObj?
      && (allowed.Some? ==> KeysWithin(v.fields, allowed.value))
      && (forall i :: 0 <= i < |required| ==> HasKey(v.fields, required[i]))
  {
    if !v.JObj? then [SchemaError(path, NotOfType(["object"]))]
    else
      var extras := if allowed.Some? then ExtraKeys(v.fields, allowed.value) else [];
      var missing := MissingKeys(v.fields, required);
      (if |extras| > 0 then [SchemaError(path, AdditionalProperties(extras))] else [])
      + seq(|missing|, i requires 0 <= i < |missing| => SchemaError(path, MissingProperty(missing[i])))
  }

  /** The violations of `c` by the value `v`, in the order the schema lists
      the keywords ("enum" before "type", "type" before "minimum"). */
  function CheckErrors(c: Check, v: Json, path: seq<PathElem>): (r: seq<SchemaError>)
    ensures r == [] <==> Holds(c, v)
  {
    match c
    case Enum(allowed) =>
      (if v.JStr? && v.s in allowed then [] else [SchemaError(path, NotInEnum(allowed))])
      + (if v.JStr? then [] else [SchemaError(path, NotOfType(["string"]))])
    case Port =>
      if !v.JInt? then [SchemaError(path, NotOfType(["integer"]))]
      else
        (if v.i < 0 then [SchemaError(path, BelowMinimum(0))] else [])
        + (if v.i > 65535 then [SchemaError(path, AboveMaximum(65535))] else [])
    case IsString => if v.JStr? then [] else [SchemaError(path, NotOfType(["string"]))]
    case IsBoolean => if v.JBool? then [] else [SchemaError(path, NotOfType(["boolean"]))]
    case IsBooleanOrString => if v.JBool? || v.JStr? then [] else [SchemaError(path, NotOfType(["boolean", "string"]))]
    case IsPair =>
      if !v.JArr? then [SchemaError(path, NotOfType(["array"]))]
      else
        (if |v.items| > 2 then [SchemaError(path, TooLong(2))] else [])
        + (if |v.items| < 2 then [SchemaError(path, TooShort(2))] else [])
  }

  /** Violations of property `k` of `v`, when present. */
  function PropErrors(v: Json, path: seq<PathElem>, k: string, c: Check): (r: seq<SchemaError>)
    ensures r == [] <==> PropHolds(v, k, c)
  {
    match Field(v, k)
    case None => []
    case Some(x) => CheckErrors(c, x, path + [Key(k)])
  }

  function RoleErrors(name: string, v: Json, path: seq<PathElem>): (r: seq<SchemaError>)
    ensures r == [] <==> RoleConforms(name, v)
  {
    if name == "amqp broker" then
      ObjectErrors(v, path, None, ["service"])
      + PropErrors(v, path, "service", Enum(["qpidd", "rabbitmq"]))
    else if name == "api" then
      ObjectErrors(v, path, None, ["scheme"])
      + PropErrors(v, path, "port", Port)
      + PropErrors(v, path, "scheme", Enum(["http", "https"]))
      + PropErrors(v, path, "verify", IsBooleanOrString)
    else if name == "shell" then
      ObjectErrors(v, path, None, [])
      + PropErrors(v, path, "transport", Enum(["local", "ssh"]))
    else
      ObjectErrors(v, path, None, [])
  }

  /** The per-role checks of a `roles` object, for the roles in `names`. */
  function RolePropsErrors(v: Json, path: seq<PathElem>, names: seq<string>): (r: seq<SchemaError>)
    ensures r == [] <==>
      forall i :: 0 <= i < |names| && Field(v, names[i]).Some? ==> RoleConforms(names[i], Field(v, names[i]).value)
    decreases |names|
  {
    if |names| == 0 then []
    else
      var here := match Field(v, names[0])
        case None => []
        case Some(x) => RoleErrors(names[0], x, path + [Key(names[0])]);
      var rest := RolePropsErrors(v, path, names[1..]);
      assert (forall i :: 0 <= i < |names| && Field(v, names[i]).Some? ==> RoleConforms(names[i], Field(v, names[i]).value))
        <==> here == [] && rest == [] by {
        forall i | 1 <= i < |names| ensures names[i] == names[1..][i - 1] {}
      }
      here + rest
  }

  lemma RoleOrderCovers(v: Json)
    requires v.JObj? && KeysWithin(v.fields, Roles)
    ensures (forall i :: 0 <= i < |RoleOrder| && Field(v, RoleOrder[i]).Some? ==>
               RoleConforms(RoleOrder[i], Field(v, RoleOrder[i]).value))
        <==> (forall j :: 0 <= j < |v.fields| ==> RoleConforms(v.fields[j].0, Get(v.fields, v.fields[j].0).value))
  {
    if forall i :: 0 <= i < |RoleOrder| && Field(v, RoleOrder[i]).Some? ==>
         RoleConforms(RoleOrder[i], Field(v, RoleOrder[i]).value) {
      forall j | 0 <= j < |v.fields| ensures RoleConforms(v.fields[j].0, Get(v.fields, v.fields[j].0).value) {
        var k := v.fields[j].0;
        assert k in Roles;
        assert k in RoleOrder;
        var i :| 0 <= i < |RoleOrder| && RoleOrder[i] == k;
        assert Keys(v.fields)[j] == k;
        assert Field(v, RoleOrder[i]).Some?;
      }
    }
    if forall j :: 0 <= j < |v.fields| ==> RoleConforms(v.fields[j].0, Get(v.fields, v.fields[j].0).value) {
      forall i | 0 <= i < |RoleOrder| && Field(v, RoleOrder[i]).Some?
        ensures RoleConforms(RoleOrder[i], Field(v, RoleOrder[i]).value) {
        var j :| 0 <= j < |Keys(v.fields)| && Keys(v.fields)[j] == RoleOrder[i];
        assert v.fields[j].0 == RoleOrder[i];
      }
    }
  }

  lemma RolesConformSplit(v: Json)
    requires v.JObj?
    ensures RolesConform(v) <==>
      && KeysWithin(v.fields, Roles)
      && HasKey(v.fields, "shell")
      && forall j :: 0 <= j < |v.fields| ==> RoleConforms(v.fields[j].0, Get(v.fields, v.fields[j].0).value)
  {
  }

  function RolesErrors(v: Json, path: seq<PathElem>): (r: seq<SchemaError>)
    ensures r == [] <==> RolesConform(v)
  {
    if !v.JObj? then ObjectErrors(v, path, Some(Roles), ["shell"])
    else
      var objErrors := ObjectErrors(v, path, Some(Roles), ["shell"]);
      var propErrors := RolePropsErrors(v, path, RoleOrder);
      RolesConformSplit(v);
      if KeysWithin(v.fields, Roles) then
        RoleOrderCovers(v);
        objErrors + propErrors
      else
        objErrors + propErrors
  }

  function SystemErrors(v: Json, path: seq<PathElem>): (r: seq<SchemaError>)
    ensures r == [] <==> SystemConforms(v)
  {
    var rolesErrors := match Field(v, "roles")
      case None => []
      case Some(x) => RolesErrors(x, path + [Key("roles")]);
    ObjectErrors(v, path, Some({"hostname", "roles"}), ["hostname", "roles"])
    + PropErrors(v, path, "hostname", IsString)
    + rolesErrors
  }

  /** The item checks of the `systems` array, from index `start` on. */
  function SystemsErrors(items: seq<Json>, start: nat): (r: seq<SchemaError>)
    ensures r == [] <==> forall i :: start <= i < |items| ==> SystemConforms(items[i])
    decreases |items| - start
  {
    if start >= |items| then []
    else SystemErrors(items[start], [Key("systems"), Index(start)]) + SystemsErrors(items, start + 1)
  }

  function PulpErrors(v: Json, path: seq<PathElem>): (r: seq<SchemaError>)
    ensures r == [] <==> PulpConforms(v)
  {
    ObjectErrors(v, path, Some({"auth", "version", "selinux enabled"}), ["auth", "version"])
    + PropErrors(v, path, "auth", IsPair)
    + PropErrors(v, path, "version", IsString)
    + PropErrors(v, path, "selinux enabled", IsBoolean)
  }

  function SystemsArrayErrors(v: Json, path: seq<PathElem>): (r: seq<SchemaError>)
    ensures r == [] <==> SystemsConform(v)
  {
    if !v.JArr? then [SchemaError(path, NotOfType(["array"]))]
    else
      (if |v.items| < 1 then [SchemaError(path, TooShort(1))] else [])
      + SystemsErrors(v.items, 0)
  }

  /** Every schema violation of the settings document, in the order the
      schema lists its keywords and properties. */
  function SchemaErrors(doc: Json): (r: seq<SchemaError>)
    ensures r == [] <==> Conforms(doc)
  {
    var pulpErrors := match Field(doc, "pulp")
      case None => []
      case Some(x) => PulpErrors(x, [Key("pulp")]);
    var systemsErrors := match Field(doc, "systems")
      case None => []
      case Some(x) => SystemsArrayErrors(x, [Key("systems")]);
    ObjectErrors(doc, [], Some({"pulp", "systems"}), ["pulp", "systems"]) + pulpErrors + systemsErrors
  }

  // ---------------------------------------------------------------------
  // Messages and `validate_config`.

  function PathElemRepr(e: PathElem): string {
    match e
    case Key(k) => "'" + k + "'"
    case Index(i) => NatToString(i)
  }

  /** `[<repr>][<repr>]...` for a non-empty path, nothing for the root. */
  function PathText(path: seq<PathElem>): string {
    if |path| == 0 then ""
    else "[" + Join(seq(|path|, i requires 0 <= i < |path| => PathElemRepr(path[i])), "][") + "]"
  }

  function RuleText(rule: Rule): string {
    match rule
    case NotOfType(types) => "it is not of type " + Join(types, ", ")
    case MissingProperty(name) => "'" + name + "' is a required property"
    case AdditionalProperties(extras) => "additional properties are not allowed (" + Join(extras, ", ") + ")"
    case NotInEnum(allowed) => "it is not one of " + Join(allowed, ", ")
    case TooShort(n) => "it is too short (minimum " + NatToString(n) + ")"
    case TooLong(n) => "it is too long (maximum " + NatToString(n) + ")"
    case BelowMinimum(n) => "it is less than the minimum of " + IntToString(n)
    case AboveMaximum(n) => "it is greater than the maximum of " + IntToString(n)
  }

  function Message(e: SchemaError): string {
    "Failed to validate config" + PathText(e.path) + " because " + RuleText(e.rule) + "."
  }

  /** One message per error, in order: each says which configuration
      path failed and ends with the rule that failed. */
  function Messages(errors: seq<SchemaError>): (r: seq<string>)
    ensures |r| == |errors|
    ensures forall i :: 0 <= i < |errors| ==>
      StartsWith(r[i], "Failed to validate config") && EndsWith(r[i], " because " + RuleText(errors[i].rule) + ".")
  {
    var r := seq(|errors|, i requires 0 <= i < |errors| => Message(errors[i]));
    forall i | 0 <= i < |errors|
      ensures StartsWith(r[i], "Failed to validate config") && EndsWith(r[i], " because " + RuleText(errors[i].rule) + ".")
    {
      var head, tail := "Failed to validate config" + PathText(errors[i].path), " because " + RuleText(errors[i].rule) + ".";
      assert r[i] == head + tail;
      assert (head + tail)[..25] == head[..25];
      assert (head + tail)[|head + tail| - |tail|..] == tail;
    }
    r
  }

  /** Every role named by some host of a conforming document. */
  function ConfigRoles(doc: Json): set<string>
    requires Conforms(doc)
  {
    var systems := Field(doc, "systems").value.items;
    set i, k | 0 <= i < |systems| && k in Keys(Field(systems[i], "roles").value.fields) :: k
  }

  /** `sorted(REQUIRED_ROLES.difference(present))` */
  function MissingRoles(present: set<string>): seq<string> {
    Seqs.Filter(RequiredRolesSorted, r => r !in present)
  }

  /** The missing roles are sorted and are exactly the required roles not present. */
  lemma MissingRolesSpec(present: set<string>)
    ensures SortedStrs(MissingRoles(present))
    ensures forall r :: r in MissingRoles(present) <==> r in RequiredRoles && r !in present
    ensures MissingRoles(present) == [] <==> RequiredRoles <= present
  {
    RequiredRolesAreSorted();
    FilterSorted(RequiredRolesSorted, r => r !in present);
    var m := MissingRoles(present);
    var p := (r: string) => r !in present;
    forall r ensures r in m <==> r in RequiredRoles && r !in present {
      if r in RequiredRoles && r !in present {
        assert r in RequiredRolesSorted;
        var i :| 0 <= i < |RequiredRolesSorted| && RequiredRolesSorted[i] == r;
        assert p(RequiredRolesSorted[i]);
      }
      if r in m {
        var i :| 0 <= i < |m| && m[i] == r;
        assert p(m[i]) && m[i] in RequiredRolesSorted;
      }
    }
    if !(RequiredRoles <= present) {
      var r :| r in RequiredRoles && r !in present;
      assert r in m;
    }
  }

  lemma RequiredRolesAreSorted()
    ensures SortedStrs(RequiredRolesSorted)
  {
    var s := RequiredRolesSorted;
    forall k | 0 < k < |s| ensures StrLt(s[k - 1], s[k]) {
      if k == 1 {
        StrLtAt(s[0], s[1], 1);
      } else if k == 4 || k == 5 {
        StrLtAt(s[k - 1], s[k], 5);
      } else {
        StrLtAt(s[k - 1], s[k], 0);
      }
    }
    forall i, j | 0 <= i < j < |s| ensures StrLt(s[i], s[j]) {
      AdjacentSorted(s, i, j);
    }
  }

  lemma {:induction false} AdjacentSorted(s: seq<string>, i: nat, j: nat)
    requires forall k :: 0 < k < |s| ==> StrLt(s[k - 1], s[k])
    requires i < j < |s|
    ensures StrLt(s[i], s[j])
    decreases j - i
  {
    if j > i + 1 {
      AdjacentSorted(s, i, j - 1);
      StrLtTrans(s[i], s[j - 1], s[j]);
    }
  }

  lemma {:induction false} FilterSorted(s: seq<string>, p: string -> bool)
    requires SortedStrs(s)
    ensures SortedStrs(Seqs.Filter(s, p))
    decreases |s|
  {
    if |s| > 0 {
      assert SortedStrs(s[1..]) by {
        forall i, j | 0 <= i < j < |s| - 1 ensures StrLt(s[1..][i], s[1..][j]) {
          assert s[1..][i] == s[i + 1] && s[1..][j] == s[j + 1];
        }
      }
      FilterSorted(s[1..], p);
      var f := Seqs.Filter(s[1..], p);
      if p(s[0]) {
        forall j | 0 <= j < |f| ensures StrLt(s[0], f[j]) {
          var k :| 0 <= k < |s[1..]| && s[1..][k] == f[j];
          assert s[k + 1] == f[j];
        }
        assert Seqs.Filter(s, p) == [s[0]] + f;
      }
    }
  }

  /** `validate_config(config_dict)`: all schema violations are reported
      together; the role coverage is checked only for a conforming document. */
  function ValidateConfig(doc: Json): (r: Result<()>)
    ensures r.Ok? <==> Conforms(doc) && RequiredRoles <= ConfigRoles(doc)
    ensures !Conforms(doc) ==>
      |SchemaErrors(doc)| > 0 && r == Err(ConfigValidationError(Messages(SchemaErrors(doc))))
    ensures Conforms(doc) && !(RequiredRoles <= ConfigRoles(doc)) ==>
      r == Err(ConfigValidationError(["The following roles are missing: " + Join(MissingRoles(ConfigRoles(doc)), ", ")]))
  {
    var errors := SchemaErrors(doc);
    if |errors| > 0 then Err(ConfigValidationError(Messages(errors)))
    else
      MissingRolesSpec(ConfigRoles(doc));
      var missing := MissingRoles(ConfigRoles(doc));
      if |missing| > 0 then Err(ConfigValidationError(["The following roles are missing: " + Join(missing, ", ")]))
      else Ok(())
  }

  // ---------------------------------------------------------------------
  // `PulpSmashConfig` and `read`.

  /** `PulpSystem(hostname, roles)`: a host and its role settings. */
  datatype Host = Host(hostname: string, roles: Dict<Json>)

  /** `PulpSmashConfig(pulp_auth, pulp_version, pulp_systems, pulp_selinux_enabled)` */
  datatype PulpSmashConfig = PulpSmashConfig(auth: Json, version: Version, systems: seq<Host>, selinuxEnabled: Json)

  const DefaultAuth: Json := JArr([JStr("admin"), JStr("admin")])

  /** The part of `SystemConforms` that `PulpSystem(**system)` relies on. */
  predicate SystemShape(v: Json) {
    && v.JObj?
    && KeysWithin(v.fields, {"hostname", "roles"})
    && HasKey(v.fields, "hostname") && HasKey(v.fields, "roles")
    && Get(v.fields, "hostname").value.JStr?
    && Get(v.fields, "roles").value.JObj?
  }

  /** The host a conforming `systems` item describes. */
  function HostOf(v: Json): Host
    requires SystemShape(v)
  {
    Host(Get(v.fields, "hostname").value.s, Get(v.fields, "roles").value.fields)
  }

  /** The hosts a list of conforming `systems` items describes, in order. */
  function HostsOf(items: seq<Json>): (r: seq<Host>)
    requires forall i :: 0 <= i < |items| ==> SystemShape(items[i])
    ensures |r| == |items|
  {
    seq(|items|, i requires 0 <= i < |items| => HostOf(items[i]))
  }

  /** `PulpSystem(**system)`: exactly the keys hostname and roles. */
  function ReadSystem(v: Json): (r: Result<Host>)
    ensures SystemShape(v) ==> r == Ok(HostOf(v))
  {
    if !v.JObj? then Err(TypeError("argument after ** must be a mapping"))
    else if !KeysWithin(v.fields, {"hostname", "roles"}) then Err(TypeError("unexpected keyword argument"))
    else if !HasKey(v.fields, "hostname") || !HasKey(v.fields, "roles") then Err(TypeError("missing required argument"))
    else
      var h := Get(v.fields, "hostname").value;
      var roles := Get(v.fields, "roles").value;
      if !h.JStr? then Err(NotModelled("a hostname that is not a string"))
      else if !roles.JObj? then Err(NotModelled("roles that are not a dict"))
      else Ok(Host(h.s, roles.fields))
  }

  function ReadSystemList(items: seq<Json>): (r: Result<seq<Host>>)
    ensures r.Ok? ==> |r.value| == |items|
    decreases |items|
  {
    if |items| == 0 then Ok([])
    else
      var h :- ReadSystem(items[0]);
      var rest :- ReadSystemList(items[1..]);
      Ok([h] + rest)
  }

  /** `[PulpSystem(**system) for system in v]`: iterating an empty dict or
      string gives no system, any other non-list fails. */
  function ReadSystems(v: Json): (r: Result<seq<Host>>) {
    match v
    case JArr(items) => ReadSystemList(items)
    case JObj(fields) => if |fields| == 0 then Ok([]) else Err(TypeError("argument after ** must be a mapping"))
    case JStr(s) => if |s| == 0 then Ok([]) else Err(TypeError("argument after ** must be a mapping"))
    case _ => Err(TypeError("object is not iterable"))
  }

  /** `d.get(k, default)` on a JSON object. */
  function FieldOr(v: Json, k: string, default: Json): (r: Json)
    requires v.JObj?
    ensures HasKey(v.fields, k) ==> Some(r) == Get(v.fields, k)
    ensures !HasKey(v.fields, k) ==> r == default
  {
    match Get(v.fields, k)
    case Some(x) => x
    case None => default
  }

  /** `PulpSmashConfig.read` once the file is loaded: missing settings take
      their defaults (auth admin/admin, version 1!0, SELinux enabled, no hosts). */
  function Read(doc: Json): (r: Result<PulpSmashConfig>)
    ensures doc == JObj([]) ==> r == Ok(PulpSmashConfig(DefaultAuth, Version(1, [0]), [], JBool(true)))
  {
    if !doc.JObj? then Err(AttributeError("'get'"))
    else
      var pulp := FieldOr(doc, "pulp", JObj([]));
      if !pulp.JObj? then Err(AttributeError("'get'"))
      else
        var auth := FieldOr(pulp, "auth", DefaultAuth);
        var versionText := FieldOr(pulp, "version", JStr("1!0"));
        if !versionText.JStr? then Err(TypeError("expected string or bytes-like object"))
        else
          ParseDefaultVersion();
          var version :- ParseOrError(versionText.s);
          var selinux := FieldOr(pulp, "selinux enabled", JBool(true));
          var systems :- ReadSystems(FieldOr(doc, "systems", JArr([])));
          Ok(PulpSmashConfig(auth, version, systems, selinux))
  }

  lemma {:induction false} ReadSystemListConforming(items: seq<Json>)
    requires forall i :: 0 <= i < |items| ==> SystemShape(items[i])
    ensures ReadSystemList(items) == Ok(HostsOf(items))
    decreases |items|
  {
    if |items| > 0 {
      var tail := items[1..];
      forall i | 0 <= i < |tail| ensures SystemShape(tail[i]) {
        assert tail[i] == items[i + 1];
      }
      ReadSystemListConforming(tail);
      HostsOfCons(items);
    }
  }

  /** The hosts of a list: its first item's host, then the rest's. */
  lemma HostsOfCons(items: seq<Json>)
    requires |items| > 0
    requires forall i :: 0 <= i < |items| ==> SystemShape(items[i])
    ensures forall i :: 0 <= i < |items[1..]| ==> SystemShape(items[1..][i])
    ensures HostsOf(items) == [HostOf(items[0])] + HostsOf(items[1..])
  {
    var tail := items[1..];
    assert forall i :: 0 <= i < |tail| ==> SystemShape(tail[i]) by {
      assert forall i :: 0 <= i < |tail| ==> tail[i] == items[i + 1];
    }
    var a := HostsOf(items);
    var b := HostsOf(tail);
    assert forall i :: 0 < i < |a| ==> a[i] == b[i - 1] by {
      forall i | 0 < i < |a| ensures a[i] == b[i - 1] {
        assert tail[i - 1] == items[i];
      }
    }
    Seqs.ConsOf(a, HostOf(items[0]), b);
  }

  lemma ConformingSystemShape(v: Json)
    requires SystemConforms(v)
    ensures SystemShape(v)
  {
  }

  /** A document with a `pulp` object holding auth and a parsable version,
      and a list of well-formed hosts, is read into exactly those values. */
  lemma ReadWellFormed(doc: Json, pulp: Json, versionText: string, items: seq<Json>)
    requires doc.JObj? && Get(doc.fields, "pulp") == Some(pulp) && Get(doc.fields, "systems") == Some(JArr(items))
    requires pulp.JObj? && HasKey(pulp.fields, "auth") && Get(pulp.fields, "version") == Some(JStr(versionText))
    requires Parse(versionText).Some?
    requires forall i :: 0 <= i < |items| ==> SystemShape(items[i])
    ensures Read(doc) == Ok(PulpSmashConfig(Get(pulp.fields, "auth").value, Parse(versionText).value,
      HostsOf(items), FieldOr(pulp, "selinux enabled", JBool(true))))
  {
    assert FieldOr(doc, "pulp", JObj([])) == pulp;
    assert FieldOr(pulp, "version", JStr("1!0")) == JStr(versionText);
    assert ParseOrError(versionText) == Ok(Parse(versionText).value);
    assert FieldOr(doc, "systems", JArr([])) == JArr(items);
    assert ReadSystems(JArr(items)) == Ok(HostsOf(items)) by {
      ReadSystemListConforming(items);
    }
  }

  /** A document that passes the schema and carries a parsable version is
      read without error, keeping its auth, version and hosts in order. */
  lemma ReadConforming(doc: Json)
    requires Conforms(doc)
    requires Parse(Field(Field(doc, "pulp").value, "version").value.s).Some?
    ensures Read(doc).Ok?
    ensures Read(doc).value.auth == Field(Field(doc, "pulp").value, "auth").value
    ensures Read(doc).value.version == Parse(Field(Field(doc, "pulp").value, "version").value.s).value
    ensures Read(doc).value.systems == HostsOf(Field(doc, "systems").value.items)
  {
    var pulp := Field(doc, "pulp").value;
    var items := Field(doc, "systems").value.items;
    forall i | 0 <= i < |items| ensures SystemShape(items[i]) {
      ConformingSystemShape(items[i]);
    }
    ReadWellFormed(doc, pulp, Field(pulp, "version").value.s, items);
  }

  // ---------------------------------------------------------------------
  // Lookups on a read configuration.

  /** `cfg.get_systems(role)`: the hosts carrying `role`, in order. */
  function GetSystems(cfg: PulpSmashConfig, role: string): (r: Result<seq<Host>>)
    ensures r.Err? <==> role !in Roles
    ensures r.Err? ==> r.error.ValueError?
    ensures r.Ok? ==> Seqs.IsSubseq(r.value, cfg.systems)
    ensures r.Ok? ==> forall i :: 0 <= i < |r.value| ==> HasKey(r.value[i].roles, role)
    ensures r.Ok? ==> forall i :: 0 <= i < |cfg.systems| && HasKey(cfg.systems[i].roles, role) ==> cfg.systems[i] in r.value
    ensures r.Ok? ==> forall h: Host :: HasKey(h.roles, role) ==> multiset(r.value)[h] == multiset(cfg.systems)[h]
  {
    if role !in Roles then
      Err(ValueError("The given role, " + role + ", is not recognized."))
    else
      var p := (h: Host) => HasKey(h.roles, role);
      Seqs.FilterIsSubseq(cfg.systems, p);
      var r := Seqs.Filter(cfg.systems, p);
      assert forall i :: 0 <= i < |r| ==> p(r[i]);
      forall h: Host | HasKey(h.roles, role) ensures multiset(r)[h] == multiset(cfg.systems)[h] {
        Seqs.FilterCount(cfg.systems, p, h);
      }
      Ok(r)
  }

  /** The fixed part of the role to service table. */
  const ServiceTable: seq<(string, string)> := [("api", "httpd"), ("pulp celerybeat", "pulp_celerybeat"),
    ("pulp resource manager", "pulp_resource_manager"), ("pulp workers", "pulp_workers"),
    ("mongod", "mongod"), ("squid", "squid")]

  /** The service a single role contributes to `services_for_roles`. */
  function RoleService(role: string, settings: Json): (r: Result<Option<string>>)
    ensures role != "amqp broker" ==> r.Ok?
    ensures forall j :: 0 <= j < |ServiceTable| ==> (r == Ok(Some(ServiceTable[j].1)) <==> role == ServiceTable[j].0)
    ensures r.Ok? && r.value.Some? && role == "amqp broker" ==>
      r.value.value in AmqpServices && Field(settings, "service") == Some(JStr(r.value.value))
    ensures role == "amqp broker" && Field(settings, "service").Some? && StringIn(Field(settings, "service").value, AmqpServices)
      ==> r == Ok(Some(Field(settings, "service").value.s))
  {
    if role == "amqp broker" then
      if !settings.JObj? then Err(AttributeError("'get'"))
      else
        var service := Get(settings.fields, "service");
        if service.Some? && service.value.JStr? then
          Ok(if service.value.s in AmqpServices then Some(service.value.s) else None)
        else if service.Some? && (service.value.JArr? || service.value.JObj?) then
          Err(TypeError("unhashable type"))
        else Ok(None)
    else if role == "api" then Ok(Some("httpd"))
    else if role == "pulp celerybeat" then Ok(Some("pulp_celerybeat"))
    else if role == "pulp resource manager" then Ok(Some("pulp_resource_manager"))
    else if role == "pulp workers" then Ok(Some("pulp_workers"))
    else if role == "mongod" || role == "squid" then Ok(Some(role))
    else Ok(None)
  }

  predicate StringIn(v: Json, allowed: set<string>) {
    v.JStr? && v.s in allowed
  }

  function ServicesOf(roles: Dict<Json>, names: seq<string>): (r: Result<set<string>>)
    requires forall i :: 0 <= i < |names| ==> HasKey(roles, names[i])
    ensures r.Ok? <==> forall i :: 0 <= i < |names| ==> RoleService(names[i], Get(roles, names[i]).value).Ok?
    ensures r.Ok? ==> forall s :: s in r.value <==>
      exists i :: 0 <= i < |names| && RoleService(names[i], Get(roles, names[i]).value) == Ok(Some(s))
    decreases |names|
  {
    if |names| == 0 then Ok({})
    else
      var here := RoleService(names[0], Get(roles, names[0]).value);
      var rest := ServicesOf(roles, names[1..]);
      assert forall i :: 1 <= i < |names| ==> names[1..][i - 1] == names[i];
      if here.Err? then Err(here.error)
      else if rest.Err? then Err(rest.error)
      else
        var r := if here.value.Some? then {here.value.value} + rest.value else rest.value;
        assert forall s :: s in r <==>
          exists i :: 0 <= i < |names| && RoleService(names[i], Get(roles, names[i]).value) == Ok(Some(s)) by {
          forall s | s in rest.value
            ensures exists i :: 0 <= i < |names| && RoleService(names[i], Get(roles, names[i]).value) == Ok(Some(s)) {
            var j :| 0 <= j < |names[1..]| && RoleService(names[1..][j], Get(roles, names[1..][j]).value) == Ok(Some(s));
            assert names[j + 1] == names[1..][j];
          }
          forall s | exists i :: 0 <= i < |names| && RoleService(names[i], Get(roles, names[i]).value) == Ok(Some(s))
            ensures s in r {
            var i :| 0 <= i < |names| && RoleService(names[i], Get(roles, names[i]).value) == Ok(Some(s));
            if i > 0 {
              assert names[1..][i - 1] == names[i];
            }
          }
        }
        Ok(r)
  }

  /** `PulpSmashConfig.services_for_roles(roles)`: the set of services the
      roles of a host imply. */
  function ServicesForRoles(roles: Dict<Json>): (r: Result<set<string>>)
    ensures r.Ok? <==> forall i :: 0 <= i < |roles| ==> RoleService(roles[i].0, Get(roles, roles[i].0).value).Ok?
    ensures r.Ok? ==> forall s :: s in r.value <==>
      exists i :: 0 <= i < |roles| && RoleService(roles[i].0, Get(roles, roles[i].0).value) == Ok(Some(s))
  {
    var names := Keys(roles);
    assert forall i :: 0 <= i < |names| ==> HasKey(roles, names[i]);
    ServicesOf(roles, names)
  }

  /** Each fixed service is present exactly when its role is. */
  lemma ServicesTableFixed(roles: Dict<Json>, j: nat)
    requires ServicesForRoles(roles).Ok?
    requires j < |ServiceTable|
    ensures ServiceTable[j].1 in ServicesForRoles(roles).value <==> HasKey(roles, ServiceTable[j].0)
  {
    var out := ServicesForRoles(roles).value;
    var (role, service) := ServiceTable[j];
    if HasKey(roles, role) {
      var i :| 0 <= i < |Keys(roles)| && Keys(roles)[i] == role;
      assert RoleService(roles[i].0, Get(roles, roles[i].0).value) == Ok(Some(service));
    }
    if service in out {
      var i :| 0 <= i < |roles| && RoleService(roles[i].0, Get(roles, roles[i].0).value) == Ok(Some(service));
      assert Keys(roles)[i] == role;
    }
  }

  /** Outside `amqp broker`, a role contributes only a service of the fixed table. */
  lemma RoleServiceFixed(role: string, settings: Json, s: string)
    requires role != "amqp broker" && RoleService(role, settings) == Ok(Some(s))
    ensures exists j :: 0 <= j < |ServiceTable| && ServiceTable[j].1 == s
    ensures s !in AmqpServices
  {
    if role == "api" { assert ServiceTable[0].1 == s; }
    else if role == "pulp celerybeat" { assert ServiceTable[1].1 == s; }
    else if role == "pulp resource manager" { assert ServiceTable[2].1 == s; }
    else if role == "pulp workers" { assert ServiceTable[3].1 == s; }
    else if role == "mongod" { assert ServiceTable[4].1 == s; }
    else { assert ServiceTable[5].1 == s; }
  }

  /** The broker contribution of the services of a host, read off one role. */
  lemma BrokerFromRole(roles: Dict<Json>, i: nat, s: string)
    requires i < |roles| && s in AmqpServices
    requires RoleService(roles[i].0, Get(roles, roles[i].0).value) == Ok(Some(s))
    ensures roles[i].0 == "amqp broker"
  {
    if roles[i].0 != "amqp broker" {
      RoleServiceFixed(roles[i].0, Get(roles, roles[i].0).value, s);
    }
  }

  /** A broker service is present exactly when the `amqp broker` role names it. */
  lemma ServicesBroker(roles: Dict<Json>, s: string)
    requires ServicesForRoles(roles).Ok?
    requires s in AmqpServices
    ensures s in ServicesForRoles(roles).value <==>
      HasKey(roles, "amqp broker") && Field(Get(roles, "amqp broker").value, "service") == Some(JStr(s))
  {
    var out := ServicesForRoles(roles).value;
    if s in out {
      var i :| 0 <= i < |roles| && RoleService(roles[i].0, Get(roles, roles[i].0).value) == Ok(Some(s));
      BrokerFromRole(roles, i, s);
      assert Keys(roles)[i] == "amqp broker";
    }
    if HasKey(roles, "amqp broker") && Field(Get(roles, "amqp broker").value, "service") == Some(JStr(s)) {
      var i :| 0 <= i < |Keys(roles)| && Keys(roles)[i] == "amqp broker";
      assert RoleService(roles[i].0, Get(roles, roles[i].0).value) == Ok(Some(s));
    }
  }

  /** Nothing outside the fixed table and the broker services is ever present. */
  lemma ServicesKnown(roles: Dict<Json>, s: string)
    requires ServicesForRoles(roles).Ok?
    requires s in ServicesForRoles(roles).value
    ensures s in AmqpServices || exists j :: 0 <= j < |ServiceTable| && ServiceTable[j].1 == s
  {
    var i :| 0 <= i < |roles| && RoleService(roles[i].0, Get(roles, roles[i].0).value) == Ok(Some(s));
    if roles[i].0 != "amqp broker" {
      RoleServiceFixed(roles[i].0, Get(roles, roles[i].0).value, s);
    }
  }

  /** `cfg.get_systems('api')[0]`, or the given host. */
  function ApiHost(cfg: PulpSmashConfig, system: Option<Host>): (r: Result<Host>)
    ensures system.Some? ==> r == Ok(system.value)
    ensures system.None? ==> (r.Ok? <==> exists i :: 0 <= i < |cfg.systems| && HasKey(cfg.systems[i].roles, "api"))
    ensures system.None? && r.Ok? ==> HasKey(r.value.roles, "api") && r.value in cfg.systems
  {
    match system
    case Some(h) => Ok(h)
    case None =>
      var hosts := GetSystems(cfg, "api").value;
      if |hosts| == 0 then Err(IndexError)
      else
        assert hosts[0] in cfg.systems by {
          Seqs.IsSubseqIn(hosts, cfg.systems, 0);
        }
        Ok(hosts[0])
  }

  /** The `api` role settings of a host, which must be a dict. */
  function ApiSettings(h: Host): (r: Result<Dict<Json>>)
    ensures r.Ok? <==> HasKey(h.roles, "api") && Get(h.roles, "api").value.JObj?
    ensures r.Ok? ==> r.value == Get(h.roles, "api").value.fields
  {
    match Get(h.roles, "api")
    case None => Err(KeyError("api"))
    case Some(api) => if api.JObj? then Ok(api.fields) else Err(TypeError("role settings are not a dict"))
  }

  /** `cfg.get_base_url(pulp_system)`: the scheme and host of the `api`
      role, with ":port" when a port is configured. */
  function GetBaseUrl(cfg: PulpSmashConfig, system: Option<Host>): (r: Result<string>) {
    var host :- ApiHost(cfg, system);
    var api :- ApiSettings(host);
    match Get(api, "scheme")
    case None => Err(KeyError("scheme"))
    case Some(scheme) =>
      if !scheme.JStr? then Err(TypeError("scheme is not a string"))
      else
        match Get(api, "port")
        case None => Ok(UrlUnsplit(SplitResult(scheme.s, host.hostname, "", "", "")))
        case Some(port) =>
          var portText :- PyStr(port);
          Ok(UrlUnsplit(SplitResult(scheme.s, host.hostname + ":" + portText, "", "", "")))
  }

  /** The base URL of a host whose `api` role has a string scheme and no
      port, or an integer port. */
  lemma BaseUrlValue(cfg: PulpSmashConfig, h: Host, scheme: string, port: Option<nat>)
    requires ApiSettings(h).Ok? && Get(ApiSettings(h).value, "scheme") == Some(JStr(scheme))
    requires port.None? ==> !HasKey(ApiSettings(h).value, "port")
    requires port.Some? ==> Get(ApiSettings(h).value, "port") == Some(JInt(port.value))
    ensures GetBaseUrl(cfg, Some(h)) == Ok(UrlUnsplit(SplitResult(scheme, h.hostname + PortSuffix(port), "", "", "")))
  {
    var host := ApiHost(cfg, Some(h)).value;
    assert host == h;
    var api := ApiSettings(h).value;
    if port.Some? {
      assert PyStr(JInt(port.value)) == Ok(NatToString(port.value));
      assert Get(api, "port") == Some(JInt(port.value));
      assert h.hostname + ":" + NatToString(port.value) == h.hostname + PortSuffix(port);
    } else {
      assert Get(api, "port") == None;
      assert h.hostname + PortSuffix(port) == h.hostname;
    }
  }

  /** For a host with a plain name and an http(s) `api` role, the base URL is
      scheme://host[:port], and splitting it gives back the scheme and that
      netloc, whose host name is the host's. */
  lemma BaseUrlShape(cfg: PulpSmashConfig, h: Host, scheme: string, port: Option<nat>)
    requires PlainHost(h.hostname) && forall k :: 0 <= k < |h.hostname| ==> !IsDelim(h.hostname[k])
    requires scheme == "http" || scheme == "https"
    requires ApiSettings(h).Ok? && Get(ApiSettings(h).value, "scheme") == Some(JStr(scheme))
    requires port.None? ==> !HasKey(ApiSettings(h).value, "port")
    requires port.Some? ==> Get(ApiSettings(h).value, "port") == Some(JInt(port.value))
    ensures GetBaseUrl(cfg, Some(h)) == Ok(scheme + "://" + (h.hostname + PortSuffix(port)))
    ensures UrlSplit(scheme + "://" + (h.hostname + PortSuffix(port))) == SplitResult(scheme, h.hostname + PortSuffix(port), "", "", "")
    ensures Hostname(h.hostname + PortSuffix(port)) == Some(h.hostname)
  {
    BaseUrlOrigin(cfg, h, scheme, port);
    NetlocHostname(h.hostname, port);
    NetlocHasNoDelim(h.hostname, port);
    HttpSchemes();
    SplitOrigin(scheme, h.hostname + PortSuffix(port));
  }

  lemma BaseUrlOrigin(cfg: PulpSmashConfig, h: Host, scheme: string, port: Option<nat>)
    requires |h.hostname| > 0 && |scheme| > 0
    requires ApiSettings(h).Ok? && Get(ApiSettings(h).value, "scheme") == Some(JStr(scheme))
    requires port.None? ==> !HasKey(ApiSettings(h).value, "port")
    requires port.Some? ==> Get(ApiSettings(h).value, "port") == Some(JInt(port.value))
    ensures GetBaseUrl(cfg, Some(h)) == Ok(scheme + "://" + (h.hostname + PortSuffix(port)))
  {
    BaseUrlValue(cfg, h, scheme, port);
    UnsplitOrigin(scheme, h.hostname + PortSuffix(port));
  }

  /** The host name of host[:port] for a plain host is the host. */
  lemma NetlocHostname(host: string, port: Option<nat>)
    requires PlainHost(host)
    ensures Hostname(host + PortSuffix(port)) == Some(host)
  {
    if port.Some? {
      PortSuffixSome(host, port.value);
      HostnameOfHostPort(host, NatToString(port.value));
    } else {
      HostnameOfHostPort(host, "");
      assert host + PortSuffix(port) == host;
    }
  }

  function PortSuffix(port: Option<nat>): string {
    if port.Some? then ":" + NatToString(port.value) else ""
  }

  lemma PortSuffixSome(host: string, n: nat)
    ensures host + PortSuffix(Some(n)) == host + ":" + NatToString(n)
  {
    assert PortSuffix(Some(n)) == ":" + NatToString(n);
  }

  lemma NetlocHasNoDelim(host: string, port: Option<nat>)
    requires forall k :: 0 <= k < |host| ==> !IsDelim(host[k])
    ensures forall k :: 0 <= k < |host + PortSuffix(port)| ==> !IsDelim((host + PortSuffix(port))[k])
  {
    var netloc := host + PortSuffix(port);
    forall k | 0 <= k < |netloc| ensures !IsDelim(netloc[k]) {
      if k < |host| {
        assert netloc[k] == host[k];
      } else if k > |host| {
        assert IsDigit(NatToString(port.value)[k - |host| - 1]);
      }
    }
  }

  /** `tuple(x)` for the JSON values `pulp.auth` may hold; a tuple is a JSON array here. */
  function PyTuple(v: Json): (r: Result<Json>)
    ensures v.JArr? ==> r == Ok(v)
    ensures r.Ok? ==> r.value.JArr?
    ensures r.Ok? <==> PyIter(v).Ok?
    ensures r.Ok? ==> r.value == JArr(PyIter(v).value)
  {
    match v
    case JArr(_) => Ok(v)
    case JStr(s) => Ok(JArr(seq(|s|, i requires 0 <= i < |s| => JStr([s[i]]))))
    case JObj(fields) => Ok(JArr(seq(|fields|, i requires 0 <= i < |fields| => JStr(fields[i].0))))
    case _ => Err(TypeError("object is not iterable"))
  }

  /** The request settings of an `api` role: a copy without port and scheme,
      with the credentials under "auth". */
  function RequestsKwargsOf(api: Dict<Json>, auth: Json): (r: Dict<Json>)
    ensures Get(r, "auth") == Some(auth)
    ensures !HasKey(r, "port") && !HasKey(r, "scheme")
    ensures forall k :: k != "auth" && k != "port" && k != "scheme" ==> Get(r, k) == Get(api, k)
  {
    var withAuth := Set(api, "auth", auth);
    SetGetAll(api, "auth", auth);
    var r := Remove(Remove(withAuth, "port"), "scheme");
    assert Get(r, "port").None?;
    r
  }

  /** `cfg.get_requests_kwargs(pulp_system)` */
  function GetRequestsKwargs(cfg: PulpSmashConfig, system: Option<Host>): (r: Result<Dict<Json>>)
    ensures r.Ok? <==> ApiHost(cfg, system).Ok? && ApiSettings(ApiHost(cfg, system).value).Ok? && PyTuple(cfg.auth).Ok?
    ensures r.Ok? ==> r.value == RequestsKwargsOf(ApiSettings(ApiHost(cfg, system).value).value, PyTuple(cfg.auth).value)
  {
    var host :- ApiHost(cfg, system);
    var api :- ApiSettings(host);
    var auth :- PyTuple(cfg.auth);
    Ok(RequestsKwargsOf(api, auth))
  }

  lemma SetGetAll<V>(d: Dict<V>, k: string, v: V)
    ensures forall k' :: Get(Set(d, k, v), k') == if k' == k then Some(v) else Get(d, k')
  {
    forall k' ensures Get(Set(d, k, v), k') == if k' == k then Some(v) else Get(d, k') {
      SetGet(d, k, v, k');
    }
  }
}
