/**
 * The node's configuration loader: every field of the configuration is
 * read, in declaration order, from the environment variable `CARTESI_<env>`
 * named by its `env` tag, falling back to its `default` tag when that
 * variable is empty or unset, and converted to the field's type.
 */
module Config {
  import opened Results
  import opened Strconv

  const Prefix: string := "CARTESI_"

  /** The kinds of field type the loader distinguishes. */
  datatype Kind = IntKind | StringKind | OtherKind(name: string)

  /** A converted field value. */
  datatype Value = IntValue(i: int) | StringValue(s: string)

  /**
   * A field of the configuration struct: its name, its type's kind, its
   * `env` tag (absent or present) and its `default` tag (empty when absent).
   */
  datatype Field = Field(name: string, kind: Kind, env: Option<string>, default: string)

  datatype LoadError =
    | MissingEnvTag(field: string)                   // field "<name>" must have an "env" tag
    | EmptyValue(env: string)                        // empty value for <env>
    | ConvertFailed(cause: NumError)                 // the error of strconv.Atoi
    | CannotConvert(value: string, kind: Kind)       // string "<value>" cannot be converted to type <kind>

  /** The process environment, as a map; `os.Getenv` gives the empty string for a variable that is unset. */
  type Env = map<string, string>

  function Getenv(env: Env, key: string): (v: string)
    ensures key !in env ==> v == ""
  {
    if key in env then env[key] else ""
  }

  /**
   * `convert`: an `int` field takes the result of `Atoi`, with its error;
   * a `string` field takes the text as it is; any other kind is an error.
   */
  function Convert(s: string, kind: Kind): (r: Result<Value, LoadError>)
    ensures kind == IntKind ==> (r.Ok? <==> Atoi(s).Ok?)
    ensures kind == IntKind && r.Ok? ==> r.value == IntValue(Atoi(s).value)
    ensures kind == IntKind && r.Err? ==> r.error == ConvertFailed(Atoi(s).error)
    ensures kind == StringKind ==> r == Ok(StringValue(s))
    ensures kind.OtherKind? ==> r == Err(CannotConvert(s, kind))
  {
    match kind
    case IntKind =>
      (match Atoi(s)
       case Ok(n) => Ok(IntValue(n))
       case Err(e) => Err(ConvertFailed(e)))
    case StringKind => Ok(StringValue(s))
    case OtherKind(_) => Err(CannotConvert(s, kind))
  }

  /** Round trip: an `int` field set to the decimal form of a 64-bit value loads that value. */
  lemma ConvertItoa(n: int)
    requires MinInt64 <= n <= MaxInt64
    ensures Convert(Itoa(n), IntKind) == Ok(IntValue(n))
  {
    AtoiItoa(n);
  }

  /**
   * One iteration of `Load`'s loop: the value of one field. A field without
   * an `env` tag is an error naming the field; a non-empty `CARTESI_<env>`
   * wins over the default; an empty one falls back to the default, and an
   * empty default is an error naming the tag; the chosen text is converted.
   */
  function Resolve(env: Env, field: Field): (r: Result<Value, LoadError>)
    ensures field.env.None? ==> r == Err(MissingEnvTag(field.name))
    ensures field.env.Some? && Getenv(env, Prefix + field.env.value) != "" ==>
              r == Convert(Getenv(env, Prefix + field.env.value), field.kind)
    ensures field.env.Some? && Getenv(env, Prefix + field.env.value) == "" && field.default == "" ==>
              r == Err(EmptyValue(field.env.value))
    ensures field.env.Some? && Getenv(env, Prefix + field.env.value) == "" && field.default != "" ==>
              r == Convert(field.default, field.kind)
  {
    match field.env
    case None => Err(MissingEnvTag(field.name))
    case Some(tag) =>
      var s := Getenv(env, Prefix + tag);
      if s != "" then Convert(s, field.kind)
      else if field.default == "" then Err(EmptyValue(tag))
      else Convert(field.default, field.kind)
  }

  /** A field's value depends on its own environment variable only. */
  lemma ResolveReadsOwnVariable(env1: Env, env2: Env, field: Field)
    requires field.env.Some?
    requires Getenv(env1, Prefix + field.env.value) == Getenv(env2, Prefix + field.env.value)
    ensures Resolve(env1, field) == Resolve(env2, field)
  {
  }

  /** Setting a field's variable to a non-empty text overrides the default, whatever the rest of the environment. */
  lemma {:induction false} EnvOverridesDefault(env: Env, field: Field, s: string)
    requires field.env.Some? && s != ""
    ensures Resolve(env[Prefix + field.env.value := s], field) == Convert(s, field.kind)
  {
    assert Getenv(env[Prefix + field.env.value := s], Prefix + field.env.value) == s;
  }

  /**
   * `Load`'s loop over the fields in declaration order: each field's value
   * is stored in its slot of the struct, and the first field that fails
   * stops the loop with its error.
   */
  method LoadFields(env: Env, fields: seq<Field>) returns (r: Result<seq<Value>, LoadError>)
    ensures r.Ok? <==> forall i :: 0 <= i < |fields| ==> Resolve(env, fields[i]).Ok?
    ensures r.Ok? ==> |r.value| == |fields| &&
                      forall i :: 0 <= i < |fields| ==> r.value[i] == Resolve(env, fields[i]).value
    ensures r.Err? ==> exists i :: 0 <= i < |fields| && Resolve(env, fields[i]) == Err(r.error) &&
                                   forall j :: 0 <= j < i ==> Resolve(env, fields[j]).Ok?
  {
    var values := new Value[|fields|](_ => StringValue(""));
    for i := 0 to |fields|
      invariant forall j :: 0 <= j < i ==> Resolve(env, fields[j]).Ok? &&
                                           values[j] == Resolve(env, fields[j]).value
    {
      var value := Resolve(env, fields[i]);
      if value.Err? {
        return Err(value.error);
      }
      values[i] := value.value;
    }
    return Ok(values[..]);
  }

  /** The node's configuration: the GraphQL and inspect server ports. */
  datatype Configuration = Configuration(graphQLPort: int, inspectPort: int)

  const GraphQLPortField: Field := Field("GraphQLPort", IntKind, Some("GRAPHQL_PORT"), "8080")
  const InspectPortField: Field := Field("InspectPort", IntKind, Some("INSPECT_PORT"), "8081")

  /** The fields of the configuration struct, in declaration order. */
  const ConfigFields: seq<Field> := [GraphQLPortField, InspectPortField]

  /**
   * `Load`: both ports, from `CARTESI_GRAPHQL_PORT` and
   * `CARTESI_INSPECT_PORT` or their defaults 8080 and 8081; the first field
   * that fails is the error.
   */
  method Load(env: Env) returns (r: Result<Configuration, LoadError>)
    ensures r.Ok? <==> Resolve(env, GraphQLPortField).Ok? && Resolve(env, InspectPortField).Ok?
    ensures r.Ok? ==> IntValue(r.value.graphQLPort) == Resolve(env, GraphQLPortField).value
    ensures r.Ok? ==> IntValue(r.value.inspectPort) == Resolve(env, InspectPortField).value
    ensures r.Err? ==> r.error == if Resolve(env, GraphQLPortField).Err? then Resolve(env, GraphQLPortField).error
                                  else Resolve(env, InspectPortField).error
  {
    var values := LoadFields(env, ConfigFields);
    assert ConfigFields[0] == GraphQLPortField && ConfigFields[1] == InspectPortField;
    match values
    case Err(e) =>
      r := Err(e);
    case Ok(vs) =>
      r := Ok(Configuration(vs[0].i, vs[1].i));
  }

  /** `TestConfigDefaults`: with no variable set, `Load` succeeds with the default ports. */
  method LoadDefaults() returns (r: Result<Configuration, LoadError>)
    ensures r == Ok(Configuration(8080, 8081))
  {
    r := Load(map[]);
    DefaultPorts();
  }

  /**
   * The environment of `TestConfigTodo`, `CARTESI_INSPECT_PORT=aaa`: `Load`
   * fails with the `Atoi` syntax error of the inspect port.
   */
  method LoadNonNumericInspectPort() returns (r: Result<Configuration, LoadError>)
    ensures r == Err(ConvertFailed(NumError("Atoi", "aaa", ErrSyntax)))
  {
    r := Load(map[Prefix + "INSPECT_PORT" := "aaa"]);
    NonNumericInspectPort();
  }

  /** The defaults of both ports are their decimal forms. */
  lemma DefaultPorts()
    ensures Resolve(map[], GraphQLPortField) == Ok(IntValue(8080))
    ensures Resolve(map[], InspectPortField) == Ok(IntValue(8081))
  {
    assert Itoa(8080) == "8080" && Itoa(8081) == "8081";
    ConvertItoa(8080);
    ConvertItoa(8081);
  }

  /** `CARTESI_INSPECT_PORT=aaa` with nothing else set: the GraphQL port loads its default and the inspect port fails in `Atoi`. */
  lemma NonNumericInspectPort()
    ensures var env := map[Prefix + "INSPECT_PORT" := "aaa"];
            && Resolve(env, GraphQLPortField) == Ok(IntValue(8080))
            && Resolve(env, InspectPortField) == Err(ConvertFailed(NumError("Atoi", "aaa", ErrSyntax)))
  {
    var env := map[Prefix + "INSPECT_PORT" := "aaa"];
    assert Prefix + "GRAPHQL_PORT" != Prefix + "INSPECT_PORT" by {
      assert (Prefix + "GRAPHQL_PORT")[8] != (Prefix + "INSPECT_PORT")[8];
    }
    ResolveReadsOwnVariable(env, map[], GraphQLPortField);
    DefaultPorts();
    EnvOverridesDefault(map[], InspectPortField, "aaa");
  }
}
