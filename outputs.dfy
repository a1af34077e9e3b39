/**
 * The outputs the action publishes from repoman's `info` report
 * (the `setOutput` calls at the end of `run` in src/main.ts). The report is
 * taken already parsed; only the four `Git.Metadata` fields the action reads
 * are kept.
 */
module Outputs {

  /** The JavaScript values a parsed JSON field can hold; `Undefined` is an absent field. */
  datatype JsValue =
    | Undefined
    | Null
    | Bool(b: bool)
    | Number(n: int)
    | Str(s: string)
    | Composite  // an object or an array

  /**
   * JavaScript truthiness: the falsy values are exactly `undefined`, `null`,
   * `false`, `0` and the empty string; every other value, objects and arrays
   * included, is truthy.
   */
  predicate Truthy(v: JsValue)
    ensures !Truthy(v) <==> v == Undefined || v == Null || v == Bool(false) || v == Number(0) || v == Str("")
  {
    match v
    case Undefined => false
    case Null => false
    case Bool(b) => b
    case Number(n) => n != 0
    case Str(s) => s != ""
    case Composite => true
  }

  /** JavaScript `left || right`: `left` when it is truthy, otherwise `right`. */
  function Or(left: JsValue, right: JsValue): (r: JsValue)
    ensures Truthy(left) ==> r == left
    ensures !Truthy(left) ==> r == right
  {
    if Truthy(left) then left else right
  }

  /** `info.Git.Metadata`, as far as the action reads it. */
  datatype Metadata = Metadata(hasGo: JsValue, hasLibrary: JsValue, hasBinary: JsValue, hasDocker: JsValue)

  /** The value of the `version` output. */
  const VersionPlaceholder: JsValue := Str("n/a")

  /** The names of the outputs the action sets. */
  const OutputNames: set<string> := {"has-go", "has-go-library", "has-go-binary", "has-docker", "version"}

  /** `field || false`, the value published for one metadata field. */
  function FlagOutput(field: JsValue): (v: JsValue)
    ensures Truthy(v) <==> Truthy(field)
    ensures Truthy(field) ==> v == field
    ensures !Truthy(field) ==> v == Bool(false)
  {
    Or(field, Bool(false))
  }

  /**
   * The outputs published for a report: the five names, each `has-*` output
   * truthy exactly when its field is (and then the field itself, otherwise
   * `false`), and `version` the fixed placeholder.
   */
  function Projection(m: Metadata): (outputs: map<string, JsValue>)
    ensures outputs.Keys == OutputNames
    ensures outputs["has-go"] == FlagOutput(m.hasGo)
    ensures outputs["has-go-library"] == FlagOutput(m.hasLibrary)
    ensures outputs["has-go-binary"] == FlagOutput(m.hasBinary)
    ensures outputs["has-docker"] == FlagOutput(m.hasDocker)
    ensures outputs["version"] == VersionPlaceholder
  {
    map[
      "has-go" := FlagOutput(m.hasGo),
      "has-go-library" := FlagOutput(m.hasLibrary),
      "has-go-binary" := FlagOutput(m.hasBinary),
      "has-docker" := FlagOutput(m.hasDocker),
      "version" := VersionPlaceholder
    ]
  }

  /** A field that is either absent or a JSON boolean. */
  predicate OptionalBool(v: JsValue)
  {
    v.Undefined? || v.Bool?
  }

  /** The boolean an optional boolean field stands for: absent means `false`. */
  function BoolOf(v: JsValue): bool
  {
    v == Bool(true)
  }

  /**
   * For a report whose four fields are optional booleans, every `has-*`
   * output is the JSON boolean the field stands for, an absent one giving
   * `false`.
   */
  lemma ProjectionOfOptionalBools(m: Metadata)
    requires OptionalBool(m.hasGo) && OptionalBool(m.hasLibrary)
    requires OptionalBool(m.hasBinary) && OptionalBool(m.hasDocker)
    ensures Projection(m)["has-go"] == Bool(BoolOf(m.hasGo))
    ensures Projection(m)["has-go-library"] == Bool(BoolOf(m.hasLibrary))
    ensures Projection(m)["has-go-binary"] == Bool(BoolOf(m.hasBinary))
    ensures Projection(m)["has-docker"] == Bool(BoolOf(m.hasDocker))
  {
  }

  /** A report with only `HasGo: true` gives `has-go` true and the other flags false. */
  lemma ProjectionOfHasGoOnly()
    ensures Projection(Metadata(Bool(true), Undefined, Undefined, Undefined))
         == map["has-go" := Bool(true), "has-go-library" := Bool(false),
                "has-go-binary" := Bool(false), "has-docker" := Bool(false),
                "version" := Str("n/a")]
  {
  }
}
