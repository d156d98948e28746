/** The per-model `description` entries a grid resource is configured with. */
module Config {
  import opened Wrappers

  /** A configuration value that may be a string, a list of names, or
      anything else (a unicode string included: it is not a `str`). */
  datatype Setting = Str(s: string) | List(items: seq<string>) | OtherSetting

  /** `description[model_name]`: each key may be absent. */
  datatype ModelDescription = ModelDescription(
    fields: Option<seq<string>>,
    exclude: Option<seq<string>>,
    plugins: Option<Setting>,
    safe: Option<seq<string>>,
    search: Option<map<string, seq<string>>>)

  type Description = map<string, ModelDescription>
}
