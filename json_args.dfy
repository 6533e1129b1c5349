/**
 * Tool and skill arguments as decoded from a JSON request body
 * (`map[string]interface{}`), and the type assertions the handlers apply to
 * them.
 */
module JsonArgs {

  /** A decoded JSON value; numbers carry no value, since no modelled code reads one. */
  datatype Json = JString(s: string) | JBool(b: bool) | JNumber | JNull
                | JArray(items: seq<Json>) | JObject(fields: map<string, Json>)

  /** `args[key].(string)` with the ok result dropped: the empty string unless the argument is a string. */
  function StringArg(args: map<string, Json>, key: string): (r: string)
  {
    if key in args && args[key].JString? then args[key].s else ""
  }

  /** `args[key].(bool)` with the ok result dropped: false unless the argument is a boolean. */
  function BoolArg(args: map<string, Json>, key: string): (r: bool)
  {
    key in args && args[key].JBool? && args[key].b
  }
}
