/** The pieces of Mongoose schema validation the models use: the built-in
    validators' default messages and the checks that produce them. A failing
    path contributes one message (its first failing validator); a path that is
    absent passes every validator except `required`. */
module Schema {
  import opened Wrappers
  import Strings

  /** The default message of the `required` validator. */
  function RequiredMessage(path: string): string
  {
    "Path `" + path + "` is required."
  }

  /** The default message of the `enum` validator. */
  function EnumMessage(value: string, path: string): string
  {
    "`" + value + "` is not a valid enum value for path `" + path + "`."
  }

  /** The default message of the `min` validator. */
  function MinMessage(path: string, value: int, min: int): string
  {
    "Path `" + path + "` (" + Strings.IntToString(value) + ") is less than minimum allowed value (" + Strings.IntToString(min) + ")."
  }

  /** The message of a failed cast of `value` at `path` to an ObjectId. */
  function CastMessage(value: string, path: string): string
  {
    "Cast to ObjectId failed for value \"" + value + "\" (type string) at path \"" + path + "\""
  }

  /** A string value passes `required` when it is present and not empty. */
  predicate HasText(v: Option<string>)
  {
    v.Some? && v.value != ""
  }

  /** The message list of one path: empty when the check passes. */
  function Check(ok: bool, message: string): (r: seq<string>)
    ensures ok <==> r == []
    ensures !ok ==> r == [message]
  {
    if ok then [] else [message]
  }

  /** `trim: true` on an optional string path. */
  function TrimOpt(v: Option<string>): (r: Option<string>)
    ensures r.Some? <==> v.Some?
    ensures r.Some? ==> r.value == Strings.Trim(v.value) && Strings.IsTrimmed(r.value)
  {
    match v
    case None => None
    case Some(s) => Some(Strings.Trim(s))
  }

  /** `lowercase: true` on an optional string path. */
  function LowerOpt(v: Option<string>): (r: Option<string>)
    ensures r.Some? <==> v.Some?
    ensures r.Some? ==> r.value == Strings.Lower(v.value) && Strings.IsLower(r.value)
  {
    match v
    case None => None
    case Some(s) => Strings.LowerIsLower(s); Some(Strings.Lower(s))
  }
}
