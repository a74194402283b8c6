/** Values shared by the PHP side and the block-editor side of the plugin:
    a JSON-shaped value type, the truthiness rules each language applies to it,
    the four platform identifiers and the post-meta keys. */
module Values {

  /** The conventional Some/None wrapper, used for absent inputs. */
  datatype Option<+T> = None | Some(value: T)

  /** A JSON-shaped value as it travels between the editor, the REST layer and PHP.
      Associative arrays and objects are both `Obj`; floating point is not modelled. */
  datatype Value =
    | Null
    | Bool(b: bool)
    | Int(i: int)
    | Str(s: string)
    | Obj(fields: map<string, Value>)

  /** PHP's `empty()`: null, false, 0, "", "0" and the empty array. */
  predicate IsEmpty(v: Value) {
    match v
    case Null => true
    case Bool(b) => !b
    case Int(i) => i == 0
    case Str(s) => s == "" || s == "0"
    case Obj(m) => |m| == 0
  }

  /** PHP's `isset($a[$k])`: the key is present and its value is not null. */
  predicate IsSet(a: map<string, Value>, k: string) {
    k in a && a[k] != Null
  }

  /** JavaScript truthiness; every object, even `{}`, is truthy. */
  predicate Truthy(v: Value) {
    match v
    case Null => false
    case Bool(b) => b
    case Int(i) => i != 0
    case Str(s) => s != ""
    case Obj(_) => true
  }

  const Facebook: string := "facebook"
  const Twitter: string := "twitter"
  const LinkedIn: string := "linkedin"
  const Instagram: string := "instagram"

  /** The four platforms the plugin knows about. */
  const KnownPlatforms: set<string> := {Facebook, Twitter, LinkedIn, Instagram}

  /** Post-meta key holding the per-platform `{platform -> datetime}` object. */
  const ScheduleMetaKey: string := "_schocial_schedule"

  /** Post-meta key the editor writes the per-platform enabled flags under. */
  const PlatformsMetaKey: string := "_schocial_platforms"

  /** The object `{facebook: v, twitter: v, linkedin: v, instagram: v}`. */
  function AllPlatforms(v: Value): (m: map<string, Value>)
    ensures m.Keys == KnownPlatforms
    ensures forall p :: p in m ==> m[p] == v
  {
    map[Facebook := v, Twitter := v, LinkedIn := v, Instagram := v]
  }
}
