/** JSON values as request bodies carry them. */
module Json {
  import opened Outcomes

  datatype Number = PosInt(n: nat) | NegInt(i: int) | Float(x: real)

  /** Object member names: those the service reads, and all others. */
  datatype Key =
    | Title | Type | Description | Url | Timestamp | Color | Footer | Image | Thumbnail | Author | Fields
    | Text | IconUrl | Name | FieldValue | Inline
    | Parse | Users | Roles
    | Other(name: string)

  datatype Value =
    | Null
    | Bool(b: bool)
    | Num(number: Number)
    | Str(text: string)
    | Arr(items: seq<Value>)
    | Obj(fields: map<Key, Value>)
  {
    /** The member of an object; anything else has no members. */
    function Get(key: Key): Option<Value> {
      if Obj? then Member(fields, key) else None
    }
  }

  function Member(fields: map<Key, Value>, key: Key): Option<Value> {
    if key in fields then Some(fields[key]) else None
  }

  function Elements(v: Option<Value>): seq<Value> {
    if v.Some? && v.value.Arr? then v.value.items else []
  }

  /** The strings among some values. */
  function Strings(vs: seq<Value>): set<string> {
    set v | v in vs && v.Str? :: v.text
  }
}
