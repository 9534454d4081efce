/** Structured values of documents and response bodies, as the XContent layer
    hands them over (the encoding itself is not modelled). */
module Json {
  import opened Wrappers

  /** A document value. Floating-point numbers are not distinguished from integers. */
  datatype Value =
    | Null
    | Bool(b: bool)
    | Num(n: int)
    | Str(s: string)
    | Array(items: seq<Value>)
    | Object(fields: map<string, Value>)

  /** The elements of a JSON array of strings, one per identifier, in order. */
  function Strs(ids: seq<string>): seq<Value>
  {
    if ids == [] then [] else [Str(ids[0])] + Strs(ids[1..])
  }

  /** A list of percolate match identifiers as a value: an array of strings. */
  function StringArray(ids: seq<string>): Value
  {
    Array(Strs(ids))
  }

  /** Reads an array of strings back; None when some element is not a string. */
  function Unstrs(items: seq<Value>): Option<seq<string>>
  {
    if items == [] then Some([])
    else match items[0]
      case Str(s) =>
        (match Unstrs(items[1..])
         case Some(rest) => Some([s] + rest)
         case None => None)
      case _ => None
  }

  /** The identifiers held by a value, if it is an array of strings. */
  function Strings(v: Value): Option<seq<string>>
  {
    if v.Array? then Unstrs(v.items) else None
  }

  /** Appending one identifier appends one string element. */
  lemma {:induction false} StrsSnoc(ids: seq<string>, id: string)
    ensures Strs(ids + [id]) == Strs(ids) + [Str(id)]
  {
    if ids != [] {
      assert (ids + [id])[1..] == ids[1..] + [id];
      StrsSnoc(ids[1..], id);
    }
  }

  /** Reading back the array built from identifiers gives the same identifiers, in order. */
  lemma {:induction false} StringsOfStringArray(ids: seq<string>)
    ensures Strings(StringArray(ids)) == Some(ids)
  {
    if ids != [] {
      StringsOfStringArray(ids[1..]);
      assert Strs(ids)[1..] == Strs(ids[1..]);
      assert [ids[0]] + ids[1..] == ids;
    }
  }

}
