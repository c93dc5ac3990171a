/** How a client finds its way in a JSON value: by the names of members, in whatever order they come. */
module JsonMembers {
  import opened Json
  import opened JsonPrinter

  /** The member with this name; null if there is none. */
  function In(fields: Fields, name: string): Value {
    match fields
    case NoFields => Null
    case Field(before, key, v) => if key == name then v else In(before, name)
  }

  function Member(v: Value, name: string): Value { if v.Obj? then In(v.fields, name) else Null }

  function StringOf(v: Value): string { if v.Str? then v.s else "" }

  function IntOf(v: Value): int { if v.Number? then DecimalValue(v.text) else 0 }

  function TextIn(v: Value, name: string): string { StringOf(Member(v, name)) }

  function IntIn(v: Value, name: string): int { IntOf(Member(v, name)) }

  /** The only item of a list. */
  function Only(v: Value): Value { if v.Arr? && v.items.Item? then v.items.item else Null }

  lemma Lookup()
    ensures forall name :: In(NoFields, name) == Null
    ensures forall fields: Fields, key, v, name ::
      In(Field(fields, key, v), name) == if key == name then v else In(fields, name)
  {
  }

  lemma Spelled()
    ensures forall s :: StringOf(StrValue(s)) == Repaired(s)
    ensures forall n :: IntOf(IntValue(n)) == n
  {
    hide Repaired, Decimal, DecimalValue;
    ValuesDiffer();
  }

  lemma EmptyValid()
    ensures ValidUtf8("")
  {
  }
}
