/** What the generated model classes share in their hashCode(), equals() and toString():
    the null-aware hash term of a field, the null-aware comparison of a field, and the
    `Label: text,` entry of a field. */
module ModelSupport {

  import opened Wrappers
  import opened JavaLang

  /** The term a field contributes to hashCode(): 0 for null, its own hash otherwise. */
  function NullableHash<T>(v: Option<T>, hash: T -> Int32): (h: Int32)
    ensures v.None? ==> h == 0
  {
    if v.Some? then hash(v.value) else 0
  }

  /** The two tests equals() applies to one field: first `other == null ^ this == null`,
      then `other.equals(this)` when other is not null. */
  function NullAwareEquals<T(==)>(other: Option<T>, mine: Option<T>): (r: bool)
    ensures r <==> other == mine
  {
    if other.None? != mine.None? then false
    else if other.Some? && other.value != mine.value then false
    else true
  }

  /** The `Label: text,` entry toString() appends for a non-null field, nothing for null. */
  function Entry(key: string, text: Option<string>): (e: string)
    ensures text.None? <==> e == []
    ensures text.Some? ==> e[|e| - 1] == ','
  {
    if text.Some? then key + ": " + text.value + "," else ""
  }

  /** The entry of the last field, which toString() writes without a trailing comma. */
  function LastEntry(key: string, text: Option<string>): (e: string)
    ensures text.None? <==> e == []
  {
    if text.Some? then key + ": " + text.value else ""
  }

  /** One step of toString(): `if (field != null) sb.append(label + ": " + field + ",")`. */
  method AppendEntry(sb: string, key: string, text: Option<string>) returns (r: string)
    ensures r == sb + Entry(key, text)
  {
    r := sb;
    if text.Some? {
      r := r + (key + ": " + text.value + ",");
    }
  }

  /** The step for the last field, whose entry has no comma. */
  method AppendLastEntry(sb: string, key: string, text: Option<string>) returns (r: string)
    ensures r == sb + LastEntry(key, text)
  {
    r := sb;
    if text.Some? {
      r := r + (key + ": " + text.value);
    }
  }
}
