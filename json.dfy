/**
 * The part of JSON that matters to the gateways: scalar values and objects.
 * Go's `encoding/json` writes object members in field order; member order carries no
 * meaning for the Dataplane API, so an object is a map from key to value here.
 */
module JsonValue {

  datatype Json = JString(s: string) | JInt(n: int) | JBool(b: bool) | JObject(members: map<string, Json>)

  /**
   * The values a Go `omitempty` tag drops: "", 0 and false. A nested struct is never
   * empty in this sense, so an object is never dropped.
   */
  predicate IsEmpty(j: Json)
  {
    j == JString("") || j == JInt(0) || j == JBool(false)
  }

  /** The members of `fields` that an `omitempty` tag keeps: the non-empty ones. */
  function OmitEmpty(fields: map<string, Json>): (m: map<string, Json>)
  {
    map k | k in fields && !IsEmpty(fields[k]) :: fields[k]
  }

  /*
   * Reading a member back the way `json.Unmarshal` fills a struct field: a missing key
   * leaves the field at its zero value.
   */

  function StringAt(m: map<string, Json>, k: string): string
  {
    if k in m && m[k].JString? then m[k].s else ""
  }

  function IntAt(m: map<string, Json>, k: string): int
  {
    if k in m && m[k].JInt? then m[k].n else 0
  }

  function BoolAt(m: map<string, Json>, k: string): bool
  {
    if k in m && m[k].JBool? then m[k].b else false
  }

  function ObjectAt(m: map<string, Json>, k: string): map<string, Json>
  {
    if k in m && m[k].JObject? then m[k].members else map[]
  }

  /** `omitempty` only drops members; it never invents one. */
  lemma OmitEmptyKeys(fields: map<string, Json>)
    ensures OmitEmpty(fields).Keys <= fields.Keys
  {
  }

  /*
   * How a member of `OmitEmpty(fields)` reads back: as the field's value, and present
   * exactly when that value is not the zero value.
   */

  lemma StringKept(fields: map<string, Json>, k: string, s: string)
    requires k in fields && fields[k] == JString(s)
    ensures var m := OmitEmpty(fields); StringAt(m, k) == s && (k in m <==> s != "")
  {
  }

  lemma IntKept(fields: map<string, Json>, k: string, i: int)
    requires k in fields && fields[k] == JInt(i)
    ensures var m := OmitEmpty(fields); IntAt(m, k) == i && (k in m <==> i != 0)
  {
  }

  lemma BoolKept(fields: map<string, Json>, k: string, b: bool)
    requires k in fields && fields[k] == JBool(b)
    ensures var m := OmitEmpty(fields); BoolAt(m, k) == b && (k in m <==> b)
  {
  }

  lemma ObjectKept(fields: map<string, Json>, k: string, o: map<string, Json>)
    requires k in fields && fields[k] == JObject(o)
    ensures var m := OmitEmpty(fields); ObjectAt(m, k) == o && k in m
  {
  }

  /** Adding an always-present member `n` leaves every other member as it was. */
  lemma OtherMember(m: map<string, Json>, n: string, v: Json, k: string)
    requires k != n
    ensures var m' := m[n := v];
      && (k in m' <==> k in m)
      && StringAt(m', k) == StringAt(m, k)
      && IntAt(m', k) == IntAt(m, k)
      && BoolAt(m', k) == BoolAt(m, k)
      && ObjectAt(m', k) == ObjectAt(m, k)
  {
  }
}
