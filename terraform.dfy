/**
 * The part of the Terraform plugin SDK the resources lean on: the resource data (its id,
 * its attributes, which attributes the plan changes), `GetOk`, `Get` with its zero
 * values, `Set`, `SetId`, and how a CRUD function ends.
 */
module Terraform {
  import opened Wrappers
  import opened Models

  /**
   * An attribute value. A set-typed attribute is described by its number of elements, all
   * the core ever asks of one; `Forwarded` and `Monitored` are the struct values the frontend
   * Read hands to `Set` for its set-typed attributes, kept as they were handed over.
   */
  datatype Value =
    | Text(text: string)
    | Number(number: int)
    | Flag(flag: bool)
    | SetOf(size: nat)
    | Forwarded(forwardfor: Forwardfor)
    | Monitored(monitorFail: MonitorFail)

  /** The zero value of the attribute's type, which `GetOk` does not report. */
  predicate IsZero(v: Value)
  {
    match v
    case Text(t) => t == ""
    case Number(n) => n == 0
    case Flag(b) => !b
    case SetOf(n) => n == 0
    case Forwarded(f) => f == ZeroForwardfor
    case Monitored(m) => m == ZeroMonitorFail
  }

  /** `GetOk`: the value, when the attribute is set to something other than its zero value. */
  function GetOk(attrs: map<string, Value>, key: string): (r: Option<Value>)
    ensures r.Some? <==> key in attrs && !IsZero(attrs[key])
    ensures r.Some? ==> r.value == attrs[key]
  {
    if key in attrs && !IsZero(attrs[key]) then Some(attrs[key]) else None
  }

  /** `Get(key).(string)`: the string value, or "" when the attribute is unset. */
  function GetString(attrs: map<string, Value>, key: string): (s: string)
    ensures key in attrs && attrs[key].Text? ==> s == attrs[key].text
    ensures GetOk(attrs, key).None? ==> s == ""
  {
    if key in attrs && attrs[key].Text? then attrs[key].text else ""
  }

  /** `Get(key).(int)`: the integer value, or 0 when the attribute is unset. */
  function GetInt(attrs: map<string, Value>, key: string): (n: int)
    ensures key in attrs && attrs[key].Number? ==> n == attrs[key].number
    ensures GetOk(attrs, key).None? ==> n == 0
  {
    if key in attrs && attrs[key].Number? then attrs[key].number else 0
  }

  /** `Get(key).(bool)`: the boolean value, or false when the attribute is unset. */
  function GetBool(attrs: map<string, Value>, key: string): (b: bool)
    ensures key in attrs && attrs[key].Flag? ==> b == attrs[key].flag
    ensures GetOk(attrs, key).None? ==> !b
  {
    key in attrs && attrs[key].Flag? && attrs[key].flag
  }

  /** What `diag.FromErr` makes of an error; the error of a retry keeps each attempt's message. */
  datatype Diagnostic = ErrorDiagnostic(summary: string) | RetryDiagnostic(errors: seq<string>)

  /** How a CRUD function ends: with its diagnostics, or with a Go panic. */
  datatype Completion = Returned(diags: seq<Diagnostic>) | Panicked(reason: string)

  /** `schema.ResourceData`: the id ("" for a resource that does not exist), the attributes, the changed keys. */
  class ResourceData {
    var id: string
    var attrs: map<string, Value>
    var changed: set<string>

    constructor(id: string, attrs: map<string, Value>, changed: set<string>)
      ensures this.id == id && this.attrs == attrs && this.changed == changed
    {
      this.id, this.attrs, this.changed := id, attrs, changed;
    }

    method SetId(v: string)
      modifies this
      ensures id == v && attrs == old(attrs) && changed == old(changed)
    {
      id := v;
    }

    method Set(key: string, v: Value)
      modifies this
      ensures attrs == old(attrs)[key := v] && id == old(id) && changed == old(changed)
    {
      attrs := attrs[key := v];
    }
  }
}
