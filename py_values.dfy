/**
  The dynamic values the integration passes around in dicts: device state,
  schedules, config-entry data and options.  A Python `dict` keyed by strings
  is a `map<string, Value>`; its insertion order is not modelled.
 */
module PyValues {
  import opened Wrappers

  datatype Value =
    | Null                            // None
    | Bool(b: bool)
    | Int(i: int)
    | Str(s: string)
    | Enum(name: string)              // a member of an `enum.Enum`, known by its `.name`
    | Set(members: seq<Value>)        // a `set`, in its (unspecified) iteration order
    | List(items: seq<Value>)
    | Dict(entries: map<string, Value>)

  /** Python truth value (`if v:`); enum members are truthy. */
  predicate Truthy(v: Value) {
    match v
    case Null => false
    case Bool(b) => b
    case Int(i) => i != 0
    case Str(s) => s != ""
    case Enum(_) => true
    case Set(ms) => ms != []
    case List(xs) => xs != []
    case Dict(m) => m != map[]
  }

  /** `m.get(k, default)` */
  function Get(m: map<string, Value>, k: string, default: Value): Value {
    if k in m then m[k] else default
  }

  /** `m.get(k)` for a dict whose values may be absent. */
  function Lookup<V>(m: map<string, V>, k: string): Option<V> {
    if k in m then Some(m[k]) else None
  }

  function Digit(d: nat): char
    requires d < 10
  {
    "0123456789"[d]
  }

  function Natural(n: nat): string
    decreases n
  {
    if n < 10 then [Digit(n)] else Natural(n / 10) + [Digit(n % 10)]
  }

  /**
    `str(v)` (what an f-string inserts).  Strings, None, booleans and integers
    are rendered as Python does; enum members and containers are rendered by
    `other`, which stands for Python's own `str` of those objects.
   */
  function Format(v: Value, other: Value -> string): string {
    match v
    case Str(s) => s
    case Null => "None"
    case Bool(b) => if b then "True" else "False"
    case Int(i) => if i < 0 then "-" + Natural(-i) else Natural(i)
    case _ => other(v)
  }

  /** `sep.join(parts)` */
  function Join(sep: string, parts: seq<string>): (r: string)
    ensures parts == [] ==> r == ""
    ensures |parts| == 1 ==> r == parts[0]
  {
    if parts == [] then ""
    else if |parts| == 1 then parts[0]
    else parts[0] + sep + Join(sep, parts[1..])
  }

  /** The strings of a sequence of values, or None when one of them is not a string. */
  function Strings(vs: seq<Value>): (r: Option<seq<string>>)
    ensures r.Some? <==> forall i :: 0 <= i < |vs| ==> vs[i].Str?
    ensures r.Some? ==> |r.value| == |vs| && forall i :: 0 <= i < |vs| ==> r.value[i] == vs[i].s
  {
    if vs == [] then Some([])
    else if !vs[0].Str? then None
    else match Strings(vs[1..])
      case None => None
      case Some(rest) => Some([vs[0].s] + rest)
  }

  /**
    `sep.join(v)`: a list or set of strings is joined in iteration order and a
    string is joined character by character; anything else raises (None).
    A dict would be joined by its keys in insertion order, which a map does not
    keep; it is treated as raising.
   */
  function JoinValue(sep: string, v: Value): Option<string> {
    match v
    case Str(s) => Some(Join(sep, seq(|s|, i requires 0 <= i < |s| => [s[i]])))
    case List(xs) => (match Strings(xs) case None => None case Some(ss) => Some(Join(sep, ss)))
    case Set(ms) => (match Strings(ms) case None => None case Some(ss) => Some(Join(sep, ss)))
    case _ => None
  }

  /**
    `f"{d}"` of a dict given by its (key, value) items in insertion order, whose
    keys are plain ASCII strings: `{'k': repr(v), ...}`.  `repr` stands for
    Python's `repr` of a value.
   */
  function DictRepr(items: seq<(string, Value)>, repr: Value -> string): string {
    "{" + Join(", ", seq(|items|, i requires 0 <= i < |items| => "'" + items[i].0 + "': " + repr(items[i].1))) + "}"
  }

  /** `str.lower()` on ASCII letters; other characters are left alone. */
  function Lower(s: string): (r: string)
    ensures |r| == |s|
    ensures forall i :: 0 <= i < |s| ==> r[i] == LowerChar(s[i])
  {
    seq(|s|, i requires 0 <= i < |s| => LowerChar(s[i]))
  }

  function LowerChar(c: char): char {
    if 'A' <= c <= 'Z' then (c as int - 'A' as int + 'a' as int) as char else c
  }
}
