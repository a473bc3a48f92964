/**
 * PHP values as the module sees them after `json_decode(..., true)`: scalars
 * and ordered arrays whose keys are integers or strings. The functions give
 * the meaning of the PHP operators the code applies to them: `$a['k']`,
 * `isset`, `??`, `empty`, `is_array`, `is_string`, `(string)` and `(int)`.
 */
module PhpValues {
  import opened Wrappers
  import opened PhpStrings

  /** A PHP array key: PHP stores decimal-integer strings as integer keys. */
  datatype Key = IntKey(i: int) | StrKey(s: string)

  /**
   * A decoded JSON value. `Arr` is a PHP array: JSON lists have keys 0, 1, …
   * and JSON objects have their member names as keys, both in document order.
   */
  datatype Value =
    | Null
    | Bool(b: bool)
    | Int(i: int)
    | Str(s: string)
    | Arr(entries: seq<(Key, Value)>)

  /**
   * The key `$a[$s]` addresses: canonical integer strings become integer keys.
   * Only a string that starts with a digit or `-` can be one.
   */
  function KeyOf(s: string): Key {
    if s != [] && (IsDigit(s[0]) || s[0] == '-') && IsCanonicalInt(s) then IntKey(ToInt(s))
    else StrKey(s)
  }

  /** A string key is kept as is exactly when it is not a canonical integer; an integer key prints back as the string. */
  lemma KeyOfCanonical(s: string)
    ensures KeyOf(s).StrKey? <==> !IsCanonicalInt(s)
    ensures KeyOf(s).StrKey? ==> KeyOf(s).s == s
    ensures KeyOf(s).IntKey? ==> IntToString(KeyOf(s).i) == s
  {
    if IsCanonicalInt(s) {
      CanonicalIntRoundTrip(s);
    }
  }

  /** `$a[$k]` on an array: the value stored under `k`, if any. */
  function Find(entries: seq<(Key, Value)>, k: Key): Option<Value> {
    if entries == [] then None
    else if entries[0].0 == k then Some(entries[0].1)
    else Find(entries[1..], k)
  }

  /**
   * `$v['name']` for one of the fixed member names the code uses: an entry of
   * an array, nothing for any other value (a string offset by a non-numeric
   * name is not set).
   */
  function Get(v: Value, name: string): Option<Value> {
    if v.Arr? then Find(v.entries, KeyOf(name)) else None
  }

  /** `isset($v['name'])`: present and not `null`. */
  predicate Isset(v: Value, name: string) {
    Get(v, name).Some? && Get(v, name).value != Null
  }

  /** `$v['name'] ?? $default`. */
  function GetOr(v: Value, name: string, default: Value): (r: Value)
    ensures Isset(v, name) ==> r == Get(v, name).value
    ensures !Isset(v, name) ==> r == default
  {
    if Isset(v, name) then Get(v, name).value else default
  }

  /** `empty($v)`. */
  predicate IsEmpty(v: Value) {
    match v
    case Null => true
    case Bool(b) => !b
    case Int(i) => i == 0
    case Str(s) => s == "" || s == "0"
    case Arr(e) => e == []
  }

  /** `(string)$v`; an array converts to the word `Array`. */
  function ToStr(v: Value): string {
    match v
    case Null => ""
    case Bool(b) => if b then "1" else ""
    case Int(i) => IntToString(i)
    case Str(s) => s
    case Arr(_) => "Array"
  }

  /** `(int)$v`; an array converts to 1 when it has entries, to 0 otherwise. */
  function ToInteger(v: Value): int {
    match v
    case Null => 0
    case Bool(b) => if b then 1 else 0
    case Int(i) => i
    case Str(s) => ToInt(s)
    case Arr(e) => if e == [] then 0 else 1
  }

  /** The values of an array in order, as `foreach ($a as $v)` visits them. */
  function Values(entries: seq<(Key, Value)>): (r: seq<Value>)
    ensures |r| == |entries|
    ensures forall i :: 0 <= i < |entries| ==> r[i] == entries[i].1
  {
    if entries == [] then [] else [entries[0].1] + Values(entries[1..])
  }

  /** An object literal: string keys in the order given. */
  function Object(members: seq<(string, Value)>): (v: Value)
    ensures v.Arr?
  {
    Arr(seq(|members|, i requires 0 <= i < |members| => (StrKey(members[i].0), members[i].1)))
  }

  /** The entries of an object literal after its first are those of the literal without its first member. */
  lemma ObjectTail(members: seq<(string, Value)>)
    requires members != []
    ensures Object(members).entries[0] == (StrKey(members[0].0), members[0].1)
    ensures Object(members).entries[1..] == Object(members[1..]).entries
  {
  }

  /** Reading back a member written with a non-numeric name finds it. */
  lemma {:induction false} GetObjectMember(members: seq<(string, Value)>, i: nat)
    requires i < |members|
    requires !IsCanonicalInt(members[i].0)
    requires forall j :: 0 <= j < i ==> members[j].0 != members[i].0
    ensures Get(Object(members), members[i].0) == Some(members[i].1)
  {
    if i > 0 {
      ObjectTail(members);
      GetObjectMember(members[1..], i - 1);
    }
  }

  /** A member appended under a fresh non-numeric name is found under that name. */
  lemma ObjectLastMember(members: seq<(string, Value)>, name: string, v: Value)
    requires !IsCanonicalInt(name)
    requires forall j :: 0 <= j < |members| ==> members[j].0 != name
    ensures Get(Object(members + [(name, v)]), name) == Some(v)
  {
    GetObjectMember(members + [(name, v)], |members|);
  }

  /** A name that no member carries is not set in the object. */
  lemma {:induction false} GetObjectAbsent(members: seq<(string, Value)>, name: string)
    requires !IsCanonicalInt(name)
    requires forall j :: 0 <= j < |members| ==> members[j].0 != name
    ensures Get(Object(members), name).None?
  {
    if members != [] {
      ObjectTail(members);
      GetObjectAbsent(members[1..], name);
    }
  }
}
