/**
  PHP values as the form framework hands them to the decorator: scalars and
  arrays. A PHP array is either positional (`List`) or keyed by strings (`Obj`);
  `List([])` stands for the empty array, which PHP does not distinguish from an
  empty map.
 */
module PhpValue {

  datatype Value =
    | Null
    | Bool(b: bool)
    | Num(n: int)
    | Str(s: string)
    | List(items: seq<Value>)
    | Obj(fields: map<string, Value>)

  /** The fields of one node of the definition tree. */
  type Fields = map<string, Value>

  /** `is_array($v)` */
  predicate IsArray(v: Value) {
    v.List? || v.Obj?
  }

  /** `count($v)` of an array */
  function Count(v: Value): (n: nat)
    requires IsArray(v)
    ensures n == 0 <==> v == List([]) || v == Obj(map[])
  {
    if v.List? then |v.items| else |v.fields|
  }

  /** `$m[$k]` with a missing key reading as null. */
  function GetKey(m: Fields, k: string): (v: Value)
    ensures k !in m ==> v == Null
    ensures k in m ==> v == m[k]
  {
    if k in m then m[k] else Null
  }

  /**
    `$v[$k]` for a string key `k` that is not numeric, as `isset` and `??` read
    it: only a keyed array can hold it; a positional array or a scalar reads as
    null. (An ordinary read of such an offset of a string throws under PHP 8;
    the one place the decorator makes such a read is modelled where it happens.)
   */
  function Get(v: Value, k: string): (r: Value)
    ensures v.Obj? ==> r == GetKey(v.fields, k)
    ensures !v.Obj? ==> r == Null
  {
    if v.Obj? then GetKey(v.fields, k) else Null
  }

  /** `isset($m[$k])`: the key is present and not null. */
  predicate Isset(m: Fields, k: string) {
    GetKey(m, k) != Null
  }

  /** Decimal digits of a natural number. */
  function NatToString(n: nat): (s: string)
    ensures |s| >= 1
    ensures forall i :: 0 <= i < |s| ==> '0' <= s[i] <= '9'
    decreases n
  {
    var d := ['0' + (n % 10) as char];
    if n < 10 then d else NatToString(n / 10) + d
  }

  /** PHP's string conversion of an integer. */
  function IntToString(n: int): string {
    if n < 0 then "-" + NatToString(-n) else NatToString(n)
  }

  /**
    PHP's string conversion, as used by `.` and by `join`: null and false
    become "", true becomes "1", an array becomes "Array".
   */
  function StringOf(v: Value): string {
    match v
    case Null => ""
    case Bool(b) => if b then "1" else ""
    case Num(n) => IntToString(n)
    case Str(s) => s
    case List(_) => "Array"
    case Obj(_) => "Array"
  }

  /** String conversion of every entry, in order. */
  function StringsOf(vs: seq<Value>): (r: seq<string>)
    ensures |r| == |vs|
    ensures forall i :: 0 <= i < |vs| ==> r[i] == StringOf(vs[i])
  {
    if vs == [] then [] else [StringOf(vs[0])] + StringsOf(vs[1..])
  }

  /** `join($sep, $parts)` */
  function Join(sep: string, parts: seq<string>): string
  {
    if parts == [] then ""
    else if |parts| == 1 then parts[0]
    else parts[0] + sep + Join(sep, parts[1..])
  }

  /** Appending a part adds it after one more separator. */
  lemma {:induction false} JoinAppend(sep: string, parts: seq<string>, last: string)
    ensures Join(sep, parts + [last]) == if parts == [] then last else Join(sep, parts) + sep + last
    decreases |parts|
  {
    if |parts| > 1 {
      assert (parts + [last])[1..] == parts[1..] + [last];
      JoinAppend(sep, parts[1..], last);
    } else if |parts| == 1 {
      assert parts + [last] == [parts[0], last];
    }
  }
}
