/** Decoded JSON values and the few Python operations the handlers apply to
    them: truthiness, `dict.get`, indexing, `in` and `str()`. */
module Json {
  import opened Wrappers

  /** A value produced by `json.loads`. JSON `null` is Python's `None`, so a
      key that is present with a `null` value is told apart from an absent key
      only by `in`. */
  datatype Value =
    | Null
    | Bool(b: bool)
    | Num(n: real)
    | Str(s: string)
    | Arr(items: seq<Value>)
    | Obj(fields: map<string, Value>)

  const EmptyObject: Value := Obj(map[])

  /** Python's `bool(v)`: `None`, `False`, zero, `""`, `[]` and `{}` are falsy. */
  predicate Truthy(v: Value)
  {
    match v
    case Null => false
    case Bool(b) => b
    case Num(n) => n != 0.0
    case Str(s) => s != ""
    case Arr(items) => |items| > 0
    case Obj(fields) => |fields| > 0
  }

  /** `d.get(k, default)`. Only a dict has `get`; on any other value the call
      raises `AttributeError`. */
  function GetOr(d: Value, k: string, default: Value): (r: Py<Value>)
    ensures r.Ret? <==> d.Obj?
    ensures d.Obj? && k in d.fields ==> r == Ret(d.fields[k])
    ensures d.Obj? && k !in d.fields ==> r == Ret(default)
  {
    if d.Obj? then Ret(if k in d.fields then d.fields[k] else default) else Raise(Internal)
  }

  /** `d.get(k)`: `None` both for an absent key and for a `null` value. */
  function Get(d: Value, k: string): Py<Value>
  {
    GetOr(d, k, Null)
  }

  /** `d.get(k)` on a value already known to be a dict. */
  function Field(d: Value, k: string): (v: Value)
    requires d.Obj?
    ensures Get(d, k) == Ret(v)
  {
    if k in d.fields then d.fields[k] else Null
  }

  /** `d[k]`: a `KeyError` for an absent key, a `TypeError` on a list or a
      string indexed by a string, and on a scalar. */
  function Index(d: Value, k: string): (r: Py<Value>)
    ensures r.Ret? <==> d.Obj? && k in d.fields
    ensures r.Ret? ==> r.value == d.fields[k]
  {
    if d.Obj? && k in d.fields then Ret(d.fields[k]) else Raise(Internal)
  }

  /** `pat` occurs in `s` starting at position 0. */
  predicate StartsWith(s: string, pat: string)
  {
    |pat| <= |s| && s[..|pat|] == pat
  }

  /** Python's `pat in s` on two strings. */
  predicate Occurs(pat: string, s: string)
    decreases |s|
  {
    StartsWith(s, pat) || (|s| > 0 && Occurs(pat, s[1..]))
  }

  /** `k in c`: key membership on a dict, element membership on a list,
      substring on a string; `in` on a number, a boolean or `None` raises
      `TypeError`. */
  function Contains(c: Value, k: string): (r: Py<bool>)
    ensures c.Obj? ==> r == Ret(k in c.fields)
    ensures (c.Null? || c.Bool? || c.Num?) ==> r.Raise?
  {
    match c
    case Obj(fields) => Ret(k in fields)
    case Arr(items) => Ret(Str(k) in items)
    case Str(s) => Ret(Occurs(k, s))
    case _ => Raise(Internal)
  }

  /** `str(v)` and f-string interpolation: a string is itself; every other
      value is rendered by `repr`, the model's stand-in for Python's
      formatting of numbers, booleans, `None`, lists and dicts. */
  function PyStr(v: Value, repr: Value -> string): (r: string)
    ensures v.Str? ==> r == v.s
  {
    if v.Str? then v.s else repr(v)
  }

  /** `pat` occurs in `s` at position `i`. */
  predicate MatchesAt(s: string, pat: string, i: nat)
  {
    i + |pat| <= |s| && s[i..i + |pat|] == pat
  }

  lemma {:induction false} OccursAt(pat: string, s: string, i: nat)
    requires MatchesAt(s, pat, i)
    ensures Occurs(pat, s)
    decreases i
  {
    if i > 0 {
      assert s[1..][i - 1..i - 1 + |pat|] == s[i..i + |pat|];
      OccursAt(pat, s[1..], i - 1);
    }
  }

  /** `in` on strings agrees with the usual definition of a substring. */
  lemma {:induction false} OccursIffSubstring(pat: string, s: string)
    ensures Occurs(pat, s) <==> exists i: nat :: MatchesAt(s, pat, i)
    decreases |s|
  {
    if Occurs(pat, s) {
      if StartsWith(s, pat) {
        assert MatchesAt(s, pat, 0);
      } else {
        OccursIffSubstring(pat, s[1..]);
        var j: nat :| MatchesAt(s[1..], pat, j);
        assert s[j + 1..j + 1 + |pat|] == s[1..][j..j + |pat|];
        assert MatchesAt(s, pat, j + 1);
      }
    } else {
      forall i: nat | MatchesAt(s, pat, i)
        ensures false
      {
        OccursAt(pat, s, i);
      }
    }
  }
}
