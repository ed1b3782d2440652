/** JSON values and chat messages, as every other module sees them. */
module Json {
  datatype Option<+T> = None | Some(value: T)

  datatype Value =
    | Null
    | Bool(b: bool)
    | Int(i: int)
    | Float(x: real)
    | Str(s: string)
    | Arr(items: seq<Value>)
    | Obj(fields: map<string, Value>)

  type Message = map<string, Value>

  /** Python's `d.get(key)`: a missing key and an explicit null look alike. */
  function Get(fields: map<string, Value>, key: string): Value {
    if key in fields then fields[key] else Null
  }

  function Min(a: int, b: int): int { if a <= b then a else b }

  function Max(a: int, b: int): int { if a <= b then b else a }

  /** Python's `sub in s`. */
  predicate Contains(s: string, sub: string) {
    sub <= s || (s != [] && Contains(s[1..], sub))
  }

  /** The text occurs somewhere in the longer one. */
  ghost predicate OccursIn(sub: string, s: string) {
    exists i :: 0 <= i <= |s| && sub <= s[i..]
  }

  lemma {:induction false} ContainsIff(s: string, sub: string)
    ensures Contains(s, sub) <==> OccursIn(sub, s)
  {
    assert s[0..] == s;
    if s != [] {
      ContainsIff(s[1..], sub);
      forall i | 0 <= i <= |s| - 1
        ensures s[1..][i..] == s[i + 1..]
      {
      }
      if OccursIn(sub, s[1..]) {
        var i :| 0 <= i <= |s| - 1 && sub <= s[1..][i..];
        assert sub <= s[i + 1..];
      }
      if OccursIn(sub, s) {
        var i :| 0 <= i <= |s| && sub <= s[i..];
        assert i > 0 ==> sub <= s[1..][i - 1..];
      }
    }
  }

  lemma OccursLength(sub: string, s: string)
    requires OccursIn(sub, s)
    ensures |sub| <= |s| && (|sub| == |s| ==> sub == s)
  {
  }
}
