// Documents as the decoder gives them: objects as maps, arrays as lists.
module Json {

  datatype Value =
    | Null
    | Bool(flag: bool)
    | Number(literal: string)
    | Text(text: string)
    | Array(elements: seq<Value>)
    | Object(members: map<string, Value>)

  // ----- The order keys are sorted in -----

  predicate Leq(s: string, t: string) {
    s == "" || (t != "" && (s[0] < t[0] || (s[0] == t[0] && Leq(s[1..], t[1..]))))
  }

  lemma {:induction false} LeqTotal(s: string, t: string)
    ensures Leq(s, t) || Leq(t, s)
    ensures Leq(s, t) && Leq(t, s) ==> s == t
  {
    if s != "" && t != "" && s[0] == t[0] {
      LeqTotal(s[1..], t[1..]);
      assert s == [s[0]] + s[1..] && t == [t[0]] + t[1..];
    }
  }

  lemma {:induction false} LeqTransitive(s: string, t: string, u: string)
    requires Leq(s, t) && Leq(t, u)
    ensures Leq(s, u)
  {
    if s != "" && s[0] == t[0] && t[0] == u[0] {
      LeqTransitive(s[1..], t[1..], u[1..]);
    }
  }

  predicate Least(k: string, keys: set<string>) {
    k in keys && forall o :: o in keys ==> Leq(k, o)
  }

  lemma {:induction false} LeastExists(keys: set<string>)
    requires keys != {}
    ensures exists k :: Least(k, keys)
  {
    var any :| any in keys;
    LeqTotal(any, any);
    if keys == {any} {
      assert Least(any, keys);
    } else {
      assert keys - {any} != {};
      LeastExists(keys - {any});
      var k :| Least(k, keys - {any});
      LeqTotal(k, any);
      forall o | o in keys && Leq(any, k) ensures Leq(any, o) {
        if o != any {
          LeqTransitive(any, k, o);
        }
      }
      assert Least(if Leq(k, any) then k else any, keys);
    }
  }

  lemma LeastAlone(k: string, o: string, keys: set<string>)
    requires Least(k, keys) && Least(o, keys)
    ensures k == o
  {
    LeqTotal(k, o);
  }

  function SortedKeys(keys: set<string>): (r: seq<string>)
    ensures |r| == |keys| && forall k :: k in r <==> k in keys
  {
    if keys == {} then []
    else
      LeastExists(keys);
      assert forall k, o :: Least(k, keys) && Least(o, keys) ==> k == o by {
        forall k, o | Least(k, keys) && Least(o, keys) ensures k == o {
          LeastAlone(k, o, keys);
        }
      }
      var k :| Least(k, keys);
      [k] + SortedKeys(keys - {k})
  }

  // The members' values, in the order of their keys.
  function Members(m: map<string, Value>): (vs: seq<Value>)
    ensures |vs| == |m|
  {
    var keys := SortedKeys(m.Keys);
    assert |m.Keys| == |m|;
    seq(|keys|, i requires 0 <= i < |keys| => assert keys[i] in keys; m[keys[i]])
  }

  lemma LeastFirst(keys: set<string>)
    requires keys != {}
    ensures var k := SortedKeys(keys)[0]; Least(k, keys) && SortedKeys(keys)[1..] == SortedKeys(keys - {k})
  {
  }

  lemma LeastBefore(keys: set<string>, j: nat)
    requires 0 < j < |SortedKeys(keys)|
    ensures Leq(SortedKeys(keys)[0], SortedKeys(keys)[j]) && SortedKeys(keys)[0] != SortedKeys(keys)[j]
  {
    LeastFirst(keys);
    var k := SortedKeys(keys)[0];
    assert SortedKeys(keys)[j] == SortedKeys(keys)[1..][j - 1];
    assert SortedKeys(keys)[j] in SortedKeys(keys - {k});
  }

  predicate Ascending(keys: seq<string>) {
    forall i, j :: 0 <= i < j < |keys| ==> Leq(keys[i], keys[j]) && keys[i] != keys[j]
  }

  lemma AscendingLed(keys: seq<string>)
    requires keys != [] && Ascending(keys[1..])
    requires forall j :: 0 < j < |keys| ==> Leq(keys[0], keys[j]) && keys[0] != keys[j]
    ensures Ascending(keys)
  {
    forall i, j | 0 < i < j < |keys| ensures Leq(keys[i], keys[j]) && keys[i] != keys[j] {
      assert keys[i] == keys[1..][i - 1] && keys[j] == keys[1..][j - 1];
    }
  }

  lemma {:induction false} KeysAscend(keys: set<string>)
    ensures Ascending(SortedKeys(keys))
    decreases |keys|
  {
    if keys == {} {
    } else {
      LeastFirst(keys);
      KeysAscend(keys - {SortedKeys(keys)[0]});
      forall j | 0 < j < |SortedKeys(keys)|
        ensures Leq(SortedKeys(keys)[0], SortedKeys(keys)[j]) && SortedKeys(keys)[0] != SortedKeys(keys)[j]
      {
        LeastBefore(keys, j);
      }
      AscendingLed(SortedKeys(keys));
    }
  }
}
