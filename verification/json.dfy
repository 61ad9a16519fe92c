/**
 The JSON values the command assembles before encoding them. Objects are
 ordered member lists, because the PHP arrays they come from keep insertion
 order and the encoder writes members in that order.
 */
module Json {
  import opened Wrappers

  datatype Value =
    | Null
    | Bool(b: bool)
    | Int(n: int)
    | Str(s: string)
    | Arr(elems: seq<Value>)
    | Obj(members: seq<(string, Value)>)

  /** The member names of an object, in order. */
  function Keys(members: seq<(string, Value)>): (r: seq<string>)
    ensures |r| == |members|
    ensures forall i :: 0 <= i < |members| ==> r[i] == members[i].0
  {
    seq(|members|, i requires 0 <= i < |members| => members[i].0)
  }

  /** Looks a member up by name; the first member with that name wins. */
  function Get(members: seq<(string, Value)>, key: string): (r: Option<Value>)
    ensures r.None? <==> key !in Keys(members)
  {
    if members == [] then None
    else if members[0].0 == key then Some(members[0].1)
    else
      assert Keys(members) == [members[0].0] + Keys(members[1..]);
      Get(members[1..], key)
  }

  /** The lookup finds the member at index `i` when no earlier member has its name. */
  lemma {:induction false} GetAt(members: seq<(string, Value)>, i: nat)
    requires i < |members|
    requires forall j :: 0 <= j < i ==> members[j].0 != members[i].0
    ensures Get(members, members[i].0) == Some(members[i].1)
  {
    if i > 0 {
      assert members[1..][i - 1] == members[i];
      GetAt(members[1..], i - 1);
    }
  }

  /** Member names that occur once each. */
  predicate DistinctKeys(members: seq<(string, Value)>) {
    forall i, j :: 0 <= i < j < |members| ==> members[i].0 != members[j].0
  }

  /** In an object whose member names are distinct, every member is found by its name. */
  lemma GetDistinct(members: seq<(string, Value)>)
    requires DistinctKeys(members)
    ensures forall i :: 0 <= i < |members| ==> Get(members, members[i].0) == Some(members[i].1)
  {
    forall i | 0 <= i < |members|
      ensures Get(members, members[i].0) == Some(members[i].1)
    {
      GetAt(members, i);
    }
  }

  /** A list of strings as a JSON array of strings. */
  function Strings(ss: seq<string>): (r: seq<Value>)
    ensures |r| == |ss|
    ensures forall i :: 0 <= i < |ss| ==> r[i] == Str(ss[i])
  {
    seq(|ss|, i requires 0 <= i < |ss| => Str(ss[i]))
  }

  /** Reads a JSON array back as a list of strings; fails on any non-string element. */
  function AsStrings(vs: seq<Value>): (r: Option<seq<string>>)
  {
    if vs == [] then Some([])
    else if !vs[0].Str? then None
    else
      match AsStrings(vs[1..])
      case None => None
      case Some(rest) => Some([vs[0].s] + rest)
  }

  /** Encoding a list of strings loses nothing: reading it back gives the same list. */
  lemma {:induction false} AsStringsOfStrings(ss: seq<string>)
    ensures AsStrings(Strings(ss)) == Some(ss)
  {
    if ss != [] {
      assert Strings(ss)[1..] == Strings(ss[1..]);
      AsStringsOfStrings(ss[1..]);
      assert [ss[0]] + ss[1..] == ss;
    }
  }
}
