/**
 * Name and id resolution: the client's `next((x for x in listing if ...), None)`
 * scans, which pick the first listed record that matches and give `None`
 * when nothing does.
 */
module Resolver {
  import opened Optional

  /** The two fields of a listed data source, user or group that the client reads. */
  datatype Record = Record(id: int, name: string)

  /** What a scan compares: `x['name'] == name` or `x['id'] == id`. */
  datatype Key = ByName(name: string) | ById(id: int)

  predicate Matches(r: Record, k: Key) {
    match k
    case ByName(n) => r.name == n
    case ById(i) => r.id == i
  }

  /** The first record of `l` that matches `k`, or `None`. */
  function FirstMatch(l: seq<Record>, k: Key): (r: Option<Record>)
    ensures r.None? <==> forall i :: 0 <= i < |l| ==> !Matches(l[i], k)
    ensures r.Some? ==>
      exists i :: 0 <= i < |l| && l[i] == r.value && Matches(r.value, k) &&
        forall j :: 0 <= j < i ==> !Matches(l[j], k)
  {
    if l == [] then None
    else if Matches(l[0], k) then Some(l[0])
    else FirstMatch(l[1..], k)
  }

  /** Scanning a concatenation: a match in the first part wins over one in the second. */
  lemma {:induction false} FirstMatchConcat(a: seq<Record>, b: seq<Record>, k: Key)
    ensures FirstMatch(a + b, k) == if FirstMatch(a, k).Some? then FirstMatch(a, k) else FirstMatch(b, k)
  {
    if a != [] {
      assert (a + b)[1..] == a[1..] + b;
      FirstMatchConcat(a[1..], b, k);
    } else {
      assert a + b == b;
    }
  }

  /** No two records of the listing share a name, as the service maintains. */
  predicate UniqueNames(l: seq<Record>) {
    forall i, j :: 0 <= i < j < |l| ==> l[i].name != l[j].name
  }

  /** With unique names, the first name match is the only record with that name. */
  lemma OnlyNameMatch(l: seq<Record>, name: string, x: Record)
    requires UniqueNames(l)
    requires FirstMatch(l, ByName(name)).Some?
    requires x in l && x.name == name
    ensures x == FirstMatch(l, ByName(name)).value
  {
    var r := FirstMatch(l, ByName(name)).value;
    var i :| 0 <= i < |l| && l[i] == r && Matches(r, ByName(name));
    var j :| 0 <= j < |l| && l[j] == x;
    if i < j {
      assert l[i].name == l[j].name;
    } else if j < i {
      assert l[j].name == l[i].name;
    }
  }
}
