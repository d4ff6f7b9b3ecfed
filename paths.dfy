/**
 * The API paths the client addresses, relative to the service's `/api/`
 * prefix, and their text form as the client formats it
 * (`f"groups/{id}/members/{user_id}"`).  The text form appears in the
 * client's transport error messages; `ParseUri` inverts it, so the text
 * names exactly one resource.
 */
module Paths {
  import opened Optional
  import Decimal

  datatype Path =
    | DataSources
    | DataSource(id: int)
    | Users
    | User(id: int)
    | Groups
    | Group(id: int)
    | GroupMembers(groupId: int)
    | GroupMember(groupId: int, memberId: int)
    | GroupDataSources(groupId: int)
    | GroupDataSource(groupId: int, memberId: int)

  /** The `/`-separated segments of a path. */
  function Segments(p: Path): (segs: seq<string>)
    ensures |segs| > 0
    ensures forall i :: 0 <= i < |segs| ==> '/' !in segs[i]
  {
    match p
    case DataSources => ["data_sources"]
    case DataSource(id) => ["data_sources", Decimal.Show(id)]
    case Users => ["users"]
    case User(id) => ["users", Decimal.Show(id)]
    case Groups => ["groups"]
    case Group(id) => ["groups", Decimal.Show(id)]
    case GroupMembers(g) => ["groups", Decimal.Show(g), "members"]
    case GroupMember(g, u) => ["groups", Decimal.Show(g), "members", Decimal.Show(u)]
    case GroupDataSources(g) => ["groups", Decimal.Show(g), "data_sources"]
    case GroupDataSource(g, d) => ["groups", Decimal.Show(g), "data_sources", Decimal.Show(d)]
  }

  function Join(segs: seq<string>): string
    requires |segs| > 0
  {
    if |segs| == 1 then segs[0] else segs[0] + "/" + Join(segs[1..])
  }

  /** The path as the client writes it after `/api/`. */
  function Uri(p: Path): string {
    Join(Segments(p))
  }

  function IndexOf(s: string, c: char): (i: nat)
    requires c in s
    ensures i < |s| && s[i] == c && c !in s[..i]
  {
    if s[0] == c then 0 else 1 + IndexOf(s[1..], c)
  }

  /** The segments of a text path, split at every `/`. */
  function Split(s: string): (segs: seq<string>)
    ensures |segs| > 0
    decreases |s|
  {
    if '/' in s then
      var i := IndexOf(s, '/');
      [s[..i]] + Split(s[i + 1..])
    else
      [s]
  }

  function ParseSegments(segs: seq<string>): Option<Path> {
    if |segs| == 1 then
      if segs[0] == "data_sources" then Some(DataSources)
      else if segs[0] == "users" then Some(Users)
      else if segs[0] == "groups" then Some(Groups)
      else None
    else if |segs| == 2 then
      match Decimal.Parse(segs[1])
      case None => None
      case Some(id) =>
        if segs[0] == "data_sources" then Some(DataSource(id))
        else if segs[0] == "users" then Some(User(id))
        else if segs[0] == "groups" then Some(Group(id))
        else None
    else if |segs| == 3 && segs[0] == "groups" then
      match Decimal.Parse(segs[1])
      case None => None
      case Some(g) =>
        if segs[2] == "members" then Some(GroupMembers(g))
        else if segs[2] == "data_sources" then Some(GroupDataSources(g))
        else None
    else if |segs| == 4 && segs[0] == "groups" then
      match (Decimal.Parse(segs[1]), Decimal.Parse(segs[3]))
      case (Some(g), Some(m)) =>
        if segs[2] == "members" then Some(GroupMember(g, m))
        else if segs[2] == "data_sources" then Some(GroupDataSource(g, m))
        else None
      case _ => None
    else
      None
  }

  function ParseUri(u: string): Option<Path> {
    ParseSegments(Split(u))
  }

  lemma {:induction false} SplitJoin(segs: seq<string>)
    requires |segs| > 0
    requires forall i :: 0 <= i < |segs| ==> '/' !in segs[i]
    ensures Split(Join(segs)) == segs
  {
    if |segs| > 1 {
      var s := Join(segs);
      var head := segs[0];
      assert s == head + "/" + Join(segs[1..]);
      assert s[|head|] == '/';
      var i := IndexOf(s, '/');
      assert i == |head|;
      assert s[..i] == head;
      assert s[i + 1..] == Join(segs[1..]);
      SplitJoin(segs[1..]);
    }
  }

  lemma ParseSegmentsOf(p: Path)
    ensures ParseSegments(Segments(p)) == Some(p)
  {
    match p
    case DataSources =>
    case Users =>
    case Groups =>
    case DataSource(id) => ParseSingle(p, id);
    case User(id) => ParseSingle(p, id);
    case Group(id) => ParseSingle(p, id);
    case GroupMembers(g) => ParseMemberList(p, g);
    case GroupDataSources(g) => ParseMemberList(p, g);
    case GroupMember(g, u) => ParseMember(p, g, u);
    case GroupDataSource(g, d) => ParseMember(p, g, d);
  }

  lemma ParseSingle(p: Path, id: int)
    requires p == DataSource(id) || p == User(id) || p == Group(id)
    ensures ParseSegments(Segments(p)) == Some(p)
  {
    Decimal.ParseShow(id);
  }

  lemma ParseMemberList(p: Path, g: int)
    requires p == GroupMembers(g) || p == GroupDataSources(g)
    ensures ParseSegments(Segments(p)) == Some(p)
  {
    Decimal.ParseShow(g);
  }

  lemma ParseMember(p: Path, g: int, m: int)
    requires p == GroupMember(g, m) || p == GroupDataSource(g, m)
    ensures ParseSegments(Segments(p)) == Some(p)
  {
    Decimal.ParseShow(g);
    Decimal.ParseShow(m);
  }

  /** Every path the client formats reads back as the same path. */
  lemma UriRoundTrip(p: Path)
    ensures ParseUri(Uri(p)) == Some(p)
  {
    SplitJoin(Segments(p));
    ParseSegmentsOf(p);
  }

  lemma UriInjective(p: Path, q: Path)
    requires Uri(p) == Uri(q)
    ensures p == q
  {
    UriRoundTrip(p);
    UriRoundTrip(q);
  }
}
