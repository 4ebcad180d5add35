/**
 * The navigation registry: the process-wide list of links loaded from the
 * route manifest, whose `Active` flags every page request rewrites in place.
 */
module Navigation {

  class NavLink {
    const name: string
    const path: string
    var active: bool

    /** A link as the manifest yields it, before any request marks it. */
    constructor (name: string, path: string)
      ensures this.name == name && this.path == path && !active
    {
      this.name := name;
      this.path := path;
      this.active := false;
    }
  }

  /** A link's fields as values. */
  datatype LinkView = LinkView(name: string, path: string, active: bool)

  /** The current contents of the shared link list, in order. */
  ghost function Views(links: seq<NavLink>): (v: seq<LinkView>)
    reads links
    ensures |v| == |links|
    ensures forall i :: 0 <= i < |links| ==>
              v[i] == LinkView(links[i].name, links[i].path, links[i].active)
  {
    if links == [] then []
    else [LinkView(links[0].name, links[0].path, links[0].active)] + Views(links[1..])
  }

  /** The list as a request for `current` leaves it: every link keeps its name,
      path and place, and is active exactly when its path is `current`. */
  function Marked(views: seq<LinkView>, current: string): (r: seq<LinkView>)
    ensures |r| == |views|
    ensures forall i :: 0 <= i < |r| ==>
              && r[i].name == views[i].name
              && r[i].path == views[i].path
              && (r[i].active <==> views[i].path == current)
  {
    if views == [] then []
    else [views[0].(active := views[0].path == current)] + Marked(views[1..], current)
  }

  /** The flags left by earlier requests play no part: marking depends only on
      the names and paths. */
  lemma MarkedForgetsOldFlags(v1: seq<LinkView>, v2: seq<LinkView>, current: string)
    requires |v1| == |v2|
    requires forall i :: 0 <= i < |v1| ==> v1[i].name == v2[i].name && v1[i].path == v2[i].path
    ensures Marked(v1, current) == Marked(v2, current)
  {
  }

  /** Marking twice for the same path is marking once. */
  lemma MarkedIdempotent(views: seq<LinkView>, current: string)
    ensures Marked(Marked(views, current), current) == Marked(views, current)
  {
  }

  ghost function ActiveIndices(views: seq<LinkView>): set<nat>
  {
    set i: nat | i < |views| && views[i].active
  }

  ghost predicate DistinctPaths(views: seq<LinkView>)
  {
    forall i, j :: 0 <= i < j < |views| ==> views[i].path != views[j].path
  }

  /** With distinct manifest paths, a request for a listed path leaves exactly
      that link active, and a request for any other path leaves none. */
  lemma {:induction false} ActiveLink(views: seq<LinkView>, current: string)
    requires DistinctPaths(views)
    ensures forall k :: 0 <= k < |views| && views[k].path == current ==>
              ActiveIndices(Marked(views, current)) == {k}
    ensures (forall k :: 0 <= k < |views| ==> views[k].path != current) ==>
              ActiveIndices(Marked(views, current)) == {}
  {
    var r := Marked(views, current);
    forall k | 0 <= k < |views| && views[k].path == current
      ensures ActiveIndices(r) == {k}
    {
      forall i: nat | i in ActiveIndices(r) ensures i == k {
        assert views[i].path == current;
      }
    }
  }

  /** The loop over the shared links: each is active exactly when its path is
      the current one, and nothing else about them changes. */
  method MarkActive(links: seq<NavLink>, current: string)
    modifies links`active
    ensures Views(links) == Marked(old(Views(links)), current)
  {
    for i := 0 to |links|
      invariant forall j :: 0 <= j < i ==> links[j].active == (links[j].path == current)
    {
      links[i].active := links[i].path == current;
    }
  }
}
