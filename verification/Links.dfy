/** Which interfaces a TC scan visits: the configured links, overridden and extended by the
    links of the resolved endpoints. */
module Links {
  import opened Wrappers
  import opened Kernel
  import Order

  /** The peer and host links of the endpoints, in UID order. */
  function EndpointLinks(endpoints: map<string, Endpoint>, uids: seq<string>): seq<Link>
    requires forall uid :: uid in uids ==> uid in endpoints
  {
    if uids == [] then []
    else EndpointLinks(endpoints, uids[..|uids| - 1])
         + [endpoints[uids[|uids| - 1]].peer, endpoints[uids[|uids| - 1]].host]
  }

  /** The first link with a key. */
  function FirstWith(links: seq<Link>, key: LinkKey): Option<Link> {
    if links == [] then None
    else if Key(links[0]) == key then Some(links[0])
    else FirstWith(links[1..], key)
  }

  function LastWith(links: seq<Link>, key: LinkKey): Option<Link> {
    if links == [] then None
    else if Key(links[|links| - 1]) == key then Some(links[|links| - 1])
    else LastWith(links[..|links| - 1], key)
  }

  function IndexOf(links: seq<Link>, key: LinkKey): (r: Option<nat>)
    ensures r.Some? ==> r.value < |links| && Key(links[r.value]) == key
                        && forall j :: 0 <= j < r.value ==> Key(links[j]) != key
    ensures r.None? ==> forall j :: 0 <= j < |links| ==> Key(links[j]) != key
  {
    if links == [] then None
    else if Key(links[0]) == key then Some(0)
    else match IndexOf(links[1..], key)
         case None => None
         case Some(i) => Some(i + 1)
  }

  /** One endpoint link: it replaces the first link with its key, or is added. */
  function MergeOne(links: seq<Link>, link: Link): seq<Link> {
    match IndexOf(links, Key(link))
    case Some(i) => links[i := link]
    case None => links + [link]
  }

  function Merged(base: seq<Link>, overrides: seq<Link>): seq<Link> {
    if overrides == [] then base
    else MergeOne(Merged(base, overrides[..|overrides| - 1]), overrides[|overrides| - 1])
  }

  /** The position map of the source agrees with the list. */
  ghost predicate Positions(positions: map<LinkKey, nat>, links: seq<Link>) {
    forall key :: match IndexOf(links, key)
                  case Some(i) => key in positions && positions[key] == i
                  case None => key !in positions
  }

  lemma {:induction false} IndexOfAppended(links: seq<Link>, link: Link, key: LinkKey)
    ensures IndexOf(links + [link], key) ==
            if IndexOf(links, key).Some? then IndexOf(links, key)
            else if Key(link) == key then Some(|links|) else None
  {
    if links != [] {
      assert (links + [link])[1..] == links[1..] + [link];
      IndexOfAppended(links[1..], link, key);
    }
  }

  lemma {:induction false} IndexOfReplaced(links: seq<Link>, i: nat, link: Link, key: LinkKey)
    requires i < |links| && Key(links[i]) == Key(link)
    ensures IndexOf(links[i := link], key) == IndexOf(links, key)
  {
    if i > 0 {
      assert links[i := link][1..] == links[1..][i - 1 := link];
      IndexOfReplaced(links[1..], i - 1, link, key);
    } else {
      assert links[0 := link][1..] == links[1..];
    }
  }

  /** `mergeEndpointLinks`. */
  method MergeEndpointLinks(base: seq<Link>, endpoints: map<string, Endpoint>) returns (result: seq<Link>)
    ensures exists uids :: Order.SortedKeys(uids, endpoints.Keys)
                   && result == Merged(base, EndpointLinks(endpoints, uids))
  {
    result := base;
    var positions := PositionsOf(base);
    var uids := Order.Sort(endpoints.Keys);
    var n := 0;
    while n < |uids|
      invariant 0 <= n <= |uids|
      invariant Positions(positions, result)
      invariant result == Merged(base, EndpointLinks(endpoints, uids[..n]))
    {
      ghost var before := EndpointLinks(endpoints, uids[..n]);
      var endpoint := endpoints[uids[n]];
      result, positions := PlaceLink(result, positions, endpoint.peer);
      result, positions := PlaceLink(result, positions, endpoint.host);
      MergedTwice(base, before, endpoint.peer, endpoint.host);
      assert uids[..n + 1][..n] == uids[..n];
      n := n + 1;
    }
    assert uids[..n] == uids;
  }

  lemma MergedTwice(base: seq<Link>, overrides: seq<Link>, peer: Link, host: Link)
    ensures Merged(base, overrides + [peer, host]) == MergeOne(MergeOne(Merged(base, overrides), peer), host)
  {
    var one := overrides + [peer];
    assert one[..|overrides|] == overrides;
    assert (overrides + [peer, host])[..|overrides| + 1] == one;
  }

  /** The position map of a list: the first index of every key. */
  method PositionsOf(links: seq<Link>) returns (positions: map<LinkKey, nat>)
    ensures Positions(positions, links)
  {
    positions := map[];
    var index := 0;
    while index < |links|
      invariant 0 <= index <= |links|
      invariant Positions(positions, links[..index])
    {
      assert links[..index + 1] == links[..index] + [links[index]];
      forall key { IndexOfAppended(links[..index], links[index], key); }
      if Key(links[index]) !in positions {
        positions := positions[Key(links[index]) := index];
      }
      index := index + 1;
    }
    assert links[..index] == links;
  }

  /** The body of the inner loop. */
  method PlaceLink(links: seq<Link>, positions: map<LinkKey, nat>, link: Link)
      returns (result: seq<Link>, positions': map<LinkKey, nat>)
    requires Positions(positions, links)
    ensures result == MergeOne(links, link)
    ensures Positions(positions', result)
  {
    assert match IndexOf(links, Key(link))
           case Some(i) => Key(link) in positions && positions[Key(link)] == i
           case None => Key(link) !in positions;
    if Key(link) in positions {
      var index := positions[Key(link)];
      forall key { IndexOfReplaced(links, index, link, key); }
      return links[index := link], positions;
    }
    forall key { IndexOfAppended(links, link, key); }
    return links + [link], positions[Key(link) := |links|];
  }

  /** The links a scan visits: the first one of every key not seen before. */
  function Visited(links: seq<Link>, seen: set<LinkKey>): seq<Link> {
    if links == [] then []
    else if Key(links[0]) in seen then Visited(links[1..], seen)
    else [links[0]] + Visited(links[1..], seen + {Key(links[0])})
  }

  /** `v` is what a scan of `links` visits. */
  ghost predicate Visits(links: seq<Link>, seen: set<LinkKey>, v: seq<Link>) {
    && (forall i :: 0 <= i < |v| ==> Key(v[i]) !in seen && FirstWith(links, Key(v[i])) == Some(v[i]))
    && (forall i, j :: 0 <= i < j < |v| ==> Key(v[i]) != Key(v[j]))
    && (forall key :: key !in seen && FirstWith(links, key).Some? ==> FirstWith(links, key).value in v)
  }

  lemma VisitsSkipped(links: seq<Link>, seen: set<LinkKey>, v: seq<Link>)
    requires links != [] && Key(links[0]) in seen && Visits(links[1..], seen, v)
    ensures Visits(links, seen, v)
  {
    assert forall key :: key !in seen ==> FirstWith(links, key) == FirstWith(links[1..], key);
  }

  lemma VisitsFirst(links: seq<Link>, seen: set<LinkKey>, rest: seq<Link>)
    requires links != [] && Key(links[0]) !in seen && Visits(links[1..], seen + {Key(links[0])}, rest)
    ensures Visits(links, seen, [links[0]] + rest)
  {
    var v := [links[0]] + rest;
    forall i | 0 <= i < |v|
      ensures Key(v[i]) !in seen && FirstWith(links, Key(v[i])) == Some(v[i])
      ensures i > 0 ==> v[i] == rest[i - 1] && Key(v[i]) != Key(v[0])
    {
      if i > 0 {
        assert v[i] == rest[i - 1];
      }
    }
    forall key | key !in seen && FirstWith(links, key).Some?
      ensures FirstWith(links, key).value in v
    {
      if key == Key(links[0]) {
        assert v[0] == links[0];
      } else {
        assert FirstWith(links, key).value in rest;
      }
    }
  }

  /** A scan visits the first link of every key not seen before, each key once. */
  lemma {:induction false} VisitedMeans(links: seq<Link>, seen: set<LinkKey>)
    ensures Visits(links, seen, Visited(links, seen))
  {
    if links != [] {
      if Key(links[0]) in seen {
        VisitedMeans(links[1..], seen);
        VisitsSkipped(links, seen, Visited(links[1..], seen));
      } else {
        VisitedMeans(links[1..], seen + {Key(links[0])});
        VisitsFirst(links, seen, Visited(links[1..], seen + {Key(links[0])}));
      }
    }
  }

  lemma {:induction false} FirstWithIndex(links: seq<Link>, key: LinkKey)
    ensures FirstWith(links, key) == match IndexOf(links, key) case Some(i) => Some(links[i]) case None => None
  {
    if links != [] {
      FirstWithIndex(links[1..], key);
    }
  }

  /** Merging makes the last override of a key the first link with it, and leaves the
      other keys alone. */
  lemma {:induction false} MergedFirst(base: seq<Link>, overrides: seq<Link>, key: LinkKey)
    ensures FirstWith(Merged(base, overrides), key) ==
            match LastWith(overrides, key) case Some(link) => Some(link) case None => FirstWith(base, key)
  {
    if overrides != [] {
      var n := |overrides| - 1;
      var links, link := Merged(base, overrides[..n]), overrides[n];
      MergedFirst(base, overrides[..n], key);
      FirstWithIndex(links, key);
      FirstWithIndex(MergeOne(links, link), key);
      match IndexOf(links, Key(link))
      case Some(i) => IndexOfReplaced(links, i, link, key);
      case None => IndexOfAppended(links, link, key);
    }
  }

  /** The interface is visited exactly if there is a choice for it, then under it, and once. */
  ghost predicate VisitedAs(v: seq<Link>, key: LinkKey, choice: Option<Link>) {
    && (choice.Some? <==> exists i :: 0 <= i < |v| && Key(v[i]) == key)
    && (forall i :: 0 <= i < |v| && Key(v[i]) == key ==> choice == Some(v[i]))
    && (forall i, j :: 0 <= i < |v| && 0 <= j < |v| && Key(v[i]) == key && Key(v[j]) == key ==> i == j)
  }

  lemma VisitedOnce(links: seq<Link>, v: seq<Link>, key: LinkKey)
    requires Visits(links, {}, v)
    ensures VisitedAs(v, key, FirstWith(links, key))
  {
    if FirstWith(links, key).Some? {
      FirstWithKey(links, key);
      var i :| 0 <= i < |v| && v[i] == FirstWith(links, key).value;
      assert Key(v[i]) == key;
    }
    if i :| 0 <= i < |v| && Key(v[i]) == key {
      assert FirstWith(links, Key(v[i])) == Some(v[i]);
    }
  }

  /** What a scan of the merged links visits for a key: the last override, or else the first
      configured link. */
  lemma MergedIsVisited(base: seq<Link>, overrides: seq<Link>, key: LinkKey)
    ensures VisitedAs(Visited(Merged(base, overrides), {}), key,
                      if LastWith(overrides, key).Some? then LastWith(overrides, key) else FirstWith(base, key))
  {
    var links := Merged(base, overrides);
    MergedFirst(base, overrides, key);
    VisitedMeans(links, {});
    VisitedOnce(links, Visited(links, {}), key);
  }

  predicate Is(link: Link, netns: nat, ifindex: int) {
    link.netns == netns && link.ifindex == ifindex
  }

  predicate Names(e: Endpoint, netns: nat, ifindex: int) {
    Is(e.peer, netns, ifindex) || Is(e.host, netns, ifindex)
  }

  /** `link` is the interface as the last endpoint of the list that names it does; the host
      link counts before the peer link. */
  predicate LastNamed(endpoints: map<string, Endpoint>, uids: seq<string>, netns: nat, ifindex: int, link: Link)
    requires forall uid :: uid in uids ==> uid in endpoints
  {
    exists n :: 0 <= n < |uids| && NamedAt(endpoints, uids, netns, ifindex, link, n)
  }

  predicate NamedAt(endpoints: map<string, Endpoint>, uids: seq<string>, netns: nat, ifindex: int, link: Link, n: nat)
    requires n < |uids| && forall uid :: uid in uids ==> uid in endpoints
  {
    var e := endpoints[uids[n]];
    && Names(e, netns, ifindex)
    && link == (if Is(e.host, netns, ifindex) then e.host else e.peer)
    && forall k :: n < k < |uids| ==> !Names(endpoints[uids[k]], netns, ifindex)
  }

  predicate Named(endpoints: map<string, Endpoint>, uids: seq<string>, netns: nat, ifindex: int)
    requires forall uid :: uid in uids ==> uid in endpoints
  {
    exists n :: 0 <= n < |uids| && Names(endpoints[uids[n]], netns, ifindex)
  }

  /** `link` is the first configured link of the interface. */
  predicate FirstConfigured(base: seq<Link>, netns: nat, ifindex: int, link: Link) {
    exists i :: 0 <= i < |base| && base[i] == link && Is(link, netns, ifindex)
                && forall j :: 0 <= j < i ==> !Is(base[j], netns, ifindex)
  }

  lemma LastOfTwo(links: seq<Link>, peer: Link, host: Link, key: LinkKey)
    ensures LastWith(links + [peer, host], key) ==
            if Key(host) == key then Some(host) else if Key(peer) == key then Some(peer) else LastWith(links, key)
  {
    var one, two := links + [peer], links + [peer, host];
    assert two[..|two| - 1] == one && one[..|one| - 1] == links;
  }

  lemma {:induction false} LastWithNames(endpoints: map<string, Endpoint>, uids: seq<string>, netns: nat, ifindex: int)
    requires forall uid :: uid in uids ==> uid in endpoints
    ensures var last := LastWith(EndpointLinks(endpoints, uids), LinkKey(netns, ifindex));
            && (last.Some? <==> Named(endpoints, uids, netns, ifindex))
            && (last.Some? ==> LastNamed(endpoints, uids, netns, ifindex, last.value))
  {
    if uids != [] {
      var front, e := uids[..|uids| - 1], endpoints[uids[|uids| - 1]];
      LastWithNames(endpoints, front, netns, ifindex);
      LastOfTwo(EndpointLinks(endpoints, front), e.peer, e.host, LinkKey(netns, ifindex));
      assert forall n :: 0 <= n < |front| ==> uids[n] == front[n];
      var last := LastWith(EndpointLinks(endpoints, uids), LinkKey(netns, ifindex));
      if Names(e, netns, ifindex) {
        assert NamedAt(endpoints, uids, netns, ifindex, last.value, |front|);
      } else if last.Some? {
        var n :| 0 <= n < |front| && NamedAt(endpoints, front, netns, ifindex, last.value, n);
        assert NamedAt(endpoints, uids, netns, ifindex, last.value, n);
      }
    }
  }

  lemma FirstIsConfigured(base: seq<Link>, netns: nat, ifindex: int)
    ensures var first := FirstWith(base, LinkKey(netns, ifindex));
            && (first.Some? <==> exists i :: 0 <= i < |base| && Is(base[i], netns, ifindex))
            && (first.Some? ==> FirstConfigured(base, netns, ifindex, first.value))
  {
    FirstWithIndex(base, LinkKey(netns, ifindex));
    assert forall link :: Is(link, netns, ifindex) <==> Key(link) == LinkKey(netns, ifindex);
  }

  /** A scan of the merged links visits exactly the interfaces that an endpoint or the
      configuration names, each once, as the last endpoint that names it in UID order does,
      or else as the first configured link. */
  lemma MergedLinksDriveTheScan(base: seq<Link>, endpoints: map<string, Endpoint>, uids: seq<string>, netns: nat,
                                ifindex: int)
    requires forall uid :: uid in uids ==> uid in endpoints
    ensures var v := Visited(Merged(base, EndpointLinks(endpoints, uids)), {});
            && ((exists i :: 0 <= i < |v| && Is(v[i], netns, ifindex)) <==>
                  Named(endpoints, uids, netns, ifindex) || exists i :: 0 <= i < |base| && Is(base[i], netns, ifindex))
            && (forall i, j :: 0 <= i < |v| && 0 <= j < |v| && Is(v[i], netns, ifindex) && Is(v[j], netns, ifindex) ==>
                  i == j)
            && (forall i :: 0 <= i < |v| && Is(v[i], netns, ifindex) ==>
                  if Named(endpoints, uids, netns, ifindex) then LastNamed(endpoints, uids, netns, ifindex, v[i])
                  else FirstConfigured(base, netns, ifindex, v[i]))
  {
    MergedIsVisited(base, EndpointLinks(endpoints, uids), LinkKey(netns, ifindex));
    assert forall link :: Is(link, netns, ifindex) <==> Key(link) == LinkKey(netns, ifindex);
    LastWithNames(endpoints, uids, netns, ifindex);
    FirstIsConfigured(base, netns, ifindex);
  }

  lemma FirstWithKey(links: seq<Link>, key: LinkKey)
    ensures FirstWith(links, key).Some? ==> Key(FirstWith(links, key).value) == key
  {
  }
}
