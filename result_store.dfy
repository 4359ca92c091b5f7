/**
 * The nested result mapping `runner.results` of neubot_cdn_test/__main__.py:
 * per DNS server the four tables `A`, `AAAA`, `ReverseA` and `ReverseAAAA`,
 * each keyed by a host name or an address, and the flat keys
 * `default_nameserver`, `traceroute` and `whois`.  This module also gives the
 * skeleton that `op_initialize` builds with `setdefault`, as a function.
 */
module ResultStore {
  import opened Wrappers

  /** `dict_repr()` of a result or an error, a raw traceroute result or whois text: opaque. */
  type Repr = string

  /** A leaf: the `""` or `{}` placeholder put there by `setdefault`, or a recorded outcome. */
  datatype Entry = NoText | NoDict | Value(repr: Repr) | ErrorValue(repr: Repr)

  type Table = map<string, Entry>

  /** `results[server]`, which always receives its four tables together. */
  datatype Tables = Tables(a: Table, aaaa: Table, reverseA: Table, reverseAAAA: Table)

  /** `runner.results`; a flat key is `None` until something puts it there. */
  datatype Store = Store(defaultNameserver: Option<Entry>, traceroute: Option<Table>,
                         whois: Option<Table>, servers: map<string, Tables>)

  const EMPTY: Store := Store(None, None, None, map[])
  const NO_TABLES: Tables := Tables(map[], map[], map[], map[])

  /** The four per-server tables. */
  datatype Kind = A | AAAA | ReverseA | ReverseAAAA

  function TableOf(t: Tables, kind: Kind): Table {
    match kind
    case A => t.a
    case AAAA => t.aaaa
    case ReverseA => t.reverseA
    case ReverseAAAA => t.reverseAAAA
  }

  function WithTable(t: Tables, kind: Kind, table: Table): Tables {
    match kind
    case A => t.(a := table)
    case AAAA => t.(aaaa := table)
    case ReverseA => t.(reverseA := table)
    case ReverseAAAA => t.(reverseAAAA := table)
  }

  /** `results[server][kind][key] = e`: one leaf is set and every other leaf stays. */
  function Put(st: Store, server: string, kind: Kind, key: string, e: Entry): (r: Store)
    requires server in st.servers
    ensures r.servers.Keys == st.servers.Keys
    ensures r.defaultNameserver == st.defaultNameserver && r.traceroute == st.traceroute && r.whois == st.whois
    ensures TableOf(r.servers[server], kind) == TableOf(st.servers[server], kind)[key := e]
    ensures forall s, k :: s in st.servers && (s != server || k != kind) ==>
              TableOf(r.servers[s], k) == TableOf(st.servers[s], k)
  {
    var t := st.servers[server];
    st.(servers := st.servers[server := WithTable(t, kind, TableOf(t, kind)[key := e])])
  }

  /** `results[server][kind].setdefault(key, e)`. */
  function SetDefaultLeaf(st: Store, server: string, kind: Kind, key: string, e: Entry): Store
    requires server in st.servers
  {
    if key in TableOf(st.servers[server], kind) then st else Put(st, server, kind, key, e)
  }

  /** `dict.setdefault`, the result discarded. */
  function SetDefault<V>(m: map<string, V>, k: string, v: V): map<string, V> {
    if k in m then m else m[k := v]
  }

  function SetDefaultOption<V>(o: Option<V>, v: V): Option<V> {
    if o.Some? then o else Some(v)
  }

  /** The three top-level `setdefault` calls. */
  function TopSkeleton(st: Store): Store {
    st.(defaultNameserver := SetDefaultOption(st.defaultNameserver, NoText),
        traceroute := SetDefaultOption(st.traceroute, map[]),
        whois := SetDefaultOption(st.whois, map[]))
  }

  /** The body of the inner loop for one (server, name) pair. */
  function PairSkeleton(st: Store, server: string, name: string): Store {
    var t := if server in st.servers then st.servers[server] else NO_TABLES;
    st.(servers := st.servers[server := t.(a := SetDefault(t.a, name, NoDict),
                                           aaaa := SetDefault(t.aaaa, name, NoDict))])
  }

  /** The inner loop over the names, for one server. */
  function NamesSkeleton(st: Store, server: string, names: seq<string>): Store {
    if names == [] then st
    else PairSkeleton(NamesSkeleton(st, server, names[..|names| - 1]), server, names[|names| - 1])
  }

  /** The outer loop over the servers. */
  function ServersSkeleton(st: Store, servers: seq<string>, names: seq<string>): Store {
    if servers == [] then st
    else NamesSkeleton(ServersSkeleton(st, servers[..|servers| - 1], names), servers[|servers| - 1], names)
  }

  /** What `op_initialize` leaves in `results`, from what was there before. */
  function Skeleton(st: Store, servers: seq<string>, names: seq<string>): Store {
    ServersSkeleton(TopSkeleton(st), servers, names)
  }

  ghost predicate HasSkeleton(st: Store, servers: seq<string>, names: seq<string>) {
    && st.defaultNameserver.Some? && st.traceroute.Some? && st.whois.Some?
    && forall s, n :: s in servers && n in names ==>
         s in st.servers && n in st.servers[s].a && n in st.servers[s].aaaa
  }

  ghost predicate TableExtends(t: Table, u: Table) {
    forall k :: k in t ==> k in u && u[k] == t[k]
  }

  ghost predicate TablesExtend(t: Tables, u: Tables) {
    TableExtends(t.a, u.a) && TableExtends(t.aaaa, u.aaaa) &&
    TableExtends(t.reverseA, u.reverseA) && TableExtends(t.reverseAAAA, u.reverseAAAA)
  }

  ghost predicate OptionExtends<V>(o: Option<V>, p: Option<V>) {
    o.Some? ==> p == o
  }

  ghost predicate OptionTableExtends(o: Option<Table>, p: Option<Table>) {
    o.Some? ==> p.Some? && TableExtends(o.value, p.value)
  }

  /** Every leaf and every table of `st` is still in `st'`, with the same value. */
  ghost predicate Extends(st: Store, st': Store) {
    && OptionExtends(st.defaultNameserver, st'.defaultNameserver)
    && OptionTableExtends(st.traceroute, st'.traceroute)
    && OptionTableExtends(st.whois, st'.whois)
    && forall s :: s in st.servers ==> s in st'.servers && TablesExtend(st.servers[s], st'.servers[s])
  }

  lemma ExtendsTransitive(st: Store, st': Store, st'': Store)
    requires Extends(st, st') && Extends(st', st'')
    ensures Extends(st, st'')
  {
    forall s | s in st.servers
      ensures s in st''.servers && TablesExtend(st.servers[s], st''.servers[s])
    {
      assert s in st'.servers;
    }
  }

  /** One pass of the inner loop body adds the pair's two leaves and overwrites nothing. */
  lemma PairSkeletonShape(st: Store, server: string, name: string)
    ensures var r := PairSkeleton(st, server, name);
            && Extends(st, r)
            && r.defaultNameserver == st.defaultNameserver && r.traceroute == st.traceroute && r.whois == st.whois
            && r.servers.Keys == st.servers.Keys + {server}
            && name in r.servers[server].a && name in r.servers[server].aaaa
  {
    var r := PairSkeleton(st, server, name);
    forall s | s in st.servers
      ensures s in r.servers && TablesExtend(st.servers[s], r.servers[s])
    {
    }
  }

  lemma {:induction false} NamesSkeletonShape(st: Store, server: string, names: seq<string>)
    ensures var r := NamesSkeleton(st, server, names);
            && Extends(st, r)
            && r.defaultNameserver == st.defaultNameserver && r.traceroute == st.traceroute && r.whois == st.whois
            && r.servers.Keys == st.servers.Keys + (if names == [] then {} else {server})
            && forall n :: n in names ==> server in r.servers && n in r.servers[server].a && n in r.servers[server].aaaa
  {
    if names != [] {
      var init := names[..|names| - 1];
      var last := names[|names| - 1];
      NamesSkeletonShape(st, server, init);
      var mid := NamesSkeleton(st, server, init);
      PairSkeletonShape(mid, server, last);
      var r := PairSkeleton(mid, server, last);
      ExtendsTransitive(st, mid, r);
      forall n | n in names
        ensures server in r.servers && n in r.servers[server].a && n in r.servers[server].aaaa
      {
        if n != last {
          assert names == init + [last];
          assert n in init;
          assert TablesExtend(mid.servers[server], r.servers[server]);
        }
      }
    }
  }

  lemma {:induction false} ServersSkeletonShape(st: Store, servers: seq<string>, names: seq<string>)
    ensures var r := ServersSkeleton(st, servers, names);
            && Extends(st, r)
            && r.defaultNameserver == st.defaultNameserver && r.traceroute == st.traceroute && r.whois == st.whois
            && r.servers.Keys == st.servers.Keys + (if names == [] then {} else set s | s in servers)
            && forall s, n :: s in servers && n in names ==>
                 s in r.servers && n in r.servers[s].a && n in r.servers[s].aaaa
  {
    if servers != [] {
      var init := servers[..|servers| - 1];
      var last := servers[|servers| - 1];
      ServersSkeletonShape(st, init, names);
      var mid := ServersSkeleton(st, init, names);
      NamesSkeletonShape(mid, last, names);
      var r := NamesSkeleton(mid, last, names);
      ExtendsTransitive(st, mid, r);
      assert servers == init + [last];
      assert (set s | s in servers) == (set s | s in init) + {last};
      forall s, n | s in servers && n in names
        ensures s in r.servers && n in r.servers[s].a && n in r.servers[s].aaaa
      {
        if s != last {
          assert s in init;
          assert TablesExtend(mid.servers[s], r.servers[s]);
        }
      }
    }
  }

  /**
   * After `op_initialize` every (server, name) pair has its `A` and `AAAA`
   * leaves and the server its four tables; the three flat keys exist; a
   * server gets a table only when there is at least one name; and nothing
   * that was there before has been overwritten.
   */
  lemma SkeletonShape(st: Store, servers: seq<string>, names: seq<string>)
    ensures var r := Skeleton(st, servers, names);
            && HasSkeleton(r, servers, names)
            && Extends(st, r)
            && r.servers.Keys == st.servers.Keys + (if names == [] then {} else set s | s in servers)
  {
    ServersSkeletonShape(TopSkeleton(st), servers, names);
    ExtendsTransitive(st, TopSkeleton(st), Skeleton(st, servers, names));
  }

  lemma {:induction false} NamesSkeletonFixes(st: Store, server: string, names: seq<string>)
    requires forall n :: n in names ==> server in st.servers && n in st.servers[server].a && n in st.servers[server].aaaa
    ensures NamesSkeleton(st, server, names) == st
  {
    if names != [] {
      var init := names[..|names| - 1];
      forall n | n in init
        ensures server in st.servers && n in st.servers[server].a && n in st.servers[server].aaaa
      {
        assert n in names;
      }
      NamesSkeletonFixes(st, server, init);
      assert names[|names| - 1] in names;
      assert st.servers[server := st.servers[server]] == st.servers;
    }
  }

  lemma {:induction false} ServersSkeletonFixes(st: Store, servers: seq<string>, names: seq<string>)
    requires HasSkeleton(st, servers, names)
    ensures ServersSkeleton(st, servers, names) == st
  {
    if servers != [] {
      var init := servers[..|servers| - 1];
      assert HasSkeleton(st, init, names) by {
        forall s, n | s in init && n in names
          ensures s in st.servers && n in st.servers[s].a && n in st.servers[s].aaaa
        {
          assert s in servers;
        }
      }
      ServersSkeletonFixes(st, init, names);
      assert servers[|servers| - 1] in servers;
      NamesSkeletonFixes(st, servers[|servers| - 1], names);
    }
  }

  /** Running `op_initialize` a second time on the same lists leaves `results` as it was. */
  lemma SkeletonIdempotent(st: Store, servers: seq<string>, names: seq<string>)
    ensures Skeleton(Skeleton(st, servers, names), servers, names) == Skeleton(st, servers, names)
  {
    var r := Skeleton(st, servers, names);
    SkeletonShape(st, servers, names);
    assert TopSkeleton(r) == r;
    ServersSkeletonFixes(r, servers, names);
  }

  /** With no servers or no names only the three flat keys are added. */
  lemma {:induction false} SkeletonWithoutPairs(st: Store, servers: seq<string>, names: seq<string>)
    requires servers == [] || names == []
    ensures Skeleton(st, servers, names) == TopSkeleton(st)
  {
    if servers != [] {
      SkeletonWithoutPairs(st, servers[..|servers| - 1], names);
    }
  }

  /**
   * From an empty `results`, the flat keys start as an empty string and two
   * empty dictionaries whatever the inputs; with no (server, name) pair they
   * are all there is.
   */
  lemma SkeletonOfNothing(servers: seq<string>, names: seq<string>)
    ensures var r := Skeleton(EMPTY, servers, names);
            r.defaultNameserver == Some(NoText) && r.traceroute == Some(map[]) && r.whois == Some(map[])
    ensures servers == [] || names == [] ==>
              Skeleton(EMPTY, servers, names) == Store(Some(NoText), Some(map[]), Some(map[]), map[])
  {
    ServersSkeletonShape(TopSkeleton(EMPTY), servers, names);
    if servers == [] || names == [] {
      SkeletonWithoutPairs(EMPTY, servers, names);
    }
  }
}
