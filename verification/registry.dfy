/** The connector registry `MCPManager` of services/mcp_manager.py: a dict from
    connector name to connector, in the order names were first registered. */
module Registry {
  import opened Base

  /** A connector as the registry sees it: its name and an opaque handle. */
  datatype Connector<H> = Connector(name: string, handle: H)

  /** `MCPManager._connectors`, as the dict's entries in insertion order. */
  datatype Manager<H> = Manager(entries: seq<Connector<H>>)

  /** `MCPManager()`: no connector registered. */
  function Empty<H>(): Manager<H> {
    Manager([])
  }

  /** The names of a list of connectors, as a set. */
  function Names<H>(cs: seq<Connector<H>>): set<string> {
    set i | 0 <= i < |cs| :: cs[i].name
  }

  lemma NamesCons<H>(c: Connector<H>, cs: seq<Connector<H>>)
    ensures Names([c] + cs) == {c.name} + Names(cs)
  {
    var l := [c] + cs;
    forall n | n in Names(l)
      ensures n in {c.name} + Names(cs)
    {
      var i :| 0 <= i < |l| && l[i].name == n;
      if i > 0 { assert l[i] == cs[i - 1]; }
    }
    forall n | n in Names(cs)
      ensures n in Names(l)
    {
      var i :| 0 <= i < |cs| && cs[i].name == n;
      assert l[i + 1] == cs[i];
    }
    assert l[0] == c;
  }

  lemma NamesSnoc<H>(cs: seq<Connector<H>>, c: Connector<H>)
    ensures Names(cs + [c]) == Names(cs) + {c.name}
  {
    var l := cs + [c];
    forall n | n in Names(l)
      ensures n in Names(cs) + {c.name}
    {
      var i :| 0 <= i < |l| && l[i].name == n;
      if i < |cs| { assert l[i] == cs[i]; }
    }
    forall n | n in Names(cs)
      ensures n in Names(l)
    {
      var i :| 0 <= i < |cs| && cs[i].name == n;
      assert l[i] == cs[i];
    }
    assert l[|cs|] == c;
  }

  /** Dict keys are distinct: no two entries share a name. */
  predicate Valid<H>(m: Manager<H>) {
    forall i, j :: 0 <= i < j < |m.entries| ==> m.entries[i].name != m.entries[j].name
  }

  /** `get(name)`: the connector stored under `name`, or `None`. */
  function Get<H>(m: Manager<H>, name: string): (r: Option<Connector<H>>)
    ensures r.None? <==> name !in Names(m.entries)
    ensures r.Some? ==> r.value.name == name && exists i :: 0 <= i < |m.entries| && m.entries[i] == r.value
  {
    Find(m.entries, name)
  }

  /** The first connector of `cs` named `name`. */
  function Find<H>(cs: seq<Connector<H>>, name: string): (r: Option<Connector<H>>)
    ensures r.None? <==> name !in Names(cs)
    ensures r.Some? ==> r.value.name == name && exists i :: 0 <= i < |cs| && cs[i] == r.value
  {
    if |cs| == 0 then None
    else if cs[0].name == name then Some(cs[0])
    else
      assert cs == [cs[0]] + cs[1..];
      NamesCons(cs[0], cs[1..]);
      Find(cs[1..], name)
  }

  /** The connector found is the first one of that name: every connector before
      it has another name. */
  lemma {:induction false} FindFirst<H>(cs: seq<Connector<H>>, name: string)
    ensures Find(cs, name).Some? ==>
      exists i :: 0 <= i < |cs| && cs[i] == Find(cs, name).value && forall j :: 0 <= j < i ==> cs[j].name != name
    decreases |cs|
  {
    if |cs| > 0 && cs[0].name != name && Find(cs, name).Some? {
      var rest := cs[1..];
      FindFirst(rest, name);
      var i :| 0 <= i < |rest| && rest[i] == Find(rest, name).value && forall j :: 0 <= j < i ==> rest[j].name != name;
      assert cs[i + 1] == Find(cs, name).value;
      assert forall j :: 1 <= j < i + 1 ==> cs[j] == rest[j - 1];
    } else if |cs| > 0 && cs[0].name == name {
      assert cs[0] == Find(cs, name).value;
    }
  }

  /** `_connectors[c.name] = c`: an existing entry of that name is overwritten
      where it stands, otherwise the connector is added at the end. */
  function Put<H>(cs: seq<Connector<H>>, c: Connector<H>): seq<Connector<H>> {
    if |cs| == 0 then [c]
    else if cs[0].name == c.name then [c] + cs[1..]
    else [cs[0]] + Put(cs[1..], c)
  }

  /** `register(c)`. */
  function Register<H>(m: Manager<H>, c: Connector<H>): Manager<H> {
    Manager(Put(m.entries, c))
  }

  /** `all()`: the registered connectors. */
  function All<H>(m: Manager<H>): seq<Connector<H>> {
    m.entries
  }

  /** After `register(c)`, `get(c.name)` is `c` and every other name is looked
      up as before. */
  lemma {:induction false} PutFind<H>(cs: seq<Connector<H>>, c: Connector<H>)
    ensures Find(Put(cs, c), c.name) == Some(c)
    ensures forall n :: n != c.name ==> Find(Put(cs, c), n) == Find(cs, n)
    decreases cs
  {
    if |cs| > 0 && cs[0].name != c.name {
      PutFind(cs[1..], c);
    }
  }

  /** Registering adds exactly `c.name` to the set of names, and adds an entry
      only when the name is new. */
  lemma {:induction false} PutNames<H>(cs: seq<Connector<H>>, c: Connector<H>)
    ensures Names(Put(cs, c)) == Names(cs) + {c.name}
    ensures |Put(cs, c)| == if c.name in Names(cs) then |cs| else |cs| + 1
    decreases cs
  {
    if |cs| > 0 {
      assert cs == [cs[0]] + cs[1..];
      NamesCons(cs[0], cs[1..]);
      if cs[0].name != c.name {
        PutNames(cs[1..], c);
        NamesCons(cs[0], Put(cs[1..], c));
      } else {
        NamesCons(c, cs[1..]);
      }
    } else {
      assert Put(cs, c) == [c] + cs;
      NamesCons(c, cs);
    }
  }

  /** Registering keeps names distinct. */
  lemma {:induction false} PutValid<H>(cs: seq<Connector<H>>, c: Connector<H>)
    requires Valid(Manager(cs))
    ensures Valid(Manager(Put(cs, c)))
    decreases cs
  {
    if |cs| > 0 {
      assert Valid(Manager(cs[1..])) by {
        forall i, j | 0 <= i < j < |cs[1..]|
          ensures cs[1..][i].name != cs[1..][j].name
        {
          assert cs[1..][i] == cs[i + 1] && cs[1..][j] == cs[j + 1];
        }
      }
      assert cs[0].name !in Names(cs[1..]) by {
        forall k | 0 <= k < |cs[1..]|
          ensures cs[1..][k].name != cs[0].name
        {
          assert cs[1..][k] == cs[k + 1];
        }
      }
      var r := Put(cs, c);
      if cs[0].name != c.name {
        PutValid(cs[1..], c);
        PutNames(cs[1..], c);
        var rest := Put(cs[1..], c);
        assert r == [cs[0]] + rest;
        forall i, j | 0 <= i < j < |r|
          ensures r[i].name != r[j].name
        {
          if i == 0 {
            assert r[j] == rest[j - 1];
            assert r[j].name in Names(rest);
          } else {
            assert r[i] == rest[i - 1] && r[j] == rest[j - 1];
          }
        }
      } else {
        assert r == [c] + cs[1..];
        forall i, j | 0 <= i < j < |r|
          ensures r[i].name != r[j].name
        {
          if i == 0 {
            assert r[j] == cs[j] && cs[j] == cs[1..][j - 1];
          } else {
            assert r[i] == cs[i] && r[j] == cs[j];
          }
        }
      }
    }
  }

  /** `register` followed by `get`: the connector just registered is found under
      its name, replacing any earlier one of that name; every other name's entry
      is unchanged; the registry keeps one entry per name. */
  lemma RegisterThenGet<H>(m: Manager<H>, c: Connector<H>)
    requires Valid(m)
    ensures Get(Register(m, c), c.name) == Some(c)
    ensures forall n :: n != c.name ==> Get(Register(m, c), n) == Get(m, n)
    ensures Valid(Register(m, c))
    ensures |All(Register(m, c))| == |All(m)| + (if Get(m, c.name).Some? then 0 else 1)
  {
    PutFind(m.entries, c);
    PutNames(m.entries, c);
    PutValid(m.entries, c);
  }

  /** `get` of a name never registered is `None`. */
  lemma GetMissing<H>(m: Manager<H>, name: string)
    requires forall i :: 0 <= i < |All(m)| ==> All(m)[i].name != name
    ensures Get(m, name) == None
  {
    forall i | 0 <= i < |m.entries|
      ensures m.entries[i].name != name
    {
      assert All(m)[i] == m.entries[i];
    }
  }

  /** Registering connectors one after another. */
  function RegisterAll<H>(m: Manager<H>, cs: seq<Connector<H>>): Manager<H>
    decreases |cs|
  {
    if |cs| == 0 then m else Register(RegisterAll(m, cs[..|cs| - 1]), cs[|cs| - 1])
  }

  /** After registering a list of connectors on an empty registry, the names in
      `all()` are distinct and are exactly the names registered. */
  lemma {:induction false} RegisterAllNames<H>(cs: seq<Connector<H>>)
    ensures Valid(RegisterAll(Empty(), cs))
    ensures Names(All(RegisterAll(Empty(), cs))) == Names(cs)
    decreases |cs|
  {
    var m := RegisterAll(Empty(), cs);
    if |cs| > 0 {
      var pre := cs[..|cs| - 1];
      var c := cs[|cs| - 1];
      var m0 := RegisterAll(Empty(), pre);
      RegisterAllNames(pre);
      assert m.entries == Put(m0.entries, c);
      PutNames(m0.entries, c);
      PutValid(m0.entries, c);
      NamesSnoc(pre, c);
      assert pre + [c] == cs;
    }
  }

  /** `all()` holds exactly one connector per distinct registered name. */
  lemma RegisterAllCount<H>(cs: seq<Connector<H>>)
    ensures |All(RegisterAll(Empty(), cs))| == |Names(cs)|
  {
    RegisterAllNames(cs);
    UniqueNamesCard(All(RegisterAll(Empty(), cs)));
  }

  /** After registering a list of connectors, `get(n)` is the connector
      registered last under `n`. */
  lemma {:induction false} RegisterAllLastWins<H>(cs: seq<Connector<H>>, i: int)
    requires 0 <= i < |cs|
    requires forall j :: i < j < |cs| ==> cs[j].name != cs[i].name
    ensures Get(RegisterAll(Empty(), cs), cs[i].name) == Some(cs[i])
    decreases |cs|
  {
    var pre := cs[..|cs| - 1];
    var c := cs[|cs| - 1];
    var m0 := RegisterAll(Empty(), pre);
    PutFind(m0.entries, c);
    if i < |cs| - 1 {
      assert cs[i] == pre[i];
      assert forall j :: i < j < |pre| ==> pre[j] == cs[j];
      RegisterAllLastWins(pre, i);
    }
  }

  /** A list of connectors with distinct names has as many names as entries. */
  lemma {:induction false} UniqueNamesCard<H>(cs: seq<Connector<H>>)
    requires Valid(Manager(cs))
    ensures |Names(cs)| == |cs|
    decreases |cs|
  {
    if |cs| > 0 {
      var pre := cs[..|cs| - 1];
      var c := cs[|cs| - 1];
      assert cs == pre + [c];
      assert Valid(Manager(pre)) by {
        forall i, j | 0 <= i < j < |pre|
          ensures pre[i].name != pre[j].name
        {
          assert pre[i] == cs[i] && pre[j] == cs[j];
        }
      }
      UniqueNamesCard(pre);
      assert c.name !in Names(pre) by {
        forall k | 0 <= k < |pre|
          ensures pre[k].name != c.name
        {
          assert cs[k] == pre[k];
        }
      }
      NamesSnoc(pre, c);
    }
  }
}
