/** Loading interface definitions with everything they include (`collectIDLs` of src/introspection.cpp). */
module IdlClosure {

  /** The text of a definition and the types its include lines name. */
  datatype Idl = Idl(text: string, includes: seq<string>)

  /** The definitions that can be found, and the types that are never loaded. The include graph may have
      cycles. */
  datatype Sources = Sources(files: map<string, Idl>, blacklist: set<string>)

  predicate Loads(g: Sources, t: string) {
    t in g.files && t !in g.blacklist
  }

  ghost function Missing(g: Sources, found: set<string>): nat {
    |g.files.Keys - found|
  }

  lemma MissingLess(g: Sources, found: set<string>, found': set<string>)
    requires found <= found'
    ensures Missing(g, found') <= Missing(g, found)
    ensures (exists t :: t in g.files && t in found' && t !in found) ==> Missing(g, found') < Missing(g, found)
  {
    SubsetSize(g.files.Keys - found', g.files.Keys - found);
  }

  lemma SubsetSize(a: set<string>, b: set<string>)
    requires a <= b
    ensures |a| <= |b| && (a != b ==> |a| < |b|)
  {
    assert b == a + (b - a) && |b| == |a| + |b - a|;
  }

  // ----- the types loaded -----

  /** The discovered types after `collectIDLs` of `t`. */
  ghost function Collect(g: Sources, found: set<string>, t: string): (r: set<string>)
    ensures found <= r
    decreases Missing(g, found), 1, 0
  {
    if !Loads(g, t) || t in found then found
    else
      MissingLess(g, found, found + {t});
      CollectAll(g, found + {t}, g.files[t].includes)
  }

  ghost function CollectAll(g: Sources, found: set<string>, ts: seq<string>): (r: set<string>)
    ensures found <= r
    decreases Missing(g, found), 2, |ts|
  {
    if ts == [] then found
    else
      var found' := Collect(g, found, ts[0]);
      MissingLess(g, found, found');
      CollectAll(g, found', ts[1..])
  }

  /** Every include of a type in `new` that can be loaded is in `all`. */
  ghost predicate IncludedIn(g: Sources, new_: set<string>, all: set<string>) {
    forall u, k :: u in new_ && u in g.files && 0 <= k < |g.files[u].includes| && Loads(g, g.files[u].includes[k]) ==>
      g.files[u].includes[k] in all
  }

  ghost predicate Closed(g: Sources, found: set<string>) {
    IncludedIn(g, found, found)
  }

  lemma {:induction false} CollectCloses(g: Sources, found: set<string>, t: string)
    ensures var r := Collect(g, found, t); IncludedIn(g, r - found, r) && (Loads(g, t) ==> t in r)
    decreases Missing(g, found), 1, 0
  {
    if Loads(g, t) && t !in found {
      MissingLess(g, found, found + {t});
      CollectAllCloses(g, found + {t}, g.files[t].includes);
    }
  }

  lemma {:induction false} CollectAllCloses(g: Sources, found: set<string>, ts: seq<string>)
    ensures var r := CollectAll(g, found, ts);
            IncludedIn(g, r - found, r) && forall k :: 0 <= k < |ts| && Loads(g, ts[k]) ==> ts[k] in r
    decreases Missing(g, found), 2, |ts|
  {
    if ts != [] {
      var found' := Collect(g, found, ts[0]);
      MissingLess(g, found, found');
      CollectCloses(g, found, ts[0]);
      CollectAllCloses(g, found', ts[1..]);
    }
  }

  // ----- reachability -----

  /** A chain of includes through types that can be loaded. */
  ghost predicate Chain(g: Sources, path: seq<string>) {
    && path != [] && (forall k :: 0 <= k < |path| ==> path[k] in g.files && path[k] !in g.blacklist)
    && forall k :: 0 <= k < |path| - 1 ==> path[k + 1] in g.files[path[k]].includes
  }

  ghost predicate Reaches(g: Sources, t: string, u: string) {
    exists path :: Chain(g, path) && path[0] == t && path[|path| - 1] == u
  }

  lemma ReachesInclude(g: Sources, t: string, v: string, u: string)
    requires Loads(g, t) && v in g.files[t].includes && Reaches(g, v, u)
    ensures Reaches(g, t, u)
  {
    var path :| Chain(g, path) && path[0] == v && path[|path| - 1] == u;
    assert Chain(g, [t] + path);
  }

  lemma {:induction false} CollectReaches(g: Sources, found: set<string>, t: string, u: string)
    requires u in Collect(g, found, t) && u !in found
    ensures Reaches(g, t, u)
    decreases Missing(g, found), 1, 0
  {
    if u == t {
      assert Chain(g, [t]);
    } else {
      MissingLess(g, found, found + {t});
      var v := CollectAllReaches(g, found + {t}, g.files[t].includes, u);
      ReachesInclude(g, t, v, u);
    }
  }

  lemma {:induction false} CollectAllReaches(g: Sources, found: set<string>, ts: seq<string>, u: string)
    returns (v: string)
    requires u in CollectAll(g, found, ts) && u !in found
    ensures v in ts && Reaches(g, v, u)
    decreases Missing(g, found), 2, |ts|
  {
    var found' := Collect(g, found, ts[0]);
    MissingLess(g, found, found');
    if u in found' {
      CollectReaches(g, found, ts[0], u);
      v := ts[0];
    } else {
      v := CollectAllReaches(g, found', ts[1..], u);
    }
  }

  /** A closed set holds the end of every chain whose start it holds. */
  lemma {:induction false} ChainStays(g: Sources, all: set<string>, path: seq<string>)
    requires Closed(g, all) && Chain(g, path) && path[0] in all
    ensures path[|path| - 1] in all
    decreases |path|
  {
    if |path| > 1 {
      var k :| 0 <= k < |g.files[path[0]].includes| && g.files[path[0]].includes[k] == path[1];
      ChainStays(g, all, path[1..]);
    }
  }

  /** From a closed set, a call leaves a closed set: the old one and exactly what the type reaches by
      includes. */
  lemma ClosureIsExact(g: Sources, found: set<string>, t: string)
    requires Closed(g, found)
    ensures Closed(g, Collect(g, found, t))
    ensures forall u :: u in Collect(g, found, t) <==> u in found || Reaches(g, t, u)
  {
    var r := Collect(g, found, t);
    CollectCloses(g, found, t);
    forall u, k | u in r && u in g.files && 0 <= k < |g.files[u].includes| && Loads(g, g.files[u].includes[k])
      ensures g.files[u].includes[k] in r
    {
      assert u in found || u in r - found;
    }
    forall u
      ensures u in r <==> u in found || Reaches(g, t, u)
    {
      if u in r && u !in found {
        CollectReaches(g, found, t, u);
      }
      if Reaches(g, t, u) {
        var path :| Chain(g, path) && path[0] == t && path[|path| - 1] == u;
        ChainStays(g, r, path);
      }
    }
  }

  /** After any calls in a row from nothing: exactly what one of the types reaches. */
  lemma {:induction false} RunIsExact(g: Sources, ts: seq<string>)
    ensures Closed(g, CollectAll(g, {}, ts))
    ensures forall u :: u in CollectAll(g, {}, ts) <==> exists k :: 0 <= k < |ts| && Reaches(g, ts[k], u)
  {
    AfterRun(g, {}, ts);
  }

  lemma {:induction false} AfterRun(g: Sources, found: set<string>, ts: seq<string>)
    requires Closed(g, found)
    ensures Closed(g, CollectAll(g, found, ts))
    ensures forall u :: u in CollectAll(g, found, ts) <==>
              u in found || exists k :: 0 <= k < |ts| && Reaches(g, ts[k], u)
    decreases |ts|
  {
    if ts != [] {
      var found' := Collect(g, found, ts[0]);
      ClosureIsExact(g, found, ts[0]);
      AfterRun(g, found', ts[1..]);
      forall u
        ensures (exists k :: 0 <= k < |ts| && Reaches(g, ts[k], u)) <==>
                Reaches(g, ts[0], u) || exists k :: 0 <= k < |ts[1..]| && Reaches(g, ts[1..][k], u)
      {
        if k :| 0 <= k < |ts[1..]| && Reaches(g, ts[1..][k], u) {
          assert ts[k + 1] == ts[1..][k];
        }
        if k :| 0 < k < |ts| && Reaches(g, ts[k], u) {
          assert ts[1..][k - 1] == ts[k];
        }
      }
    }
  }

  // ----- the object -----

  class IdlStore {
    const sources: Sources
    var discoveredIdls: map<string, string>

    /** The texts are those of the definitions. */
    ghost predicate Valid()
      reads this
    {
      forall t :: t in discoveredIdls ==> t in sources.files && discoveredIdls[t] == sources.files[t].text
    }

    constructor (sources: Sources)
      ensures Valid() && this.sources == sources && discoveredIdls == map[]
    {
      this.sources, discoveredIdls := sources, map[];
    }

    /** Terminates on any include graph, because a type is recorded before its includes are loaded. A
        false result means that nothing changed. */
    method CollectIDLs(msgType: string) returns (changed: bool)
      requires Valid()
      modifies this
      ensures Valid() && discoveredIdls.Keys == Collect(sources, old(discoveredIdls.Keys), msgType)
      ensures changed <==> discoveredIdls != old(discoveredIdls)
      decreases Missing(sources, discoveredIdls.Keys), 1, 0
    {
      if msgType in sources.blacklist {
        return false;
      }
      if msgType in discoveredIdls {
        return false;
      }
      if msgType !in sources.files {
        return false;
      }
      ghost var found := discoveredIdls.Keys;
      var idl := sources.files[msgType];
      discoveredIdls := discoveredIdls[msgType := idl.text];
      assert discoveredIdls.Keys == found + {msgType};
      MissingLess(sources, found, discoveredIdls.Keys);
      CollectIncludes(idl.includes);
      assert msgType in discoveredIdls.Keys;
      return true;
    }

    /** The loop over the includes. */
    method CollectIncludes(includes: seq<string>)
      requires Valid()
      modifies this
      ensures Valid() && discoveredIdls.Keys == CollectAll(sources, old(discoveredIdls.Keys), includes)
      decreases Missing(sources, discoveredIdls.Keys), 2, 0
    {
      ghost var found := discoveredIdls.Keys;
      for i := 0 to |includes|
        invariant Valid() && found <= discoveredIdls.Keys
        invariant CollectAll(sources, found, includes) == CollectAll(sources, discoveredIdls.Keys, includes[i..])
      {
        MissingLess(sources, found, discoveredIdls.Keys);
        assert includes[i..][0] == includes[i] && includes[i..][1..] == includes[i + 1..];
        var _ := CollectIDLs(includes[i]);
      }
    }
  }
}
