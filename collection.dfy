/**
 * A collection of plugins named by id (src/PluginCollection.js): the
 * instances are resolved through the parser once, on first use, in id
 * order, and then visited or called in that order.
 */
module Collections {
  import opened Js
  import opened Arrays

  /** The instances `getPlugins` hands back from the memo it finds: the
      memo itself once it is set, otherwise one instance per id, resolved
      in id order. */
  function Resolved<P>(memo: Option<seq<P>>, ids: seq<string>, resolve: string -> P): (r: seq<P>)
    ensures memo.Some? ==> r == memo.value
    ensures memo.None? ==> |r| == |ids| && forall i :: 0 <= i < |ids| ==> r[i] == resolve(ids[i])
  {
    match memo
    case Some(ps) => ps
    case None => Map(ids, resolve)
  }

  /** Resolution happens once: after the first `getPlugins`, every later
      call returns the same instances, whatever the resolver returns by
      then. */
  lemma ResolvedOnce<P>(memo: Option<seq<P>>, ids: seq<string>, first: string -> P, later: string -> P)
    ensures Resolved(Some(Resolved(memo, ids, first)), ids, later) == Resolved(memo, ids, first)
  {
  }

  /** What `each(callback)` runs through: every instance in order, or up
      to and including the first one on which the callback throws. */
  function Visited<P>(ps: seq<P>, callback: P -> Res<()>): (r: (seq<P>, bool))
    ensures r.1 <==> forall i :: 0 <= i < |ps| ==> callback(ps[i]).Ok?
    ensures r.1 ==> r.0 == ps
    ensures !r.1 ==> && 1 <= |r.0| <= |ps| && r.0 == ps[..|r.0|]
                     && callback(r.0[|r.0| - 1]).TypeError?
                     && forall i :: 0 <= i < |r.0| - 1 ==> callback(r.0[i]).Ok?
  {
    var k := FindIndex(ps, (p: P) => callback(p).TypeError?);
    if k < 0 then (ps, true) else (ps[..k + 1], false)
  }

  /** `call` makes the calls `each` would make: it throws exactly when
      `each` with the same calls stops early, and otherwise returns one
      result per visited instance. */
  lemma CalledVisitsAll<P, R>(ps: seq<P>, invoke: P -> Res<R>)
    ensures var callback := (p: P) => if invoke(p).Ok? then Ok(()) else TypeError;
            && (MapRes(ps, invoke).Ok? <==> Visited(ps, callback).1)
            && (MapRes(ps, invoke).Ok? ==> |MapRes(ps, invoke).value| == |Visited(ps, callback).0|)
  {
  }

  /** `new PluginCollection(parser, ids)`; `parser.getPlugin` is passed to
      the methods that use it. */
  class PluginCollection<P> {
    const ids: seq<string>
    var plugins: Option<seq<P>>

    constructor (ids: seq<string>)
      ensures this.ids == ids && plugins.None?
    {
      this.ids := ids;
      plugins := None;
    }

    /** `getPlugins()`: resolves every id on the first call and keeps the
        list. */
    method GetPlugins(resolve: string -> P) returns (ps: seq<P>)
      modifies this`plugins
      ensures ps == Resolved(old(plugins), ids, resolve)
      ensures plugins == Some(ps)
    {
      if plugins.None? {
        var resolved: seq<P> := [];
        var i := 0;
        while i < |ids|
          invariant 0 <= i <= |ids|
          invariant |resolved| == i
          invariant forall j :: 0 <= j < i ==> resolved[j] == resolve(ids[j])
        {
          resolved := resolved + [resolve(ids[i])];
          i := i + 1;
        }
        plugins := Some(resolved);
      }
      return plugins.value;
    }

    /** `each(callback)`: calls the callback on every instance in order; a
        throw ends the walk. Returns the instances visited and whether the
        walk finished (`each` itself returns the collection). */
    method Each(resolve: string -> P, callback: P -> Res<()>) returns (visited: seq<P>, ok: bool)
      modifies this`plugins
      ensures plugins == Some(Resolved(old(plugins), ids, resolve))
      ensures (visited, ok) == Visited(plugins.value, callback)
    {
      var ps := GetPlugins(resolve);
      visited := [];
      var i := 0;
      while i < |ps|
        invariant 0 <= i <= |ps|
        invariant visited == ps[..i]
        invariant forall j :: 0 <= j < i ==> callback(ps[j]).Ok?
      {
        visited := visited + [ps[i]];
        if callback(ps[i]).TypeError? {
          assert visited == ps[..i + 1];
          return visited, false;
        }
        i := i + 1;
      }
      assert ps[..i] == ps;
      return visited, true;
    }

    /** `call(method, ...params)`: `invoke` stands for calling the named
        method with the given arguments on one instance. */
    method Call<R>(resolve: string -> P, invoke: P -> Res<R>) returns (r: Res<seq<R>>)
      modifies this`plugins
      ensures plugins == Some(Resolved(old(plugins), ids, resolve))
      ensures r == MapRes(plugins.value, invoke)
    {
      var ps := GetPlugins(resolve);
      var result: seq<R> := [];
      var i := 0;
      while i < |ps|
        invariant 0 <= i <= |ps|
        invariant MapRes(ps[..i], invoke) == Ok(result)
      {
        assert ps[..i + 1][..i] == ps[..i];
        var x := invoke(ps[i]);
        if x.TypeError? {
          MapResStaysFailed(ps, invoke, i + 1);
          return TypeError;
        }
        result := result + [x.value];
        i := i + 1;
      }
      assert ps[..i] == ps;
      return Ok(result);
    }
  }
}
