/**
 * The gRPC tracing interceptor (`TracingHeaderInterceptor`): on an incoming call it copies
 * the seven tracing headers from the call's metadata into the call's context; on an outgoing
 * call it copies every one the current context holds into the outgoing metadata before the
 * call starts. gRPC metadata keys are lower-cased, and a lookup returns the last value added
 * under the key.
 */
module TracingInterceptor {
  import opened Common
  import opened TraceHeaders

  /** ASCII lower case, as `Metadata.Key.of` normalises the (ASCII) header names. */
  function Lower(s: string): (r: string)
    ensures |r| == |s|
  {
    seq(|s|, i requires 0 <= i < |s| => if 'A' <= s[i] <= 'Z' then (s[i] as int + 32) as char else s[i])
  }

  /** One metadata entry, under its lower-cased key. */
  datatype Entry = Entry(key: string, value: string)

  /** `Metadata.get(key)`: the last value added under the key's lower-case form, or null. */
  function Lookup(entries: seq<Entry>, name: string): (r: Option<string>)
    decreases |entries|
  {
    if entries == [] then None
    else if entries[|entries| - 1].key == Lower(name) then Some(entries[|entries| - 1].value)
    else Lookup(entries[..|entries| - 1], name)
  }

  /** `Lookup` finds the last entry under the key, and finds nothing when there is none. */
  lemma {:induction false} LookupLast(entries: seq<Entry>, name: string)
    ensures Lookup(entries, name).None? <==> forall i :: 0 <= i < |entries| ==> entries[i].key != Lower(name)
    ensures Lookup(entries, name).Some? ==>
      exists i :: 0 <= i < |entries| && entries[i] == Entry(Lower(name), Lookup(entries, name).value) &&
        forall j :: i < j < |entries| ==> entries[j].key != Lower(name)
    decreases |entries|
  {
    if entries != [] {
      var init := entries[..|entries| - 1];
      LookupLast(init, name);
      if Lookup(entries, name).None? {
        forall i | 0 <= i < |entries| ensures entries[i].key != Lower(name) {
          if i < |init| {
            assert entries[i] == init[i];
          }
        }
      }
      if entries[|entries| - 1].key != Lower(name) && Lookup(init, name).Some? {
        var i :| 0 <= i < |init| && init[i] == Entry(Lower(name), Lookup(init, name).value) &&
          forall j :: i < j < |init| ==> init[j].key != Lower(name);
        assert entries[i] == init[i];
      }
    }
  }

  /** Entries added under other keys do not change a lookup. */
  lemma {:induction false} LookupSkips(prior: seq<Entry>, added: seq<Entry>, name: string)
    requires forall i :: 0 <= i < |added| ==> added[i].key != Lower(name)
    ensures Lookup(prior + added, name) == Lookup(prior, name)
    decreases |added|
  {
    if added != [] {
      assert (prior + added)[..|prior + added| - 1] == prior + added[..|added| - 1];
      LookupSkips(prior, added[..|added| - 1], name);
    } else {
      assert prior + added == prior;
    }
  }

  /** The call metadata. */
  class Metadata {
    var entries: seq<Entry>

    constructor ()
      ensures entries == []
    {
      entries := [];
    }

    /** `get(key)`. */
    function Get(name: string): (r: Option<string>)
      reads this
      ensures r.Some? ==> Entry(Lower(name), r.value) in entries
      ensures r.None? ==> forall i :: 0 <= i < |entries| ==> entries[i].key != Lower(name)
    {
      LookupLast(entries, name);
      Lookup(entries, name)
    }

    /** `put(key, value)`: a further value under the key, which `get` now returns. */
    method Put(name: string, value: string)
      modifies this
      ensures entries == old(entries) + [Entry(Lower(name), value)]
      ensures Get(name) == Some(value)
    {
      entries := entries + [Entry(Lower(name), value)];
    }
  }

  /** The call context: a value, possibly null, per tracing key. */
  type Context = map<string, Option<string>>

  /** `key.get()` on a context: null for a key never set. */
  function ContextValue(ctx: Context, name: string): (r: Option<string>)
  {
    if name in ctx then ctx[name] else None
  }

  /** The context `interceptCall` opens for an incoming call: each tracing key set to the metadata's value, null when absent. */
  function ServerContext(metadata: seq<Entry>): (ctx: Context)
    ensures forall k :: k in ctx <==> k in TraceHeaderNames
    ensures forall k :: k in ctx ==> ctx[k] == Lookup(metadata, k)
  {
    map k | k in TraceHeaderNames :: Lookup(metadata, k)
  }

  /** The entries the outgoing `start` adds: one per name in order whose context value is not null. */
  function Copied(ctx: Context, names: seq<string>): (r: seq<Entry>)
    decreases |names|
  {
    if names == [] then []
    else
      var last := names[|names| - 1];
      var init := Copied(ctx, names[..|names| - 1]);
      var v := ContextValue(ctx, last);
      if v.Some? then init + [Entry(Lower(last), v.value)] else init
  }

  /** Nothing is copied under a key that none of the names lower-cases to. */
  lemma {:induction false} CopiedAvoids(ctx: Context, names: seq<string>, key: string)
    requires forall j :: 0 <= j < |names| ==> Lower(names[j]) != key
    ensures forall i :: 0 <= i < |Copied(ctx, names)| ==> Copied(ctx, names)[i].key != key
    decreases |names|
  {
    if names != [] {
      var init := names[..|names| - 1];
      assert forall j :: 0 <= j < |init| ==> init[j] == names[j];
      CopiedAvoids(ctx, init, key);
    }
  }

  /** No two names share a lower-case form. */
  ghost predicate DistinctKeys(names: seq<string>)
  {
    forall i, j :: 0 <= i < |names| && 0 <= j < |names| && Lower(names[i]) == Lower(names[j]) ==> i == j
  }

  /**
   * After the outgoing copy, a tracing header reads as the context's value when the context
   * holds one, and as before otherwise.
   */
  lemma {:induction false} CopiedLookup(prior: seq<Entry>, ctx: Context, names: seq<string>, k: int)
    requires DistinctKeys(names) && 0 <= k < |names|
    ensures Lookup(prior + Copied(ctx, names), names[k]) ==
      (if ContextValue(ctx, names[k]).Some? then ContextValue(ctx, names[k]) else Lookup(prior, names[k]))
    decreases |names|
  {
    var n := |names| - 1;
    var init := names[..n];
    var name := names[k];
    DistinctKeysPrefix(names, n);
    var v := ContextValue(ctx, names[n]);
    if k < n {
      assert init[k] == name;
      CopiedLookup(prior, ctx, init, k);
      assert Lower(names[n]) != Lower(name);
      if v.Some? {
        assert prior + Copied(ctx, names) == (prior + Copied(ctx, init)) + [Entry(Lower(names[n]), v.value)];
      }
    } else if v.None? {
      assert k == n && names[..|names| - 1] == init;
      CopiedOthers(ctx, names);
      assert Copied(ctx, names) == Copied(ctx, init);
      LookupSkips(prior, Copied(ctx, init), name);
    } else {
      assert prior + Copied(ctx, names) == (prior + Copied(ctx, init)) + [Entry(Lower(names[n]), v.value)];
    }
  }

  lemma DistinctKeysPrefix(names: seq<string>, n: int)
    requires DistinctKeys(names) && 0 <= n <= |names|
    ensures DistinctKeys(names[..n])
  {
    var init := names[..n];
    forall i, j | 0 <= i < |init| && 0 <= j < |init| && Lower(init[i]) == Lower(init[j]) ensures i == j {
      assert init[i] == names[i] && init[j] == names[j];
    }
  }

  /** What is copied for the names before the last holds no entry under the last name's key. */
  lemma CopiedOthers(ctx: Context, names: seq<string>)
    requires DistinctKeys(names) && names != []
    ensures var init := Copied(ctx, names[..|names| - 1]);
      forall i :: 0 <= i < |init| ==> init[i].key != Lower(names[|names| - 1])
  {
    var n := |names| - 1;
    var init := names[..n];
    forall j | 0 <= j < |init| ensures Lower(init[j]) != Lower(names[n]) {
      assert init[j] == names[j];
    }
    CopiedAvoids(ctx, init, Lower(names[n]));
  }

  /** The seven tracing headers keep apart once lower-cased. */
  lemma TraceHeaderKeysDistinct()
    ensures DistinctKeys(TraceHeaderNames)
  {
    // the lower-cased names differ in their length or in their sixth character
    var lengths := [17, 12, 12, 11, 17, 12, 10];
    var sixth := "sutspsf";
    forall i | 0 <= i < 7
      ensures |Lower(TraceHeaderNames[i])| == lengths[i] && Lower(TraceHeaderNames[i])[5] == sixth[i]
    {
    }
    forall i, j | 0 <= i < 7 && 0 <= j < 7 && Lower(TraceHeaderNames[i]) == Lower(TraceHeaderNames[j])
      ensures i == j
    {
      assert lengths[i] == lengths[j] && sixth[i] == sixth[j];
    }
  }

  /**
   * An outgoing call made inside an incoming call's context carries the incoming call's
   * tracing headers: each reads, on the outgoing metadata, as it read on the incoming one.
   */
  lemma TracePropagates(incoming: seq<Entry>, k: int)
    requires 0 <= k < |TraceHeaderNames|
    ensures Lookup(Copied(ServerContext(incoming), TraceHeaderNames), TraceHeaderNames[k]) ==
      Lookup(incoming, TraceHeaderNames[k])
  {
    TraceHeaderKeysDistinct();
    CopiedLookup([], ServerContext(incoming), TraceHeaderNames, k);
    assert [] + Copied(ServerContext(incoming), TraceHeaderNames) == Copied(ServerContext(incoming), TraceHeaderNames);
  }

  /** The calls a forwarding client call makes on the call it wraps. */
  datatype ClientCallEvent = Started(headers: seq<Entry>)

  class TracingHeaderInterceptor {
    /** The calls made on the wrapped outgoing call. */
    var delegateCalls: seq<ClientCallEvent>

    constructor ()
      ensures delegateCalls == []
    {
      delegateCalls := [];
    }

    /** The server side `interceptCall`: the context the incoming call runs in. */
    function InterceptServerCall(metadata: Metadata): (ctx: Context)
      reads metadata
      ensures forall k :: k in ctx <==> k in TraceHeaderNames
      ensures forall k :: k in ctx ==> ctx[k] == metadata.Get(k)
    {
      ServerContext(metadata.entries)
    }

    /**
     * The wrapped call's `start(listener, headers)` under the context `ctx`: each non-null
     * tracing value is put into the headers, in the order of the names, and then the
     * wrapped call is started with them.
     */
    method Start(ctx: Context, headers: Metadata)
      modifies this, headers
      ensures headers.entries == old(headers.entries) + Copied(ctx, TraceHeaderNames)
      ensures delegateCalls == old(delegateCalls) + [Started(headers.entries)]
    {
      var i := 0;
      ghost var prior := headers.entries;
      while i < |TraceHeaderNames|
        invariant 0 <= i <= |TraceHeaderNames|
        invariant headers.entries == prior + Copied(ctx, TraceHeaderNames[..i])
        invariant delegateCalls == old(delegateCalls)
      {
        assert TraceHeaderNames[..i + 1][..i] == TraceHeaderNames[..i];
        var name := TraceHeaderNames[i];
        var value := ContextValue(ctx, name);
        if value.Some? {
          headers.Put(name, value.value);
        }
        i := i + 1;
      }
      assert TraceHeaderNames[..i] == TraceHeaderNames;
      delegateCalls := delegateCalls + [Started(headers.entries)];
    }
  }
}
