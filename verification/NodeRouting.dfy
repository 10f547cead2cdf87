/** The service registry, the component lists of the threads and the table of loaded components
    (src/core/nos_node_mgr.c, src/core/nos_scheduler.c): loading at start, routing set-up, unload
    and reload at run time, and the dispatch of messages that are already queued. Each of these
    is one step; loading, unloading and set-up run one at a time. The program loads first, sets up
    routing once, and then unloads, reloads, sends and handles in any order.

    `ran` (which handler ran on which thread) is history: no branch reads it. */
module NodeRouting {
  import Ring
  import Runs

  const REGISTRY: nat := 64
  const LOADED: nat := 64
  const PER_THREAD: nat := 32

  datatype Option<T> = None | Some(value: T)

  // A component object: its address, and the fields that never change until it is freed.
  datatype Comp = Comp(handle: nat, id: nat, name: string, hasHandler: bool)

  datatype Entry = Entry(service: nat, provider: Option<Comp>, thread: Option<nat>, remote: bool)

  datatype Loaded = Loaded(comp: Comp, owner: nat)

  // A manifest line: whether this node provides the service, which component id does, and
  // whether a remote path is given.
  datatype Service = Service(id: nat, here: bool, provider: nat, reachable: bool)

  // What the loader made of a library: the address of the new object, and whether it has on_msg.
  datatype Object = Object(handle: nat, hasHandler: bool)

  datatype State = State(
    services: seq<Service>, loaded: seq<Loaded>, threads: seq<seq<Comp>>,
    registry: seq<Entry>, count: nat, rings: seq<seq<nat>>, ran: seq<(nat, Comp)>)

  datatype Action =
    | Boot(w: nat, id: nat, name: string, made: Option<Object>)
    | Setup
    | Unload(name: string)
    | Reload(name: string, made: Option<Object>)
    | Send(service: nat)
    | Handle(w: nat)

  // ---------- Look-ups ----------

  // First used slot of a service, or n.
  function FindEntry(r: seq<Entry>, i: nat, n: nat, service: nat): (k: nat)
    requires i <= n <= |r|
    ensures i <= k <= n
    ensures k < n ==> r[k].service == service
    ensures forall j :: i <= j < k ==> r[j].service != service
    decreases n - i
  {
    if i == n || r[i].service == service then i else FindEntry(r, i + 1, n, service)
  }

  function FindId(loaded: seq<Loaded>, i: nat, id: nat): (k: nat)
    requires i <= |loaded|
    ensures i <= k <= |loaded|
    ensures k < |loaded| ==> loaded[k].comp.id == id
    ensures forall j :: i <= j < k ==> loaded[j].comp.id != id
    decreases |loaded| - i
  {
    if i == |loaded| || loaded[i].comp.id == id then i else FindId(loaded, i + 1, id)
  }

  function FindName(loaded: seq<Loaded>, i: nat, name: string): (k: nat)
    requires i <= |loaded|
    ensures i <= k <= |loaded|
    ensures k < |loaded| ==> loaded[k].comp.name == name
    ensures forall j :: i <= j < k ==> loaded[j].comp.name != name
    decreases |loaded| - i
  {
    if i == |loaded| || loaded[i].comp.name == name then i else FindName(loaded, i + 1, name)
  }

  predicate HasId(list: seq<Comp>, id: nat) { exists i :: 0 <= i < |list| && list[i].id == id }

  // First thread that lists a component with this id, or the number of threads.
  function FindThread(threads: seq<seq<Comp>>, t: nat, id: nat): (k: nat)
    requires t <= |threads|
    ensures t <= k <= |threads|
    ensures k < |threads| ==> HasId(threads[k], id)
    ensures forall j :: t <= j < k ==> !HasId(threads[j], id)
    decreases |threads| - t
  {
    if t == |threads| || HasId(threads[t], id) then t else FindThread(threads, t + 1, id)
  }

  function FindComp(list: seq<Comp>, i: nat, handle: nat): (k: nat)
    requires i <= |list|
    ensures i <= k <= |list|
    ensures k < |list| ==> list[k].handle == handle
    ensures forall j :: i <= j < k ==> list[j].handle != handle
    decreases |list| - i
  {
    if i == |list| || list[i].handle == handle then i else FindComp(list, i + 1, handle)
  }

  // ---------- The registry ----------

  predicate Sized(s: State) { |s.registry| == REGISTRY && s.count <= REGISTRY }

  function Used(s: State): seq<Entry>
    requires Sized(s)
  {
    s.registry[..s.count]
  }

  // Full table and no entry yet: NOS_ERR, nothing changes.
  function Bind(s: State, service: nat, c: Comp, w: nat): State
    requires Sized(s)
  {
    var k := FindEntry(s.registry, 0, s.count, service);
    if k == REGISTRY then s
    else s.(registry := s.registry[k := Entry(service, Some(c), Some(w), false)],
            count := if k == s.count then s.count + 1 else s.count)
  }

  // A new entry keeps whatever provider and thread its slot held before.
  function BindRemote(s: State, service: nat): State
    requires Sized(s)
  {
    var k := FindEntry(s.registry, 0, s.count, service);
    if k == REGISTRY then s
    else s.(registry := s.registry[k := s.registry[k].(service := service, remote := true)],
            count := if k == s.count then s.count + 1 else s.count)
  }

  // The last entry takes the place of the removed one.
  function Unbind(s: State, service: nat): State
    requires Sized(s)
  {
    var k := FindEntry(s.registry, 0, s.count, service);
    if k == s.count then s
    else s.(registry := s.registry[k := s.registry[s.count - 1]], count := s.count - 1)
  }

  // ---------- The steps ----------

  function RemoveComp(list: seq<Comp>, handle: nat): seq<Comp> {
    var k := FindComp(list, 0, handle);
    if k == |list| then list else SwapOut(list, k)
  }

  // nos_scheduler_register_component: a full list refuses, and the caller does not look.
  function AddComp(list: seq<Comp>, c: Comp): seq<Comp> {
    if |list| >= PER_THREAD then list else list + [c]
  }

  function BootStep(s: State, w: nat, id: nat, name: string, made: Option<Object>): State {
    if made.None? || w >= |s.threads| then s
    else
      var c := Comp(made.value.handle, id, name, made.value.hasHandler);
      s.(loaded := if |s.loaded| < LOADED then s.loaded + [Loaded(c, w)] else s.loaded,
         threads := s.threads[w := AddComp(s.threads[w], c)])
  }

  function SetupOne(s: State, v: Service): State
    requires Sized(s)
  {
    if v.here then
      var k, w := FindId(s.loaded, 0, v.provider), FindThread(s.threads, 0, v.provider);
      if k < |s.loaded| && w < |s.threads| then Bind(s, v.id, s.loaded[k].comp, w) else s
    else if v.reachable then BindRemote(s, v.id)
    else s
  }

  function SetupFrom(s: State, i: nat): State
    requires Sized(s) && i <= |s.services|
    decreases |s.services| - i
  {
    if i == |s.services| then s else SetupFrom(SetupOne(s, s.services[i]), i + 1)
  }

  // Drop the entries of every manifest service that names this component id.
  function UnbindFrom(s: State, i: nat, id: nat): State
    requires Sized(s) && i <= |s.services|
    decreases |s.services| - i
  {
    if i == |s.services| then s
    else UnbindFrom(if s.services[i].provider == id then Unbind(s, s.services[i].id) else s, i + 1, id)
  }

  function UnloadStep(s: State, name: string): State
    requires Sized(s)
  {
    var k := FindName(s.loaded, 0, name);
    if k == |s.loaded| || s.loaded[k].owner >= |s.threads| then s
    else
      var l := s.loaded[k];
      var t := s.(threads := s.threads[l.owner := RemoveComp(s.threads[l.owner], l.comp.handle)]);
      UnbindFrom(t, 0, l.comp.id).(loaded := s.loaded[..k] + s.loaded[k + 1..])
  }

  function RebindFrom(s: State, i: nat, c: Comp, w: nat): State
    requires Sized(s) && i <= |s.services|
    decreases |s.services| - i
  {
    if i == |s.services| then s
    else RebindFrom(if s.services[i].provider == c.id && s.services[i].here then Bind(s, s.services[i].id, c, w) else s,
                    i + 1, c, w)
  }

  // The new object joins the loaded table and its thread, and takes over its services.
  function Install(s: State, c: Comp, w: nat): State
    requires Sized(s)
  {
    if |s.loaded| >= LOADED || w >= |s.threads| then s
    else RebindFrom(s.(loaded := s.loaded + [Loaded(c, w)], threads := s.threads[w := AddComp(s.threads[w], c)]), 0, c, w)
  }

  function ReloadStep(s: State, name: string, made: Option<Object>): State
    requires Sized(s)
  {
    var k := FindName(s.loaded, 0, name);
    if k == |s.loaded| then s
    else
      var l := s.loaded[k];
      UnloadSized(s, name);
      var n := UnloadStep(s, name);
      if made.None? then n else Install(n, Comp(made.value.handle, l.comp.id, name, made.value.hasHandler), l.owner)
  }

  // nos_service_msg_send: no entry is an error, a remote entry leaves the node.
  function SendStep(s: State, service: nat): State
    requires Sized(s)
  {
    var k := FindEntry(s.registry, 0, s.count, service);
    if k == s.count || s.registry[k].remote || s.registry[k].thread.None? then s
    else
      var w := s.registry[k].thread.value;
      if w >= |s.rings| || |s.rings[w]| >= Ring.SIZE - 1 then s
      else s.(rings := s.rings[w := s.rings[w] + [service]])
  }

  /** The component whose handler a message of this service reaches. The code does not look at
      is_remote here. */
  function Target(s: State, service: nat): Option<Comp>
    requires Sized(s)
  {
    var k := FindEntry(s.registry, 0, s.count, service);
    if k == s.count || s.registry[k].provider.None? || !s.registry[k].provider.value.hasHandler then None
    else s.registry[k].provider
  }

  function HandleStep(s: State, w: nat): State
    requires Sized(s)
  {
    if w >= |s.rings| || s.rings[w] == [] then s
    else
      var n := s.(rings := s.rings[w := s.rings[w][1..]]);
      match Target(s, s.rings[w][0])
      case None => n
      case Some(c) => n.(ran := s.ran + [(w, c)])
  }

  function Next(s: State, a: Action): State {
    if !Sized(s) then s
    else
      match a
      case Boot(w, id, name, made) => BootStep(s, w, id, name, made)
      case Setup => SetupFrom(s, 0)
      case Unload(name) => UnloadStep(s, name)
      case Reload(name, made) => ReloadStep(s, name, made)
      case Send(service) => SendStep(s, service)
      case Handle(w) => HandleStep(s, w)
  }

  lemma {:induction false} UnbindSized(s: State, i: nat, id: nat)
    requires Sized(s) && i <= |s.services|
    ensures var n := UnbindFrom(s, i, id);
            Sized(n) && n == s.(registry := n.registry, count := n.count)
    decreases |s.services| - i
  {
    if i < |s.services| {
      UnbindSized(if s.services[i].provider == id then Unbind(s, s.services[i].id) else s, i + 1, id);
    }
  }

  lemma UnloadSized(s: State, name: string)
    requires Sized(s)
    ensures Sized(UnloadStep(s, name)) && UnloadStep(s, name).services == s.services
  {
    var k := FindName(s.loaded, 0, name);
    if k < |s.loaded| && s.loaded[k].owner < |s.threads| {
      var l := s.loaded[k];
      UnbindSized(s.(threads := s.threads[l.owner := RemoveComp(s.threads[l.owner], l.comp.handle)]), 0, l.comp.id);
    }
  }

  // ---------- Tables and lists ----------

  predicate LoadedOn(s: State, c: Comp, w: nat) {
    w < |s.threads| && c in s.threads[w] && Loaded(c, w) in s.loaded
  }

  predicate OneEach(r: seq<Entry>) { forall i, j :: 0 <= i < j < |r| ==> r[i].service != r[j].service }

  predicate InManifest(s: State, service: nat) { exists k :: 0 <= k < |s.services| && s.services[k].id == service }

  predicate Known(s: State)
    requires Sized(s)
  {
    forall e :: e in Used(s) ==> InManifest(s, e.service)
  }

  predicate Manifest(v: seq<Service>) { forall i, j :: 0 <= i < j < |v| ==> v[i].id != v[j].id }

  // No list is too long and no object is listed twice.
  predicate Lists(t: seq<seq<Comp>>) {
    && (forall w :: 0 <= w < |t| ==> |t[w]| <= PER_THREAD)
    && (forall w, i, v, j ::
          0 <= w < |t| && 0 <= i < |t[w]| && 0 <= v < |t| && 0 <= j < |t[v]| && (w != v || i != j) ==>
            t[w][i].handle != t[v][j].handle)
  }

  predicate Table(s: State) {
    && |s.loaded| <= LOADED
    && (forall k :: 0 <= k < |s.loaded| ==>
          s.loaded[k].owner < |s.threads| && s.loaded[k].comp in s.threads[s.loaded[k].owner])
    && (forall j, k :: 0 <= j < k < |s.loaded| ==> s.loaded[j].comp.handle != s.loaded[k].comp.handle)
  }

  /** What every order of loading, set-up, unloading and reloading keeps, component ids unique or not. */
  predicate Base(s: State) {
    Manifest(s.services) && Sized(s) && OneEach(Used(s)) && Known(s) && Lists(s.threads) && Table(s) && |s.rings| == |s.threads|
  }

  function Lookup(s: State, service: nat): Option<Entry>
    requires Sized(s)
  {
    var k := FindEntry(s.registry, 0, s.count, service);
    if k == s.count then None else Some(s.registry[k])
  }

  lemma LookupIs(s: State, service: nat)
    requires Sized(s)
    ensures match Lookup(s, service)
            case None => forall e :: e in Used(s) ==> e.service != service
            case Some(e) => e in Used(s) && e.service == service
  {
    var k := FindEntry(s.registry, 0, s.count, service);
    if k < s.count { assert s.registry[k] == Used(s)[k]; }
  }

  lemma LookupFinds(s: State, e: Entry)
    requires Sized(s) && OneEach(Used(s)) && e in Used(s)
    ensures Lookup(s, e.service) == Some(e)
  {
    LookupIs(s, e.service);
    var i :| 0 <= i < |Used(s)| && Used(s)[i] == e;
    var k := FindEntry(s.registry, 0, s.count, e.service);
    assert k < s.count ==> Used(s)[k].service == Used(s)[i].service;
  }

  // ---------- Changes of the registry ----------

  // Only the registry differs.
  predicate SameElsewhere(s: State, n: State) { n == s.(registry := n.registry, count := n.count) }

  // Entry e replaces the one of its service, if there is one.
  ghost predicate Puts(s: State, n: State, e: Entry)
    requires Sized(s)
  {
    && SameElsewhere(s, n) && Sized(n) && OneEach(Used(n))
    && forall x :: x in Used(n) <==> x == e || (x in Used(s) && x.service != e.service)
  }

  lemma WriteSlot(s: State, k: nat, e: Entry)
    requires Sized(s) && OneEach(Used(s)) && k <= s.count && k < REGISTRY
    requires k == FindEntry(s.registry, 0, s.count, e.service)
    ensures Puts(s, s.(registry := s.registry[k := e], count := if k == s.count then s.count + 1 else s.count), e)
  {
    var n := s.(registry := s.registry[k := e], count := if k == s.count then s.count + 1 else s.count);
    var u, v := Used(s), Used(n);
    LookupIs(s, e.service);
    hide FindEntry;
    assert |v| == n.count && forall i :: 0 <= i < |v| ==> v[i] == if i == k then e else u[i];
    forall i | 0 <= i < |u| && i != k ensures u[i].service != e.service && u[i] in v {
      assert v[i] == u[i] && u[i] in u;
      assert k < s.count ==> u[k].service == e.service;
    }
    assert v[k] == e;
  }

  lemma BindPuts(s: State, service: nat, c: Comp, w: nat)
    requires Sized(s) && OneEach(Used(s))
    ensures var n := Bind(s, service, c, w);
            Puts(s, n, Entry(service, Some(c), Some(w), false))
            || (n == s && s.count == REGISTRY && Lookup(s, service) == None)
  {
    var k := FindEntry(s.registry, 0, s.count, service);
    if k < REGISTRY { WriteSlot(s, k, Entry(service, Some(c), Some(w), false)); }
  }

  lemma BindRemotePuts(s: State, service: nat) returns (e: Entry)
    requires Sized(s) && OneEach(Used(s))
    ensures e.service == service && e.remote
    ensures var n := BindRemote(s, service);
            Puts(s, n, e) || (n == s && s.count == REGISTRY && Lookup(s, service) == None)
  {
    var k := FindEntry(s.registry, 0, s.count, service);
    e := Entry(service, None, None, true);
    if k < REGISTRY {
      e := s.registry[k].(service := service, remote := true);
      WriteSlot(s, k, e);
    }
  }

  lemma PutsLookup(s: State, n: State, e: Entry, service: nat)
    requires Sized(s) && OneEach(Used(s)) && Puts(s, n, e)
    ensures Lookup(n, service) == if service == e.service then Some(e) else Lookup(s, service)
  {
    LookupIs(s, service);
    LookupIs(n, service);
    if service == e.service {
      LookupFinds(n, e);
    } else if Lookup(s, service).Some? {
      LookupFinds(n, Lookup(s, service).value);
    }
  }

  lemma PutsKeepsBase(s: State, n: State, e: Entry)
    requires Base(s) && Puts(s, n, e) && InManifest(s, e.service)
    ensures Base(n)
  {
    hide OneEach;
    forall x | x in Used(n) ensures InManifest(n, x.service) {
      if x != e { assert InManifest(s, x.service); }
      assert InManifest(s, x.service);
    }
  }

  // The last element takes the place of element k.
  function SwapOut<T>(u: seq<T>, k: nat): seq<T>
    requires k < |u|
  {
    u[k := u[|u| - 1]][..|u| - 1]
  }

  lemma SwapOutIs<T>(u: seq<T>, k: nat)
    requires k < |u|
    ensures var v := SwapOut(u, k);
            && |v| == |u| - 1
            && (forall i :: 0 <= i < |v| ==> v[i] == u[if i == k then |u| - 1 else i])
            && (forall i :: 0 <= i < |u| && i != k ==> u[i] in v)
  {
    var v := SwapOut(u, k);
    forall i | 0 <= i < |u| && i != k ensures u[i] in v {
      assert u[i] == v[if i == |u| - 1 then k else i];
    }
  }

  lemma UnbindIs(s: State, service: nat)
    requires Sized(s)
    ensures var n, k := Unbind(s, service), FindEntry(s.registry, 0, s.count, service);
            Sized(n) && Used(n) == if k < s.count then SwapOut(Used(s), k) else Used(s)
  {}

  lemma UnbindRemoves(s: State, service: nat)
    requires Sized(s) && OneEach(Used(s))
    ensures var n := Unbind(s, service);
            && Sized(n) && OneEach(Used(n))
            && forall e :: e in Used(n) <==> e in Used(s) && e.service != service
  {
    var n, k, u := Unbind(s, service), FindEntry(s.registry, 0, s.count, service), Used(s);
    LookupIs(s, service);
    UnbindIs(s, service);
    hide Unbind, FindEntry, SwapOut;
    if k < s.count {
      SwapOutIs(u, k);
      assert u[k].service == service;
      forall e | e in u && e.service != service ensures e in Used(n) {
        var i :| 0 <= i < |u| && u[i] == e;
      }
    }
  }

  // Exactly the entries of the services given to this id go.
  lemma {:induction false} UnbindFromRemoves(s: State, i: nat, id: nat)
    requires Sized(s) && OneEach(Used(s)) && i <= |s.services|
    ensures var n := UnbindFrom(s, i, id);
            && n == s.(registry := n.registry, count := n.count) && Sized(n) && OneEach(Used(n))
            && forall e :: e in Used(n) <==> e in Used(s) && !GivenTo(s, i, e.service, id)
    decreases |s.services| - i
  {
    if i < |s.services| {
      var v := s.services[i];
      var t := if v.provider == id then Unbind(s, v.id) else s;
      UnbindRemoves(s, v.id);
      UnbindFromRemoves(t, i + 1, id);
      forall e: Entry ensures GivenTo(s, i, e.service, id) <==>
                              (v.provider == id && v.id == e.service) || GivenTo(t, i + 1, e.service, id) {}
    }
  }

  predicate GivenTo(s: State, i: nat, service: nat, id: nat) {
    exists k :: i <= k < |s.services| && s.services[k].id == service && s.services[k].provider == id
  }

  // ---------- Set-up ----------

  lemma ServiceIsInManifest(s: State, i: nat)
    requires i < |s.services|
    ensures InManifest(s, s.services[i].id)
  {}

  /** What set-up does for one manifest line, ids unique or not: the provider is the first loaded
      component with the id, the thread the first that lists one. */
  lemma SetupOneIs(s: State, i: nat) returns (e: Entry)
    requires Base(s) && i < |s.services|
    ensures var v, n := s.services[i], SetupOne(s, s.services[i]);
            && Base(n) && SameElsewhere(s, n) && e.service == v.id && (n == s || Puts(s, n, e))
            && (v.here ==>
                  var k, w := FindId(s.loaded, 0, v.provider), FindThread(s.threads, 0, v.provider);
                  && (k < |s.loaded| && w < |s.threads| ==> e == Entry(v.id, Some(s.loaded[k].comp), Some(w), false))
                  && (k < |s.loaded| && w < |s.threads| ==>
                        Puts(s, n, e) || (s.count == REGISTRY && Lookup(s, v.id) == None))
                  && (k >= |s.loaded| || w >= |s.threads| ==> n == s))
            && (!v.here ==> e.remote)
  {
    var v := s.services[i];
    var n := SetupOne(s, v);
    ServiceIsInManifest(s, i);
    var k, w := FindId(s.loaded, 0, v.provider), FindThread(s.threads, 0, v.provider);
    e := Entry(v.id, None, None, true);
    if v.here && k < |s.loaded| && w < |s.threads| {
      e := Entry(v.id, Some(s.loaded[k].comp), Some(w), false);
      BindPuts(s, v.id, s.loaded[k].comp, w);
    } else if !v.here && v.reachable {
      e := BindRemotePuts(s, v.id);
    }
    hide Bind, BindRemote, Lists, Table, Known, Manifest, OneEach;
    if n != s { PutsKeepsBase(s, n, e); }
  }

  // ---------- Unloading ----------

  // A list in which no object occurs twice.
  predicate Plain(list: seq<Comp>) {
    forall i, j :: 0 <= i < j < |list| ==> list[i].handle != list[j].handle
  }

  lemma RemoveCompIs(list: seq<Comp>, c: Comp)
    requires Plain(list) && c in list
    ensures var v := RemoveComp(list, c.handle);
            && |v| == |list| - 1 && Plain(v)
            && forall x :: x in v <==> x in list && x != c
  {
    var k, v := FindComp(list, 0, c.handle), RemoveComp(list, c.handle);
    var p :| 0 <= p < |list| && list[p] == c;
    assert k == p;
    SwapOutIs(list, k);
    hide SwapOut;
    forall x | x in list && x != c ensures x in v { var i :| 0 <= i < |list| && list[i] == x; }
  }

  // What unloading entry k of the table leaves behind.
  ghost predicate Unloaded(s: State, n: State, k: nat)
    requires Sized(s) && Sized(n) && k < |s.loaded| && s.loaded[k].owner < |s.threads|
  {
    var l := s.loaded[k];
    && n == s.(registry := n.registry, count := n.count, loaded := n.loaded, threads := n.threads)
    && n.loaded == s.loaded[..k] + s.loaded[k + 1..]
    && n.threads == s.threads[l.owner := RemoveComp(s.threads[l.owner], l.comp.handle)]
    && OneEach(Used(n))
    && forall e :: e in Used(n) <==> e in Used(s) && !GivenTo(s, 0, e.service, l.comp.id)
  }

  lemma UnloadIs(s: State, name: string)
    requires Base(s) && FindName(s.loaded, 0, name) < |s.loaded|
    ensures var k := FindName(s.loaded, 0, name);
            s.loaded[k].owner < |s.threads| && Sized(UnloadStep(s, name)) && Unloaded(s, UnloadStep(s, name), k)
  {
    var k := FindName(s.loaded, 0, name);
    var l := s.loaded[k];
    var t := s.(threads := s.threads[l.owner := RemoveComp(s.threads[l.owner], l.comp.handle)]);
    UnbindFromRemoves(t, 0, l.comp.id);
    hide UnbindFrom, RemoveComp, Lists, Manifest, Known;
    forall e: Entry ensures GivenTo(t, 0, e.service, l.comp.id) <==> GivenTo(s, 0, e.service, l.comp.id) {}
  }

  // Lists only shrink, by the one object that goes.
  lemma UnloadLists(s: State, n: State, k: nat)
    requires Base(s) && k < |s.loaded| && s.loaded[k].owner < |s.threads| && Sized(n) && Unloaded(s, n, k)
    ensures forall w, x :: 0 <= w < |n.threads| ==>
              (x in n.threads[w] <==> x in s.threads[w] && !(w == s.loaded[k].owner && x == s.loaded[k].comp))
    ensures |n.threads[s.loaded[k].owner]| < PER_THREAD && forall w :: 0 <= w < |n.threads| ==> |n.threads[w]| <= |s.threads[w]|
    ensures forall w :: 0 <= w < |n.threads| ==> Plain(n.threads[w])
  {
    var l := s.loaded[k];
    assert Plain(s.threads[l.owner]);
    RemoveCompIs(s.threads[l.owner], l.comp);
    hide RemoveComp, Known, Manifest, OneEach;
    forall w | 0 <= w < |n.threads| ensures Plain(n.threads[w]) { if w != l.owner { assert Plain(s.threads[w]); } }
  }

  // The same property of Lists by membership.
  lemma ListsByMembers(t: seq<seq<Comp>>)
    requires forall w :: 0 <= w < |t| ==> |t[w]| <= PER_THREAD && Plain(t[w])
    requires forall w, v, x, y :: 0 <= w < |t| && 0 <= v < |t| && w != v && x in t[w] && y in t[v] ==> x.handle != y.handle
    ensures Lists(t)
  {
    forall w, i, v, j | 0 <= w < |t| && 0 <= i < |t[w]| && 0 <= v < |t| && 0 <= j < |t[v]| && (w != v || i != j)
      ensures t[w][i].handle != t[v][j].handle
    {
      assert t[w][i] in t[w] && t[v][j] in t[v];
      if w == v { assert Plain(t[w]); }
    }
  }

  lemma ListsApart(t: seq<seq<Comp>>, w: nat, v: nat, x: Comp, y: Comp)
    requires Lists(t) && w < |t| && v < |t| && x in t[w] && y in t[v] && (w != v || x != y)
    ensures x.handle != y.handle
  {
    var i :| 0 <= i < |t[w]| && t[w][i] == x;
    var j :| 0 <= j < |t[v]| && t[v][j] == y;
  }

  lemma UnloadKeepsTable(s: State, n: State, k: nat)
    requires Base(s) && k < |s.loaded| && s.loaded[k].owner < |s.threads| && Sized(n) && Unloaded(s, n, k)
    ensures Table(n) && |n.loaded| < LOADED
    ensures forall j :: 0 <= j < |n.loaded| ==> n.loaded[j] == s.loaded[if j < k then j else j + 1]
    ensures forall j :: 0 <= j < |s.loaded| && j != k ==> LoadedOn(n, s.loaded[j].comp, s.loaded[j].owner)
  {
    UnloadLists(s, n, k);
    hide RemoveComp, Known, Manifest, OneEach, Lists, GivenTo, Plain;
    forall j | 0 <= j < |s.loaded| && j != k ensures LoadedOn(n, s.loaded[j].comp, s.loaded[j].owner) {
      assert s.loaded[j] == n.loaded[if j < k then j else j - 1];
    }
  }

  lemma UnloadKeepsBase(s: State, name: string)
    requires Base(s)
    ensures Base(UnloadStep(s, name)) && UnloadStep(s, name).services == s.services
    ensures UnloadStep(s, name).rings == s.rings
  {
    var k, n := FindName(s.loaded, 0, name), UnloadStep(s, name);
    if k < |s.loaded| {
      UnloadIs(s, name);
      UnloadLists(s, n, k);
      UnloadKeepsTable(s, n, k);
      UnloadedBase(s, n, k);
    }
  }

  lemma UnloadedBase(s: State, n: State, k: nat)
    requires Base(s) && k < |s.loaded| && s.loaded[k].owner < |s.threads| && Sized(n) && Unloaded(s, n, k) && Table(n)
    requires forall w, x :: 0 <= w < |n.threads| && x in n.threads[w] ==> x in s.threads[w]
    requires forall w :: 0 <= w < |n.threads| ==> |n.threads[w]| <= PER_THREAD && Plain(n.threads[w])
    ensures Base(n)
  {
    hide RemoveComp, Table, OneEach, Lists, Manifest, GivenTo;
    forall w, v, x, y | 0 <= w < |n.threads| && 0 <= v < |n.threads| && w != v && x in n.threads[w] && y in n.threads[v]
      ensures x.handle != y.handle
    {
      ListsApart(s.threads, w, v, x, y);
    }
    ListsByMembers(n.threads);
    forall e | e in Used(n) ensures InManifest(n, e.service) { assert InManifest(s, e.service); }
  }

  // ---------- Loading ----------

  // The address is in use by no listed component.
  predicate FreshHandle(s: State, handle: nat) {
    forall w, i :: 0 <= w < |s.threads| && 0 <= i < |s.threads[w]| ==> s.threads[w][i].handle != handle
  }

  // The component joins its thread's list.
  function Listed(s: State, c: Comp, w: nat): State
    requires w < |s.threads|
  {
    s.(threads := s.threads[w := AddComp(s.threads[w], c)])
  }

  predicate MayJoin(s: State, c: Comp, w: nat) {
    w < |s.threads| && |s.threads[w]| < PER_THREAD && FreshHandle(s, c.handle)
  }

  lemma ListedIs(s: State, c: Comp, w: nat)
    requires Base(s) && MayJoin(s, c, w)
    ensures var n := Listed(s, c, w);
            Base(n) && forall v, x :: 0 <= v < |s.threads| ==> (x in n.threads[v] <==> x in s.threads[v] || (v == w && x == c))
  {
    var n := Listed(s, c, w);
    assert Used(n) == Used(s);
    hide Manifest, OneEach;
    assert n.threads[w] == s.threads[w] + [c];
    forall e | e in Used(n) ensures InManifest(n, e.service) { assert InManifest(s, e.service); }
  }

  // The component joins the table.
  function Tabled(s: State, c: Comp, w: nat): State { s.(loaded := s.loaded + [Loaded(c, w)]) }

  lemma TabledIs(s: State, c: Comp, w: nat)
    requires Base(s) && |s.loaded| < LOADED && w < |s.threads| && c in s.threads[w]
    requires forall j :: 0 <= j < |s.loaded| ==> s.loaded[j].comp.handle != c.handle
    ensures Base(Tabled(s, c, w)) && LoadedOn(Tabled(s, c, w), c, w)
  {
    hide Lists, OneEach;
    var n := Tabled(s, c, w);
    assert Used(n) == Used(s);
    forall e | e in Used(n) ensures InManifest(n, e.service) { assert InManifest(s, e.service); }
    forall j | 0 <= j < |n.loaded| ensures n.loaded[j].owner < |n.threads| && n.loaded[j].comp in n.threads[n.loaded[j].owner] {}
  }

  lemma FreshIsNotLoaded(s: State, handle: nat)
    requires Table(s) && FreshHandle(s, handle)
    ensures forall j :: 0 <= j < |s.loaded| ==> s.loaded[j].comp.handle != handle
  {
    forall j | 0 <= j < |s.loaded| ensures s.loaded[j].comp.handle != handle {
      var l := s.loaded[j];
      var i :| 0 <= i < |s.threads[l.owner]| && s.threads[l.owner][i] == l.comp;
    }
  }

  // The new object in the list and in the table, its services not yet bound.
  function Joined(s: State, c: Comp, w: nat): State
    requires w < |s.threads|
  {
    Tabled(Listed(s, c, w), c, w)
  }

  lemma JoinedIs(s: State, c: Comp, w: nat)
    requires Base(s) && MayJoin(s, c, w) && |s.loaded| < LOADED
    ensures var n := Joined(s, c, w);
            && Base(n) && LoadedOn(n, c, w) && n.loaded == s.loaded + [Loaded(c, w)]
            && (forall v, x :: 0 <= v < |s.threads| ==> (x in n.threads[v] <==> x in s.threads[v] || (v == w && x == c)))
            && n == s.(loaded := n.loaded, threads := n.threads) && |n.threads| == |s.threads|
            && Install(s, c, w) == RebindFrom(n, 0, c, w)
  {
    ListedIs(s, c, w);
    FreshIsNotLoaded(s, c.handle);
    hide Base;
    TabledIs(Listed(s, c, w), c, w);
  }

  lemma {:induction false} RebindKeepsBase(s: State, i: nat, c: Comp, w: nat)
    requires Base(s) && i <= |s.services|
    ensures Base(RebindFrom(s, i, c, w)) && SameElsewhere(s, RebindFrom(s, i, c, w))
    decreases |s.services| - i
  {
    if i < |s.services| {
      var v := s.services[i];
      var n := if v.provider == c.id && v.here then Bind(s, v.id, c, w) else s;
      BindPuts(s, v.id, c, w);
      ServiceIsInManifest(s, i);
      if n != s { PutsKeepsBase(s, n, Entry(v.id, Some(c), Some(w), false)); }
      hide Base, Bind;
      RebindKeepsBase(n, i + 1, c, w);
    }
  }

  lemma ReloadIs(s: State, name: string, made: Option<Object>)
    requires Base(s) && (made.Some? ==> FreshHandle(UnloadStep(s, name), made.value.handle))
    ensures Base(ReloadStep(s, name, made)) && ReloadStep(s, name, made).services == s.services
    ensures ReloadStep(s, name, made).rings == s.rings
    ensures var k := FindName(s.loaded, 0, name);
            k < |s.loaded| && made.Some? ==>
              var c := Comp(made.value.handle, s.loaded[k].comp.id, name, made.value.hasHandler);
              && Sized(UnloadStep(s, name)) && MayJoin(UnloadStep(s, name), c, s.loaded[k].owner) && |UnloadStep(s, name).loaded| < LOADED
              && ReloadStep(s, name, made) == Install(UnloadStep(s, name), c, s.loaded[k].owner)
  {
    UnloadKeepsBase(s, name);
    var k := FindName(s.loaded, 0, name);
    if k < |s.loaded| && made.Some? {
      var n, w := UnloadStep(s, name), s.loaded[k].owner;
      var c := Comp(made.value.handle, s.loaded[k].comp.id, name, made.value.hasHandler);
      UnloadIs(s, name);
      UnloadLists(s, n, k);
      UnloadKeepsTable(s, n, k);
      hide UnloadStep, Base, Install, FreshHandle;
      JoinedIs(n, c, w);
      RebindKeepsBase(Joined(n, c, w), 0, c, w);
    }
  }

  /** A thread's list has room when a component is loaded at start (a manifest names at most sixteen
      components per thread), and the allocator hands out addresses that are not in use. */
  predicate Allowed(s: State, a: Action) {
    match a
    case Boot(w, _, _, made) =>
      made.Some? && w < |s.threads| ==> |s.threads[w]| < PER_THREAD && FreshHandle(s, made.value.handle)
    case Reload(name, made) => made.Some? && Sized(s) ==> FreshHandle(UnloadStep(s, name), made.value.handle)
    case _ => true
  }

  lemma BootKeepsBase(s: State, w: nat, id: nat, name: string, made: Option<Object>)
    requires Base(s) && Allowed(s, Boot(w, id, name, made))
    ensures var n := BootStep(s, w, id, name, made);
            Base(n) && n == s.(loaded := n.loaded, threads := n.threads)
  {
    if made.Some? && w < |s.threads| {
      var c := Comp(made.value.handle, id, name, made.value.hasHandler);
      ListedIs(s, c, w);
      FreshIsNotLoaded(s, c.handle);
      hide Base, FreshHandle;
      if |s.loaded| < LOADED { TabledIs(Listed(s, c, w), c, w); }
    }
  }

  // A node with n threads before anything is loaded.
  function Init(services: seq<Service>, n: nat): State {
    State(services, [], seq(n, _ => []), seq(REGISTRY, _ => Entry(0, None, None, false)), 0, seq(n, _ => []), [])
  }

  predicate Booting(s: State, a: Action) { Allowed(s, a) && a.Boot? }

  // Loaded, but nothing set up or sent yet.
  predicate Booted(s: State) {
    Base(s) && s.count == 0 && forall w :: 0 <= w < |s.rings| ==> s.rings[w] == []
  }

  lemma BootsLeaveBooted(services: seq<Service>, n: nat, boots: seq<Action>)
    requires Manifest(services) && Runs.Along(Next, Booting, Init(services, n), boots)
    ensures Booted(Runs.Exec(Next, Init(services, n), boots)) && Runs.Exec(Next, Init(services, n), boots).services == services
  {
    InitIsBooted(services, n);
    var ok := (x: State) => Booted(x) && x.services == services;
    forall s, a | ok(s) && Booting(s, a) ensures ok(Next(s, a)) { BootKeepsBase(s, a.w, a.id, a.name, a.made); }
    hide Booted, Next, Booting, Init;
    Runs.InvariantAlong(Next, Booting, ok, Init(services, n), boots);
  }

  lemma InitIsBooted(services: seq<Service>, n: nat)
    requires Manifest(services)
    ensures Booted(Init(services, n)) && Init(services, n).services == services
  {}

  // ---------- Soundness ----------

  // The manifest gives this service, on this node, to this component id.
  predicate ServedBy(s: State, service: nat, id: nat) {
    exists k :: 0 <= k < |s.services| && s.services[k].here && s.services[k].id == service && s.services[k].provider == id
  }

  predicate Elsewhere(s: State, service: nat) {
    exists k :: 0 <= k < |s.services| && !s.services[k].here && s.services[k].id == service
  }

  /** A local entry names a loaded component that is registered on the entry's thread. */
  predicate EntryOk(s: State, e: Entry) {
    if e.remote then Elsewhere(s, e.service)
    else
      && e.provider.Some? && e.thread.Some?
      && LoadedOn(s, e.provider.value, e.thread.value)
      && ServedBy(s, e.service, e.provider.value.id)
  }

  predicate Entries(s: State)
    requires Sized(s)
  {
    forall e :: e in Used(s) ==> EntryOk(s, e)
  }

  // Thread w would now handle a message with a component that is not on w, or not loaded.
  predicate OffThread(s: State, w: nat)
    requires Sized(s)
  {
    && w < |s.rings| && s.rings[w] != []
    && Target(s, s.rings[w][0]).Some? && !LoadedOn(s, Target(s, s.rings[w][0]).value, w)
  }

  /** One entry per service, every local entry as it should be, and no thread about to handle a
      message off its component's thread. */
  predicate SoundState(s: State) {
    Sized(s) && OneEach(Used(s)) && Entries(s) && forall w :: 0 <= w < |s.rings| ==> !OffThread(s, w)
  }

  // All loaded components with this id are on thread w, and no earlier thread lists one.
  predicate OneHome(s: State, id: nat, w: nat) {
    && (forall j :: 0 <= j < |s.loaded| && s.loaded[j].comp.id == id ==> s.loaded[j].owner == w)
    && (forall v :: 0 <= v < w && v < |s.threads| ==> !HasId(s.threads[v], id))
  }

  predicate Homed(s: State, h: nat -> nat) {
    forall k :: 0 <= k < |s.services| && s.services[k].here ==> OneHome(s, s.services[k].provider, h(s.services[k].provider))
  }

  // Queued messages wait on the home of their service's component id.
  predicate MsgOk(s: State, h: nat -> nat, w: nat, service: nat) {
    exists k :: 0 <= k < |s.services| && s.services[k].here && s.services[k].id == service && h(s.services[k].provider) == w
  }

  predicate Queues(s: State, h: nat -> nat) {
    forall w, m :: 0 <= w < |s.rings| && m in s.rings[w] ==> MsgOk(s, h, w, m)
  }

  predicate Inv(s: State, h: nat -> nat) { Base(s) && Entries(s) && Homed(s, h) && Queues(s, h) }

  lemma HomeFound(s: State, id: nat, w: nat, j: nat)
    requires Table(s) && OneHome(s, id, w) && j < |s.loaded| && s.loaded[j].comp.id == id
    ensures FindThread(s.threads, 0, id) == w == s.loaded[j].owner && LoadedOn(s, s.loaded[j].comp, w)
  {
    var i :| 0 <= i < |s.threads[w]| && s.threads[w][i] == s.loaded[j].comp;
    assert HasId(s.threads[w], id);
  }

  lemma PutsKeepsEntries(s: State, n: State, e: Entry)
    requires Sized(s) && Entries(s) && Puts(s, n, e) && EntryOk(s, e)
    ensures Entries(n)
  {
    forall x | x in Used(n) ensures EntryOk(n, x) { assert EntryOk(s, x); }
  }

  lemma RegistryChangeKeepsInv(s: State, n: State, h: nat -> nat)
    requires Inv(s, h) && SameElsewhere(s, n) && Base(n) && Entries(n)
    ensures Inv(n, h)
  {
    hide Base, Entries;
    forall k | 0 <= k < |n.services| && n.services[k].here ensures OneHome(n, n.services[k].provider, h(n.services[k].provider)) {
      assert OneHome(s, s.services[k].provider, h(s.services[k].provider));
    }
    forall w, m | 0 <= w < |n.rings| && m in n.rings[w] ensures MsgOk(n, h, w, m) { assert MsgOk(s, h, w, m); }
  }

  lemma SetupOneKeepsInv(s: State, i: nat, h: nat -> nat)
    requires Inv(s, h) && i < |s.services|
    ensures Inv(SetupOne(s, s.services[i]), h) && SameElsewhere(s, SetupOne(s, s.services[i]))
  {
    var v, n := s.services[i], SetupOne(s, s.services[i]);
    var e := SetupOneIs(s, i);
    if n != s {
      if v.here { HomeFound(s, v.provider, h(v.provider), FindId(s.loaded, 0, v.provider)); }
      hide SetupOne, Lists, Table, Manifest, OneEach, Known, Queues, Homed;
      assert EntryOk(s, e);
      PutsKeepsEntries(s, n, e);
      RegistryChangeKeepsInv(s, n, h);
    }
  }

  lemma {:induction false} SetupKeepsInv(s: State, i: nat, h: nat -> nat)
    requires Inv(s, h) && i <= |s.services|
    ensures Inv(SetupFrom(s, i), h) && SameElsewhere(s, SetupFrom(s, i))
    decreases |s.services| - i
  {
    if i < |s.services| {
      SetupOneKeepsInv(s, i, h);
      SetupKeepsInv(SetupOne(s, s.services[i]), i + 1, h);
    }
  }

  lemma UnloadKeepsEntries(s: State, n: State, k: nat)
    requires Base(s) && Entries(s) && k < |s.loaded| && s.loaded[k].owner < |s.threads| && Sized(n) && Unloaded(s, n, k)
    ensures Entries(n)
  {
    UnloadKeepsTable(s, n, k);
    hide RemoveComp, Manifest, Table, Lists, OneEach, Known;
    var id := s.loaded[k].comp.id;
    forall e | e in Used(n) ensures EntryOk(n, e) {
      assert EntryOk(s, e);
      if e.remote {
        assert Elsewhere(n, e.service);
      } else {
        var c := e.provider.value;
        var j :| 0 <= j < |s.loaded| && s.loaded[j] == Loaded(c, e.thread.value);
        var v :| 0 <= v < |s.services| && s.services[v].here && s.services[v].id == e.service && s.services[v].provider == c.id;
        assert !GivenTo(s, 0, e.service, id);
        assert c.id != id;
        assert LoadedOn(n, s.loaded[j].comp, s.loaded[j].owner);
        assert ServedBy(n, e.service, c.id);
      }
    }
  }

  lemma ShrinkKeepsHome(s: State, n: State, id: nat, w: nat)
    requires OneHome(s, id, w) && |n.threads| == |s.threads|
    requires forall j :: 0 <= j < |n.loaded| ==> n.loaded[j] in s.loaded
    requires forall v, x :: 0 <= v < |n.threads| && x in n.threads[v] ==> x in s.threads[v]
    ensures OneHome(n, id, w)
  {
    forall j | 0 <= j < |n.loaded| && n.loaded[j].comp.id == id ensures n.loaded[j].owner == w {
      var i :| 0 <= i < |s.loaded| && s.loaded[i] == n.loaded[j];
    }
    forall v | 0 <= v < w && v < |n.threads| ensures !HasId(n.threads[v], id) { IdStays(n.threads[v], s.threads[v], id); }
  }

  lemma IdStays(a: seq<Comp>, b: seq<Comp>, id: nat)
    requires forall x :: x in a && x.id == id ==> x in b
    ensures HasId(a, id) ==> HasId(b, id)
  {
    if HasId(a, id) {
      var i :| 0 <= i < |a| && a[i].id == id;
      assert a[i] in a;
    }
  }

  lemma UnloadKeepsInv(s: State, name: string, h: nat -> nat)
    requires Inv(s, h)
    ensures Inv(UnloadStep(s, name), h)
  {
    var k, n := FindName(s.loaded, 0, name), UnloadStep(s, name);
    UnloadKeepsBase(s, name);
    if k < |s.loaded| {
      UnloadIs(s, name);
      UnloadKeepsEntries(s, n, k);
      UnloadLists(s, n, k);
      UnloadKeepsTable(s, n, k);
      hide UnloadStep, RemoveComp, Base, Entries, OneEach, GivenTo;
      forall j | 0 <= j < |n.services| && n.services[j].here ensures OneHome(n, n.services[j].provider, h(n.services[j].provider)) {
        ShrinkKeepsHome(s, n, s.services[j].provider, h(s.services[j].provider));
      }
      forall w, m | 0 <= w < |n.rings| && m in n.rings[w] ensures MsgOk(n, h, w, m) { assert MsgOk(s, h, w, m); }
    }
  }

  // c may join thread w: every service given to its id has its home there.
  predicate HomeIs(s: State, h: nat -> nat, id: nat, w: nat) {
    forall k :: 0 <= k < |s.services| && s.services[k].here && s.services[k].provider == id ==> h(id) == w
  }

  lemma JoinKeepsHome(s: State, n: State, c: Comp, w: nat, id: nat, home: nat)
    requires OneHome(s, id, home) && |n.threads| == |s.threads| && n.loaded == s.loaded + [Loaded(c, w)]
    requires forall v, x :: 0 <= v < |s.threads| ==> (x in n.threads[v] <==> x in s.threads[v] || (v == w && x == c))
    requires c.id == id ==> home == w
    ensures OneHome(n, id, home)
  {
    forall v | 0 <= v < home && v < |n.threads| ensures !HasId(n.threads[v], id) { IdStays(n.threads[v], s.threads[v], id); }
  }

  lemma JoinedKeepsInv(s: State, c: Comp, w: nat, h: nat -> nat)
    requires Inv(s, h) && MayJoin(s, c, w) && |s.loaded| < LOADED && HomeIs(s, h, c.id, w)
    ensures Inv(Joined(s, c, w), h)
  {
    var n := Joined(s, c, w);
    JoinedIs(s, c, w);
    assert Used(n) == Used(s) by { hide Joined; }
    hide Joined, Base, MayJoin;
    forall e | e in Used(n) ensures EntryOk(n, e) { assert EntryOk(s, e); }
    forall j | 0 <= j < |n.services| && n.services[j].here ensures OneHome(n, n.services[j].provider, h(n.services[j].provider)) {
      JoinKeepsHome(s, n, c, w, s.services[j].provider, h(s.services[j].provider));
    }
    forall v, m | 0 <= v < |n.rings| && m in n.rings[v] ensures MsgOk(n, h, v, m) { assert MsgOk(s, h, v, m); }
  }

  lemma RebindOneKeepsInv(s: State, i: nat, c: Comp, w: nat, h: nat -> nat)
    requires Inv(s, h) && LoadedOn(s, c, w) && i < |s.services| && s.services[i].here && s.services[i].provider == c.id
    ensures var n := Bind(s, s.services[i].id, c, w);
            Inv(n, h) && SameElsewhere(s, n)
  {
    var v, e := s.services[i], Entry(s.services[i].id, Some(c), Some(w), false);
    var n := Bind(s, v.id, c, w);
    BindPuts(s, v.id, c, w);
    ServiceIsInManifest(s, i);
    hide Bind, Lists, Table, Manifest, OneEach, Known, Queues, Homed;
    if n != s {
      PutsKeepsBase(s, n, e);
      assert EntryOk(s, e);
      PutsKeepsEntries(s, n, e);
      RegistryChangeKeepsInv(s, n, h);
    }
  }

  lemma {:induction false} RebindKeepsInv(s: State, i: nat, c: Comp, w: nat, h: nat -> nat)
    requires Inv(s, h) && LoadedOn(s, c, w) && i <= |s.services|
    ensures Inv(RebindFrom(s, i, c, w), h)
    decreases |s.services| - i
  {
    hide Bind, Lists, Table, Manifest, OneEach, Known, Queues, Homed, Entries;
    if i < |s.services| {
      var v := s.services[i];
      if v.provider == c.id && v.here {
        RebindOneKeepsInv(s, i, c, w, h);
        RebindKeepsInv(Bind(s, v.id, c, w), i + 1, c, w, h);
      } else {
        RebindKeepsInv(s, i + 1, c, w, h);
      }
    }
  }

  lemma ReloadKeepsInv(s: State, name: string, made: Option<Object>, h: nat -> nat)
    requires Inv(s, h) && Allowed(s, Reload(name, made))
    ensures Inv(ReloadStep(s, name, made), h)
  {
    UnloadKeepsInv(s, name, h);
    UnloadKeepsBase(s, name);
    ReloadIs(s, name, made);
    var k := FindName(s.loaded, 0, name);
    if k < |s.loaded| && made.Some? {
      var n, c, w := UnloadStep(s, name), Comp(made.value.handle, s.loaded[k].comp.id, name, made.value.hasHandler), s.loaded[k].owner;
      assert HomeIs(n, h, c.id, w) by {
        forall j | 0 <= j < |n.services| && n.services[j].here && n.services[j].provider == c.id ensures h(c.id) == w {
          assert OneHome(s, s.services[j].provider, h(s.services[j].provider));
        }
      }
      hide UnloadStep, ReloadStep, Install, MayJoin, Entries, Homed, Queues;
      JoinedKeepsInv(n, c, w, h);
      JoinedIs(n, c, w);
      RebindKeepsInv(Joined(n, c, w), 0, c, w, h);
    }
  }

  // A used entry of a service this node gives to a component is that component's, on its home.
  lemma LocalEntry(s: State, e: Entry, k: nat, h: nat -> nat)
    requires Inv(s, h) && e in Used(s) && k < |s.services| && s.services[k].here && s.services[k].id == e.service
    ensures !e.remote && e.provider.Some? && e.thread.Some? && LoadedOn(s, e.provider.value, e.thread.value)
    ensures e.provider.value.id == s.services[k].provider && e.thread.value == h(s.services[k].provider)
  {
    hide Queues, Table, Lists, Known, OneEach;
    assert EntryOk(s, e);
    assert !e.remote;
    var c, w := e.provider.value, e.thread.value;
    var j :| 0 <= j < |s.services| && s.services[j].here && s.services[j].id == e.service && s.services[j].provider == c.id;
    assert j == k;
    var i :| 0 <= i < |s.loaded| && s.loaded[i] == Loaded(c, w);
    assert OneHome(s, s.services[k].provider, h(s.services[k].provider));
  }

  lemma RingChangeKeepsInv(s: State, n: State, h: nat -> nat)
    requires Inv(s, h) && n == s.(rings := n.rings, ran := n.ran) && |n.rings| == |s.rings| && Queues(n, h)
    ensures Inv(n, h)
  {
    assert Used(n) == Used(s);
    hide OneEach, Lists, Manifest, Queues;
    forall e | e in Used(n) ensures EntryOk(n, e) && InManifest(n, e.service) { assert EntryOk(s, e) && InManifest(s, e.service); }
    forall k | 0 <= k < |n.services| && n.services[k].here ensures OneHome(n, n.services[k].provider, h(n.services[k].provider)) {
      assert OneHome(s, s.services[k].provider, h(s.services[k].provider));
    }
  }

  lemma SendKeepsInv(s: State, service: nat, h: nat -> nat)
    requires Inv(s, h)
    ensures Inv(SendStep(s, service), h)
  {
    var n := SendStep(s, service);
    LookupIs(s, service);
    if n != s {
      var e := Lookup(s, service).value;
      assert EntryOk(s, e);
      var j :| 0 <= j < |s.services| && s.services[j].here && s.services[j].id == service
        && s.services[j].provider == e.provider.value.id;
      LocalEntry(s, e, j, h);
      hide Base, Entries, Homed;
      assert MsgOk(n, h, e.thread.value, service);
      forall w, m | 0 <= w < |n.rings| && m in n.rings[w] ensures MsgOk(n, h, w, m) {
        assert m in s.rings[w] ==> MsgOk(s, h, w, m);
      }
      RingChangeKeepsInv(s, n, h);
    }
  }

  lemma HandleKeepsInv(s: State, w: nat, h: nat -> nat)
    requires Inv(s, h)
    ensures Inv(HandleStep(s, w), h)
  {
    var n := HandleStep(s, w);
    if w < |s.rings| && s.rings[w] != [] {
      hide Entries, Homed, OneEach, Known, Lists, Table, Manifest;
      forall v, m | 0 <= v < |n.rings| && m in n.rings[v] ensures MsgOk(n, h, v, m) {
        assert m in s.rings[v] && MsgOk(s, h, v, m);
      }
      RingChangeKeepsInv(s, n, h);
    }
  }

  /** Wherever the message at the head of thread w's ring came from and whatever was unloaded or
      reloaded since it was queued: the handler it reaches belongs to a component that is loaded
      now, is registered on w, and owns the service according to the manifest. */
  lemma HandlerRunsOnItsThread(s: State, w: nat, h: nat -> nat)
    requires Inv(s, h) && w < |s.rings| && s.rings[w] != [] && Target(s, s.rings[w][0]).Some?
    ensures var c := Target(s, s.rings[w][0]).value;
            LoadedOn(s, c, w) && c.hasHandler && ServedBy(s, s.rings[w][0], c.id)
            && HandleStep(s, w).ran == s.ran + [(w, c)]
  {
    var m := s.rings[w][0];
    assert m in s.rings[w] && MsgOk(s, h, w, m);
    var k :| 0 <= k < |s.services| && s.services[k].here && s.services[k].id == m && h(s.services[k].provider) == w;
    LookupIs(s, m);
    LocalEntry(s, Lookup(s, m).value, k, h);
  }

  lemma InvIsSound(s: State, h: nat -> nat)
    requires Inv(s, h)
    ensures SoundState(s)
  {
    forall w | 0 <= w < |s.rings| ensures !OffThread(s, w) {
      if s.rings[w] != [] && Target(s, s.rings[w][0]).Some? { HandlerRunsOnItsThread(s, w, h); }
    }
  }

  // Everything but loading at start.
  predicate AfterStart(s: State, a: Action) { Allowed(s, a) && !a.Boot? }

  lemma StepKeepsInv(s: State, a: Action, h: nat -> nat)
    requires Inv(s, h) && AfterStart(s, a)
    ensures Inv(Next(s, a), h)
  {
    match a
    case Setup => SetupKeepsInv(s, 0, h);
    case Unload(name) => UnloadKeepsInv(s, name, h);
    case Reload(name, made) => ReloadKeepsInv(s, name, made, h);
    case Send(service) => SendKeepsInv(s, service, h);
    case Handle(w) => HandleKeepsInv(s, w, h);
  }

  lemma ListedKeepsInv(s: State, c: Comp, w: nat, h: nat -> nat)
    requires Inv(s, h) && MayJoin(s, c, w) && h(c.id) == w
    ensures Inv(Listed(s, c, w), h)
  {
    var n := Listed(s, c, w);
    ListedIs(s, c, w);
    assert Used(n) == Used(s) && n == s.(threads := n.threads);
    hide Listed, Base, MayJoin;
    forall e | e in Used(n) ensures EntryOk(n, e) { assert EntryOk(s, e); }
    forall j | 0 <= j < |n.services| && n.services[j].here ensures OneHome(n, n.services[j].provider, h(n.services[j].provider)) {
      var id := s.services[j].provider;
      assert OneHome(s, id, h(id));
      forall v | 0 <= v < h(id) && v < |n.threads| ensures !HasId(n.threads[v], id) { IdStays(n.threads[v], s.threads[v], id); }
    }
    forall v, m | 0 <= v < |n.rings| && m in n.rings[v] ensures MsgOk(n, h, v, m) { assert MsgOk(s, h, v, m); }
  }

  lemma BootKeepsInv(s: State, w: nat, id: nat, name: string, made: Option<Object>, h: nat -> nat)
    requires Inv(s, h) && Allowed(s, Boot(w, id, name, made)) && h(id) == w
    ensures Inv(BootStep(s, w, id, name, made), h)
  {
    if made.Some? && w < |s.threads| {
      var c := Comp(made.value.handle, id, name, made.value.hasHandler);
      if |s.loaded| < LOADED { JoinedKeepsInv(s, c, w, h); } else { ListedKeepsInv(s, c, w, h); }
    }
  }

  // Every load of an id is on thread h(id).
  function OnHome(h: nat -> nat): (State, Action) -> bool {
    (s: State, a: Action) => Allowed(s, a) && (a.Boot? ==> h(a.id) == a.w)
  }

  /** In particular with ids that are loaded once: if every load of an id goes to one thread h(id), then
      any sequence of loads, set-ups, unloads, reloads, sends and handling, in any order, is sound. */
  lemma RoutingIsSound(services: seq<Service>, n: nat, run: seq<Action>, h: nat -> nat)
    requires Manifest(services) && Runs.Along(Next, OnHome(h), Init(services, n), run)
    ensures SoundState(Runs.Exec(Next, Init(services, n), run))
  {
    InitIsBooted(services, n);
    var s0 := Init(services, n);
    assert forall w :: 0 <= w < |s0.threads| ==> s0.threads[w] == [];
    assert Inv(s0, h);
    var inv := (x: State) => Inv(x, h);
    hide Inv, Next, AfterStart, Booted, Init, SoundState, Manifest;
    forall s, a | inv(s) && OnHome(h)(s, a) ensures inv(Next(s, a)) {
      if a.Boot? { NextBoot(s, a, h); } else { StepKeepsInv(s, a, h); }
    }
    Runs.InvariantAlong(Next, OnHome(h), inv, s0, run);
    InvIsSound(Runs.Exec(Next, s0, run), h);
  }

  lemma NextBoot(s: State, a: Action, h: nat -> nat)
    requires Inv(s, h) && a.Boot? && Allowed(s, a) && h(a.id) == a.w
    ensures Inv(Next(s, a), h)
  {
    BootKeepsInv(s, a.w, a.id, a.name, a.made, h);
  }

  /** Some loaded component of an id that provides a service here is not on the first thread that
      lists the id. */
  predicate Crossing(s: State) {
    exists k, j :: 0 <= k < |s.services| && 0 <= j < |s.loaded| && Crosses(s, k, j)
  }

  predicate Crosses(s: State, k: nat, j: nat)
    requires k < |s.services| && j < |s.loaded|
  {
    && s.services[k].here && s.loaded[j].comp.id == s.services[k].provider
    && s.loaded[j].owner != FindThread(s.threads, 0, s.services[k].provider)
  }

  // The home of an id: the first thread that lists it.
  function HomesOf(s: State): nat -> nat { (id: nat) => FindThread(s.threads, 0, id) }

  lemma BootedInv(s: State)
    requires Booted(s) && !Crossing(s)
    ensures Inv(s, HomesOf(s))
  {
    var h := HomesOf(s);
    assert Used(s) == [];
    forall k | 0 <= k < |s.services| && s.services[k].here ensures OneHome(s, s.services[k].provider, h(s.services[k].provider)) {
      forall j | 0 <= j < |s.loaded| && s.loaded[j].comp.id == s.services[k].provider
        ensures s.loaded[j].owner == h(s.services[k].provider)
      {
        assert !Crosses(s, k, j);
      }
    }
  }

  /** If nothing crosses after loading, every later run is sound. */
  lemma NoCrossingIsSound(s: State, run: seq<Action>)
    requires Booted(s) && !Crossing(s) && Runs.Along(Next, AfterStart, s, run)
    ensures SoundState(Runs.Exec(Next, s, run))
  {
    var h := HomesOf(s);
    BootedInv(s);
    var inv := (x: State) => Inv(x, h);
    hide Inv, Next, AfterStart, Booted, Crossing;
    forall x, a | inv(x) && AfterStart(x, a) ensures inv(Next(x, a)) { StepKeepsInv(x, a, h); }
    Runs.InvariantAlong(Next, AfterStart, inv, s, run);
    InvIsSound(Runs.Exec(Next, s, run), h);
  }

  // ---------- What set-up and reload leave in the registry ----------

  function Ids(v: seq<Service>): (r: set<nat>)
    ensures |r| <= |v|
    ensures forall k :: 0 <= k < |v| ==> v[k].id in r
  {
    if v == [] then {} else Ids(v[..|v| - 1]) + {v[|v| - 1].id}
  }

  function EntryIds(r: seq<Entry>): (x: set<nat>)
    ensures forall i :: 0 <= i < |r| ==> r[i].service in x
    ensures forall y :: y in x ==> exists i :: 0 <= i < |r| && r[i].service == y
  {
    if r == [] then {} else EntryIds(r[..|r| - 1]) + {r[|r| - 1].service}
  }

  lemma {:induction false} DistinctEntries(r: seq<Entry>)
    requires OneEach(r)
    ensures |EntryIds(r)| == |r|
    decreases |r|
  {
    if r != [] {
      DistinctEntries(r[..|r| - 1]);
      assert r[|r| - 1].service !in EntryIds(r[..|r| - 1]);
    }
  }

  lemma SubsetCount(a: set<nat>, b: set<nat>)
    requires a <= b
    ensures |a| <= |b|
    decreases a
  {
    if a != {} {
      var x :| x in a;
      SubsetCount(a - {x}, b - {x});
    }
  }

  lemma UsedIdsAreKnown(s: State, absent: nat)
    requires Sized(s) && Known(s) && Lookup(s, absent) == None
    ensures EntryIds(Used(s)) <= Ids(s.services) - {absent}
  {
    LookupIs(s, absent);
    hide Lookup;
    forall y | y in EntryIds(Used(s)) ensures y in Ids(s.services) - {absent} {
      var i :| 0 <= i < |Used(s)| && Used(s)[i].service == y;
      assert Used(s)[i] in Used(s) && InManifest(s, Used(s)[i].service);
    }
  }

  // A service of a manifest that fits the table finds a free slot if it has no entry.
  lemma RoomForAbsent(s: State, k: nat)
    requires Base(s) && |s.services| <= REGISTRY && k < |s.services| && Lookup(s, s.services[k].id) == None
    ensures s.count < REGISTRY
  {
    hide Lists, Table, Manifest, Lookup, EntryIds, Ids, OneEach, Known;
    DistinctEntries(Used(s));
    UsedIdsAreKnown(s, s.services[k].id);
    SubsetCount(EntryIds(Used(s)), Ids(s.services) - {s.services[k].id});
  }

  // The entry set-up makes for a service of this node, if its component is loaded and listed.
  function SetupEntry(s: State, v: Service): Option<Entry> {
    var k, w := FindId(s.loaded, 0, v.provider), FindThread(s.threads, 0, v.provider);
    if v.here && k < |s.loaded| && w < |s.threads|
    then Some(Entry(v.id, Some(s.loaded[k].comp), Some(w), false))
    else None
  }

  lemma SetupOneLookup(s: State, i: nat, k: nat)
    requires Base(s) && |s.services| <= REGISTRY && i < |s.services| && k < |s.services|
    ensures var n := SetupOne(s, s.services[i]);
            && Base(n) && SameElsewhere(s, n)
            && (i != k ==> Lookup(n, s.services[k].id) == Lookup(s, s.services[k].id))
            && (i == k && SetupEntry(s, s.services[k]).Some? ==> Lookup(n, s.services[k].id) == SetupEntry(s, s.services[k]))
  {
    var n := SetupOne(s, s.services[i]);
    if Lookup(s, s.services[i].id) == None { RoomForAbsent(s, i); }
    var e := SetupOneIs(s, i);
    assert i != k ==> s.services[i].id != s.services[k].id;
    hide SetupOne, Lookup, Lists, Table, Manifest, Known, Puts;
    if n != s { PutsLookup(s, n, e, s.services[k].id); }
  }

  lemma {:induction false} SetupLookup(s: State, i: nat, k: nat)
    requires Base(s) && |s.services| <= REGISTRY && i <= |s.services| && k < |s.services|
    ensures var n := SetupFrom(s, i);
            && Base(n) && SameElsewhere(s, n)
            && (k < i ==> Lookup(n, s.services[k].id) == Lookup(s, s.services[k].id))
            && (i <= k && SetupEntry(s, s.services[k]).Some? ==> Lookup(n, s.services[k].id) == SetupEntry(s, s.services[k]))
    decreases |s.services| - i
  {
    hide Base, SetupOne, Lookup, FindId, FindThread;
    if i < |s.services| {
      SetupOneLookup(s, i, k);
      BaseIsSized(s);
      SetupLookup(SetupOne(s, s.services[i]), i + 1, k);
    }
  }

  lemma {:induction false} SetupKeepsBase(s: State, i: nat)
    requires Base(s) && i <= |s.services|
    ensures Base(SetupFrom(s, i)) && SameElsewhere(s, SetupFrom(s, i))
    decreases |s.services| - i
  {
    if i < |s.services| {
      var e := SetupOneIs(s, i);
      hide Base, SetupOne, Puts;
      SetupKeepsBase(SetupOne(s, s.services[i]), i + 1);
    }
  }

  lemma RebindOneLookup(s: State, i: nat, c: Comp, w: nat, k: nat)
    requires Base(s) && |s.services| <= REGISTRY && i < |s.services| && k < |s.services|
    ensures var v := s.services[i];
            var n := if v.provider == c.id && v.here then Bind(s, v.id, c, w) else s;
            && Base(n) && SameElsewhere(s, n)
            && Lookup(n, s.services[k].id) ==
                 if i == k && v.provider == c.id && v.here then Some(Entry(v.id, Some(c), Some(w), false))
                 else Lookup(s, s.services[k].id)
  {
    var v := s.services[i];
    if v.provider == c.id && v.here {
      var n := Bind(s, v.id, c, w);
      if Lookup(s, v.id) == None { RoomForAbsent(s, i); }
      BindPuts(s, v.id, c, w);
      ServiceIsInManifest(s, i);
      assert i != k ==> v.id != s.services[k].id;
      hide Bind, Lookup, Lists, Table, Manifest, Known;
      PutsKeepsBase(s, n, Entry(v.id, Some(c), Some(w), false));
      PutsLookup(s, n, Entry(v.id, Some(c), Some(w), false), s.services[k].id);
    }
  }

  lemma {:induction false} RebindLookup(s: State, i: nat, c: Comp, w: nat, k: nat)
    requires Base(s) && |s.services| <= REGISTRY && i <= |s.services| && k < |s.services|
    ensures var n := RebindFrom(s, i, c, w);
            && Base(n) && SameElsewhere(s, n)
            && Lookup(n, s.services[k].id) ==
                 if i <= k && s.services[k].provider == c.id && s.services[k].here
                 then Some(Entry(s.services[k].id, Some(c), Some(w), false))
                 else Lookup(s, s.services[k].id)
    decreases |s.services| - i
  {
    hide Base, Bind, Lookup;
    if i < |s.services| {
      RebindOneLookup(s, i, c, w, k);
      BaseIsSized(s);
      RebindLookup(if s.services[i].provider == c.id && s.services[i].here then Bind(s, s.services[i].id, c, w) else s,
                   i + 1, c, w, k);
    }
  }

  // What set-up leaves for a line: its own entry, or what was there.
  predicate LineDone(s: State, before: Option<Entry>, v: Service, found: Option<Entry>) {
    if SetupEntry(s, v).Some? then found == SetupEntry(s, v)
    else if !v.here && v.reachable then found.Some? && found.value.remote && found.value.service == v.id
    else found == before
  }

  lemma SetupOneDone(s: State, i: nat)
    requires Base(s) && |s.services| <= REGISTRY && i < |s.services|
    ensures var v := s.services[i];
            var n := SetupOne(s, v);
            Sized(n) && LineDone(s, Lookup(s, v.id), v, Lookup(n, v.id))
  {
    var v := s.services[i];
    SetupOneLookup(s, i, i);
    if !v.here && v.reachable {
      if Lookup(s, v.id) == None { RoomForAbsent(s, i); }
      var e := BindRemotePuts(s, v.id);
      hide Lookup, BindRemote, Lists, Table, Manifest, Known;
      PutsLookup(s, BindRemote(s, v.id), e, v.id);
    }
  }

  lemma {:induction false} SetupDone(s: State, i: nat, k: nat)
    requires Base(s) && |s.services| <= REGISTRY && i <= |s.services| && k < |s.services|
    ensures var v, n := s.services[k], SetupFrom(s, i);
            && Sized(n)
            && (if i <= k then LineDone(s, Lookup(s, v.id), v, Lookup(n, v.id)) else Lookup(n, v.id) == Lookup(s, v.id))
    decreases |s.services| - i
  {
    hide Base, SetupOne, Lookup, FindId, FindThread;
    BaseIsSized(s);
    if i < |s.services| {
      SetupOneLookup(s, i, k);
      if i == k { SetupOneDone(s, i); }
      SetupDone(SetupOne(s, s.services[i]), i + 1, k);
    }
  }

  /** The table after set-up, for every manifest that fits: a service of this node has an entry exactly if
      its component is loaded, with the first loaded component of the id and the first thread that lists
      it; a service of another node has an entry, a remote one, exactly if a path to it is given. */
  lemma SetupTable(s: State, k: nat)
    requires Booted(s) && |s.services| <= REGISTRY && k < |s.services|
    ensures var v, n := s.services[k], Next(s, Setup);
            && Sized(n) && n.loaded == s.loaded && n.threads == s.threads && n.rings == s.rings
            && (v.here ==> Lookup(n, v.id) == SetupEntry(s, v) && (SetupEntry(s, v).Some? <==> IsLoaded(s, v.provider)))
            && (!v.here ==> (Lookup(n, v.id).Some? <==> v.reachable))
            && (!v.here && v.reachable ==> Lookup(n, v.id).value.remote)
  {
    SetupDone(s, 0, k);
    SetupKeepsBase(s, 0);
    if IsLoaded(s, s.services[k].provider) { ListedThreadFound(s, FindId(s.loaded, 0, s.services[k].provider)); }
    hide SetupFrom, Lists, Manifest, Known, Table;
  }

  /** One set-up line, ids unique or not: its entry is as it should be if and only if the first
      loaded component of the id is on the first thread that lists the id. */
  lemma SetupEntryIff(s: State, i: nat)
    requires Base(s) && i < |s.services| && SetupEntry(s, s.services[i]).Some?
    ensures var n := SetupOne(s, s.services[i]);
            EntryOk(n, SetupEntry(s, s.services[i]).value) <==>
              s.loaded[FindId(s.loaded, 0, s.services[i].provider)].owner == FindThread(s.threads, 0, s.services[i].provider)
  {
    var v := s.services[i];
    var k, w := FindId(s.loaded, 0, v.provider), FindThread(s.threads, 0, v.provider);
    var e := SetupOneIs(s, i);
    var n := SetupOne(s, v);
    hide SetupOne, Lists, Manifest, Known;
    assert ServedBy(n, v.id, v.provider);
    if LoadedOn(n, s.loaded[k].comp, w) {
      var j :| 0 <= j < |s.loaded| && s.loaded[j] == Loaded(s.loaded[k].comp, w);
      assert j == k;
    }
  }

  // ---------- A crossing id breaks a run ----------

  ghost function Bound(list: seq<Comp>): (b: nat)
    ensures forall i :: 0 <= i < |list| ==> list[i].handle < b
  {
    if list == [] then 0
    else
      var r, l := Bound(list[..|list| - 1]), list[|list| - 1].handle;
      if l < r then r else l + 1
  }

  ghost function BoundAll(t: seq<seq<Comp>>): (b: nat)
    ensures forall w, i :: 0 <= w < |t| && 0 <= i < |t[w]| ==> t[w][i].handle < b
  {
    if t == [] then 0
    else
      var r, l := BoundAll(t[..|t| - 1]), Bound(t[|t| - 1]);
      if l < r then r else l
  }

  lemma FreshExists(s: State) returns (handle: nat)
    ensures FreshHandle(s, handle)
  {
    handle := BoundAll(s.threads);
  }

  // Unloading the same name until the component at index j is the first that has it.
  lemma {:induction false} ReachByName(s: State, j: nat) returns (run: seq<Action>, t: State)
    requires Base(s) && j < |s.loaded|
    ensures Runs.Leads(Next, AfterStart, s, run, t) && Base(t)
    ensures t.services == s.services && t.rings == s.rings
    ensures var k := FindName(t.loaded, 0, s.loaded[j].comp.name); k < |t.loaded| && t.loaded[k] == s.loaded[j]
    decreases j
  {
    hide UnloadStep, Base, Next, AfterStart;
    var name := s.loaded[j].comp.name;
    var k := FindName(s.loaded, 0, name);
    if k == j {
      run, t := [], s;
    } else {
      BaseIsSized(s);
      UnloadOther(s, j, name);
      var rest;
      rest, t := ReachByName(UnloadStep(s, name), j - 1);
      run := [Unload(name)] + rest;
      assert run[1..] == rest;
    }
  }

  lemma UnloadOther(s: State, j: nat, name: string)
    requires Base(s) && j < |s.loaded| && FindName(s.loaded, 0, name) < j
    ensures var n := UnloadStep(s, name);
            && Base(n) && n.services == s.services && n.rings == s.rings && j - 1 < |n.loaded| && n.loaded[j - 1] == s.loaded[j]
            && Next(s, Unload(name)) == n && AfterStart(s, Unload(name))
  {
    var k, n := FindName(s.loaded, 0, name), UnloadStep(s, name);
    UnloadKeepsBase(s, name);
    UnloadIs(s, name);
    UnloadKeepsTable(s, n, k);
  }

  lemma BaseIsSized(s: State)
    requires Base(s)
    ensures Sized(s)
  {}

  // The first message of a service, sent after set-up.
  lemma FirstSend(s: State, service: nat, e: Entry)
    requires Base(s) && Lookup(s, service) == Some(e) && !e.remote && e.thread.Some? && e.thread.value < |s.rings|
    requires s.rings[e.thread.value] == []
    ensures SendStep(s, service) == s.(rings := s.rings[e.thread.value := [service]]) && Base(SendStep(s, service))
  {
    assert [] + [service] == [service];
    var n := SendStep(s, service);
    assert Used(n) == Used(s);
    hide OneEach, Lists, Manifest, FindEntry;
    forall x | x in Used(n) ensures InManifest(n, x.service) { assert InManifest(s, x.service); }
  }

  // A reload takes the service over on the component's own thread.
  lemma ReloadTakesOver(s: State, name: string, made: Object, k: nat)
    requires Base(s) && |s.services| <= REGISTRY && FreshHandle(UnloadStep(s, name), made.handle)
    requires FindName(s.loaded, 0, name) < |s.loaded| && k < |s.services| && s.services[k].here
    requires s.loaded[FindName(s.loaded, 0, name)].comp.id == s.services[k].provider
    ensures var n, l := ReloadStep(s, name, Some(made)), s.loaded[FindName(s.loaded, 0, name)];
            var c := Comp(made.handle, l.comp.id, name, made.hasHandler);
            && Base(n) && n.services == s.services && n.rings == s.rings && |n.threads| == |s.threads|
            && Lookup(n, s.services[k].id) == Some(Entry(s.services[k].id, Some(c), Some(l.owner), false))
            && (forall w :: 0 <= w < |n.threads| && w != l.owner ==> c !in n.threads[w])
  {
    var l := s.loaded[FindName(s.loaded, 0, name)];
    var c, u := Comp(made.handle, l.comp.id, name, made.hasHandler), UnloadStep(s, name);
    UnloadKeepsBase(s, name);
    ReloadIs(s, name, Some(made));
    hide UnloadStep, ReloadStep, Install, RebindFrom, Lookup, Base;
    JoinedIs(u, c, l.owner);
    RebindLookup(Joined(u, c, l.owner), 0, c, l.owner, k);
    FreshIsNowhere(u, c);
  }

  lemma FreshIsNowhere(s: State, c: Comp)
    requires FreshHandle(s, c.handle)
    ensures forall w :: 0 <= w < |s.threads| ==> c !in s.threads[w]
  {}

  lemma ListedThreadFound(s: State, j: nat)
    requires Table(s) && j < |s.loaded|
    ensures FindThread(s.threads, 0, s.loaded[j].comp.id) < |s.threads|
    ensures FindId(s.loaded, 0, s.loaded[j].comp.id) < |s.loaded|
  {
    var l := s.loaded[j];
    var i :| 0 <= i < |s.threads[l.owner]| && s.threads[l.owner][i] == l.comp;
    assert HasId(s.threads[l.owner], l.comp.id);
  }

  // Set-up, then one send: the message waits on the first thread that lists the id.
  lemma SetupAndSend(s: State, k: nat, j: nat) returns (t: State)
    requires Booted(s) && |s.services| <= REGISTRY && k < |s.services| && j < |s.loaded| && Crosses(s, k, j)
    ensures Base(SetupFrom(s, 0)) && t == SendStep(SetupFrom(s, 0), s.services[k].id) && Base(t)
    ensures t.services == s.services && t.loaded == s.loaded && t.threads == s.threads
    ensures var w := FindThread(s.threads, 0, s.services[k].provider);
            w < |t.rings| && t.rings[w] == [s.services[k].id]
  {
    ListedThreadFound(s, j);
    SetupLookup(s, 0, k);
    var n := SetupFrom(s, 0);
    hide SetupFrom, Lookup, SendStep, Lists, Table, Manifest, Known, OneEach;
    FirstSend(n, s.services[k].id, SetupEntry(s, s.services[k]).value);
    t := SendStep(n, s.services[k].id);
  }

  /** A crossing id breaks a run in program order: set up, send to the service, reload the component
      that is not on the first thread (unloading others of its name before), and that first thread
      is about to handle the message with a component of another thread. */
  lemma CrossingBreaks(s: State, k: nat, j: nat) returns (run: seq<Action>, t: State)
    requires Booted(s) && |s.services| <= REGISTRY && k < |s.services| && j < |s.loaded| && Crosses(s, k, j)
    ensures run != [] && run[0] == Setup && Runs.Leads(Next, AfterStart, s, run, t)
    ensures Sized(t) && OffThread(t, FindThread(s.threads, 0, s.services[k].provider))
  {
    var w, name := FindThread(s.threads, 0, s.services[k].provider), s.loaded[j].comp.name;
    var s2 := SetupAndSend(s, k, j);
    var unloads, s3 := ReachByName(s2, j);
    var handle := FreshExists(UnloadStep(s3, name));
    ReloadTakesOver(s3, name, Object(handle, true), k);
    t := ReloadStep(s3, name, Some(Object(handle, true)));
    var first := [Setup, Send(s.services[k].id)];
    SetupSendLeads(s, s.services[k].id, s2);
    Runs.Append(Next, AfterStart, s, first, s2, unloads, s3);
    ReloadLeads(s, first + unloads, s3, name, Object(handle, true));
    run := first + unloads + [Reload(name, Some(Object(handle, true)))];
    hide Next, AfterStart, ReloadStep, UnloadStep, Base, FindThread;
    OffThreadAt(t, w, s.services[k].id, Comp(handle, s.loaded[j].comp.id, name, true), s.loaded[j].owner);
  }

  lemma OffThreadAt(t: State, w: nat, service: nat, c: Comp, v: nat)
    requires Base(t) && w < |t.rings| && t.rings[w] == [service] && c.hasHandler && c !in t.threads[w]
    requires Lookup(t, service) == Some(Entry(service, Some(c), Some(v), false))
    ensures Sized(t) && OffThread(t, w)
  {}

  lemma SetupSendLeads(s: State, service: nat, t: State)
    requires Sized(s) && Sized(SetupFrom(s, 0)) && t == SendStep(SetupFrom(s, 0), service)
    ensures Runs.Leads(Next, AfterStart, s, [Setup, Send(service)], t)
  {
    var n := SetupFrom(s, 0);
    assert Next(s, Setup) == n && AfterStart(s, Setup) && Next(n, Send(service)) == t && AfterStart(n, Send(service));
    hide SetupFrom, SendStep, Next, AfterStart;
    assert Runs.Leads(Next, AfterStart, s, [], s);
    Runs.Extend(Next, AfterStart, s, [], s, Setup);
    assert [] + [Setup] == [Setup] && [Setup] + [Send(service)] == [Setup, Send(service)];
    Runs.Extend(Next, AfterStart, s, [Setup], n, Send(service));
  }

  lemma ReloadLeads(s: State, run: seq<Action>, t: State, name: string, made: Object)
    requires Runs.Leads(Next, AfterStart, s, run, t) && Base(t) && FreshHandle(UnloadStep(t, name), made.handle)
    ensures Runs.Leads(Next, AfterStart, s, run + [Reload(name, Some(made))], ReloadStep(t, name, Some(made)))
  {
    BaseIsSized(t);
    hide ReloadStep, UnloadStep, Base;
    Runs.Extend(Next, AfterStart, s, run, t, Reload(name, Some(made)));
  }

  // Every allowed run from s that starts with set-up is sound at its end.
  ghost predicate AllRunsSound(s: State) {
    forall run :: run != [] && run[0] == Setup && Runs.Along(Next, AfterStart, s, run) ==> SoundState(Runs.Exec(Next, s, run))
  }

  /** Routing is sound if and only if no id crosses. After any loads, ids unique or not: every run of
      set-up followed by unloads, reloads, sends and handling ends with one entry per service, every
      local entry naming a loaded component registered on the entry's thread, and no thread about to
      handle a message with a component of another thread, exactly if every loaded component of an
      id that provides a service here is on the first thread that lists the id. */
  lemma RoutingIsSoundIff(services: seq<Service>, n: nat, boots: seq<Action>)
    requires Manifest(services) && |services| <= REGISTRY && Runs.Along(Next, Booting, Init(services, n), boots)
    ensures var s := Runs.Exec(Next, Init(services, n), boots); AllRunsSound(s) <==> !Crossing(s)
  {
    BootsLeaveBooted(services, n, boots);
    var s := Runs.Exec(Next, Init(services, n), boots);
    hide Next, AfterStart, Booting, Booted, Init, SoundState;
    if Crossing(s) {
      var k, j :| 0 <= k < |s.services| && 0 <= j < |s.loaded| && Crosses(s, k, j);
      var run, t := CrossingBreaks(s, k, j);
      assert !SoundState(t) by { OffIsUnsound(t, FindThread(s.threads, 0, s.services[k].provider)); }
    } else {
      forall run | run != [] && run[0] == Setup && Runs.Along(Next, AfterStart, s, run)
        ensures SoundState(Runs.Exec(Next, s, run))
      {
        NoCrossingIsSound(s, run);
      }
    }
  }

  lemma OffIsUnsound(t: State, w: nat)
    requires Sized(t) && OffThread(t, w)
    ensures !SoundState(t)
  {}

  // Every listed component is in the table: no more than sixty-four were loaded.
  predicate AllTabled(s: State) {
    forall w, i :: 0 <= w < |s.threads| && 0 <= i < |s.threads[w]| ==> Loaded(s.threads[w][i], w) in s.loaded
  }

  /** Unless the table overflowed, an id crosses exactly if two loaded components that share the id
      of a service provided here are on different threads. */
  lemma CrossingIsTwoThreads(s: State)
    requires Table(s) && AllTabled(s)
    ensures Crossing(s) <==>
              exists k, i, j :: 0 <= k < |s.services| && 0 <= i < |s.loaded| && 0 <= j < |s.loaded| && Shared(s, k, i, j)
  {
    if Crossing(s) {
      var k, j :| 0 <= k < |s.services| && 0 <= j < |s.loaded| && Crosses(s, k, j);
      ListedThreadFound(s, j);
      var w := FindThread(s.threads, 0, s.services[k].provider);
      var x :| 0 <= x < |s.threads[w]| && s.threads[w][x].id == s.services[k].provider;
      var i :| 0 <= i < |s.loaded| && s.loaded[i] == Loaded(s.threads[w][x], w);
      assert Shared(s, k, i, j);
    }
    if k, i, j :| 0 <= k < |s.services| && 0 <= i < |s.loaded| && 0 <= j < |s.loaded| && Shared(s, k, i, j) {
      assert Crosses(s, k, i) || Crosses(s, k, j);
    }
  }

  predicate Shared(s: State, k: nat, i: nat, j: nat)
    requires k < |s.services| && i < |s.loaded| && j < |s.loaded|
  {
    && s.services[k].here && s.loaded[i].comp.id == s.services[k].provider == s.loaded[j].comp.id
    && s.loaded[i].owner != s.loaded[j].owner
  }

  // No two listed components have the same id.
  predicate UniqueIds(s: State) {
    forall w, i, v, j ::
      0 <= w < |s.threads| && 0 <= i < |s.threads[w]| && 0 <= v < |s.threads| && 0 <= j < |s.threads[v]| && (w != v || i != j) ==>
        s.threads[w][i].id != s.threads[v][j].id
  }

  lemma UniqueIdsDoNotCross(s: State)
    requires Table(s) && UniqueIds(s)
    ensures !Crossing(s)
  {
    forall k, j | 0 <= k < |s.services| && 0 <= j < |s.loaded| ensures !Crosses(s, k, j) {
      var l, id := s.loaded[j], s.services[k].provider;
      if s.services[k].here && l.comp.id == id {
        ListedThreadFound(s, j);
        var w := FindThread(s.threads, 0, id);
        var x :| 0 <= x < |s.threads[w]| && s.threads[w][x].id == id;
        var y :| 0 <= y < |s.threads[l.owner]| && s.threads[l.owner][y] == l.comp;
      }
    }
  }

  // Two components of id 5, on threads 0 and 1.
  function Twins(): seq<Action> { [Boot(0, 5, "a", Some(Object(1, true))), Boot(1, 5, "b", Some(Object(2, true)))] }

  /** Two components with the same id on two threads: after set-up, a message to their service and a
      reload of "b", thread 0 is about to run the handler of thread 1's component. */
  lemma TwinsCrossThreads() returns (run: seq<Action>, t: State)
    ensures var s0 := Init([Service(9, true, 5, false)], 2);
            Runs.Along(Next, Booting, s0, Twins()) && Runs.Leads(Next, AfterStart, Runs.Exec(Next, s0, Twins()), run, t)
    ensures run != [] && run[0] == Setup && Sized(t) && OffThread(t, 0)
  {
    var v := [Service(9, true, 5, false)];
    var s0 := Init(v, 2);
    TwinTables(v);
    var s := Runs.Exec(Next, s0, Twins());
    BootsLeaveBooted(v, 2, Twins());
    hide Next, Booting, AfterStart, Booted, Init;
    assert HasId(s.threads[0], 5) by { assert s.threads[0][0].id == 5; }
    assert FindThread(s.threads, 0, 5) == 0;
    assert s.services[0] == Service(9, true, 5, false);
    assert Crosses(s, 0, 1);
    run, t := CrossingBreaks(s, 0, 1);
  }

  lemma TwinTables(services: seq<Service>)
    ensures var s0 := Init(services, 2);
            var s := Runs.Exec(Next, s0, Twins());
            && Runs.Along(Next, Booting, s0, Twins()) && s.services == services
            && s.loaded == [Loaded(Comp(1, 5, "a", true), 0), Loaded(Comp(2, 5, "b", true), 1)]
            && s.threads == [[Comp(1, 5, "a", true)], [Comp(2, 5, "b", true)]]
  {
    var s0 := Init(services, 2);
    var s1 := BootStep(s0, 0, 5, "a", Some(Object(1, true)));
    assert s1.threads[0] == [Comp(1, 5, "a", true)] && s1.threads[1] == [];
    var s2 := BootStep(s1, 1, 5, "b", Some(Object(2, true)));
    assert s2.threads[0] == [Comp(1, 5, "a", true)] && s2.threads[1] == [Comp(2, 5, "b", true)] && |s2.threads| == 2;
    assert Sized(s0) && Sized(s1);
    assert Next(s0, Twins()[0]) == s1 && Next(s1, Twins()[1]) == s2;
    assert Booting(s0, Twins()[0]) && Booting(s1, Twins()[1]);
    hide Next, Booting, BootStep, Init;
    assert Twins()[1..] == [Twins()[1]] && Twins()[1..][1..] == [];
    assert Runs.Exec(Next, s1, Twins()[1..]) == s2;
    assert Runs.Along(Next, Booting, s1, Twins()[1..]);
  }

  // ---------- Every loaded provider is routed ----------

  predicate IsLoaded(s: State, id: nat) { FindId(s.loaded, 0, id) < |s.loaded| }

  // No two loaded components have the same id.
  predicate OneOfEach(loaded: seq<Loaded>) { forall j, k :: 0 <= j < k < |loaded| ==> loaded[j].comp.id != loaded[k].comp.id }

  predicate RoutedAt(s: State, k: nat)
    requires Sized(s) && k < |s.services|
  {
    s.services[k].here ==> (Lookup(s, s.services[k].id).Some? <==> IsLoaded(s, s.services[k].provider))
  }

  /** A service of this node has an entry if and only if its component is loaded. */
  predicate Routed(s: State)
    requires Sized(s)
  {
    forall k :: 0 <= k < |s.services| ==> RoutedAt(s, k)
  }

  ghost predicate RoutedInv(s: State, h: nat -> nat) {
    Inv(s, h) && OneOfEach(s.loaded) && |s.services| <= REGISTRY && Routed(s)
  }

  lemma PresentIsLoaded(s: State, k: nat, h: nat -> nat)
    requires Inv(s, h) && k < |s.services| && s.services[k].here && Lookup(s, s.services[k].id).Some?
    ensures IsLoaded(s, s.services[k].provider)
  {
    LookupIs(s, s.services[k].id);
    LocalEntry(s, Lookup(s, s.services[k].id).value, k, h);
  }

  /** Set-up routes everything: if the manifest fits the table, afterwards a service of this node
      has an entry if and only if its component is loaded. */
  lemma SetupRoutes(s: State, h: nat -> nat)
    requires Inv(s, h) && |s.services| <= REGISTRY
    ensures Inv(SetupFrom(s, 0), h) && SameElsewhere(s, SetupFrom(s, 0)) && Routed(SetupFrom(s, 0))
  {
    SetupKeepsInv(s, 0, h);
    var n := SetupFrom(s, 0);
    forall k | 0 <= k < |n.services| ensures RoutedAt(n, k) {
      SetupLookup(s, 0, k);
      var v := n.services[k];
      if v.here && IsLoaded(s, v.provider) { ListedThreadFound(s, FindId(s.loaded, 0, v.provider)); }
      hide SetupFrom, Lookup, Base, Entries, Homed, Queues;
      if v.here && Lookup(n, v.id).Some? { PresentIsLoaded(n, k, h); }
    }
  }

  lemma StillRouted(s: State, n: State, k: nat, j: nat)
    requires Base(s) && j < |s.services| && RoutedAt(s, j) && OneOfEach(s.loaded)
    requires k < |s.loaded| && s.loaded[k].owner < |s.threads| && Sized(n) && Unloaded(s, n, k)
    requires forall i :: 0 <= i < |n.loaded| ==> n.loaded[i] == s.loaded[if i < k then i else i + 1]
    requires s.services[j].here && IsLoaded(n, s.services[j].provider)
    ensures Lookup(n, s.services[j].id).Some?
  {
    hide Lists, Table, Known, RemoveComp, Lookup;
    var p := s.services[j].provider;
    var i := FindId(n.loaded, 0, p);
    assert s.loaded[if i < k then i else i + 1].comp.id == p;
    LookupIs(s, s.services[j].id);
    LookupIs(n, s.services[j].id);
    var e := Lookup(s, s.services[j].id).value;
    assert e in Used(n);
  }

  lemma UnloadKeepsRouted(s: State, name: string, h: nat -> nat)
    requires RoutedInv(s, h)
    ensures RoutedInv(UnloadStep(s, name), h)
  {
    UnloadKeepsInv(s, name, h);
    UnloadKeepsBase(s, name);
    var k, n := FindName(s.loaded, 0, name), UnloadStep(s, name);
    if k < |s.loaded| {
      UnloadIs(s, name);
      UnloadKeepsTable(s, n, k);
      hide UnloadStep, RemoveComp, Lookup, Lists, Table, Known, Entries, Homed, Queues;
      forall j | 0 <= j < |n.services| ensures RoutedAt(n, j) {
        assert RoutedAt(s, j);
        if n.services[j].here && Lookup(n, n.services[j].id).Some? { PresentIsLoaded(n, j, h); }
        if n.services[j].here && IsLoaded(n, n.services[j].provider) { StillRouted(s, n, k, j); }
      }
    }
  }

  lemma InstallKeepsRouted(s: State, c: Comp, w: nat, h: nat -> nat)
    requires RoutedInv(s, h) && MayJoin(s, c, w) && |s.loaded| < LOADED && !IsLoaded(s, c.id) && HomeIs(s, h, c.id, w)
    ensures RoutedInv(Install(s, c, w), h)
  {
    JoinedKeepsInv(s, c, w, h);
    JoinedIs(s, c, w);
    var m := Joined(s, c, w);
    RebindKeepsInv(m, 0, c, w, h);
    RebindKeepsBase(m, 0, c, w);
    var n := Install(s, c, w);
    hide Base, Install, RebindFrom, Joined, Entries, Homed, Queues, MayJoin;
    forall j | 0 <= j < |n.services| ensures RoutedAt(n, j) {
      RebindLookup(m, 0, c, w, j);
      assert RoutedAt(s, j);
      SameLookup(s, m, s.services[j].id);
      JoinedIsLoaded(s.loaded, Loaded(c, w), s.services[j].provider);
      hide Lookup, FindId;
      if n.services[j].here && Lookup(n, n.services[j].id).Some? { PresentIsLoaded(n, j, h); }
    }
  }

  lemma SameLookup(s: State, n: State, service: nat)
    requires Sized(s) && Sized(n) && n.registry == s.registry && n.count == s.count
    ensures Lookup(n, service) == Lookup(s, service)
  {}

  lemma JoinedIsLoaded(loaded: seq<Loaded>, l: Loaded, id: nat)
    ensures FindId(loaded + [l], 0, id) < |loaded| + 1 <==> FindId(loaded, 0, id) < |loaded| || l.comp.id == id
  {
    var k, m := FindId(loaded, 0, id), FindId(loaded + [l], 0, id);
    assert (loaded + [l])[|loaded|] == l;
    assert k < |loaded| ==> (loaded + [l])[k].comp.id == id;
    assert m < |loaded| ==> loaded[m].comp.id == id;
  }

  lemma ReloadKeepsRouted(s: State, name: string, made: Option<Object>, h: nat -> nat)
    requires RoutedInv(s, h) && Allowed(s, Reload(name, made))
    ensures RoutedInv(ReloadStep(s, name, made), h)
  {
    UnloadKeepsRouted(s, name, h);
    UnloadKeepsBase(s, name);
    ReloadIs(s, name, made);
    var k := FindName(s.loaded, 0, name);
    if k < |s.loaded| && made.Some? {
      var n, c, w := UnloadStep(s, name), Comp(made.value.handle, s.loaded[k].comp.id, name, made.value.hasHandler), s.loaded[k].owner;
      assert HomeIs(n, h, c.id, w) by {
        forall j | 0 <= j < |n.services| && n.services[j].here && n.services[j].provider == c.id ensures h(c.id) == w {
          assert OneHome(s, s.services[j].provider, h(s.services[j].provider));
        }
      }
      assert !IsLoaded(n, c.id) by { UnloadIs(s, name); UnloadKeepsTable(s, n, k); }
      hide UnloadStep, ReloadStep, Install, MayJoin, RoutedInv, IsLoaded;
      InstallKeepsRouted(n, c, w, h);
    }
  }

  lemma StepKeepsRouted(s: State, a: Action, h: nat -> nat)
    requires RoutedInv(s, h) && AfterStart(s, a)
    ensures RoutedInv(Next(s, a), h)
  {
    match a
    case Setup => SetupRoutes(s, h);
    case Unload(name) => UnloadKeepsRouted(s, name, h);
    case Reload(name, made) => ReloadKeepsRouted(s, name, made, h);
    case Send(service) => SendKeepsInv(s, service, h); RingsKeepRouted(s, SendStep(s, service));
    case Handle(w) => HandleKeepsInv(s, w, h); RingsKeepRouted(s, HandleStep(s, w));
  }

  lemma RingsKeepRouted(s: State, n: State)
    requires Sized(s) && Routed(s) && n == s.(rings := n.rings, ran := n.ran)
    ensures Sized(n) && Routed(n)
  {
    forall k | 0 <= k < |n.services| ensures RoutedAt(n, k) {
      assert RoutedAt(s, k);
      SameLookup(s, n, s.services[k].id);
    }
  }

  /** From set-up on, with unique component ids, whatever is unloaded and reloaded in whatever order: a
      service of this node has an entry if and only if its component is loaded at the moment. */
  lemma RoutedIffLoaded(s: State, run: seq<Action>)
    requires Booted(s) && !Crossing(s) && OneOfEach(s.loaded) && |s.services| <= REGISTRY
    requires Runs.Along(Next, AfterStart, SetupFrom(s, 0), run)
    ensures var t := Runs.Exec(Next, SetupFrom(s, 0), run); Sized(t) && Routed(t)
  {
    var h := HomesOf(s);
    BootedInv(s);
    SetupRoutes(s, h);
    var inv := (x: State) => RoutedInv(x, h);
    hide Inv, Next, AfterStart, Booted, Crossing, SetupFrom, RoutedInv;
    forall x, a | inv(x) && AfterStart(x, a) ensures inv(Next(x, a)) { StepKeepsRouted(x, a, h); }
    assert RoutedInv(SetupFrom(s, 0), h) by { RoutedInvIs(SetupFrom(s, 0), h); }
    Runs.InvariantAlong(Next, AfterStart, inv, SetupFrom(s, 0), run);
    RoutedInvHas(Runs.Exec(Next, SetupFrom(s, 0), run), h);
  }

  lemma RoutedInvIs(s: State, h: nat -> nat)
    requires Inv(s, h) && OneOfEach(s.loaded) && |s.services| <= REGISTRY && Routed(s)
    ensures RoutedInv(s, h)
  {}

  lemma RoutedInvHas(s: State, h: nat -> nat)
    requires RoutedInv(s, h)
    ensures Sized(s) && Routed(s)
  {}

  // ---------- What loading, unloading and reloading change ----------

  /** Loading at start: a library that loads puts its component on the thread asked for, and in the table
      while that has room; whatever was loaded before stays, and a library that fails changes nothing. */
  lemma BootLoads(s: State, w: nat, id: nat, name: string, made: Option<Object>)
    requires Base(s) && Allowed(s, Boot(w, id, name, made))
    ensures var n := Next(s, Boot(w, id, name, made));
            if made.None? || w >= |s.threads| then n == s
            else
              var c := Comp(made.value.handle, id, name, made.value.hasHandler);
              && n == s.(loaded := n.loaded, threads := n.threads) && |n.threads| == |s.threads|
              && (forall v, x :: 0 <= v < |s.threads| ==> (x in n.threads[v] <==> x in s.threads[v] || (v == w && x == c)))
              && n.loaded == (if |s.loaded| < 64 then s.loaded + [Loaded(c, w)] else s.loaded)
  {
    if made.Some? && w < |s.threads| {
      ListedIs(s, Comp(made.value.handle, id, name, made.value.hasHandler), w);
    }
  }

  // The entry of k is gone from the table, its component from its thread, its services from the registry.
  ghost predicate Gone(s: State, n: State, k: nat)
    requires Sized(s) && k < |s.loaded|
  {
    var l := s.loaded[k];
    && Sized(n) && n.loaded == s.loaded[..k] + s.loaded[k + 1..] && |n.threads| == |s.threads|
    && (forall w, x :: 0 <= w < |s.threads| ==> (x in n.threads[w] <==> x in s.threads[w] && !(w == l.owner && x == l.comp)))
    && (forall j :: 0 <= j < |s.services| ==>
          Lookup(n, s.services[j].id) == if s.services[j].provider == l.comp.id then None else Lookup(s, s.services[j].id))
    && n == s.(registry := n.registry, count := n.count, loaded := n.loaded, threads := n.threads)
  }

  /** What an unload does: the first component of the name is gone from the table, from its thread and from
      the registry, with every service the manifest gives to its id, and nothing else changes; a name
      that is not loaded changes nothing. */
  lemma UnloadRemoves(s: State, name: string)
    requires Base(s)
    ensures var k, n := FindName(s.loaded, 0, name), Next(s, Unload(name));
            if k == |s.loaded| then n == s else Gone(s, n, k)
  {
    var k := FindName(s.loaded, 0, name);
    BaseIsSized(s);
    if k < |s.loaded| {
      var n := UnloadStep(s, name);
      UnloadIs(s, name);
      UnloadLists(s, n, k);
      hide UnloadStep, Lists, Table, RemoveComp, Known;
      forall j | 0 <= j < |s.services|
        ensures Lookup(n, s.services[j].id) == if s.services[j].provider == s.loaded[k].comp.id then None else Lookup(s, s.services[j].id)
      {
        UnloadedLookup(s, n, k, j);
      }
    }
  }

  lemma UnloadedLookup(s: State, n: State, k: nat, j: nat)
    requires Manifest(s.services) && Sized(s) && OneEach(Used(s)) && Sized(n)
    requires k < |s.loaded| && s.loaded[k].owner < |s.threads| && Unloaded(s, n, k) && j < |s.services|
    ensures Lookup(n, s.services[j].id) == if s.services[j].provider == s.loaded[k].comp.id then None else Lookup(s, s.services[j].id)
  {
    var v, id := s.services[j], s.loaded[k].comp.id;
    LookupIs(s, v.id);
    LookupIs(n, v.id);
    assert GivenTo(s, 0, v.id, id) <==> v.provider == id;
    hide Lookup, OneEach, RemoveComp;
    if v.provider != id && Lookup(s, v.id).Some? { LookupFinds(n, Lookup(s, v.id).value); }
  }

  /** What a reload does: the old component is gone as by an unload; if the library loads, the new one
      is last in the table and on the same thread, and every service the manifest gives to its id on
      this node leads to it there. */
  lemma ReloadReplaces(s: State, name: string, made: Option<Object>, j: nat)
    requires Base(s) && |s.services| <= REGISTRY && Allowed(s, Reload(name, made)) && j < |s.services|
    ensures var k, n := FindName(s.loaded, 0, name), Next(s, Reload(name, made));
            if k == |s.loaded| then n == s
            else if made.None? then n == Next(s, Unload(name))
            else
              var u, l, v := Next(s, Unload(name)), s.loaded[k], s.services[j];
              var c := Comp(made.value.handle, l.comp.id, name, made.value.hasHandler);
              && Sized(n) && Sized(u) && n.loaded == u.loaded + [Loaded(c, l.owner)] && |n.threads| == |u.threads| && n.rings == s.rings
              && (forall w, x :: 0 <= w < |u.threads| ==> (x in n.threads[w] <==> x in u.threads[w] || (w == l.owner && x == c)))
              && Lookup(n, v.id) == if v.here && v.provider == l.comp.id then Some(Entry(v.id, Some(c), Some(l.owner), false))
                                    else Lookup(u, v.id)
  {
    var k := FindName(s.loaded, 0, name);
    BaseIsSized(s);
    if k < |s.loaded| && made.Some? {
      var l, u := s.loaded[k], UnloadStep(s, name);
      var c := Comp(made.value.handle, l.comp.id, name, made.value.hasHandler);
      UnloadKeepsBase(s, name);
      ReloadIs(s, name, made);
      ManagingLeavesRings(s, Reload(name, made));
      hide UnloadStep, ReloadStep, Install, RebindFrom, Lookup, Base;
      InstallIs(u, c, l.owner, j);
    }
  }

  lemma InstallIs(s: State, c: Comp, w: nat, j: nat)
    requires Base(s) && |s.services| <= REGISTRY && MayJoin(s, c, w) && |s.loaded| < LOADED && j < |s.services|
    ensures var n, v := Install(s, c, w), s.services[j];
            && Sized(n) && n.loaded == s.loaded + [Loaded(c, w)] && |n.threads| == |s.threads|
            && (forall t, x :: 0 <= t < |s.threads| ==> (x in n.threads[t] <==> x in s.threads[t] || (t == w && x == c)))
            && Lookup(n, v.id) == if v.here && v.provider == c.id then Some(Entry(v.id, Some(c), Some(w), false))
                                  else Lookup(s, v.id)
  {
    BaseIsSized(s);
    JoinedIs(s, c, w);
    JoinedLookup(s, c, w, s.services[j].id);
    hide Install, RebindFrom, Lookup, Base, Joined;
    RebindLookup(Joined(s, c, w), 0, c, w, j);
    BaseIsSized(RebindFrom(Joined(s, c, w), 0, c, w));
  }

  lemma JoinedLookup(s: State, c: Comp, w: nat, service: nat)
    requires Sized(s) && w < |s.threads|
    ensures Lookup(Joined(s, c, w), service) == Lookup(s, service)
  {}

  // ---------- Messages in order ----------

  // The service a step puts in thread w's ring, and the one it takes out.
  function SentNow(s: State, a: Action, w: nat): seq<nat> {
    if Sized(s) && a.Send? && w < |s.rings| && |s.rings[w]| < 1023 && Local(Lookup(s, a.service), w) then [a.service] else []
  }

  // The entry leads to thread w of this node.
  predicate Local(e: Option<Entry>, w: nat) { e.Some? && !e.value.remote && e.value.thread == Some(w) }

  function HandledNow(s: State, a: Action, w: nat): seq<nat> {
    if Sized(s) && a == Handle(w) && w < |s.rings| && s.rings[w] != [] then [s.rings[w][0]] else []
  }

  function SentAlong(s: State, run: seq<Action>, w: nat): seq<nat>
    decreases |run|
  {
    if run == [] then [] else SentNow(s, run[0], w) + SentAlong(Next(s, run[0]), run[1..], w)
  }

  function HandledAlong(s: State, run: seq<Action>, w: nat): seq<nat>
    decreases |run|
  {
    if run == [] then [] else HandledNow(s, run[0], w) + HandledAlong(Next(s, run[0]), run[1..], w)
  }

  lemma {:induction false} SetupLeavesRings(s: State, i: nat)
    requires Sized(s) && i <= |s.services|
    ensures SetupFrom(s, i).rings == s.rings && SetupFrom(s, i).ran == s.ran
    decreases |s.services| - i
  {
    if i < |s.services| { SetupLeavesRings(SetupOne(s, s.services[i]), i + 1); }
  }

  lemma {:induction false} RebindLeavesRings(s: State, i: nat, c: Comp, w: nat)
    requires Sized(s) && i <= |s.services|
    ensures RebindFrom(s, i, c, w).rings == s.rings && RebindFrom(s, i, c, w).ran == s.ran
    decreases |s.services| - i
  {
    if i < |s.services| {
      var v := s.services[i];
      RebindLeavesRings(if v.provider == c.id && v.here then Bind(s, v.id, c, w) else s, i + 1, c, w);
    }
  }

  lemma UnloadLeavesRings(s: State, name: string)
    requires Sized(s)
    ensures UnloadStep(s, name).rings == s.rings && UnloadStep(s, name).ran == s.ran
  {
    var k := FindName(s.loaded, 0, name);
    if k < |s.loaded| && s.loaded[k].owner < |s.threads| {
      var l := s.loaded[k];
      UnbindSized(s.(threads := s.threads[l.owner := RemoveComp(s.threads[l.owner], l.comp.handle)]), 0, l.comp.id);
    }
  }

  lemma ManagingLeavesRings(s: State, a: Action)
    requires !a.Send? && !a.Handle?
    ensures Next(s, a).rings == s.rings && Next(s, a).ran == s.ran
  {
    if Sized(s) {
      match a
      case Boot(_, _, _, _) =>
      case Setup => SetupLeavesRings(s, 0);
      case Unload(name) => UnloadLeavesRings(s, name);
      case Reload(name, made) =>
        UnloadSized(s, name);
        UnloadLeavesRings(s, name);
        var k, n := FindName(s.loaded, 0, name), UnloadStep(s, name);
        if k < |s.loaded| && made.Some? && |n.loaded| < LOADED && s.loaded[k].owner < |n.threads| {
          var c, w := Comp(made.value.handle, s.loaded[k].comp.id, name, made.value.hasHandler), s.loaded[k].owner;
          RebindLeavesRings(Joined(n, c, w), 0, c, w);
        }
    }
  }

  /** Who gets a message and what becomes of it: a send puts the service at the end of the ring of the thread
      its local entry names, if that has room; handling takes the oldest service of the thread's own ring
      and runs the handler its entry leads to at that moment, if there is one; no other step touches
      any ring or runs any handler. */
  lemma RingsChangeBy(s: State, a: Action, w: nat)
    requires w < |s.rings|
    ensures var n := Next(s, a);
            && |n.rings| == |s.rings| && s.rings[w] + SentNow(s, a, w) == HandledNow(s, a, w) + n.rings[w]
            && (HandledNow(s, a, w) == [] && (!a.Handle? || a.w == w) ==> n.ran == s.ran)
            && (HandledNow(s, a, w) != [] ==>
                  var e := Lookup(s, s.rings[w][0]);
                  n.ran == s.ran + (if e.Some? && e.value.provider.Some? && e.value.provider.value.hasHandler
                                    then [(w, e.value.provider.value)] else []))
  {
    if !a.Send? && !a.Handle? { ManagingLeavesRings(s, a); }
    hide Base;
  }

  /** Every thread handles what was sent to it, exactly once and in order: in every run, the services handled
      by thread w followed by those in its ring are those it held at the start and those sent to it. */
  lemma {:induction false} HandledInOrder(s: State, run: seq<Action>, w: nat)
    requires w < |s.rings|
    ensures var t := Runs.Exec(Next, s, run);
            |t.rings| == |s.rings| && s.rings[w] + SentAlong(s, run, w) == HandledAlong(s, run, w) + t.rings[w]
    decreases |run|
  {
    hide Next, SentNow, HandledNow;
    if run != [] {
      var n, t := Next(s, run[0]), Runs.Exec(Next, s, run);
      RingsChangeBy(s, run[0], w);
      HandledInOrder(n, run[1..], w);
      assert s.rings[w] + SentAlong(s, run, w) == (s.rings[w] + SentNow(s, run[0], w)) + SentAlong(n, run[1..], w);
      assert HandledAlong(s, run, w) + t.rings[w] == HandledNow(s, run[0], w) + (HandledAlong(n, run[1..], w) + t.rings[w]);
    }
  }

  /** g_service_registry, g_node_ctx and the thread structures. Each method is one function of the
      C code; its contract is the step of the machine above. */
  class Node {
    const services: seq<Service>
    const registry: array<Entry>
    var count: nat
    var loaded: seq<Loaded>
    var threads: seq<seq<Comp>>
    var rings: seq<seq<nat>>
    ghost var ran: seq<(nat, Comp)>

    ghost function View(): State
      reads this, registry
    {
      State(services, loaded, threads, registry[..], count, rings, ran)
    }

    constructor (services: seq<Service>, n: nat)
      ensures View() == Init(services, n) && fresh(registry)
    {
      this.services := services;
      registry := new Entry[REGISTRY](_ => Entry(0, None, None, false));
      count, loaded, threads, rings := 0, [], seq(n, _ => []), seq(n, _ => []);
      ran := [];
    }

    method FindServiceEntry(service: nat) returns (k: nat)
      requires Sized(View())
      ensures k == FindEntry(registry[..], 0, count, service)
    {
      k := 0;
      while k < count && registry[k].service != service
        invariant k <= count
        invariant FindEntry(registry[..], 0, count, service) == FindEntry(registry[..], k, count, service)
      {
        k := k + 1;
      }
    }

    // nos_service_register_provider_bind.
    method RegisterProvider(service: nat, c: Comp, w: nat)
      requires Sized(View())
      modifies this, registry
      ensures View() == Bind(old(View()), service, c, w)
    {
      var k := FindServiceEntry(service);
      if k == count {
        if count >= REGISTRY { return; }
        count := count + 1;
      }
      registry[k] := Entry(service, Some(c), Some(w), false);
    }

    method RegisterRemote(service: nat)
      requires Sized(View())
      modifies this, registry
      ensures View() == BindRemote(old(View()), service)
    {
      var k := FindServiceEntry(service);
      if k == count {
        if count >= REGISTRY { return; }
        count := count + 1;
      }
      registry[k] := registry[k].(service := service, remote := true);
    }

    method UnregisterProvider(service: nat)
      requires Sized(View())
      modifies this, registry
      ensures View() == Unbind(old(View()), service)
    {
      var k := FindServiceEntry(service);
      if k < count {
        count := count - 1;
        registry[k] := registry[count];
      }
    }

    // node_get_loaded_comp_by_id.
    method FindLoadedById(id: nat) returns (k: nat)
      ensures k == FindId(loaded, 0, id)
    {
      k := 0;
      while k < |loaded| && loaded[k].comp.id != id
        invariant k <= |loaded|
        invariant FindId(loaded, 0, id) == FindId(loaded, k, id)
      {
        k := k + 1;
      }
    }

    method FindLoadedByName(name: string) returns (k: nat)
      ensures k == FindName(loaded, 0, name)
    {
      k := 0;
      while k < |loaded| && loaded[k].comp.name != name
        invariant k <= |loaded|
        invariant FindName(loaded, 0, name) == FindName(loaded, k, name)
      {
        k := k + 1;
      }
    }

    // The nested search of node_setup_routing.
    method FindOwner(id: nat) returns (t: nat)
      ensures t == FindThread(threads, 0, id)
    {
      t := 0;
      while t < |threads|
        invariant t <= |threads|
        invariant FindThread(threads, 0, id) == FindThread(threads, t, id)
      {
        var i := 0;
        while i < |threads[t]| && threads[t][i].id != id
          invariant i <= |threads[t]|
          invariant forall j :: 0 <= j < i ==> threads[t][j].id != id
        {
          i := i + 1;
        }
        if i < |threads[t]| { return; }
        t := t + 1;
      }
    }

    method SetupRouting()
      requires Sized(View())
      modifies this, registry
      ensures View() == SetupFrom(old(View()), 0)
    {
      var i := 0;
      while i < |services|
        invariant i <= |services| && Sized(View())
        invariant SetupFrom(old(View()), 0) == SetupFrom(View(), i)
      {
        SetupService(services[i]);
        i := i + 1;
      }
    }

    method SetupService(v: Service)
      requires Sized(View())
      modifies this, registry
      ensures View() == SetupOne(old(View()), v) && Sized(View())
    {
      if v.here {
        var k := FindLoadedById(v.provider);
        var w := FindOwner(v.provider);
        if k < |loaded| && w < |threads| { RegisterProvider(v.id, loaded[k].comp, w); }
      } else if v.reachable {
        RegisterRemote(v.id);
      }
    }

    // nos_scheduler_unregister_component.
    method UnregisterComponent(w: nat, handle: nat)
      requires w < |threads|
      modifies this`threads
      ensures threads == old(threads)[w := RemoveComp(old(threads)[w], handle)]
    {
      var list, i := threads[w], 0;
      while i < |list| && list[i].handle != handle
        invariant i <= |list|
        invariant FindComp(list, 0, handle) == FindComp(list, i, handle)
      {
        i := i + 1;
      }
      if i < |list| { threads := threads[w := SwapOut(list, i)]; }
    }

    // The loop of node_unload_component over the manifest.
    method UnregisterServices(id: nat)
      requires Sized(View())
      modifies this, registry
      ensures View() == UnbindFrom(old(View()), 0, id)
    {
      var i := 0;
      while i < |services|
        invariant i <= |services| && Sized(View())
        invariant UnbindFrom(old(View()), 0, id) == UnbindFrom(View(), i, id)
      {
        if services[i].provider == id { UnregisterProvider(services[i].id); }
        i := i + 1;
      }
    }

    method UnloadComponent(name: string) returns (ok: bool)
      requires Base(View())
      modifies this, registry
      ensures View() == UnloadStep(old(View()), name)
      ensures ok <==> exists k :: 0 <= k < |old(loaded)| && old(loaded)[k].comp.name == name
    {
      hide Lists, Manifest, Known;
      var k := FindLoadedByName(name);
      ok := k < |loaded|;
      if ok {
        var l := loaded[k];
        UnregisterComponent(l.owner, l.comp.handle);
        UnregisterServices(l.comp.id);
        UnbindSized(old(View()).(threads := old(threads)[l.owner := RemoveComp(old(threads)[l.owner], l.comp.handle)]), 0, l.comp.id);
        CloseGap(k);
      }
    }

    // The loop that shifts loaded_info down.
    method CloseGap(k: nat)
      requires k < |loaded|
      modifies this`loaded
      ensures loaded == old(loaded)[..k] + old(loaded)[k + 1..]
    {
      var i := k;
      while i < |loaded| - 1
        invariant k <= i < |loaded| == |old(loaded)|
        invariant forall j :: 0 <= j < |loaded| ==> loaded[j] == old(loaded)[if k <= j < i then j + 1 else j]
      {
        loaded := loaded[i := loaded[i + 1]];
        i := i + 1;
      }
      loaded := loaded[..|loaded| - 1];
    }

    method RebindServices(c: Comp, w: nat)
      requires Sized(View())
      modifies this, registry
      ensures View() == RebindFrom(old(View()), 0, c, w)
    {
      var i := 0;
      while i < |services|
        invariant i <= |services| && Sized(View())
        invariant RebindFrom(old(View()), 0, c, w) == RebindFrom(View(), i, c, w)
      {
        if services[i].provider == c.id && services[i].here { RegisterProvider(services[i].id, c, w); }
        i := i + 1;
      }
    }

    method InstallComponent(c: Comp, w: nat)
      requires Sized(View()) && w < |threads|
      modifies this, registry
      ensures View() == Install(old(View()), c, w)
    {
      if |loaded| < LOADED {
        loaded := loaded + [Loaded(c, w)];
        if |threads[w]| < PER_THREAD { threads := threads[w := threads[w] + [c]]; }
        assert threads == old(threads)[w := AddComp(old(threads)[w], c)];
        assert View() == old(View()).(loaded := loaded, threads := threads);
        RebindServices(c, w);
      }
    }

    method ReloadComponent(name: string, made: Option<Object>) returns (ok: bool)
      requires Base(View())
      modifies this, registry
      ensures View() == ReloadStep(old(View()), name, made)
      ensures ok <==> made.Some? && exists k :: 0 <= k < |old(loaded)| && old(loaded)[k].comp.name == name
    {
      var k := FindLoadedByName(name);
      ok := k < |loaded| && made.Some?;
      if k < |loaded| {
        var l := loaded[k];
        UnloadKeepsBase(View(), name);
        UnloadIs(View(), name);
        hide UnloadStep, Lists, Manifest, Known;
        var _ := UnloadComponent(name);
        if made.Some? {
          InstallComponent(Comp(made.value.handle, l.comp.id, name, made.value.hasHandler), l.owner);
        }
      }
    }

    // node_init_workers, for one component.
    method BootComponent(w: nat, id: nat, name: string, made: Option<Object>)
      requires w < |threads|
      modifies this
      ensures View() == BootStep(old(View()), w, id, name, made)
    {
      if made.Some? {
        var c := Comp(made.value.handle, id, name, made.value.hasHandler);
        if |loaded| < LOADED { loaded := loaded + [Loaded(c, w)]; }
        if |threads[w]| < PER_THREAD { threads := threads[w := threads[w] + [c]]; }
      }
    }

    method SendMsg(service: nat)
      requires Sized(View())
      modifies this
      ensures View() == SendStep(old(View()), service)
    {
      var k := FindServiceEntry(service);
      if k < count && !registry[k].remote && registry[k].thread.Some? {
        var w := registry[k].thread.value;
        if w < |rings| && |rings[w]| < Ring.SIZE - 1 { rings := rings[w := rings[w] + [service]]; }
      }
    }

    // One round of process_thread_messages on thread w.
    method HandleMsg(w: nat)
      requires Sized(View()) && w < |rings|
      modifies this
      ensures View() == HandleStep(old(View()), w)
      ensures SoundState(old(View())) ==>
                forall c :: c in ran[|old(ran)|..] ==> c.0 == w && LoadedOn(old(View()), c.1, w)
    {
      ghost var sound := SoundState(View()) ==> !OffThread(View(), w);
      assert sound;
      hide SoundState, LoadedOn;
      if rings[w] != [] {
        var service := rings[w][0];
        var k := FindServiceEntry(service);
        rings := rings[w := rings[w][1..]];
        if k < count && registry[k].provider.Some? && registry[k].provider.value.hasHandler {
          ran := ran + [(w, registry[k].provider.value)];
        }
      }
    }
  }
}
