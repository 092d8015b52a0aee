/** demkit/demkit/components/util/ModelRestComposer.py: the simulator-side
    composer that collects entities, meters, the host and the simulation
    parameters, and moves through INACTIVE, LOADED and ACTIVE. Entities are
    objects: Python's `list.remove` finds them by identity, as Dafny's
    reference equality does. */
module Composer {
  import opened Wrappers
  import opened Json
  import opened EntityDeserializer

  datatype ComposerStatus = Inactive | Loaded | Active

  /** An entity built by the deserializer; its class and name never change. */
  class ModelEntity {
    const cls: EntityClass
    const name: string

    constructor (cls: EntityClass, name: string)
      ensures this.cls == cls && this.name == name
    {
      this.cls := cls;
      this.name := name;
    }
  }

  // Sequence helpers with the meaning of the Python list operations.

  /** The meters of a list, in order. */
  function MetersOf(s: seq<ModelEntity>): (m: seq<ModelEntity>)
    ensures |m| <= |s|
  {
    if s == [] then []
    else (if s[0].cls == MeterEntity then [s[0]] else []) + MetersOf(s[1..])
  }

  lemma {:induction false} MetersOfAppend(s: seq<ModelEntity>, x: ModelEntity)
    ensures MetersOf(s + [x]) == MetersOf(s) + (if x.cls == MeterEntity then [x] else [])
  {
    if s != [] {
      assert (s + [x])[1..] == s[1..] + [x];
      MetersOfAppend(s[1..], x);
    } else {
      assert [x][1..] == [];
    }
  }

  /** The position of the first entity called `n`, or `|s|`. */
  function FirstNamed(s: seq<ModelEntity>, n: string): (i: nat)
    ensures i <= |s|
    ensures i < |s| ==> s[i].name == n
    ensures forall j :: 0 <= j < i ==> s[j].name != n
  {
    if s == [] then 0
    else if s[0].name == n then 0
    else 1 + FirstNamed(s[1..], n)
  }

  /** `list.index(x)`, or `|s|` when `x` is absent. */
  function IndexOf(s: seq<ModelEntity>, x: ModelEntity): (i: nat)
    ensures i <= |s|
    ensures i < |s| <==> x in s
    ensures i < |s| ==> s[i] == x
    ensures forall j :: 0 <= j < i ==> s[j] != x
  {
    if s == [] then 0
    else if s[0] == x then 0
    else 1 + IndexOf(s[1..], x)
  }

  /** `del s[i]`: everything else stays, in order. */
  function RemoveAt(s: seq<ModelEntity>, i: nat): (r: seq<ModelEntity>)
    requires i < |s|
    ensures |r| == |s| - 1
    ensures forall j :: 0 <= j < i ==> r[j] == s[j]
    ensures forall j :: i < j < |s| ==> r[j - 1] == s[j]
  {
    assert s == s[..i] + [s[i]] + s[i + 1..];
    s[..i] + s[i + 1..]
  }

  /** `list.remove(x)` for an `x` that is present. */
  function RemoveFirst(s: seq<ModelEntity>, x: ModelEntity): (r: seq<ModelEntity>)
    requires x in s
    ensures r == RemoveAt(s, IndexOf(s, x))
  {
    RemoveAt(s, IndexOf(s, x))
  }

  /** `MetersOf` of a list with one more entity in front. */
  lemma MetersOfCons(a: ModelEntity, t: seq<ModelEntity>)
    ensures MetersOf([a] + t) == (if a.cls == MeterEntity then [a] else []) + MetersOf(t)
  {
    assert ([a] + t)[1..] == t;
  }

  /** Removing `x` from behind a different first element. */
  lemma RemoveFirstCons(a: ModelEntity, t: seq<ModelEntity>, x: ModelEntity)
    requires a != x && x in t
    ensures RemoveFirst([a] + t, x) == [a] + RemoveFirst(t, x)
  {
    var s := [a] + t;
    var k := IndexOf(t, x);
    assert s[1..] == t;
    assert IndexOf(s, x) == 1 + k;
    assert s[..1 + k] == [a] + t[..k];
    assert s[1 + k + 1..] == t[k + 1..];
    assert RemoveAt(s, 1 + k) == [a] + (t[..k] + t[k + 1..]);
  }

  /** Deleting the first occurrence of a meter from a list deletes the first
      occurrence of it from the list's meters. */
  lemma {:induction false} MetersAfterRemove(s: seq<ModelEntity>, i: nat)
    requires i < |s| && s[i].cls == MeterEntity
    requires forall j :: 0 <= j < i ==> s[j] != s[i]
    ensures s[i] in MetersOf(s)
    ensures MetersOf(RemoveAt(s, i)) == RemoveFirst(MetersOf(s), s[i])
  {
    var t := s[1..];
    assert s == [s[0]] + t;
    MetersOfCons(s[0], t);
    if i == 0 {
      var m := MetersOf(s);
      assert m == [s[0]] + MetersOf(t);
      assert IndexOf(m, s[0]) == 0;
      assert RemoveAt(m, 0) == m[1..] == MetersOf(t);
      assert RemoveAt(s, 0) == t;
    } else {
      assert t[i - 1] == s[i];
      MetersAfterRemove(t, i - 1);
      assert RemoveAt(s, i) == [s[0]] + RemoveAt(t, i - 1);
      MetersOfCons(s[0], RemoveAt(t, i - 1));
      if s[0].cls == MeterEntity {
        RemoveFirstCons(s[0], MetersOf(t), s[i]);
      } else {
        assert MetersOf(s) == MetersOf(t);
        assert MetersOf(RemoveAt(s, i)) == MetersOf(RemoveAt(t, i - 1));
      }
    }
  }

  /** Deleting a non-meter leaves the meters as they were. */
  lemma {:induction false} MetersAfterRemoveOther(s: seq<ModelEntity>, i: nat)
    requires i < |s| && s[i].cls != MeterEntity
    ensures MetersOf(RemoveAt(s, i)) == MetersOf(s)
  {
    if i == 0 {
      assert RemoveAt(s, 0) == s[1..];
    } else {
      var t := s[1..];
      assert RemoveAt(s, i) == [s[0]] + RemoveAt(t, i - 1);
      MetersAfterRemoveOther(t, i - 1);
      assert ([s[0]] + RemoveAt(t, i - 1))[1..] == RemoveAt(t, i - 1);
    }
  }

  /** At most one host in the list, and it is `host`. */
  predicate HostsAgree(s: seq<ModelEntity>, host: Option<ModelEntity>)
  {
    && (host.Some? ==> host.value.cls == HostEntity)
    && (forall i :: 0 <= i < |s| && s[i].cls == HostEntity ==> host == Some(s[i]))
    && (forall i, j :: 0 <= i < |s| && 0 <= j < |s| && s[i].cls == HostEntity && s[j].cls == HostEntity ==> i == j)
  }

  lemma HostsAfterRemove(s: seq<ModelEntity>, i: nat, host: Option<ModelEntity>)
    requires i < |s| && HostsAgree(s, host)
    ensures HostsAgree(RemoveAt(s, i), host)
  {
    var r := RemoveAt(s, i);
    forall a, b | 0 <= a < |r| && 0 <= b < |r| && r[a].cls == HostEntity && r[b].cls == HostEntity
      ensures a == b
    {
      var a' := if a < i then a else a + 1;
      var b' := if b < i then b else b + 1;
      assert r[a] == s[a'] && r[b] == s[b'];
    }
    forall a | 0 <= a < |r| && r[a].cls == HostEntity
      ensures host == Some(r[a])
    {
      assert r[a] == s[if a < i then a else a + 1];
    }
  }

  lemma HostsAfterAppend(s: seq<ModelEntity>, x: ModelEntity, host: Option<ModelEntity>)
    requires HostsAgree(s, host) && x.cls != HostEntity
    ensures HostsAgree(s + [x], host)
  {
  }

  /** A new host joins a list that holds none. */
  lemma HostsAfterNewHost(s: seq<ModelEntity>, h: ModelEntity)
    requires h.cls == HostEntity
    requires forall i :: 0 <= i < |s| ==> s[i].cls != HostEntity
    ensures HostsAgree(s + [h], Some(h))
  {
  }

  /** Once the current host is deleted, none is left. */
  lemma NoHostAfterRemovingIt(s: seq<ModelEntity>, host: ModelEntity)
    requires HostsAgree(s, Some(host)) && host in s
    ensures forall i :: 0 <= i < |RemoveFirst(s, host)| ==> RemoveFirst(s, host)[i].cls != HostEntity
  {
    var k := IndexOf(s, host);
    var r := RemoveFirst(s, host);
    forall a | 0 <= a < |r|
      ensures r[a].cls != HostEntity
    {
      var a' := if a < k then a else a + 1;
      assert r[a] == s[a'] && a' != k;
    }
  }

  // The guards of `load` and `start`, in the order the source checks them.

  const NoParamsToLoad: string := "Simulation parameters must be set before loading entities"
  const NoHostToLoad: string := "Host must be set before loading entities"
  const AlreadyStarted: string := "Simulation already started."
  const NotLoaded: string := "Simulation must be loaded before starting."
  const NoHostToStart: string := "Host must be set before starting simulation"
  const NoParamsToStart: string := "Simulation parameters must be set before starting simulation"

  function LoadGuard(hasParams: bool, hasHost: bool): (r: Outcome<PyError>)
    ensures r.Pass? <==> hasParams && hasHost
    ensures !hasParams ==> r == Fail(ValueError(NoParamsToLoad))
    ensures hasParams && !hasHost ==> r == Fail(ValueError(NoHostToLoad))
  {
    if !hasParams then Fail(ValueError(NoParamsToLoad))
    else if !hasHost then Fail(ValueError(NoHostToLoad))
    else Pass
  }

  function StartGuard(status: ComposerStatus, hasHost: bool, hasParams: bool): (r: Outcome<PyError>)
    ensures r.Pass? <==> status == Loaded && hasHost && hasParams
    ensures status == Active ==> r == Fail(ValueError(AlreadyStarted))
    ensures status == Inactive ==> r == Fail(ValueError(NotLoaded))
    ensures status == Loaded && !hasHost ==> r == Fail(ValueError(NoHostToStart))
    ensures status == Loaded && hasHost && !hasParams ==> r == Fail(ValueError(NoParamsToStart))
  {
    match status
    case Active => Fail(ValueError(AlreadyStarted))
    case Inactive => Fail(ValueError(NotLoaded))
    case Loaded =>
      if !hasHost then Fail(ValueError(NoHostToStart))
      else if !hasParams then Fail(ValueError(NoParamsToStart))
      else Pass
  }

  /** The message of `list.remove` on a missing element. */
  const NotInList: string := "list.remove(x): x not in list"

  class ModelRestComposer {
    const name: string
    var entities: seq<ModelEntity>
    var host: Option<ModelEntity>
    /** `None` until the first meter or `load`. */
    var meters: Option<seq<ModelEntity>>
    var simParams: Option<Json>
    var status: ComposerStatus
    /** Whether `self.thread` exists, i.e. `start` has succeeded once. */
    var threadStarted: bool

    /** What every method keeps: at most one host among the entities, and
        it is `host`; `meters` lists exactly the entities' meters, in order;
        a loaded or active composer has host, meters and parameters. */
    ghost predicate Valid()
      reads this
    {
      && HostsAgree(entities, host)
      && (meters.Some? ==> meters.value == MetersOf(entities))
      && (meters.None? ==> MetersOf(entities) == [])
      && (status != Inactive ==> host.Some? && meters.Some? && simParams.Some?)
    }

    /** `__init__` (the REST server it starts is not part of this model). */
    constructor (name: string)
      ensures Valid()
      ensures this.name == name
      ensures entities == [] && host.None? && meters.None? && simParams.None?
      ensures status == Inactive && !threadStarted
    {
      this.name := name;
      entities := [];
      host := None;
      meters := None;
      simParams := None;
      status := Inactive;
      threadStarted := false;
    }

    /** `reset`: everything is cleared first; only then is `self.thread`
        read, which raises `AttributeError` before any `start`. */
    method Reset() returns (r: Outcome<PyError>)
      requires Valid()
      modifies this
      ensures Valid()
      ensures entities == [] && host.None? && meters.None? && simParams.None? && status == Inactive
      ensures threadStarted == old(threadStarted)
      ensures r.Pass? <==> old(threadStarted)
      ensures r.Fail? ==> r.error == AttributeError
    {
      entities := [];
      host := None;
      meters := None;
      simParams := None;
      status := Inactive;
      if !threadStarted {
        return Fail(AttributeError);
      }
      return Pass;
    }

    /** `add`: a host goes through `setHost`, a meter through `addMeter`,
        anything else is appended. */
    method Add(e: ModelEntity) returns (r: Outcome<PyError>)
      requires Valid()
      modifies this
      ensures Valid()
      ensures e.cls != HostEntity ==> r.Pass?
      ensures e.cls != HostEntity ==> entities == old(entities) + [e] && host == old(host)
      ensures e.cls == MeterEntity ==> meters == Some(old(if meters.Some? then meters.value else []) + [e])
      ensures e.cls != MeterEntity && e.cls != HostEntity ==> meters == old(meters)
      ensures e.cls == HostEntity ==> (r.Pass? <==> old(host).None? || old(host).value in old(entities))
      ensures e.cls == HostEntity && r.Pass? ==> host == Some(e) && MetersOf(entities) == MetersOf(old(entities))
      ensures e.cls == HostEntity && r.Pass? ==>
        entities == (if old(host).None? then old(entities) else RemoveFirst(old(entities), old(host).value)) + [e]
      ensures e.cls == HostEntity ==> meters == old(meters)
      ensures r.Fail? ==> r == Fail(ValueError(NotInList))
      ensures r.Fail? ==> entities == old(entities) && host == old(host)
      ensures status == old(status) && simParams == old(simParams) && threadStarted == old(threadStarted)
    {
      if e.cls == HostEntity {
        r := SetHost(e);
      } else if e.cls == MeterEntity {
        AddMeter(e);
        r := Pass;
      } else {
        MetersOfAppend(entities, e);
        HostsAfterAppend(entities, e, host);
        entities := entities + [e];
        r := Pass;
      }
    }

    /** `remove`: the loop finds the first entity with that name, deletes it
        from the entities (and from the meters if it is one) and answers
        True. A removed host stays in `host`: the test is for `RestHost`,
        which no entity is. */
    method Remove(n: string) returns (found: bool)
      requires Valid()
      modifies this
      ensures Valid()
      ensures found <==> exists i :: 0 <= i < |old(entities)| && old(entities)[i].name == n
      ensures found ==> entities == RemoveAt(old(entities), FirstNamed(old(entities), n))
      ensures !found ==> entities == old(entities)
      ensures meters.Some? ==> meters.value == MetersOf(entities)
      ensures meters.Some? <==> old(meters).Some?
      ensures host == old(host) && status == old(status) && simParams == old(simParams)
      ensures threadStarted == old(threadStarted)
    {
      var i := 0;
      while i < |entities|
        invariant 0 <= i <= |entities|
        invariant forall j :: 0 <= j < i ==> entities[j].name != n
        invariant entities == old(entities) && meters == old(meters)
      {
        var entity := entities[i];
        if entity.name == n {
          assert i == FirstNamed(entities, n);
          assert IndexOf(entities, entity) == i;
          HostsAfterRemove(entities, i, host);
          if entity.cls == MeterEntity {
            MetersAfterRemove(entities, i);
            entities := RemoveFirst(entities, entity);
            meters := Some(RemoveFirst(meters.value, entity));
          } else {
            MetersAfterRemoveOther(entities, i);
            entities := RemoveFirst(entities, entity);
          }
          return true;
        }
        i := i + 1;
      }
      return false;
    }

    /** `setHost`: the previous host is taken out of the entities first; if
        it is no longer there, `list.remove` raises and nothing changes. */
    method SetHost(h: ModelEntity) returns (r: Outcome<PyError>)
      requires Valid() && h.cls == HostEntity
      modifies this
      ensures Valid()
      ensures r.Pass? <==> old(host).None? || old(host).value in old(entities)
      ensures r.Fail? ==> r == Fail(ValueError(NotInList)) && entities == old(entities) && host == old(host)
      ensures r.Pass? && old(host).None? ==> entities == old(entities) + [h]
      ensures r.Pass? && old(host).Some? ==> entities == RemoveFirst(old(entities), old(host).value) + [h]
      ensures r.Pass? ==> host == Some(h) && MetersOf(entities) == MetersOf(old(entities))
      ensures meters == old(meters) && status == old(status) && simParams == old(simParams)
      ensures threadStarted == old(threadStarted)
    {
      if host.Some? {
        if host.value !in entities {
          return Fail(ValueError(NotInList));
        }
        var i := IndexOf(entities, host.value);
        MetersAfterRemoveOther(entities, i);
        NoHostAfterRemovingIt(entities, host.value);
        entities := RemoveFirst(entities, host.value);
      }
      HostsAfterNewHost(entities, h);
      MetersOfAppend(entities, h);
      host := Some(h);
      entities := entities + [h];
      return Pass;
    }

    /** `addMeter`: the meter goes into both lists. */
    method AddMeter(m: ModelEntity)
      requires Valid() && m.cls == MeterEntity
      modifies this
      ensures Valid()
      ensures meters == Some(old(if meters.Some? then meters.value else []) + [m])
      ensures entities == old(entities) + [m]
      ensures host == old(host) && status == old(status) && simParams == old(simParams)
      ensures threadStarted == old(threadStarted)
    {
      if meters.None? {
        meters := Some([]);
      }
      MetersOfAppend(entities, m);
      HostsAfterAppend(entities, m, host);
      meters := Some(meters.value + [m]);
      entities := entities + [m];
    }

    /** The `/composer/config` route. Its `before_request` guard answers 503
        unless the composer is INACTIVE; otherwise `json.loads` of the body
        is stored, and a `null` body stores Python's `None`. */
    method SetSimParams(data: Json) returns (accepted: bool)
      requires Valid()
      modifies this
      ensures Valid()
      ensures accepted <==> old(status) == Inactive
      ensures accepted ==> simParams == (if data == JNull then None else Some(data))
      ensures !accepted ==> simParams == old(simParams)
      ensures entities == old(entities) && host == old(host) && meters == old(meters) && status == old(status)
      ensures threadStarted == old(threadStarted)
    {
      if status != Inactive {
        return false;
      }
      simParams := if data == JNull then None else Some(data);
      return true;
    }

    /** `load`: the two guards, then a missing meter list becomes empty and
        the status is LOADED. The status itself is not checked here. The
        entities' own `load` is not part of this model. */
    method Load() returns (r: Outcome<PyError>)
      requires Valid()
      modifies this
      ensures Valid()
      ensures r == LoadGuard(old(simParams).Some?, old(host).Some?)
      ensures r.Pass? ==> status == Loaded && meters == Some(MetersOf(entities))
      ensures r.Fail? ==> status == old(status) && meters == old(meters)
      ensures entities == old(entities) && host == old(host) && simParams == old(simParams)
      ensures threadStarted == old(threadStarted)
    {
      r := LoadGuard(simParams.Some?, host.Some?);
      if r.Fail? {
        return;
      }
      if meters.None? {
        meters := Some([]);
      }
      status := Loaded;
    }

    /** `start`: only a LOADED composer with a host and parameters starts;
        it becomes ACTIVE and `self.thread` exists from then on. */
    method Start() returns (r: Outcome<PyError>)
      requires Valid()
      modifies this
      ensures Valid()
      ensures r == StartGuard(old(status), old(host).Some?, old(simParams).Some?)
      ensures r.Pass? ==> status == Active && threadStarted
      ensures r.Fail? ==> status == old(status) && threadStarted == old(threadStarted)
      ensures entities == old(entities) && host == old(host) && meters == old(meters) && simParams == old(simParams)
    {
      r := StartGuard(status, host.Some?, simParams.Some?);
      if r.Fail? {
        return;
      }
      status := Active;
      threadStarted := true;
    }
  }

  /** The lifecycle: `start` succeeds only from LOADED, and `load` needs the
      same two settings `start` checks again. `load` itself checks no
      status, so a second `load` returns an ACTIVE composer to LOADED. */
  lemma Lifecycle(hasHost: bool, hasParams: bool)
    ensures StartGuard(Inactive, hasHost, hasParams).Fail?
    ensures StartGuard(Active, hasHost, hasParams).Fail?
    ensures LoadGuard(hasParams, hasHost).Pass? ==> StartGuard(Loaded, hasHost, hasParams).Pass?
  {
  }

  /** A `null` configuration stores `None`, so a composer that has its host
      still refuses to load for want of parameters. */
  method NullConfigBlocksLoad() returns (r: Outcome<PyError>)
    ensures r == Fail(ValueError(NoParamsToLoad))
  {
    var c := new ModelRestComposer("house");
    var h := new ModelEntity(HostEntity, "House-0");
    var added := c.Add(h);
    var accepted := c.SetSimParams(JNull);
    r := c.Load();
  }
}
