/**
 * `propagate_secret` and `portable_secrets_propagation`: every configured
 * "namespace/name" path names a secret that is read and written, under the
 * same name, into the target namespace. The first failure stops the loop;
 * the copies already made stay where they are.
 */
module Propagation {
  import opened Wrappers
  import opened Cluster

  /** `s.split(sep)`: the pieces between the separators, at least one. */
  function Split(s: string, sep: char): (parts: seq<string>)
    ensures |parts| >= 1
    decreases |s|
  {
    if s == [] then [[]]
    else
      var rest := Split(s[1..], sep);
      if s[0] == sep then [[]] + rest else [[s[0]] + rest[0]] + rest[1..]
  }

  /** `sep.join(parts)` */
  function Join(parts: seq<string>, sep: char): string
    requires |parts| >= 1
    decreases |parts|
  {
    if |parts| == 1 then parts[0] else parts[0] + [sep] + Join(parts[1..], sep)
  }

  /** The number of occurrences of c in s. */
  function Occurrences(s: string, c: char): nat
    decreases |s|
  {
    if s == [] then 0 else (if s[0] == c then 1 else 0) + Occurrences(s[1..], c)
  }

  /** Splitting loses nothing: joining the pieces again gives s back, no piece holds the separator, and there is one piece more than separators. */
  lemma {:induction false} SplitJoin(s: string, sep: char)
    ensures Join(Split(s, sep), sep) == s
    ensures |Split(s, sep)| == Occurrences(s, sep) + 1
    ensures forall i | 0 <= i < |Split(s, sep)| :: sep !in Split(s, sep)[i]
    decreases |s|
  {
    if s != [] {
      SplitJoin(s[1..], sep);
      var rest := Split(s[1..], sep);
      if s[0] == sep {
        assert Split(s, sep)[1..] == rest;
      } else {
        var parts := Split(s, sep);
        if |rest| > 1 {
          assert parts[1..] == rest[1..];
        }
        forall i | 0 <= i < |parts| ensures sep !in parts[i] {
          if i == 0 {
            assert parts[0] == [s[0]] + rest[0];
          } else {
            assert parts[i] == rest[i];
          }
        }
      }
    }
  }

  /**
   * `source_namespace, source_name = path.split('/')`: the two pieces when the
   * path holds exactly one '/', otherwise None (the unpacking raises ValueError).
   */
  function SplitPath(path: string): (r: Option<(string, string)>)
    ensures r.Some? <==> Occurrences(path, '/') == 1
    ensures r.Some? ==> path == r.value.0 + "/" + r.value.1 && '/' !in r.value.0 && '/' !in r.value.1
  {
    var parts := Split(path, '/');
    SplitJoin(path, '/');
    if |parts| == 2 then
      assert Join(parts[1..], '/') == parts[1];
      Some((parts[0], parts[1]))
    else None
  }

  /** The body written to the target: the secret read, with `metadata.namespace = target` and `metadata.resource_version = None`. */
  function CopyFor(source: Secret, target: string): (copy: Secret)
    ensures copy.meta.name == source.meta.name && copy.data == source.data
    ensures copy.meta.namespace == Some(target) && copy.meta.resourceVersion.None?
  {
    source.(meta := source.meta.(namespace := Some(target), resourceVersion := None))
  }

  /** Clearing the two fields is what lets the create through: the gateway refuses the copy only for a missing target or a name already taken there. */
  lemma CopyIsAcceptable(w: World, stamp: nat, source: Secret, target: string)
    ensures var copy := CopyFor(source, target);
      Apply(w, stamp, CreateSecret(target, copy)).Refused? <==>
        target !in w.namespaces || (target, source.meta.name) in w.secrets
    ensures var copy := CopyFor(source, target);
      Apply(w, stamp, CreateSecret(target, copy)).Done? ==>
        var s := Apply(w, stamp, CreateSecret(target, copy)).world.secrets[(target, source.meta.name)];
        s.data == source.data && s.meta.name == source.meta.name && s.meta.namespace == Some(target)
  {
  }

  /** `propagate_secret(path, target)`. */
  function PropagateOne(e: Env, inject: nat -> Option<Fault>, path: string, target: string): (Env, Option<Fault>) {
    match SplitPath(path)
    case None => (e, Some(MalformedPath))
    case Some((ns, n)) =>
      var a := Perform(e, inject, ReadSecret(ns, n));
      if a.fault.Some? then (a.env, a.fault)
      else
        var b := Perform(a.env, inject, CreateSecret(target, CopyFor(a.got.value, target)));
        (b.env, b.fault)
  }

  /** `portable_secrets_propagation(target)` over the configured paths, in order. */
  function Propagate(e: Env, inject: nat -> Option<Fault>, paths: seq<string>, target: string): (r: (Env, Option<Fault>))
    ensures e.trace <= r.0.trace
    ensures paths == [] ==> r == (e, None)
    decreases |paths|
  {
    if paths == [] then (e, None)
    else
      var (e1, f) := PropagateOne(e, inject, paths[0], target);
      if f.Some? then (e1, f) else Propagate(e1, inject, paths[1..], target)
  }

  /**
   * seg is, in order, the calls for a prefix of paths: for each path the read
   * of its source secret and then the create of a copy under the same name in
   * target, with the fields cleared. The last path of the prefix may stop
   * after the read, or before it for a path that does not split.
   */
  predicate CallsFollowPaths(seg: seq<Call>, paths: seq<string>, target: string)
    decreases |paths|
  {
    seg == [] ||
    (|paths| >= 1 && SplitPath(paths[0]).Some? &&
     var (ns, n) := SplitPath(paths[0]).value;
     seg[0] == ReadSecret(ns, n) &&
     (|seg| == 1 ||
      (seg[1].CreateSecret? && seg[1].namespace == target && seg[1].body.meta == Meta(n, Some(target), None) &&
       CallsFollowPaths(seg[2..], paths[1..], target))))
  }

  /** The calls for one path that went through: the read of its source and the create of the copy. */
  predicate CopiedPath(two: seq<Call>, path: string, target: string) {
    |two| == 2 && SplitPath(path).Some? &&
    var (ns, n) := SplitPath(path).value;
    two[0] == ReadSecret(ns, n) &&
    two[1].CreateSecret? && two[1].namespace == target && two[1].body.meta == Meta(n, Some(target), None)
  }

  /** The name of the secret a path points at, if the path splits. */
  function CopyName(path: string): set<string> {
    match SplitPath(path)
    case None => {}
    case Some((_, n)) => {n}
  }

  /** The names of the secrets the paths point at. */
  function CopyNames(paths: seq<string>): set<string>
    decreases |paths|
  {
    if paths == [] then {} else CopyName(paths[0]) + CopyNames(paths[1..])
  }

  /**
   * Every secret of s is kept in s', and the secrets s' adds all live in the
   * target namespace, under one of the given names.
   */
  ghost predicate AddsSecretsOnlyIn(s: map<(string, string), Secret>, s': map<(string, string), Secret>, target: string, names: set<string>) {
    (forall k | k in s :: k in s' && s'[k] == s[k]) &&
    (forall k | k in s' && k !in s :: k.0 == target && k.1 in names)
  }

  /** From w to w', only secrets of the given names in the target namespace are added: nothing else is changed or removed. */
  ghost predicate OnlyAddsSecretsIn(w: World, w': World, target: string, names: set<string>) {
    w'.namespaces == w.namespaces && w'.buckets == w.buckets && w'.quotas == w.quotas &&
    AddsSecretsOnlyIn(w.secrets, w'.secrets, target, names)
  }

  /** The calls for the first path. */
  lemma OneCalls(e: Env, inject: nat -> Option<Fault>, paths: seq<string>, target: string)
    requires |paths| >= 1 && WellFormed(e.world)
    ensures var (e1, f1) := PropagateOne(e, inject, paths[0], target);
      e.trace <= e1.trace && CallsFollowPaths(e1.trace[|e.trace|..], paths, target) &&
      (f1.None? ==> CopiedPath(e1.trace[|e.trace|..], paths[0], target))
    ensures SplitPath(paths[0]).None? ==> PropagateOne(e, inject, paths[0], target) == (e, Some(MalformedPath))
    ensures SplitPath(paths[0]).Some? ==>
      var (ns, n) := SplitPath(paths[0]).value; var a := Perform(e, inject, ReadSecret(ns, n));
      a.fault.Some? ==> PropagateOne(e, inject, paths[0], target) == (Env(e.world, e.trace + [ReadSecret(ns, n)]), a.fault)
    ensures SplitPath(paths[0]).Some? ==>
      var (ns, n) := SplitPath(paths[0]).value; var a := Perform(e, inject, ReadSecret(ns, n));
      a.fault.None? ==>
        a.got.Some? &&
        PropagateOne(e, inject, paths[0], target).0.trace == e.trace + [ReadSecret(ns, n), CreateSecret(target, CopyFor(a.got.value, target))]
  {
    var (e1, f1) := PropagateOne(e, inject, paths[0], target);
    match SplitPath(paths[0])
    case None =>
      assert e1.trace[|e.trace|..] == [];
    case Some((ns, n)) =>
      var a := Perform(e, inject, ReadSecret(ns, n));
      if a.fault.Some? {
        assert e1.trace[|e.trace|..] == [ReadSecret(ns, n)];
      } else {
        var copy := CopyFor(a.got.value, target);
        assert e1.trace[|e.trace|..] == [ReadSecret(ns, n), CreateSecret(target, copy)];
        assert e1.trace[|e.trace|..][2..] == [];
      }
  }

  /** Adding secrets in the target namespace touches nothing outside it. */
  lemma OnlyAddsStaysInside(w: World, w': World, target: string, names: set<string>)
    requires OnlyAddsSecretsIn(w, w', target, names)
    ensures SameOutside(w, w', target)
  {
  }

  /** One path at most adds its copy to the target namespace, and keeps the stored secrets well formed. */
  lemma OneOnlyAdds(e: Env, inject: nat -> Option<Fault>, path: string, target: string)
    requires WellFormed(e.world)
    ensures var w1 := PropagateOne(e, inject, path, target).0.world;
      OnlyAddsSecretsIn(e.world, w1, target, CopyName(path)) && WellFormed(w1)
  {
    match SplitPath(path)
    case None =>
    case Some((ns, n)) =>
      var a := Perform(e, inject, ReadSecret(ns, n));
      if a.fault.None? {
        var copy := CopyFor(a.got.value, target);
        var b := Perform(a.env, inject, CreateSecret(target, copy));
        PerformKeepsWellFormed(a.env, inject, CreateSecret(target, copy));
        if b.fault.None? {
          PerformSucceeds(a.env, inject, CreateSecret(target, copy));
          assert copy.meta.name == n;
        }
      }
  }

  /**
   * Propagation only adds secrets to the target namespace, named as the
   * portable secrets are; the copies already made stay in place whatever
   * happens later.
   */
  lemma {:induction false} PropagateOnlyAdds(e: Env, inject: nat -> Option<Fault>, paths: seq<string>, target: string)
    requires WellFormed(e.world)
    ensures var w' := Propagate(e, inject, paths, target).0.world;
      OnlyAddsSecretsIn(e.world, w', target, CopyNames(paths)) && WellFormed(w')
    decreases |paths|
  {
    if paths != [] {
      var (e1, f1) := PropagateOne(e, inject, paths[0], target);
      OneOnlyAdds(e, inject, paths[0], target);
      if f1.None? {
        PropagateOnlyAdds(e1, inject, paths[1..], target);
      }
    }
  }

  /**
   * Propagation follows the paths in order and stops at the first failure:
   * the trace grows by one read and one create per path, for a prefix of
   * the paths, and by all of them on success.
   */
  lemma {:induction false} PropagateCalls(e: Env, inject: nat -> Option<Fault>, paths: seq<string>, target: string)
    requires WellFormed(e.world)
    ensures var r := Propagate(e, inject, paths, target);
      CallsFollowPaths(r.0.trace[|e.trace|..], paths, target) && (r.1.None? ==> |r.0.trace| == |e.trace| + 2 * |paths|)
    decreases |paths|
  {
    var r := Propagate(e, inject, paths, target);
    if paths == [] {
      assert r.0.trace[|e.trace|..] == [];
    } else {
      var r1 := PropagateOne(e, inject, paths[0], target);
      OneCalls(e, inject, paths, target);
      if r1.1.None? {
        assert r == Propagate(r1.0, inject, paths[1..], target);
        OneOnlyAdds(e, inject, paths[0], target);
        PropagateCalls(r1.0, inject, paths[1..], target);
        var seg1 := r1.0.trace[|e.trace|..];
        var rest := r.0.trace[|r1.0.trace|..];
        TraceSplits(e.trace, r1.0.trace, r.0.trace);
        FollowsPathsCons(seg1, rest, paths, target);
      }
    }
  }

  /** The calls of a path copied, followed by calls that follow the remaining paths, follow all the paths. */
  lemma FollowsPathsCons(seg1: seq<Call>, rest: seq<Call>, paths: seq<string>, target: string)
    requires |paths| >= 1 && CopiedPath(seg1, paths[0], target) && CallsFollowPaths(rest, paths[1..], target)
    ensures CallsFollowPaths(seg1 + rest, paths, target)
  {
    assert (seg1 + rest)[2..] == rest;
  }

  /**
   * The path names a secret outside the target namespace, which source holds,
   * and secrets holds a secret of that name in the target with the same data.
   */
  ghost predicate CopyHeld(source: map<(string, string), Secret>, secrets: map<(string, string), Secret>, path: string, target: string) {
    SplitPath(path).Some? &&
    var (ns, n) := SplitPath(path).value;
    ns != target && (ns, n) in source && (target, n) in secrets && secrets[(target, n)].data == source[(ns, n)].data
  }

  /** Every path names a secret of source, whose copy is stored in the target namespace of secrets. */
  ghost predicate HoldsCopies(source: map<(string, string), Secret>, secrets: map<(string, string), Secret>, paths: seq<string>, target: string) {
    forall i | 0 <= i < |paths| :: CopyHeld(source, secrets, paths[i], target)
  }

  /** A path that goes through leaves a copy of its source secret in the target namespace. */
  lemma OneCopyHeld(e: Env, inject: nat -> Option<Fault>, path: string, target: string)
    requires WellFormed(e.world) && PropagateOne(e, inject, path, target).1.None?
    ensures CopyHeld(e.world.secrets, PropagateOne(e, inject, path, target).0.world.secrets, path, target)
  {
    var (ns, n) := SplitPath(path).value;
    var a := Perform(e, inject, ReadSecret(ns, n));
    var copy := CopyFor(a.got.value, target);
    PerformSucceeds(a.env, inject, CreateSecret(target, copy));
    assert copy.meta.name == n;
  }

  /** A copy stays held while secrets are only added. */
  lemma CopyHeldKept(source: map<(string, string), Secret>, s1: map<(string, string), Secret>, s2: map<(string, string), Secret>,
                     path: string, target: string, names: set<string>)
    requires CopyHeld(source, s1, path, target) && AddsSecretsOnlyIn(s1, s2, target, names)
    ensures CopyHeld(source, s2, path, target)
  {
  }

  /** All copies stay held while secrets are only added. */
  lemma HoldsCopiesKept(source: map<(string, string), Secret>, s1: map<(string, string), Secret>, s2: map<(string, string), Secret>,
                        paths: seq<string>, target: string, names: set<string>)
    requires HoldsCopies(source, s1, paths, target) && AddsSecretsOnlyIn(s1, s2, target, names)
    ensures HoldsCopies(source, s2, paths, target)
  {
    forall i | 0 <= i < |paths|
      ensures CopyHeld(source, s2, paths[i], target)
    {
      CopyHeldKept(source, s1, s2, paths[i], target, names);
    }
  }

  /** Two rounds of additions in the target are one, under both sets of names. */
  lemma AddsSecretsTrans(s0: map<(string, string), Secret>, s1: map<(string, string), Secret>, s2: map<(string, string), Secret>,
                         target: string, names1: set<string>, names2: set<string>)
    requires AddsSecretsOnlyIn(s0, s1, target, names1) && AddsSecretsOnlyIn(s1, s2, target, names2)
    ensures AddsSecretsOnlyIn(s0, s2, target, names1 + names2)
  {
  }

  /** A source secret outside the target, read after secrets were only added to the target, was there before. */
  lemma CopyHeldEarlier(s0: map<(string, string), Secret>, s1: map<(string, string), Secret>, secrets: map<(string, string), Secret>,
                        path: string, target: string, names: set<string>)
    requires AddsSecretsOnlyIn(s0, s1, target, names) && CopyHeld(s1, secrets, path, target)
    ensures CopyHeld(s0, secrets, path, target)
  {
    var (ns, n) := SplitPath(path).value;
    assert (ns, n) in s0;
  }

  /** A propagation that goes through its first path carries on with the rest from there. */
  lemma PropagateUnfolds(e: Env, inject: nat -> Option<Fault>, paths: seq<string>, target: string)
    requires paths != [] && Propagate(e, inject, paths, target).1.None?
    ensures PropagateOne(e, inject, paths[0], target).1.None?
    ensures Propagate(e, inject, paths, target) == Propagate(PropagateOne(e, inject, paths[0], target).0, inject, paths[1..], target)
  {
  }

  /**
   * On success every portable secret has a copy in the target namespace,
   * holding the data the source secret had before the propagation.
   */
  lemma {:induction false} PropagateCopiesAll(e: Env, inject: nat -> Option<Fault>, paths: seq<string>, target: string, i: nat)
    requires i < |paths| && WellFormed(e.world)
    requires Propagate(e, inject, paths, target).1.None?
    ensures CopyHeld(e.world.secrets, Propagate(e, inject, paths, target).0.world.secrets, paths[i], target)
    decreases |paths|
  {
    var e1 := PropagateOne(e, inject, paths[0], target).0;
    PropagateUnfolds(e, inject, paths, target);
    OneOnlyAdds(e, inject, paths[0], target);
    PropagateOnlyAdds(e1, inject, paths[1..], target);
    var w := Propagate(e1, inject, paths[1..], target).0.world;
    if i == 0 {
      OneCopyHeld(e, inject, paths[0], target);
      CopyHeldKept(e.world.secrets, e1.world.secrets, w.secrets, paths[0], target, CopyNames(paths[1..]));
    } else {
      PropagateCopiesAll(e1, inject, paths[1..], target, i - 1);
      assert paths[1..][i - 1] == paths[i];
      CopyHeldEarlier(e.world.secrets, e1.world.secrets, w.secrets, paths[i], target, CopyName(paths[0]));
    }
  }

  /**
   * A propagation that raises stopped at the first path that failed: the
   * paths before it all went through, and the run is that path's failing
   * `propagate_secret`, with nothing done after it.
   */
  lemma {:induction false} PropagateStopsAt(e: Env, inject: nat -> Option<Fault>, paths: seq<string>, target: string) returns (k: nat)
    requires Propagate(e, inject, paths, target).1.Some?
    ensures k < |paths|
    ensures var p := Propagate(e, inject, paths[..k], target);
      p.1.None? && PropagateOne(p.0, inject, paths[k], target) == Propagate(e, inject, paths, target)
    decreases |paths|
  {
    var (e1, f1) := PropagateOne(e, inject, paths[0], target);
    if f1.Some? {
      k := 0;
      assert paths[..0] == [];
    } else {
      var k' := PropagateStopsAt(e1, inject, paths[1..], target);
      k := k' + 1;
      assert paths[..k][0] == paths[0] && paths[..k][1..] == paths[1..][..k'];
      assert paths[1..][k'] == paths[k];
    }
  }

  /** `propagate_secret(path, target)` */
  method PropagateSecret(gw: Gateway, path: string, target: string) returns (fault: Option<Fault>)
    modifies gw
    ensures (gw.State(), fault) == PropagateOne(old(gw.State()), gw.inject, path, target)
  {
    var split := SplitPath(path);
    if split.None? {
      return Some(MalformedPath);
    }
    var (ns, n) := split.value;
    var source: Option<Secret>;
    fault, source := gw.ReadNamespacedSecret(ns, n);
    if fault.Some? {
      return;
    }
    var copy := source.value;
    copy := copy.(meta := copy.meta.(namespace := Some(target)));
    copy := copy.(meta := copy.meta.(resourceVersion := None));
    fault := gw.CreateNamespacedSecret(target, copy);
  }

  /** `portable_secrets_propagation(target)`: the paths in order, stopping at the first exception. */
  method PortableSecretsPropagation(gw: Gateway, paths: seq<string>, target: string) returns (fault: Option<Fault>)
    modifies gw
    ensures (gw.State(), fault) == Propagate(old(gw.State()), gw.inject, paths, target)
  {
    fault := None;
    var i := 0;
    while i < |paths|
      invariant 0 <= i <= |paths| && fault.None?
      invariant Propagate(old(gw.State()), gw.inject, paths, target) == Propagate(gw.State(), gw.inject, paths[i..], target)
    {
      assert paths[i..][0] == paths[i] && paths[i..][1..] == paths[i + 1..];
      fault := PropagateSecret(gw, paths[i], target);
      if fault.Some? {
        return;
      }
      i := i + 1;
    }
  }
}
