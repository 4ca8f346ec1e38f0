/** Pods as the drain sees them: the identity evicted, and what to do with it. */
module Pods {
  import opened Strings

  datatype PodRef = PodRef(ns: string, name: string, uid: string) {
    function Key(): string {
      ns + "/" + name
    }
  }

  datatype Owner = Owner(kind: string, controller: bool)

  /** The fields of a listed pod that the drain reads; absent strings read as
      "", and `phase` is already lower-cased. */
  datatype Pod = Pod(ns: string, name: string, uid: string, mirror: bool, owners: seq<Owner>, phase: string)

  datatype Action = Evict | Skip | Block

  const NO_REF := PodRef("", "", "")

  function RefOf(p: Pod): PodRef
  {
    if p.name == "" then NO_REF
    else PodRef(if p.ns == "" then "default" else p.ns, p.name, p.uid)
  }

  /** The drain rule, stated without an order on the owners. */
  function ActionOf(p: Pod): Action
  {
    if p.name == "" || p.mirror || (exists o :: o in p.owners && o.kind == "DaemonSet") || p.phase in {"succeeded", "failed"}
    then Skip
    else if exists o :: o in p.owners && o.controller then Evict
    else Block
  }

  /** `classifyPod`: one pass over the owners, leaving at the first DaemonSet. */
  method ClassifyPod(pod: Pod) returns (ref: PodRef, action: Action)
    ensures pod.name != "" ==>
              ref.name == pod.name && ref.uid == pod.uid && ref.ns == (if pod.ns == "" then "default" else pod.ns)
    ensures action == Evict <==>
              && pod.name != "" && !pod.mirror && pod.phase != "succeeded" && pod.phase != "failed"
              && (forall o :: o in pod.owners ==> o.kind != "DaemonSet") && (exists o :: o in pod.owners && o.controller)
    ensures action == Block <==>
              && pod.name != "" && !pod.mirror && pod.phase != "succeeded" && pod.phase != "failed"
              && (forall o :: o in pod.owners ==> o.kind != "DaemonSet" && !o.controller)
    ensures ref == RefOf(pod) && action == ActionOf(pod)
  {
    if pod.name == "" {
      return NO_REF, Skip;
    }
    ref := PodRef(if pod.ns == "" then "default" else pod.ns, pod.name, pod.uid);
    if pod.mirror {
      return ref, Skip;
    }
    var controlled := false;
    for i := 0 to |pod.owners|
      invariant forall k :: 0 <= k < i ==> pod.owners[k].kind != "DaemonSet"
      invariant controlled <==> exists k :: 0 <= k < i && pod.owners[k].controller
    {
      if pod.owners[i].kind == "DaemonSet" {
        assert pod.owners[i] in pod.owners;
        return ref, Skip;
      }
      if pod.owners[i].controller {
        controlled := true;
      }
    }
    if pod.phase in {"succeeded", "failed"} {
      return ref, Skip;
    }
    if !controlled {
      return ref, Block;
    }
    return ref, Evict;
  }

  /** Reordering a pod's owners never changes its identity or its action. */
  lemma OwnerOrderIrrelevant(p: Pod, q: Pod)
    requires q == p.(owners := q.owners)
    requires multiset(p.owners) == multiset(q.owners)
    ensures RefOf(p) == RefOf(q) && ActionOf(p) == ActionOf(q)
  {
    forall o ensures o in p.owners <==> o in q.owners {
      assert o in p.owners <==> o in multiset(p.owners);
      assert o in q.owners <==> o in multiset(q.owners);
    }
  }

  /** Two pods are one to the drain exactly when namespace, name and UID agree. */
  lemma OneRefOnePod(p: Pod, q: Pod)
    requires p.name != "" && q.name != ""
    ensures RefOf(p) == RefOf(q) <==>
              p.name == q.name && p.uid == q.uid && (p.ns == q.ns || (p.ns in {"", "default"} && q.ns in {"", "default"}))
  {}

  // ------------------------------------------- the three classes of a listing

  function Evictable(pods: seq<Pod>): seq<PodRef>
  {
    if pods == [] then []
    else (if pods[0].name != "" && ActionOf(pods[0]) == Evict then [RefOf(pods[0])] else []) + Evictable(pods[1..])
  }

  /** The pod's key, if it is named and treated so. */
  function KeyIf(p: Pod, action: Action): seq<string>
  {
    if p.name != "" && ActionOf(p) == action then [RefOf(p).Key()] else []
  }

  function KeysWith(pods: seq<Pod>, action: Action): seq<string>
  {
    if pods == [] then [] else KeyIf(pods[0], action) + KeysWith(pods[1..], action)
  }

  function Named(pods: seq<Pod>): seq<string>
  {
    if pods == [] then []
    else (if pods[0].name != "" then [RefOf(pods[0]).Key()] else []) + Named(pods[1..])
  }

  function Keys(refs: seq<PodRef>): (keys: seq<string>)
    ensures |keys| == |refs|
  {
    seq(|refs|, i requires 0 <= i < |refs| => refs[i].Key())
  }

  /** What a job lists of a pod. */
  function TextOf(p: Pod): string
  {
    (if p.ns == "" then "default" else p.ns) + "/" + p.name
  }

  function Texts(pods: seq<Pod>): (texts: seq<string>)
    ensures |texts| == |pods| && forall i :: 0 <= i < |pods| ==> texts[i] == TextOf(pods[i])
  {
    seq(|pods|, i requires 0 <= i < |pods| => TextOf(pods[i]))
  }

  /** The named pods treated one way, in the order of the listing. */
  ghost function Those(pods: seq<Pod>, action: Action): seq<Pod>
  {
    Filter(pods, (p: Pod) => p.name != "" && ActionOf(p) == action)
  }

  /** A class lists its pods' namespaces and names, in the order of the listing. */
  lemma {:induction false} KeysAreTexts(pods: seq<Pod>, action: Action)
    ensures KeysWith(pods, action) == Texts(Those(pods, action))
  {
    hide KeyIf, TextOf, Those;
    if pods == [] {
      FirstOfThose(pods, action);
    } else {
      KeysAreTexts(pods[1..], action);
      FirstOfThose(pods, action);
    }
  }

  lemma FirstOfThose(pods: seq<Pod>, action: Action)
    ensures pods == [] ==> Those(pods, action) == []
    ensures pods != [] ==> Texts(Those(pods, action)) == KeyIf(pods[0], action) + Texts(Those(pods[1..], action))
  {
    hide ActionOf;
  }

  lemma {:induction false} EvictableKeys(pods: seq<Pod>)
    ensures Keys(Evictable(pods)) == KeysWith(pods, Evict)
  {
    hide ActionOf, RefOf;
    if pods != [] {
      EvictableKeys(pods[1..]);
    }
  }

  /** Every named pod lands in exactly one class: the three classes together
      hold each named pod once. */
  lemma {:induction false} ClassesPartitionTheListing(pods: seq<Pod>)
    ensures multiset(Named(pods)) ==
            multiset(KeysWith(pods, Skip)) + multiset(KeysWith(pods, Block)) + multiset(Keys(Evictable(pods)))
  {
    hide KeyIf, Evictable, Keys;
    EvictableKeys(pods);
    if pods != [] {
      var p, rest := pods[0], pods[1..];
      ClassesPartitionTheListing(rest);
      EvictableKeys(rest);
      OneClass(p);
      OneKeyMore(pods, Skip);
      OneKeyMore(pods, Block);
      OneKeyMore(pods, Evict);
      hide KeysWith;
      Regroup(KeyIf(p, Skip), KeyIf(p, Block), KeyIf(p, Evict),
              KeysWith(rest, Skip), KeysWith(rest, Block), KeysWith(rest, Evict));
      assert multiset(Named(pods)) == multiset(if p.name != "" then [RefOf(p).Key()] else []) + multiset(Named(rest));
    }
  }

  lemma OneClass(p: Pod)
    ensures multiset(if p.name != "" then [RefOf(p).Key()] else []) ==
            multiset(KeyIf(p, Skip)) + multiset(KeyIf(p, Block)) + multiset(KeyIf(p, Evict))
  {
    hide ActionOf, RefOf;
  }

  lemma OneKeyMore(pods: seq<Pod>, action: Action)
    requires pods != []
    ensures multiset(KeysWith(pods, action)) == multiset(KeyIf(pods[0], action)) + multiset(KeysWith(pods[1..], action))
  {
    hide KeyIf;
  }

  lemma Regroup<T>(a: seq<T>, b: seq<T>, c: seq<T>, x: seq<T>, y: seq<T>, z: seq<T>)
    ensures (multiset(a) + multiset(x)) + (multiset(b) + multiset(y)) + (multiset(c) + multiset(z))
         == (multiset(a) + multiset(b) + multiset(c)) + (multiset(x) + multiset(y) + multiset(z))
  {}

  lemma {:induction false} EvictableAppend(a: seq<Pod>, p: Pod)
    ensures Evictable(a + [p]) == Evictable(a) + (if p.name != "" && ActionOf(p) == Evict then [RefOf(p)] else [])
  {
    hide ActionOf, RefOf;
    if a == [] {
      assert a + [p] == [p];
    } else {
      EvictableAppend(a[1..], p);
      assert (a + [p])[1..] == a[1..] + [p];
    }
  }

  lemma {:induction false} KeysWithAppend(a: seq<Pod>, p: Pod, action: Action)
    ensures KeysWith(a + [p], action) == KeysWith(a, action) + KeyIf(p, action)
  {
    hide KeyIf;
    if a == [] {
      assert a + [p] == [p];
      assert KeysWith([], action) == [];
    } else {
      KeysWithAppend(a[1..], p, action);
      assert (a + [p])[1..] == a[1..] + [p];
    }
  }
}
