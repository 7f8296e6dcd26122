/** The always-pull-images admission gate: on the creation of a pod it forces
    every container's image pull policy to `Always`, so that a cached local
    image can never stand in for the image the registry serves. */
module AlwaysPullImages {
  import opened Api
  import opened Admission

  const PodsResource: string := "pods"

  /** True iff the request addresses the primary pod resource, the only
      requests the gate acts on. */
  predicate TargetsPods(a: Attributes)
  {
    a.subresource == "" && a.resource == PodsResource
  }

  /** Reference definition of the rewrite: `r` is `cs` with every pull policy
      set to `Always` and nothing else changed, container by container. */
  predicate IsPullAlwaysRewrite(cs: seq<Container>, r: seq<Container>)
  {
    && |r| == |cs|
    && forall i :: 0 <= i < |cs| ==> r[i] == cs[i].(imagePullPolicy := Always)
  }

  /** The rewrite the gate applies to a pod's containers. */
  function ForceAlways(cs: seq<Container>): seq<Container>
  {
    if cs == [] then []
    else [cs[0].(imagePullPolicy := Always)] + ForceAlways(cs[1..])
  }

  /** Everything the gate promises about one Create request. */
  ghost predicate AdmitSpec(a: Attributes, r: Response)
  {
    if !TargetsPods(a) then
      r == Response(Allowed, a.obj)
    else if !a.obj.Pod? then
      r == Response(Denied(UnexpectedObjectType), a.obj)
    else
      && r.status == Allowed
      && r.obj.Pod?
      && IsPullAlwaysRewrite(a.obj.spec.containers, r.obj.spec.containers)
  }

  /** The gate. Requests for a subresource or for a resource other than pods
      pass untouched; a pod request whose object is not a pod is refused;
      otherwise every container is switched to `Always`. The gate does not read
      the operation: the admission chain only calls it for the operations it
      registered for, so nothing is claimed here about other operations. */
  function Admit(a: Attributes): (r: Response)
    ensures a.operation == Create ==>
      (r.status == Allowed <==> !TargetsPods(a) || a.obj.Pod?)
    ensures a.operation == Create && r.status != Allowed ==>
      r.status == Denied(UnexpectedObjectType) && r.obj == a.obj
    ensures a.operation == Create && !TargetsPods(a) ==> r.obj == a.obj
    ensures a.operation == Create && TargetsPods(a) && a.obj.Pod? ==>
      r.obj.Pod? && AllAlways(r.obj.spec.containers)
      && IsPullAlwaysRewrite(a.obj.spec.containers, r.obj.spec.containers)
    ensures a.operation == Create ==> AdmitSpec(a, r)
  {
    if !TargetsPods(a) then
      Response(Allowed, a.obj)
    else
      match a.obj
      case Pod(spec) =>
        ForceAlwaysIsRewrite(spec.containers);
        Response(Allowed, Pod(spec.(containers := ForceAlways(spec.containers))))
      case Other(_) =>
        Response(Denied(UnexpectedObjectType), a.obj)
  }

  /** The rewrite is exhaustive: every container ends up at `Always`, whatever
      it started with, and keeps its name and image. */
  lemma {:induction false} ForceAlwaysIsRewrite(cs: seq<Container>)
    ensures IsPullAlwaysRewrite(cs, ForceAlways(cs))
    ensures AllAlways(ForceAlways(cs))
  {
    if cs != [] {
      ForceAlwaysIsRewrite(cs[1..]);
      var r := ForceAlways(cs);
      assert r == [cs[0].(imagePullPolicy := Always)] + ForceAlways(cs[1..]);
      forall i | 0 <= i < |cs|
        ensures r[i] == cs[i].(imagePullPolicy := Always)
      {
        if i > 0 {
          assert r[i] == ForceAlways(cs[1..])[i - 1];
        }
      }
    }
  }

  /** The reference definition pins the rewrite down: `ForceAlways` is the one
      and only sequence that meets it. */
  lemma RewriteIsUnique(cs: seq<Container>, r: seq<Container>)
    ensures IsPullAlwaysRewrite(cs, r) <==> r == ForceAlways(cs)
  {
    ForceAlwaysIsRewrite(cs);
    if IsPullAlwaysRewrite(cs, r) {
      var f := ForceAlways(cs);
      assert forall i :: 0 <= i < |r| ==> r[i] == f[i];
    }
  }

  /** A pod's containers are left exactly as they were iff they already all
      pull always. */
  lemma {:induction false} ForceAlwaysFixedIffAllAlways(cs: seq<Container>)
    ensures ForceAlways(cs) == cs <==> AllAlways(cs)
  {
    ForceAlwaysIsRewrite(cs);
    if AllAlways(cs) {
      assert forall i :: 0 <= i < |cs| ==> cs[i].(imagePullPolicy := Always) == cs[i];
      RewriteIsUnique(cs, cs);
    }
  }

  /** Rewriting twice is rewriting once. */
  lemma {:induction false} ForceAlwaysIdempotent(cs: seq<Container>)
    ensures ForceAlways(ForceAlways(cs)) == ForceAlways(cs)
  {
    ForceAlwaysIsRewrite(cs);
    ForceAlwaysFixedIffAllAlways(ForceAlways(cs));
  }

  /** A Create request for the primary pod resource with a pod object is
      admitted, and afterwards every container pulls always. */
  lemma AdmitPodCreate(a: Attributes)
    requires a.operation == Create && a.resource == PodsResource && a.subresource == ""
    requires a.obj.Pod?
    ensures Admit(a).status == Allowed
    ensures Admit(a).obj.Pod?
    ensures AllAlways(Admit(a).obj.spec.containers)
    ensures |Admit(a).obj.spec.containers| == |a.obj.spec.containers|
    ensures forall i :: 0 <= i < |a.obj.spec.containers| ==>
      Admit(a).obj.spec.containers[i].name == a.obj.spec.containers[i].name
      && Admit(a).obj.spec.containers[i].image == a.obj.spec.containers[i].image
  {
  }

  /** A request for any resource other than pods is admitted and its object,
      pod or not, is untouched. */
  lemma AdmitIgnoresOtherResource(a: Attributes)
    requires a.operation == Create && a.resource != PodsResource
    ensures Admit(a) == Response(Allowed, a.obj)
  {
  }

  /** A request for a pod subresource is admitted and its object is
      untouched, even when that object is a pod. */
  lemma AdmitIgnoresSubresource(a: Attributes)
    requires a.operation == Create && a.subresource != ""
    ensures Admit(a) == Response(Allowed, a.obj)
  {
  }

  /** A request for the primary pod resource whose object is not a pod is
      refused, and the object is untouched. */
  lemma AdmitRejectsNonPodObject(a: Attributes)
    requires a.operation == Create && TargetsPods(a)
    requires !a.obj.Pod?
    ensures Admit(a) == Response(Denied(UnexpectedObjectType), a.obj)
  {
  }

  /** The kind string the request claims plays no part: the decision to act
      rests on resource and subresource, the error on the object itself. */
  lemma AdmitIgnoresKind(a: Attributes, kind: string)
    requires a.operation == Create
    ensures Admit(a.(kind := kind)) == Admit(a)
  {
  }

  /** A pod whose containers already all pull always comes back unchanged. */
  lemma AdmitAlreadyAlwaysUnchanged(a: Attributes)
    requires a.operation == Create && a.obj.Pod?
    requires AllAlways(a.obj.spec.containers)
    ensures Admit(a) == Response(Allowed, a.obj)
  {
    ForceAlwaysFixedIffAllAlways(a.obj.spec.containers);
  }

  /** Admitting the object the gate returned gives the same response again. */
  lemma AdmitIdempotent(a: Attributes)
    requires a.operation == Create
    ensures Admit(a.(obj := Admit(a).obj)) == Admit(a)
  {
    if TargetsPods(a) && a.obj.Pod? {
      ForceAlwaysIdempotent(a.obj.spec.containers);
    }
  }

  /** `AdmitSpec` determines the response completely: `Admit` is the only
      response to a Create request that meets it. */
  lemma AdmitSpecUnique(a: Attributes, r: Response)
    requires a.operation == Create
    ensures AdmitSpec(a, r) <==> r == Admit(a)
  {
    if AdmitSpec(a, r) && TargetsPods(a) && a.obj.Pod? {
      RewriteIsUnique(a.obj.spec.containers, r.obj.spec.containers);
    }
  }

  /** The rewrite as the in-place loop over a pod's containers: each entry in
      turn has its pull policy overwritten with `Always`. */
  method RewriteContainers(cs: seq<Container>) returns (r: seq<Container>)
    ensures IsPullAlwaysRewrite(cs, r)
    ensures r == ForceAlways(cs)
  {
    r := cs;
    var i := 0;
    while i < |r|
      invariant 0 <= i <= |r| == |cs|
      invariant forall j :: 0 <= j < i ==> r[j] == cs[j].(imagePullPolicy := Always)
      invariant forall j :: i <= j < |r| ==> r[j] == cs[j]
    {
      r := r[i := r[i].(imagePullPolicy := Always)];
      i := i + 1;
    }
    RewriteIsUnique(cs, r);
  }

  /** The check a caller makes after admission: walk the containers and report
      whether every one pulls always. */
  method CheckAllAlways(cs: seq<Container>) returns (ok: bool)
    ensures ok <==> AllAlways(cs)
  {
    var i := 0;
    while i < |cs|
      invariant 0 <= i <= |cs|
      invariant forall j :: 0 <= j < i ==> cs[j].imagePullPolicy == Always
    {
      if cs[i].imagePullPolicy != Always {
        return false;
      }
      i := i + 1;
    }
    return true;
  }
}
