/** The concrete scenarios of the plugin's test suite, stated as lemmas about
    the model: a four-container pod created through the pod resource, and a
    one-container pod seen through another resource, through a subresource,
    and a service sent to the pod resource. */
module AlwaysPullImagesTests {
  import opened Api
  import opened Admission
  import opened AlwaysPullImages

  /** The pod of the creation scenario: one container with no policy and one
      with each explicit policy. */
  function MixedPolicyPod(): (p: Object)
    ensures p.Pod? && |p.spec.containers| == 4
    ensures !AllAlways(p.spec.containers)
  {
    var p := Pod(PodSpec([
      Container("ctr1", "image", Unset),
      Container("ctr2", "image", Never),
      Container("ctr3", "image", IfNotPresent),
      Container("ctr4", "image", Always)]));
    assert p.spec.containers[0].imagePullPolicy != Always;
    p
  }

  /** The pod of the no-op scenarios: a single container that never pulls. */
  function NeverPullPod(): (p: Object)
    ensures p.Pod? && |p.spec.containers| == 1
    ensures p.spec.containers[0].imagePullPolicy == Never
  {
    Pod(PodSpec([Container("ctr2", "image", Never)]))
  }

  /** Creating the mixed pod is admitted and leaves all four containers at
      `Always`, in their original order and with their names. */
  lemma CreateMixedPodPullsAlways()
    ensures Admit(Attributes(MixedPolicyPod(), "Pod", "pods", "", Create))
      == Response(Allowed, Pod(PodSpec([
           Container("ctr1", "image", Always),
           Container("ctr2", "image", Always),
           Container("ctr3", "image", Always),
           Container("ctr4", "image", Always)])))
  {
    var a := Attributes(MixedPolicyPod(), "Pod", "pods", "", Create);
    AdmitPodCreate(a);
    RewriteIsUnique(a.obj.spec.containers, Admit(a).obj.spec.containers);
  }

  /** Kind "Foo", resource "foos": admitted, the container still never pulls. */
  lemma OtherResourceLeavesPolicy()
    ensures Admit(Attributes(NeverPullPod(), "Foo", "foos", "", Create))
      == Response(Allowed, NeverPullPod())
  {
    AdmitIgnoresOtherResource(Attributes(NeverPullPod(), "Foo", "foos", "", Create));
  }

  /** The "exec" subresource of pods: admitted, the container still never
      pulls. */
  lemma ExecSubresourceLeavesPolicy()
    ensures Admit(Attributes(NeverPullPod(), "Pod", "pods", "exec", Create))
      == Response(Allowed, NeverPullPod())
  {
    AdmitIgnoresSubresource(Attributes(NeverPullPod(), "Pod", "pods", "exec", Create));
  }

  /** A service sent to the pod resource under kind "Pod" is refused. */
  lemma ServiceAsPodIsRefused()
    ensures Admit(Attributes(Other("Service"), "Pod", "pods", "", Create)).status
      == Denied(UnexpectedObjectType)
  {
    AdmitRejectsNonPodObject(Attributes(Other("Service"), "Pod", "pods", "", Create));
  }
}
