/** The slice of the cluster object model that the always-pull-images gate
    inspects: pods, their containers and those containers' image pull policy.
    Object metadata (name, namespace) is carried by the real objects but never
    influences the gate, so it is not part of this model. */
module Api {

  /** How a container runtime fetches a container's image. `Unset` is the empty
      policy a client may submit when it leaves the field out. */
  datatype PullPolicy = Unset | Always | IfNotPresent | Never

  datatype Container = Container(name: string, image: string, imagePullPolicy: PullPolicy)

  datatype PodSpec = PodSpec(containers: seq<Container>)

  /** The polymorphic payload of an admission request: either a pod, or an
      object of some other type (a service, say), named by its type. */
  datatype Object = Pod(spec: PodSpec) | Other(typeName: string)

  /** True iff every container in `cs` re-pulls its image on every start. */
  predicate AllAlways(cs: seq<Container>)
  {
    forall i :: 0 <= i < |cs| ==> cs[i].imagePullPolicy == Always
  }
}
